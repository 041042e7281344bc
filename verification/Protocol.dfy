/** The protocol of core/ibft.go as a step system: every honest node acts on
    its own state and on any messages that could be presented to it. */
module Protocol {
  import opened Types
  import opened Quorum
  import opened Proposals
  import opened NodeState

  // ---------- who takes part ----------

  /** One sequence: the honest nodes run it once, at one height. */
  datatype Params = Params(b: Backend, byzantine: set<Address>, nodes: set<Address>, height: nat)
  {
    function ViewAt(round: nat): View {
      View(height, round)
    }

    /** The assumptions on the application, and less than a third of the power is faulty. */
    ghost predicate FewFaulty() {
      && b.CollisionFree()
      && NonNegative(b.powers)
      && nodes !! byzantine && nodes <= b.powers.Keys
      && 3 * PowerOf(b.powers, byzantine) < TotalPower(b.powers)
    }

    /** Moreover no proposer of a round above 0 reaches quorum with the faulty
        validators alone, because it does not judge its own proposal. */
    ghost predicate WellFormed() {
      FewFaulty() && forall r: nat :: r > 0 ==> !IsQuorum(b.powers, byzantine + {b.proposer(ViewAt(r))})
    }

    /** `hash` is the hash of this data in this round. */
    predicate HashFor(round: nat, raw: Bytes, hash: Bytes) {
      hash.Content() == b.hash(raw.Content(), round)
    }
  }

  datatype Block = Block(raw: Bytes, round: nat, seals: seq<Option<CommittedSeal>>)

  /** `sent` holds what honest nodes have signed so far. `accepted` records, for
      the statements below, the data each node accepted in each round. */
  datatype Global = Global(
    nodes: map<Address, State>,
    sent: set<Message>,
    accepted: map<(Address, nat), Bytes>,
    inserted: map<Address, Block>)

  // ---------- signatures ----------

  /** A valid signature of an honest validator was really made. */
  ghost predicate Signed(P: Params, sent: set<Message>, m: Message) {
    P.b.validSender(m) && m.from !in P.byzantine ==> m in sent
  }

  ghost predicate KnownPC(P: Params, sent: set<Message>, pc: PreparedCertificate) {
    && (pc.proposalMessage.Some? ==> Signed(P, sent, pc.proposalMessage.value))
    && (pc.prepareMessages.Some? ==>
          forall i :: 0 <= i < |pc.prepareMessages.value| ==> Signed(P, sent, pc.prepareMessages.value[i]))
  }

  ghost predicate KnownRoundChange(P: Params, sent: set<Message>, m: Message) {
    Signed(P, sent, m) && (ExtractLatestPC(m).Some? ==> KnownPC(P, sent, ExtractLatestPC(m).value))
  }

  /** A message that somebody could present: the signatures that are looked at,
      in it and in the certificates it carries, are not forged. Faulty
      validators may otherwise compose it as they like. */
  ghost predicate Known(P: Params, sent: set<Message>, m: Message) {
    && KnownRoundChange(P, sent, m)
    && (ExtractRoundChangeCertificate(m).Some? ==>
          var rcs := ExtractRoundChangeCertificate(m).value.roundChangeMessages;
          forall i :: 0 <= i < |rcs| ==> KnownRoundChange(P, sent, rcs[i]))
  }

  // ---------- messages ----------

  function BuildPrepareMessage(id: Address, hash: Bytes, view: View, signature: Bytes): Message {
    Message(view, id, signature, PREPARE, PrepareData(hash))
  }

  function BuildCommitMessage(id: Address, hash: Bytes, view: View, seal: Bytes, signature: Bytes): Message {
    Message(view, id, signature, COMMIT, CommitData(hash, seal))
  }

  function BuildRoundChangeMessage(id: Address, proposal: Option<Proposal>, pc: Option<PreparedCertificate>,
                                   view: View, signature: Bytes): Message {
    Message(view, id, signature, ROUND_CHANGE, RoundChangeData(proposal, pc))
  }

  /** What is put into a message is read back from it. */
  lemma BuiltMessagesReadBack(b: Backend, id: Address, raw: Bytes, hash: Bytes, seal: Bytes, proposal: Option<Proposal>,
                              pc: Option<PreparedCertificate>, rcc: Option<RoundChangeCertificate>, view: View,
                              s: Bytes)
    ensures var m := BuildPrePrepareMessage(b, id, raw, rcc, view, s);
            && m.view == view && m.from == id && m.signature == s && m.kind == PREPREPARE
            && ExtractProposal(m) == Some(Proposal(raw, view.round)) && ExtractRoundChangeCertificate(m) == rcc
            && ExtractProposalHash(m).Content() == b.hash(raw.Content(), view.round)
    ensures var m := BuildPrepareMessage(id, hash, view, s);
            m.view == view && m.from == id && m.signature == s && m.kind == PREPARE && ExtractPrepareHash(m) == hash
    ensures var m := BuildCommitMessage(id, hash, view, seal, s);
            && m.view == view && m.from == id && m.signature == s && m.kind == COMMIT && ExtractCommitHash(m) == hash
            && ExtractCommittedSeal(m) == Some(CommittedSeal(id, seal))
    ensures var m := BuildRoundChangeMessage(id, proposal, pc, view, s);
            && m.view == view && m.from == id && m.signature == s && m.kind == ROUND_CHANGE
            && ExtractLastPreparedProposal(m) == proposal && ExtractLatestPC(m) == pc
  {
  }

  /** What GetValidMessages can hand out for a view and a type: messages of
      valid senders, stored under their own view and type, one per sender. */
  ghost predicate Fetched(P: Params, sent: set<Message>, msgs: seq<Message>, view: View, kind: MessageType) {
    && (forall i :: 0 <= i < |msgs| ==>
          msgs[i].view == view && msgs[i].kind == kind && P.b.validSender(msgs[i]) && Known(P, sent, msgs[i]))
    && DistinctSenders(msgs)
  }

  // ---------- what a node waits for ----------

  /** A proposal that handlePrePrepare returns for the view. */
  ghost predicate ProposalFor(P: Params, sent: set<Message>, id: Address, m: Message, view: View) {
    Fetched(P, sent, [m], view, PREPREPARE) && ValidPrePrepare(P.b, id, m, view)
  }

  /** PREPAREs on which handlePrepare goes on to commit. */
  ghost predicate PreparesFor(P: Params, sent: set<Message>, st: State, prepares: seq<Message>) {
    && Fetched(P, sent, prepares, st.view, PREPARE)
    && (forall i :: 0 <= i < |prepares| ==> P.b.IsValidProposalHash(st.GetProposal(), ExtractPrepareHash(prepares[i])))
    && st.proposalMessage.Some?
    && var proposer := st.proposalMessage.value.from;
    && proposer !in Senders(prepares)
    && IsQuorum(P.b.powers, {proposer} + Senders(prepares))
  }

  /** COMMITs on which handleCommit goes on to insert. */
  ghost predicate CommitsFor(P: Params, sent: set<Message>, st: State, commits: seq<Message>) {
    && Fetched(P, sent, commits, st.view, COMMIT)
    && (forall i :: 0 <= i < |commits| ==>
          && P.b.IsValidProposalHash(st.GetProposal(), ExtractCommitHash(commits[i]))
          && P.b.validSeal(ExtractCommitHash(commits[i]).Content(), ExtractCommittedSeal(commits[i])))
    && IsQuorum(P.b.powers, Senders(commits))
  }

  function SealsOf(commits: seq<Message>): seq<Option<CommittedSeal>> {
    seq(|commits|, i requires 0 <= i < |commits| => ExtractCommittedSeal(commits[i]))
  }

  /** A certificate that handleRoundChangeMessage puts together: the usable
      messages of one positive round, from a quorum. */
  ghost predicate UsableCertificate(P: Params, sent: set<Message>, height: nat, rcs: seq<Message>) {
    && rcs != []
    && var view := rcs[0].view;
    && view.height == height && view.round > 0
    && Fetched(P, sent, rcs, view, ROUND_CHANGE)
    && (forall i :: 0 <= i < |rcs| ==> UsableRoundChange(P.b, rcs[i], view))
    && IsQuorum(P.b.powers, Senders(rcs))
  }

  /** It is refused for the node's own round once the node has a proposal. */
  ghost predicate RoundChangesFor(P: Params, sent: set<Message>, st: State, rcs: seq<Message>) {
    && UsableCertificate(P, sent, st.view.height, rcs)
    && (rcs[0].view.round == st.view.round ==> st.GetProposal().None?)
  }

  // ---------- steps ----------

  datatype Action =
    | Propose(node: Address, rcs: seq<Message>, newRaw: Bytes, signature: Bytes)
    | AcceptProposal(node: Address, proposal: Message, signature: Bytes)
    | PrepareQuorum(node: Address, prepares: seq<Message>, seal: Bytes, signature: Bytes)
    | CommitQuorum(node: Address, commits: seq<Message>)
    | RoundExpired(node: Address, signature: Bytes)
    | JumpToProposal(node: Address, proposal: Message, signature: Bytes)
    | JumpToCertificate(node: Address, rcs: seq<Message>)
    | InsertBlock(node: Address)
    | OtherHeights(messages: set<Message>)

  /** The data buildProposal proposes: fresh in round 0 or without any prepared
      data, otherwise what it chooses from the certificate. */
  ghost function ProposedRaw(round: nat, rcs: seq<Message>, newRaw: Bytes): Bytes
    requires round > 0 ==> AllReadable(rcs)
  {
    if round == 0 then newRaw else BuiltRaw(rcs, newRaw)
  }

  function ProposedRCC(round: nat, rcs: seq<Message>): Option<RoundChangeCertificate> {
    if round == 0 then None else Some(RoundChangeCertificate(rcs))
  }

  ghost function ProposedMessage(P: Params, view: View, a: Action): Message
    requires a.Propose? && (view.round > 0 ==> AllReadable(a.rcs))
  {
    BuildPrePrepareMessage(P.b, a.node, ProposedRaw(view.round, a.rcs, a.newRaw),
                           ProposedRCC(view.round, a.rcs), view, a.signature)
  }

  /** The message a step of a node multicasts, if any. On a future proposal the
      PREPARE still carries the view of the round that is left. */
  ghost function Multicast(P: Params, st: State, a: Action): (out: Option<Message>)
    requires a.Propose? && st.view.round > 0 ==> AllReadable(a.rcs)
    requires a.PrepareQuorum? ==> st.proposalMessage.Some?
  {
    match a
    case Propose(_, _, _, _) => Some(ProposedMessage(P, st.view, a))
    case AcceptProposal(id, m, s) => Some(BuildPrepareMessage(id, ExtractProposalHash(m), st.view, s))
    case PrepareQuorum(id, _, seal, s) => Some(BuildCommitMessage(id, st.GetProposalHash(), st.view, seal, s))
    case RoundExpired(id, s) =>
      Some(BuildRoundChangeMessage(id, st.latestPreparedProposal, st.latestPC,
                                   View(st.view.height, NextRound(st.view.round)), s))
    case JumpToProposal(id, m, s) => Some(BuildPrepareMessage(id, ExtractProposalHash(m), st.view, s))
    case _ => None
  }

  /** The guard under which a node takes the step. */
  ghost predicate NodeEnabled(P: Params, sent: set<Message>, st: State, a: Action)
    requires !a.OtherHeights?
  {
    && match a
       case Propose(id, rcs, _, _) =>
         && st.name == NewRound && st.proposalMessage.None? && P.b.IsProposer(id, st.view)
         && (st.view.round > 0 ==> RoundChangesFor(P, sent, st, rcs) && AllReadable(rcs))
       case AcceptProposal(id, m, _) =>
         st.name == NewRound && ProposalFor(P, sent, id, m, st.view)
       case PrepareQuorum(_, prepares, _, _) =>
         st.name == Prepare && PreparesFor(P, sent, st, prepares)
       case CommitQuorum(_, commits) =>
         st.name == Commit && CommitsFor(P, sent, st, commits)
       case RoundExpired(_, _) => true
       case JumpToProposal(id, m, _) =>
         && m.view.round >= NextRound(st.view.round)
         && ProposalFor(P, sent, id, m, View(st.view.height, m.view.round))
       case JumpToCertificate(_, rcs) => UsableCertificate(P, sent, st.view.height, rcs)
       case InsertBlock(_) => st.name == Fin
  }

  /** The state after the step. */
  ghost function NodeNext(P: Params, st: State, a: Action): State
    requires !a.OtherHeights?
    requires a.Propose? && st.view.round > 0 ==> AllReadable(a.rcs)
    requires a.JumpToCertificate? ==> a.rcs != []
    requires a.PrepareQuorum? ==> st.proposalMessage.Some?
  {
    match a
    case Propose(_, _, _, _) => st.Accept(ProposedMessage(P, st.view, a))
    case AcceptProposal(_, m, _) => st.Accept(m)
    case PrepareQuorum(_, prepares, _, _) => st.Lock(PreparedCertificate(st.proposalMessage, Some(prepares)))
    case CommitQuorum(_, commits) => st.Seal(SealsOf(commits))
    case RoundExpired(_, _) => st.MoveTo(NextRound(st.view.round))
    case JumpToProposal(_, m, _) => st.MoveTo(m.view.round).Accept(m)
    case JumpToCertificate(_, rcs) => st.MoveTo(rcs[0].view.round)
    case InsertBlock(_) => st
  }

  ghost predicate Enabled(P: Params, g: Global, a: Action) {
    if a.OtherHeights? then forall m :: m in a.messages ==> m.view.height != P.height
    else
      && a.node in g.nodes && a.node !in g.inserted
      && NodeEnabled(P, g.sent, g.nodes[a.node], a)
      && var out := Multicast(P, g.nodes[a.node], a); out.Some? ==> P.b.validSender(out.value)
  }

  /** The node accepts data in this step. */
  predicate Accepts(a: Action) {
    a.Propose? || a.AcceptProposal? || a.JumpToProposal?
  }

  ghost function Next(P: Params, g: Global, a: Action): Global
    requires Enabled(P, g, a)
  {
    if a.OtherHeights? then g.(sent := g.sent + a.messages) else
      var st := g.nodes[a.node];
      var st' := NodeNext(P, st, a);
      var out := Multicast(P, st, a);
      Global(
        g.nodes[a.node := st'],
        if out.Some? then g.sent + {out.value} else g.sent,
        if Accepts(a) then g.accepted[(a.node, st'.view.round) := st'.RawData()] else g.accepted,
        if a.InsertBlock? then g.inserted[a.node := Block(st.RawData(), st.view.round, st.seals)] else g.inserted)
  }

  /** The round a node moves to lies above the one it leaves. On a timeout or a
      future proposal it does unless the round number wraps around. The
      certificate of a higher round it is meant to be may be for any round. */
  ghost predicate MovesUp(g: Global, a: Action) {
    match a
    case RoundExpired(id, _) => id in g.nodes ==> NextRound(g.nodes[id].view.round) > g.nodes[id].view.round
    case JumpToProposal(id, m, _) => id in g.nodes ==> m.view.round > g.nodes[id].view.round
    case JumpToCertificate(id, rcs) => id in g.nodes && rcs != [] ==> rcs[0].view.round > g.nodes[id].view.round
    case _ => true
  }

  ghost predicate Init(P: Params, g: Global) {
    && g.nodes == (map n | n in P.nodes :: Initial(P.height))
    && (forall m :: m in g.sent ==> m.view.height != P.height)
    && g.accepted == map[] && g.inserted == map[]
  }

  /** A run, as its states and the steps between them. */
  ghost predicate Run(P: Params, states: seq<Global>, steps: seq<Action>) {
    && |states| == |steps| + 1
    && Init(P, states[0])
    && forall i :: 0 <= i < |steps| ==>
         Enabled(P, states[i], steps[i]) && states[i + 1] == Next(P, states[i], steps[i])
  }

  /** The step moves up, if it is this node's. */
  ghost predicate MovesUpAt(g: Global, a: Action, n: Address) {
    !a.OtherHeights? && a.node == n ==> MovesUp(g, a)
  }

  /** A run in which this node moves to higher rounds only. */
  ghost predicate UpwardAt(states: seq<Global>, steps: seq<Action>, n: Address) {
    |states| == |steps| + 1 && forall i :: 0 <= i < |steps| ==> MovesUpAt(states[i], steps[i], n)
  }

  /** A run in which no node moves to its own or a lower round. */
  ghost predicate Upward(states: seq<Global>, steps: seq<Action>) {
    |states| == |steps| + 1 && forall i :: 0 <= i < |steps| ==> MovesUp(states[i], steps[i])
  }
}
