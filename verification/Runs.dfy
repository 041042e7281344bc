/** Runs put together step by step: what the honest nodes of an example do, each time
    as a step of the protocol that the interleaved system can take. `d` counts the
    moves to a round that is not above the one left. */
module Runs {
  import opened Types
  import opened NodeState
  import opened Proposals
  import opened Protocol
  import opened RoundLoop
  import opened Realization

  /** Some run of the interleaved system comes to the protocol state. */
  ghost predicate Realized(P: Params, d: nat, g: Global) {
    exists s :: Realizes(P, d, s, g)
  }

  /** In the examples every message carries a valid signature. */
  ghost predicate AllSigned(P: Params) {
    forall m :: P.b.validSender(m)
  }

  lemma Start(P: Params) returns (g: Global)
    ensures Realized(P, 0, g) && g.sent == {} && g.inserted == map[]
    ensures g.nodes == (map n: Address | n in P.nodes :: Initial(P.height))
  {
    hide Realizes;
    g := Global(map n | n in P.nodes :: Initial(P.height), {}, map[], map[]);
    var s := InitRealized(P, g);
  }

  lemma Do(P: Params, d: nat, g: Global, c: Action) returns (g': Global)
    requires Realized(P, d, g) && Enabled(P, g, c) && !c.OtherHeights? && Unforced(P, g.nodes[c.node], c)
    ensures g' == Next(P, g, c) && Realized(P, Counted(d, MovesUp(g, c)), g')
  {
    hide Enabled, Next, Unforced, Realizes, MovesUp;
    var s :| Realizes(P, d, s, g);
    var s' := StepRealized(P, d, s, g, c);
    g' := Next(P, g, c);
  }

  lemma SystemOf(P: Params, d: nat, g: Global) returns (s: System)
    requires Realized(P, d, g)
    ensures Reachable(P, d, s) && s.inserted == g.inserted && s.sent == g.sent
  {
    s :| Realizes(P, d, s, g);
  }

  /** Only the node has moved, to the given state, having sent the message. */
  ghost predicate Acted(P: Params, d: nat, g: Global, g': Global, n: Address, st: State, out: Option<Message>) {
    && Realized(P, d, g') && n in g.nodes && g'.nodes == g.nodes[n := st]
    && g'.sent == (match out case Some(m) => g.sent + {m} case None => g.sent)
    && g'.inserted == g.inserted
  }

  predicate Active(g: Global, n: Address) {
    n in g.nodes && n !in g.inserted
  }

  /** The node does not wait for a proposal of its own in round 0. */
  predicate MayLeave(P: Params, n: Address, st: State) {
    st.view.round == 0 && st.name == NewRound ==> !P.b.IsProposer(n, st.view)
  }

  function RoundChangeOf(n: Address, st: State): Message {
    BuildRoundChangeMessage(n, st.latestPreparedProposal, st.latestPC, View(st.view.height, NextRound(st.view.round)),
                            Nil)
  }

  lemma Expires(P: Params, d: nat, g: Global, n: Address) returns (g': Global)
    requires AllSigned(P) && Realized(P, d, g) && Active(g, n) && MayLeave(P, n, g.nodes[n])
    requires NextRound(g.nodes[n].view.round) > g.nodes[n].view.round
    ensures Acted(P, d, g, g', n, g.nodes[n].MoveTo(NextRound(g.nodes[n].view.round)),
                  Some(RoundChangeOf(n, g.nodes[n])))
  {
    hide Realized;
    g' := Do(P, d, g, RoundExpired(n, Nil));
  }

  lemma Jumps(P: Params, d: nat, g: Global, n: Address, rcs: seq<Message>) returns (g': Global)
    requires Realized(P, d, g) && Active(g, n) && UsableCertificate(P, g.sent, g.nodes[n].view.height, rcs)
    requires g.nodes[n].proposalMessage == None && MayLeave(P, n, g.nodes[n])
    ensures Acted(P, Counted(d, rcs[0].view.round > g.nodes[n].view.round), g, g', n,
                  g.nodes[n].MoveTo(rcs[0].view.round), None)
  {
    hide Realized;
    g' := Do(P, d, g, JumpToCertificate(n, rcs));
  }

  lemma JumpsOnProposal(P: Params, d: nat, g: Global, n: Address, m: Message) returns (g': Global)
    requires AllSigned(P) && Realized(P, d, g) && Active(g, n) && MayLeave(P, n, g.nodes[n])
    requires m.view.round > g.nodes[n].view.round && m.view.round >= NextRound(g.nodes[n].view.round)
    requires ProposalFor(P, g.sent, n, m, View(g.nodes[n].view.height, m.view.round))
    ensures Acted(P, d, g, g', n, g.nodes[n].MoveTo(m.view.round).Accept(m),
                  Some(BuildPrepareMessage(n, ExtractProposalHash(m), g.nodes[n].view, Nil)))
  {
    hide Realized, ProposalFor;
    g' := Do(P, d, g, JumpToProposal(n, m, Nil));
  }

  lemma SendsProposal(P: Params, d: nat, g: Global, n: Address, rcs: seq<Message>, newRaw: Bytes) returns (g': Global)
    requires AllSigned(P) && Realized(P, d, g) && Active(g, n)
    requires g.nodes[n].name == NewRound && g.nodes[n].proposalMessage == None
    requires P.b.IsProposer(n, g.nodes[n].view) && g.nodes[n].view.round > 0
    requires UsableCertificate(P, g.sent, g.nodes[n].view.height, rcs) && AllReadable(rcs)
    ensures var m := ProposedMessage(P, g.nodes[n].view, Propose(n, rcs, newRaw, Nil));
            Acted(P, d, g, g', n, g.nodes[n].Accept(m), Some(m))
  {
    hide Realized, UsableCertificate, ProposedMessage;
    g' := Do(P, d, g, Propose(n, rcs, newRaw, Nil));
  }

  lemma TakesProposal(P: Params, d: nat, g: Global, n: Address, m: Message) returns (g': Global)
    requires AllSigned(P) && Realized(P, d, g) && Active(g, n) && g.nodes[n].name == NewRound
    requires ProposalFor(P, g.sent, n, m, g.nodes[n].view)
    ensures Acted(P, d, g, g', n, g.nodes[n].Accept(m),
                  Some(BuildPrepareMessage(n, ExtractProposalHash(m), g.nodes[n].view, Nil)))
  {
    hide Realized, ProposalFor;
    g' := Do(P, d, g, AcceptProposal(n, m, Nil));
  }

  lemma Prepares(P: Params, d: nat, g: Global, n: Address, prepares: seq<Message>) returns (g': Global)
    requires AllSigned(P) && Realized(P, d, g) && Active(g, n)
    requires g.nodes[n].name == Prepare && g.nodes[n].proposalMessage.Some?
    requires PreparesFor(P, g.sent, g.nodes[n], prepares)
    ensures var st := g.nodes[n];
            Acted(P, d, g, g', n, st.Lock(PreparedCertificate(st.proposalMessage, Some(prepares))),
                  Some(BuildCommitMessage(n, st.GetProposalHash(), st.view, Nil, Nil)))
  {
    hide Realized, PreparesFor;
    g' := Do(P, d, g, PrepareQuorum(n, prepares, Nil, Nil));
  }

  lemma Seals(P: Params, d: nat, g: Global, n: Address, commits: seq<Message>) returns (g': Global)
    requires Realized(P, d, g) && Active(g, n)
    requires g.nodes[n].name == Commit && CommitsFor(P, g.sent, g.nodes[n], commits)
    ensures Acted(P, d, g, g', n, g.nodes[n].Seal(SealsOf(commits)), None)
  {
    hide Realized, CommitsFor;
    g' := Do(P, d, g, CommitQuorum(n, commits));
  }

  lemma Finishes(P: Params, d: nat, g: Global, n: Address, commits: seq<Message>) returns (g': Global)
    requires Realized(P, d, g) && Active(g, n)
    requires g.nodes[n].name == Commit && CommitsFor(P, g.sent, g.nodes[n], commits)
    ensures Realized(P, d, g') && g'.nodes == g.nodes[n := g.nodes[n].Seal(SealsOf(commits))] && g'.sent == g.sent
    ensures g'.inserted.Keys == g.inserted.Keys + {n} && g'.inserted[n].raw == g.nodes[n].RawData()
    ensures forall k :: k in g.inserted ==> g'.inserted[k] == g.inserted[k]
  {
    hide Realized, CommitsFor;
    g' := Seals(P, d, g, n, commits);
    g' := Do(P, d, g', InsertBlock(n));
  }
}
