/** Validity: what the application has judged invalid is never held by a node that
    judges it, and never committed past an honest node that does. A proposer does not
    judge what it builds itself. */
module Validity {
  import opened Types
  import opened Quorum
  import opened Proposals
  import opened NodeState
  import opened Protocol
  import opened Invariant
  import opened Soundness
  import opened RoundLoop
  import opened LoopInvariant
  import opened Refinement
  import opened Simulation

  /** Whatever a node takes from another, in whatever round, the application has
      found valid. */
  lemma TakenIsValid(P: Params, sent: set<Message>, id: Address, m: Message, view: View)
    requires ProposalFor(P, sent, id, m, view)
    ensures ExtractProposal(m).Some? && P.b.validRaw(ExtractProposal(m).value.raw)
    ensures m.from == P.b.proposer(view) && id != m.from
  {
    assert ValidProposalCommon(P.b, m, view);
  }

  // ---------- what every step keeps ----------

  ghost predicate HeldIsValid(P: Params, n: Address, st: State) {
    st.proposalMessage.Some? && !P.b.IsProposer(n, st.view) ==> P.b.validRaw(st.RawData())
  }

  ghost predicate InsertedIsValid(P: Params, n: Address, block: Block) {
    !P.b.IsProposer(n, P.ViewAt(block.round)) ==> P.b.validRaw(block.raw)
  }

  /** A COMMIT of a node that is not the proposer is for valid data. */
  ghost predicate CommitIsValid(P: Params, m: Message) {
    m.kind == COMMIT && m.view.height == P.height && !P.b.IsProposer(m.from, m.view) ==>
      exists raw :: P.b.validRaw(raw) && P.HashFor(m.view.round, raw, ExtractCommitHash(m))
  }

  ghost predicate AllValid(P: Params, g: Global) {
    && (forall n :: n in g.nodes ==> HeldIsValid(P, n, g.nodes[n]))
    && (forall n :: n in g.inserted ==> InsertedIsValid(P, n, g.inserted[n]))
    && (forall m :: m in g.sent ==> CommitIsValid(P, m))
  }

  lemma HeldStaysValid(P: Params, sent: set<Message>, n: Address, st: State, a: Action)
    requires !a.OtherHeights? && a.node == n && NodeEnabled(P, sent, st, a) && HeldIsValid(P, n, st)
    ensures HeldIsValid(P, n, NodeNext(P, st, a))
  {
    if a.AcceptProposal? || a.JumpToProposal? {
      TakenIsValid(P, sent, n, a.proposal, NodeNext(P, st, a).view);
    }
    hide ProposalFor, UsableCertificate, ProposedMessage, PreparesFor, CommitsFor;
  }

  lemma NewCommitIsValid(P: Params, g: Global, a: Action)
    requires Sound(P, g) && Enabled(P, g, a) && !a.OtherHeights? && HeldIsValid(P, a.node, g.nodes[a.node])
    ensures var out := Multicast(P, g.nodes[a.node], a); out.Some? ==> CommitIsValid(P, out.value)
  {
    hide ProposalFor, UsableCertificate, CommitsFor, FinalOk, LockOk;
    var st := g.nodes[a.node];
    assert NodeSound(P, g, a.node);
    if a.PrepareQuorum? {
      assert P.HashFor(st.view.round, st.RawData(), st.GetProposalHash());
    }
  }

  lemma NewBlockIsValid(P: Params, g: Global, n: Address)
    requires Sound(P, g) && n in g.nodes && g.nodes[n].name == Fin && HeldIsValid(P, n, g.nodes[n])
    ensures InsertedIsValid(P, n, Block(g.nodes[n].RawData(), g.nodes[n].view.round, g.nodes[n].seals))
  {
    assert NodeSound(P, g, n);
    assert P.ViewAt(g.nodes[n].view.round) == g.nodes[n].view;
  }

  lemma AllValidKept(P: Params, g: Global, a: Action)
    requires Sound(P, g) && AllValid(P, g) && Enabled(P, g, a)
    ensures AllValid(P, Next(P, g, a))
  {
    hide Sound, HeldIsValid, InsertedIsValid;
    if a.OtherHeights? {
      OthersNotCommits(P, g, a);
    } else {
      HeldStaysValid(P, g.sent, a.node, g.nodes[a.node], a);
      NewCommitIsValid(P, g, a);
      if a.InsertBlock? {
        NewBlockIsValid(P, g, a.node);
      }
    }
    hide NodeNext, Multicast, CommitIsValid, NodeEnabled;
  }

  lemma OthersNotCommits(P: Params, g: Global, a: Action)
    requires Enabled(P, g, a) && a.OtherHeights?
    ensures forall m :: m in a.messages ==> CommitIsValid(P, m)
  {
  }

  lemma {:induction false} RunValid(P: Params, gs: seq<Global>, cs: seq<Action>, i: nat)
    requires P.b.CollisionFree() && Run(P, gs, cs) && i < |gs|
    ensures AllValid(P, gs[i])
  {
    hide Next, Enabled, Sound, AllValid;
    if i == 0 {
      InitValid(P, gs[0]);
    } else {
      RunValid(P, gs, cs, i - 1);
      RunSound(P, gs, cs, i - 1);
      AllValidKept(P, gs[i - 1], cs[i - 1]);
    }
  }

  lemma InitValid(P: Params, g: Global)
    requires Init(P, g)
    ensures AllValid(P, g)
  {
  }

  // ---------- every run of the system ----------

  lemma ReachedValid(P: Params, states: seq<System>, steps: seq<SystemAction>, i: nat) returns (g: Global)
    requires P.b.CollisionFree() && SystemRun(P, states, steps) && i < |states|
    ensures Simulates(states[i], g) && AllValid(P, g) && SystemInv(P, states[i])
  {
    var gs, cs := SystemRefinesProtocol(P, states, steps, i);
    g := gs[|cs|];
    RunValid(P, gs, cs, |cs|);
  }

  lemma HeldInLoop(P: Params, sent: set<Message>, n: Address, f: Loop)
    requires LoopInv(P, sent, n, f) && HeldIsValid(P, n, AbsState(f))
    ensures HeldIsValid(P, n, f.st)
  {
    hide EventOk, BarrierOk, RoutineOk, ProposedMessage;
    if f.WorkerPc().Preparing? {
      TakenIsValid(P, sent, n, f.WorkerPc().proposal, f.st.view);
    }
  }

  /** In every run, whoever is faulty and wherever nodes move, a proposal that a node
      holds and has not made itself carries valid data, in round 0 as in any other. */
  lemma HeldProposalsValidTheorem(P: Params, states: seq<System>, steps: seq<SystemAction>, i: nat, n: Address)
    requires P.b.CollisionFree() && SystemRun(P, states, steps) && i < |states| && n in states[i].nodes
    requires var st := states[i].nodes[n].st; st.proposalMessage.Some? && !P.b.IsProposer(n, st.view)
    ensures P.b.validRaw(states[i].nodes[n].st.RawData())
  {
    hide SystemRun, LoopInv;
    var g := ReachedValid(P, states, steps, i);
    assert HeldIsValid(P, n, g.nodes[n]);
    HeldInLoop(P, states[i].sent, n, states[i].nodes[n]);
  }

  /** Data for which a quorum has sent COMMIT was found valid by an honest node, if the
      proposer of the round does not reach quorum with the faulty validators. */
  lemma CommittedIsValidTheorem(P: Params, states: seq<System>, steps: seq<SystemAction>, i: nat, round: nat,
                                raw: Bytes)
      returns (judged: Bytes)
    requires P.b.CollisionFree() && NonNegative(P.b.powers) && SystemRun(P, states, steps) && i < |states|
    requires Committed(P, states[i].sent, round, raw)
    requires !IsQuorum(P.b.powers, P.byzantine + {P.b.proposer(P.ViewAt(round))})
    ensures P.b.validRaw(judged) && judged.Content() == raw.Content()
  {
    hide SystemRun, SystemInv, HeldIsValid, InsertedIsValid, IsQuorum;
    var g := ReachedValid(P, states, steps, i);
    var senders :| CommittedBy(P, states[i].sent, round, raw, senders);
    var a := HonestJudge(P, senders, P.ViewAt(round));
    assert CommitFrom(P, g.sent, a, round, raw);
    var m :| m in g.sent && m.from == a && m.view == P.ViewAt(round) && m.kind == COMMIT
             && P.HashFor(round, raw, ExtractCommitHash(m));
    assert CommitIsValid(P, m);
    judged :| P.b.validRaw(judged) && P.HashFor(round, judged, ExtractCommitHash(m));
  }

  lemma HonestJudge(P: Params, s: set<Address>, view: View) returns (a: Address)
    requires NonNegative(P.b.powers) && IsQuorum(P.b.powers, s)
    requires !IsQuorum(P.b.powers, P.byzantine + {P.b.proposer(view)})
    ensures a in s && a !in P.byzantine && !P.b.IsProposer(a, view)
  {
    a := HeavierHasMember(P.b.powers, s, P.byzantine + {P.b.proposer(view)});
  }

  /** A node inserts no data it would refuse, except its own; and even its own only if
      some honest node has found it valid, under the same bound. */
  lemma InsertedIsValidTheorem(P: Params, states: seq<System>, steps: seq<SystemAction>, i: nat, n: Address)
      returns (judged: Bytes)
    requires P.b.CollisionFree() && NonNegative(P.b.powers) && SystemRun(P, states, steps) && i < |states|
    requires n in states[i].inserted
    ensures var block := states[i].inserted[n]; var proposer := P.b.proposer(P.ViewAt(block.round));
            && (n != proposer ==> judged == block.raw && P.b.validRaw(judged))
            && (!IsQuorum(P.b.powers, P.byzantine + {proposer}) ==>
                  P.b.validRaw(judged) && judged.Content() == block.raw.Content())
  {
    hide SystemRun, SystemInv, HeldIsValid, CommitIsValid, IsQuorum, Committed, SealedBy;
    var block := states[i].inserted[n];
    judged := block.raw;
    if n != P.b.proposer(P.ViewAt(block.round)) {
      var g := ReachedValid(P, states, steps, i);
      assert InsertedIsValid(P, n, g.inserted[n]);
    } else if !IsQuorum(P.b.powers, P.byzantine + {n}) {
      var g := ReachedSound(P, states, steps, i);
      assert Committed(P, states[i].sent, block.round, block.raw) by {
        assert NodeSound(P, g, n);
      }
      judged := CommittedIsValidTheorem(P, states, steps, i, block.round, block.raw);
    }
  }
}
