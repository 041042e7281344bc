/** How many PREPAREs a node sends for one view. Leaving a round for a future
    proposal it sends one more for the old view, with the hash of the later round;
    it leaves each round once, so a view has at most one hash for its own round and
    at most one stray hash. */
module Prepares {
  import opened Types
  import opened NodeState
  import opened Protocol
  import opened Invariant
  import opened Soundness
  import opened Agreement
  import opened RoundLoop
  import opened Simulation
  import opened Theorems
  import opened Realization
  import opened Runs
  import opened FourValidators

  /** The hash of the PREPARE is the hash of some data in the round of its view. */
  ghost predicate ForItsRound(P: Params, m: Message) {
    exists raw :: P.HashFor(m.view.round, raw, ExtractPrepareHash(m))
  }

  ghost predicate Stray(P: Params, sent: set<Message>, n: Address, m: Message) {
    From(P, sent, n, m) && m.kind == PREPARE && !ForItsRound(P, m)
  }

  /** Strays are for rounds below the given one, and there is one hash for each. */
  ghost predicate StraysOk(P: Params, sent: set<Message>, n: Address, round: nat) {
    && (forall m :: Stray(P, sent, n, m) ==> m.view.round < round)
    && (forall m, m' :: Stray(P, sent, n, m) && Stray(P, sent, n, m') && m.view.round == m'.view.round ==>
          Equal(ExtractPrepareHash(m), ExtractPrepareHash(m')))
  }

  /** One more stray, for the round the node leaves. */
  lemma StraysExtended(P: Params, sent: set<Message>, sent': set<Message>, n: Address, round: nat, round': nat,
                       out: Option<Message>)
    requires StraysOk(P, sent, n, round) && round <= round'
    requires forall m :: From(P, sent', n, m) ==> From(P, sent, n, m) || out == Some(m)
    requires out.Some? && out.value.kind == PREPARE ==>
               out.value.view.round == round && (ForItsRound(P, out.value) || round < round')
    ensures StraysOk(P, sent', n, round')
  {
    hide ForItsRound, From;
    assert forall m :: Stray(P, sent', n, m) ==> Stray(P, sent, n, m) || (out == Some(m) && m.view.round == round);
  }

  lemma AcceptedPrepare(P: Params, id: Address, st: State, m: Message, signature: Bytes)
    requires ProposalOk(P, st.Accept(m))
    ensures ForItsRound(P, BuildPrepareMessage(id, ExtractProposalHash(m), st.view, signature))
  {
    var prepare := BuildPrepareMessage(id, ExtractProposalHash(m), st.view, signature);
    assert P.HashFor(st.view.round, st.Accept(m).RawData(), ExtractPrepareHash(prepare));
  }

  /** A PREPARE that goes out is for the round the node is in, or goes out as the
      node leaves that round. */
  lemma NewPrepare(P: Params, g: Global, a: Action)
    requires P.b.CollisionFree() && Enabled(P, g, a) && MovesUp(g, a) && !a.OtherHeights? && InvOf(P, g, a.node)
    requires Multicast(P, g.nodes[a.node], a).Some?
    ensures var st, st', m := g.nodes[a.node], NodeNext(P, g.nodes[a.node], a), Multicast(P, g.nodes[a.node], a).value;
            m.kind == PREPARE ==> m.view == st.view && (ForItsRound(P, m) || st.view.round < st'.view.round)
  {
    if a.AcceptProposal? {
      hide NodeEnabled, InvOf, ForItsRound;
      NodeSoundKept(P, g, a, a.node);
      AcceptedPrepare(P, a.node, g.nodes[a.node], a.proposal, a.signature);
    }
  }

  lemma RoundsGoUp(P: Params, g: Global, a: Action)
    requires Enabled(P, g, a) && MovesUp(g, a) && !a.OtherHeights?
    ensures g.nodes[a.node].view.round <= NodeNext(P, g.nodes[a.node], a).view.round
  {
  }

  lemma StraysKept(P: Params, g: Global, a: Action, n: Address)
    requires P.b.CollisionFree() && InvOf(P, g, n) && Enabled(P, g, a) && MovesUpAt(g, a, n) && n in g.nodes
    requires StraysOk(P, g.sent, n, g.nodes[n].view.round)
    ensures n in Next(P, g, a).nodes
    ensures StraysOk(P, Next(P, g, a).sent, n, Next(P, g, a).nodes[n].view.round)
  {
    hide StraysOk, NodeNext, OwnOk, NodeSound, ForItsRound;
    var g' := Next(P, g, a);
    if a.OtherHeights? {
      StraysExtended(P, g.sent, g'.sent, n, g.nodes[n].view.round, g'.nodes[n].view.round, None);
    } else {
      var out := Multicast(P, g.nodes[a.node], a);
      hide Multicast, NodeEnabled;
      ActorSends(P, g, a);
      if n == a.node {
        RoundsGoUp(P, g, a);
        if out.Some? {
          NewPrepare(P, g, a);
        }
      }
      StraysExtended(P, g.sent, g'.sent, n, g.nodes[n].view.round, g'.nodes[n].view.round,
                     if n == a.node then out else None);
    }
  }

  lemma {:induction false} RunStrays(P: Params, gs: seq<Global>, cs: seq<Action>, i: nat, n: Address)
    requires P.b.CollisionFree() && Run(P, gs, cs) && UpwardAt(gs, cs, n) && i < |gs| && n in P.nodes
    ensures n in gs[i].nodes && StraysOk(P, gs[i].sent, n, gs[i].nodes[n].view.round)
  {
    hide Next, Enabled, MovesUpAt, StraysOk, InvOf;
    if i == 0 {
      InitStrays(P, gs[0], n);
    } else {
      RunStrays(P, gs, cs, i - 1, n);
      RunInvOf(P, gs, cs, i - 1, n);
      StraysKept(P, gs[i - 1], cs[i - 1], n);
    }
  }

  lemma InitStrays(P: Params, g: Global, n: Address)
    requires Init(P, g) && n in P.nodes
    ensures n in g.nodes && StraysOk(P, g.sent, n, g.nodes[n].view.round)
  {
  }

  /** Of two PREPAREs of a node for one view the hashes are equal exactly if both or
      neither are hashes for the round. */
  lemma PreparesOfAViewTheorem(P: Params, states: seq<System>, steps: seq<SystemAction>, i: nat, m: Message,
                               m': Message)
    requires P.b.CollisionFree() && SystemRun(P, states, steps) && i < |states| && SystemUpwardAt(states, steps, m.from)
    requires m in states[i].sent && m' in states[i].sent && m.from == m'.from && m.kind == m'.kind == PREPARE
    requires m.view == m'.view && m.view.height == P.height
    ensures Equal(ExtractPrepareHash(m), ExtractPrepareHash(m')) <==> (ForItsRound(P, m) <==> ForItsRound(P, m'))
  {
    if ForItsRound(P, m) && ForItsRound(P, m') {
      var raw :| P.HashFor(m.view.round, raw, ExtractPrepareHash(m));
      var raw' :| P.HashFor(m'.view.round, raw', ExtractPrepareHash(m'));
      OnePreparePerRoundTheorem(P, states, steps, i, m, m', raw, raw');
    } else if !ForItsRound(P, m) && !ForItsRound(P, m') {
      StraysAgree(P, states, steps, i, m, m');
    } else if Equal(ExtractPrepareHash(m), ExtractPrepareHash(m')) {
      SameHashSameRound(P, m, m');
    }
  }

  lemma SameHashSameRound(P: Params, m: Message, m': Message)
    requires m.view == m'.view && Equal(ExtractPrepareHash(m), ExtractPrepareHash(m'))
    ensures ForItsRound(P, m) <==> ForItsRound(P, m')
  {
    assert forall raw :: P.HashFor(m.view.round, raw, ExtractPrepareHash(m)) <==>
                         P.HashFor(m'.view.round, raw, ExtractPrepareHash(m'));
  }

  lemma StraysAgree(P: Params, states: seq<System>, steps: seq<SystemAction>, i: nat, m: Message, m': Message)
    requires P.b.CollisionFree() && SystemRun(P, states, steps) && i < |states| && SystemUpwardAt(states, steps, m.from)
    requires m in states[i].sent && m' in states[i].sent && m.from == m'.from && m.kind == m'.kind == PREPARE
    requires m.view == m'.view && m.view.height == P.height && !ForItsRound(P, m) && !ForItsRound(P, m')
    ensures Equal(ExtractPrepareHash(m), ExtractPrepareHash(m'))
  {
    hide ForItsRound, Run, SystemRun, SystemInv;
    var gs, cs := SystemRefinesProtocol(P, states, steps, i);
    RunInvOf(P, gs, cs, |cs|, m.from);
    RunStrays(P, gs, cs, |cs|, m.from);
    var g := gs[|cs|];
    assert Stray(P, g.sent, m.from, m) && Stray(P, g.sent, m.from, m');
  }

  // ---------- two PREPAREs for one view ----------

  const NOW: Bytes := Bytes.Bytes([1])
  const NEXT: Bytes := Bytes.Bytes([2])

  /** In an upward run, a node that has accepted the proposal of round 0 jumps to the
      proposal of round 1; it has then sent two PREPAREs for round 0, with different
      hashes. */
  lemma TwoPreparesInOneView() returns (s: System, m: Message, m': Message)
    ensures Four().WellFormed() && Reachable(Four(), 0, s) && A in Four().nodes
    ensures m in s.sent && m' in s.sent && m.from == m'.from == A && m.kind == m'.kind == PREPARE
    ensures m.view == m'.view == View(1, 0) && !Equal(ExtractPrepareHash(m), ExtractPrepareHash(m'))
    ensures ForItsRound(Four(), m) && !ForItsRound(Four(), m')
  {
    FourSign();
    FourIsWellFormed();
    hide Realized, ProposalFor, AllSigned, Reachable, ForItsRound;
    var g := StartOfFour();
    g := Expires(Four(), 0, g, B);
    g := Expires(Four(), 0, g, C);
    FirstProposalValid(g.sent, A, NOW);
    g := TakesProposal(Four(), 0, g, A, ProposalOf(NOW, 0, []));
    ProposalValid(g.sent, A, NEXT, 1, B, C, D);
    g := JumpsOnProposal(Four(), 0, g, A, ProposalOf(NEXT, 1, PlainRoundChanges(B, C, D, 1)));
    s := SystemOf(Four(), 0, g);
    m := PrepareOf(A, NOW, 0);
    m' := BuildPrepareMessage(A, HashOf(NEXT, 1), View(1, 0), Nil);
    HashesTellRounds(m, m');
  }

  lemma HashesTellRounds(m: Message, m': Message)
    requires m == PrepareOf(A, NOW, 0) && m' == BuildPrepareMessage(A, HashOf(NEXT, 1), View(1, 0), Nil)
    ensures ForItsRound(Four(), m) && !ForItsRound(Four(), m') && !Equal(ExtractPrepareHash(m), ExtractPrepareHash(m'))
  {
    assert Four().HashFor(0, NOW, ExtractPrepareHash(m));
    forall raw: Bytes ensures !Four().HashFor(0, raw, ExtractPrepareHash(m')) {
      HashIsInjective(raw.Content(), 0, NEXT.Content(), 1);
    }
  }
}
