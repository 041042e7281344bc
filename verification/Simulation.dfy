/** Runs of the interleaved system are runs of the protocol; what holds of the
    protocol states behind them. */
module Simulation {
  import opened Types
  import opened NodeState
  import opened Protocol
  import opened Invariant
  import opened Soundness
  import opened Agreement
  import opened RoundLoop
  import opened LoopInvariant
  import opened Refinement

  ghost predicate SystemInv(P: Params, s: System) {
    && s.nodes.Keys == P.nodes
    && (forall n :: n in s.nodes ==> LoopInv(P, s.sent, n, s.nodes[n]))
    && (forall n :: n in s.inserted ==> n in s.nodes && s.nodes[n].main == Stopped)
  }

  /** The protocol state g is what the system state s amounts to. */
  ghost predicate Simulates(s: System, g: Global) {
    && g.nodes.Keys == s.nodes.Keys
    && (forall n :: n in s.nodes ==> g.nodes[n] == AbsState(s.nodes[n]))
    && g.sent == s.sent && g.inserted == s.inserted
  }

  /** The node that acts and the nodes that only see more messages. */
  lemma NodeLoopKept(P: Params, s: System, x: SystemAction, n: Address)
    requires SystemInv(P, s) && SystemEnabled(P, s, x) && n in s.nodes
    ensures n in SystemNext(P, s, x).nodes
    ensures LoopInv(P, SystemNext(P, s, x).sent, n, SystemNext(P, s, x).nodes[n])
  {
    var s' := SystemNext(P, s, x);
    if x.Local? && n == x.node {
      LoopKept(P, s.sent, n, s.nodes[n], x.a);
    }
    LoopInvMonotone(P, s.sent, s'.sent, n, s'.nodes[n]);
  }

  lemma InsertedKept(P: Params, s: System, x: SystemAction, n: Address)
    requires SystemInv(P, s) && SystemEnabled(P, s, x) && n in s.inserted
    ensures var s' := SystemNext(P, s, x);
            && n in s'.inserted && s'.inserted[n] == s.inserted[n]
            && n in s'.nodes && s'.nodes[n].main == Stopped
  {
    hide LoopInv, LoopNext, LoopEnabled, LoopMulticast;
    if x.Local? && x.node == n {
      StoppedStays(P, s.sent, n, s.nodes[n], x.a);
    }
  }

  lemma BlockAddedStopped(P: Params, s: System, x: SystemAction, n: Address)
    requires SystemInv(P, s) && SystemEnabled(P, s, x) && n in SystemNext(P, s, x).inserted && n !in s.inserted
    ensures n in SystemNext(P, s, x).nodes && SystemNext(P, s, x).nodes[n].main == Stopped
  {
    hide LoopInv;
  }

  lemma KeysKept(P: Params, s: System, x: SystemAction)
    requires SystemEnabled(P, s, x)
    ensures SystemNext(P, s, x).nodes.Keys == s.nodes.Keys
  {
  }

  lemma BlocksStopped(P: Params, s: System, x: SystemAction, n: Address)
    requires SystemInv(P, s) && SystemEnabled(P, s, x) && n in SystemNext(P, s, x).inserted
    ensures n in SystemNext(P, s, x).nodes && SystemNext(P, s, x).nodes[n].main == Stopped
  {
    hide LoopInv, SystemNext, SystemEnabled;
    if n in s.inserted {
      InsertedKept(P, s, x, n);
    } else {
      BlockAddedStopped(P, s, x, n);
    }
  }

  lemma SystemInvKept(P: Params, s: System, x: SystemAction)
    requires SystemInv(P, s) && SystemEnabled(P, s, x)
    ensures SystemInv(P, SystemNext(P, s, x))
  {
    hide LoopInv, SystemNext, SystemEnabled;
    var s' := SystemNext(P, s, x);
    KeysKept(P, s, x);
    forall n | n in s'.nodes ensures LoopInv(P, s'.sent, n, s'.nodes[n]) {
      NodeLoopKept(P, s, x, n);
    }
    forall n | n in s'.inserted ensures n in s'.nodes && s'.nodes[n].main == Stopped {
      BlocksStopped(P, s, x, n);
    }
  }

  lemma StoppedStays(P: Params, sent: set<Message>, id: Address, f: Loop, a: LoopAction)
    requires LoopInv(P, sent, id, f) && LoopEnabled(P, sent, id, f, a) && f.main == Stopped
    ensures LoopNext(P, sent, id, f, a).main == Stopped && Matching(id, f, a) == None && !a.AfterJoin?
  {
  }

  lemma LocalEnabled(P: Params, s: System, g: Global, n: Address, a: LoopAction)
    requires SystemInv(P, s) && Simulates(s, g)
    requires SystemEnabled(P, s, Local(n, a)) && Matching(n, s.nodes[n], a).Some?
    ensures var c := Matching(n, s.nodes[n], a).value;
            !c.OtherHeights? && c.node == n && Enabled(P, g, c)
  {
    StepRefines(P, s.sent, n, s.nodes[n], a);
    if n in s.inserted {
      StoppedStays(P, s.sent, n, s.nodes[n], a);
    }
  }

  lemma SilentSimulated(P: Params, s: System, g: Global, n: Address, a: LoopAction)
    requires SystemInv(P, s) && Simulates(s, g)
    requires SystemEnabled(P, s, Local(n, a)) && Matching(n, s.nodes[n], a) == None
    ensures Simulates(SystemNext(P, s, Local(n, a)), g)
  {
    hide LoopNext, LoopMulticast, LoopInv, LoopEnabled, Matching;
    StepRefines(P, s.sent, n, s.nodes[n], a);
    InsertionMatches(P, s.sent, n, s.nodes[n], a);
  }

  lemma ElsewhereSimulated(P: Params, s: System, g: Global, messages: set<Message>)
    requires Simulates(s, g) && SystemEnabled(P, s, Elsewhere(messages))
    ensures var c := OtherHeights(messages);
            Enabled(P, g, c) && MovesUp(g, c) && Simulates(SystemNext(P, s, Elsewhere(messages)), Next(P, g, c))
  {
  }

  /** The pieces of one visible step, put together. */
  lemma VisibleSimulated(P: Params, s: System, s': System, g: Global, n: Address, c: Action)
    requires Simulates(s, g) && n in s.nodes && n in s'.nodes && Enabled(P, g, c) && !c.OtherHeights? && c.node == n
    requires s'.nodes == s.nodes[n := s'.nodes[n]] && AbsState(s'.nodes[n]) == NodeNext(P, g.nodes[n], c)
    requires s'.sent == (match Multicast(P, g.nodes[n], c) case Some(m) => s.sent + {m} case None => s.sent)
    requires var st := g.nodes[n];
             s'.inserted ==
             if c.InsertBlock? then s.inserted[n := Block(st.RawData(), st.view.round, st.seals)] else s.inserted
    ensures Simulates(s', Next(P, g, c))
  {
  }

  lemma LocalSimulated(P: Params, s: System, g: Global, n: Address, a: LoopAction)
    requires SystemInv(P, s) && Simulates(s, g)
    requires SystemEnabled(P, s, Local(n, a)) && Matching(n, s.nodes[n], a).Some?
    ensures var c := Matching(n, s.nodes[n], a).value;
            Enabled(P, g, c) && Simulates(SystemNext(P, s, Local(n, a)), Next(P, g, c))
  {
    hide LoopNext, NodeNext, LoopMulticast, Multicast, LoopInv, LoopEnabled, NodeEnabled, Matching;
    var f, c := s.nodes[n], Matching(n, s.nodes[n], a).value;
    LocalEnabled(P, s, g, n, a);
    StepRefines(P, s.sent, n, f, a);
    InsertionMatches(P, s.sent, n, f, a);
    VisibleSimulated(P, s, SystemNext(P, s, Local(n, a)), g, n, c);
  }

  /** A block is inserted in exactly the step that receives the event Done. */
  lemma InsertionMatches(P: Params, sent: set<Message>, n: Address, f: Loop, a: LoopAction)
    requires LoopInv(P, sent, n, f) && LoopEnabled(P, sent, n, f, a)
    ensures a.AfterJoin? && f.main.ev.Done? <==> Matching(n, f, a) == Some(InsertBlock(n))
    ensures a.AfterJoin? ==> AbsState(f) == f.st.(roundStarted := false)
  {
    if a.AfterJoin? {
      BarrierOpen(f);
    } else if a.Continue? {
      ContinueKept(P, sent, n, f, a);
    }
  }

  lemma AbsKeepsView(f: Loop)
    ensures AbsState(f).view == f.st.view
  {
  }

  lemma MovesUpSimulated(P: Params, s: System, g: Global, n: Address, a: LoopAction)
    requires SystemInv(P, s) && Simulates(s, g) && n in s.nodes && LoopEnabled(P, s.sent, n, s.nodes[n], a)
    requires LoopMovesUp(s.nodes[n], a) && Matching(n, s.nodes[n], a).Some?
    ensures MovesUp(g, Matching(n, s.nodes[n], a).value)
  {
    hide WorkerOk, RoutineOk, EventOk, RoundReady, BarrierOk, Buildable, AbsState;
    AbsKeepsView(s.nodes[n]);
    if a.Continue? {
      ContinueKept(P, s.sent, n, s.nodes[n], a);
    }
  }

  lemma RunExtended(P: Params, gs: seq<Global>, cs: seq<Action>, c: Action)
    requires Run(P, gs, cs) && Enabled(P, gs[|cs|], c)
    ensures Run(P, gs + [Next(P, gs[|cs|], c)], cs + [c])
    ensures Upward(gs, cs) && MovesUp(gs[|cs|], c) ==> Upward(gs + [Next(P, gs[|cs|], c)], cs + [c])
    ensures forall n :: UpwardAt(gs, cs, n) && MovesUpAt(gs[|cs|], c, n) ==>
              UpwardAt(gs + [Next(P, gs[|cs|], c)], cs + [c], n)
  {
    hide Enabled, MovesUp, MovesUpAt, Init;
    var gs', cs' := gs + [Next(P, gs[|cs|], c)], cs + [c];
    forall i | 0 <= i < |cs'|
      ensures Enabled(P, gs'[i], cs'[i]) && gs'[i + 1] == Next(P, gs'[i], cs'[i])
    {
      if i < |cs| {
        assert gs'[i] == gs[i] && gs'[i + 1] == gs[i + 1] && cs'[i] == cs[i];
      }
    }
  }

  /** One more step of the system is at most one more step of the protocol. */
  lemma StepSimulated(P: Params, s: System, g: Global, x: SystemAction) returns (c: Option<Action>)
    requires SystemInv(P, s) && Simulates(s, g) && SystemEnabled(P, s, x)
    ensures c == None ==> Simulates(SystemNext(P, s, x), g)
    ensures c.Some? ==> Enabled(P, g, c.value) && Simulates(SystemNext(P, s, x), Next(P, g, c.value))
    ensures c.Some? && SystemMovesUp(s, x) ==> MovesUp(g, c.value)
    ensures c.Some? && !c.value.OtherHeights? ==> x.Local? && c.value.node == x.node
  {
    hide SystemNext, Next, Enabled, MovesUp, SystemInv, Simulates, Matching, LoopMovesUp;
    match x
    case Elsewhere(messages) =>
      ElsewhereSimulated(P, s, g, messages);
      c := Some(OtherHeights(messages));
    case Local(n, a) =>
      c := Matching(n, s.nodes[n], a);
      if c == None {
        SilentSimulated(P, s, g, n, a);
      } else {
        LocalSimulated(P, s, g, n, a);
        LocalEnabled(P, s, g, n, a);
        if LoopMovesUp(s.nodes[n], a) {
          MovesUpSimulated(P, s, g, n, a);
        }
      }
  }

  lemma InitSimulated(P: Params, s: System) returns (g: Global)
    requires SystemInit(P, s)
    ensures Init(P, g) && Simulates(s, g) && SystemInv(P, s)
  {
    g := Global(map n | n in P.nodes :: Initial(P.height), s.sent, map[], map[]);
  }

  /** Every run of the interleaved system is a run of the protocol, with the same
      messages sent and the same blocks inserted, and upward where it is. */
  lemma {:induction false} SystemRefinesProtocol(P: Params, states: seq<System>, steps: seq<SystemAction>, i: nat)
      returns (gs: seq<Global>, cs: seq<Action>)
    requires SystemRun(P, states, steps) && i < |states|
    ensures Run(P, gs, cs) && Simulates(states[i], gs[|cs|]) && SystemInv(P, states[i])
    ensures SystemUpward(states, steps) ==> Upward(gs, cs)
    ensures forall n :: SystemUpwardAt(states, steps, n) ==> UpwardAt(gs, cs, n)
  {
    hide SystemNext, Next, Enabled, MovesUp, SystemEnabled, SystemMovesUp, SystemInv, Simulates, Init, SystemInit;
    if i == 0 {
      var g := InitSimulated(P, states[0]);
      gs, cs := [g], [];
    } else {
      gs, cs := SystemRefinesProtocol(P, states, steps, i - 1);
      SystemInvKept(P, states[i - 1], steps[i - 1]);
      var g := gs[|cs|];
      var c := StepSimulated(P, states[i - 1], g, steps[i - 1]);
      if c.Some? {
        RunExtended(P, gs, cs, c.value);
        gs, cs := gs + [Next(P, g, c.value)], cs + [c.value];
      }
    }
  }

  /** The protocol state behind a reachable system state, and what holds of it. */
  lemma ReachedSound(P: Params, states: seq<System>, steps: seq<SystemAction>, i: nat) returns (g: Global)
    requires P.b.CollisionFree() && SystemRun(P, states, steps) && i < |states|
    ensures Simulates(states[i], g) && Sound(P, g) && SystemInv(P, states[i])
  {
    var gs, cs := SystemRefinesProtocol(P, states, steps, i);
    g := gs[|cs|];
    RunSound(P, gs, cs, |cs|);
  }

  /** What holds of it while this node moves up. */
  lemma ReachedOf(P: Params, states: seq<System>, steps: seq<SystemAction>, i: nat, n: Address) returns (g: Global)
    requires P.b.CollisionFree() && SystemRun(P, states, steps) && SystemUpwardAt(states, steps, n) && i < |states|
    ensures Simulates(states[i], g) && InvOf(P, g, n) && SystemInv(P, states[i])
  {
    hide InvOf;
    var gs, cs := SystemRefinesProtocol(P, states, steps, i);
    g := gs[|cs|];
    RunInvOf(P, gs, cs, |cs|, n);
  }

  /** What holds of it while all nodes move up. */
  lemma Reached(P: Params, states: seq<System>, steps: seq<SystemAction>, i: nat) returns (g: Global)
    requires P.b.CollisionFree() && SystemRun(P, states, steps) && SystemUpward(states, steps) && i < |states|
    ensures Simulates(states[i], g) && Inv(P, g) && SystemInv(P, states[i])
  {
    var gs, cs := SystemRefinesProtocol(P, states, steps, i);
    g := gs[|cs|];
    RunInv(P, gs, cs, |cs|);
  }

  lemma {:induction false} SystemInvAlways(P: Params, states: seq<System>, steps: seq<SystemAction>, i: nat)
    requires SystemRun(P, states, steps) && i < |states|
    ensures SystemInv(P, states[i])
  {
    hide SystemNext, SystemEnabled, SystemInv;
    if i == 0 {
      var g := InitSimulated(P, states[0]);
    }
    if i > 0 {
      SystemInvAlways(P, states, steps, i - 1);
      SystemInvKept(P, states[i - 1], steps[i - 1]);
    }
  }

  lemma {:induction false} InsertedStays(P: Params, states: seq<System>, steps: seq<SystemAction>, i: nat, j: nat,
                                         n: Address)
    requires SystemRun(P, states, steps) && i <= j < |states| && n in states[i].inserted
    ensures n in states[j].inserted && states[j].inserted[n] == states[i].inserted[n]
    decreases j - i
  {
    hide SystemNext, SystemEnabled, SystemInv, SystemInit;
    if i < j {
      InsertedStays(P, states, steps, i, j - 1, n);
      SystemInvAlways(P, states, steps, j - 1);
      InsertedKept(P, states[j - 1], steps[j - 1], n);
    }
  }
}
