/** The barrier of RunSequence in runs that go on for ever. If every routine that can
    always act does so at last, and every select that comes again and again with its
    context cancelled takes that case at last, the barrier opens. */
module Fairness {
  import opened Types
  import opened Protocol
  import opened RoundLoop
  import opened LoopInvariant
  import opened Simulation
  import opened Barrier

  // ---------- endless runs ----------

  ghost predicate StepAt(P: Params, states: nat -> System, steps: nat -> SystemAction, i: nat) {
    SystemEnabled(P, states(i), steps(i)) && states(i + 1) == SystemNext(P, states(i), steps(i))
  }

  ghost predicate EndlessRun(P: Params, states: nat -> System, steps: nat -> SystemAction) {
    SystemInit(P, states(0)) && forall i: nat :: StepAt(P, states, steps, i)
  }

  function PcOf(s: System, n: Address, r: Routine): Pc {
    if n in s.nodes && r in s.nodes[n].routines then s.nodes[n].routines[r] else Exited
  }

  predicate OfRoutine(a: LoopAction) {
    !a.Spawn? && !a.CancelSequence? && !a.NoticeCancel? && !a.Receive? && !a.AfterJoin?
  }

  /** The step is one of the routine. */
  predicate Acts(x: SystemAction, n: Address, r: Routine) {
    x.Local? && x.node == n && OfRoutine(x.a) && x.a.r == r
  }

  ghost predicate CanAct(P: Params, s: System, n: Address, r: Routine) {
    exists x :: Acts(x, n, r) && SystemEnabled(P, s, x)
  }

  /** The routine is at a select, one of whose cases is its cancelled context. */
  predicate AtSelect(s: System, n: Address, r: Routine) {
    n in s.nodes && r in s.nodes[n].routines && Blocked(s.nodes[n].routines[r]) && s.nodes[n].ContextDone(r)
  }

  ghost predicate ActsFrom(steps: nat -> SystemAction, n: Address, r: Routine, i: nat) {
    exists j: nat :: i <= j && Acts(steps(j), n, r)
  }

  ghost predicate GivesUpFrom(steps: nat -> SystemAction, n: Address, r: Routine, i: nat) {
    exists j: nat :: i <= j && steps(j) == Local(n, GiveUp(r))
  }

  ghost predicate AtSelectFrom(states: nat -> System, n: Address, r: Routine, i: nat) {
    exists j: nat :: i <= j && AtSelect(states(j), n, r)
  }

  /** The scheduler leaves no routine of the node out that can act from some moment on. */
  ghost predicate FairScheduler(P: Params, states: nat -> System, steps: nat -> SystemAction, n: Address) {
    forall r, i: nat :: (forall k: nat :: i <= k ==> CanAct(P, states(k), n, r)) ==> ActsFrom(steps, n, r, i)
  }

  /** A select whose context is cancelled does not take another case for ever. */
  ghost predicate FairSelect(states: nat -> System, steps: nat -> SystemAction, n: Address) {
    forall r, i: nat :: (forall k: nat :: i <= k ==> AtSelectFrom(states, n, r, k)) ==> GivesUpFrom(steps, n, r, i)
  }

  ghost predicate FairRun(P: Params, states: nat -> System, steps: nat -> SystemAction, n: Address) {
    EndlessRun(P, states, steps) && FairScheduler(P, states, steps, n) && FairSelect(states, steps, n)
  }

  lemma {:induction false} InvAt(P: Params, states: nat -> System, steps: nat -> SystemAction, i: nat)
    requires EndlessRun(P, states, steps)
    ensures SystemInv(P, states(i))
  {
    hide SystemInv, SystemNext, SystemEnabled;
    if i == 0 {
      var g := InitSimulated(P, states(0));
    } else {
      InvAt(P, states, steps, i - 1);
      assert StepAt(P, states, steps, i - 1);
      SystemInvKept(P, states(i - 1), steps(i - 1));
    }
  }

  // ---------- one step while the barrier is closed ----------

  /** The node waits on the barrier, which counts somebody. */
  predicate Closed(s: System, n: Address) {
    n in s.nodes && s.nodes[n].main.Joining? && s.nodes[n].wg != 0
  }

  predicate SameWait(s: System, s': System, n: Address) {
    n in s.nodes && n in s'.nodes && s'.nodes[n].main == s.nodes[n].main
    && s'.nodes[n].iteration == s.nodes[n].iteration
  }

  lemma WaitStays(P: Params, s: System, x: SystemAction, n: Address)
    requires SystemEnabled(P, s, x) && Closed(s, n)
    ensures SameWait(s, SystemNext(P, s, x), n)
  {
    hide RoutineEnabled, Proceed, Move;
  }

  lemma OthersDoNotMove(P: Params, s: System, x: SystemAction, n: Address, r: Routine)
    requires SystemEnabled(P, s, x) && Closed(s, n) && !Acts(x, n, r)
    ensures PcOf(SystemNext(P, s, x), n, r) == PcOf(s, n, r)
  {
    hide RoutineEnabled, Proceed, Move;
  }

  lemma ExitedDoNotMove(P: Params, s: System, x: SystemAction, n: Address, r: Routine)
    requires SystemEnabled(P, s, x) && Closed(s, n) && PcOf(s, n, r) == Exited
    ensures PcOf(SystemNext(P, s, x), n, r) == Exited
  {
    hide SystemNext, SystemEnabled;
    if Acts(x, n, r) {
      CannotAct(P, s, x, n, r);
    } else {
      OthersDoNotMove(P, s, x, n, r);
    }
  }

  lemma CannotAct(P: Params, s: System, x: SystemAction, n: Address, r: Routine)
    requires n in s.nodes && PcOf(s, n, r) == Exited && Acts(x, n, r)
    ensures !SystemEnabled(P, s, x)
  {
  }

  /** Short of a select, every step of a routine brings it closer to one. */
  lemma ActingLowersRank(P: Params, s: System, x: SystemAction, n: Address, r: Routine)
    requires SystemEnabled(P, s, x) && Closed(s, n) && Acts(x, n, r)
    requires !Blocked(PcOf(s, n, r)) && PcOf(s, n, r) != Exited
    ensures Rank(PcOf(SystemNext(P, s, x), n, r)) < Rank(PcOf(s, n, r))
  {
    hide ProposalFor, UsableCertificate, PreparesFor, CommitsFor, Buildable, Proceed, Move;
    if x.a.Continue? {
      ProceedRank(P, s.nodes[n].st, PcOf(s, n, r));
    }
  }

  lemma CanLeave(P: Params, s: System, n: Address, r: Routine)
    requires HonestSign(P) && n in P.nodes && SystemInv(P, s) && Closed(s, n) && PcOf(s, n, r) != Exited
    ensures CanAct(P, s, n, r) && s.nodes[n].ContextDone(r)
  {
    hide LoopInv, LoopEnabled, LoopMulticast, HonestSign, RoutineOk, WorkerOk;
    var f := s.nodes[n];
    StillThere(P, s.sent, n, f, r);
    WayOutEnabled(P, s.sent, n, f, r);
    WayOutSigned(P, s.sent, n, f, r);
    WayOutIsOwn(n, r, f.routines[r]);
    assert SystemEnabled(P, s, Local(n, WayOut(n, r, f.routines[r])));
  }

  lemma WayOutIsOwn(n: Address, r: Routine, pc: Pc)
    ensures Acts(Local(n, WayOut(n, r, pc)), n, r)
  {
  }

  // ---------- as long as the barrier is closed ----------

  /** The barrier is closed from t on, for ever. */
  ghost predicate Stuck(P: Params, states: nat -> System, steps: nat -> SystemAction, n: Address, t: nat) {
    && FairRun(P, states, steps, n) && HonestSign(P) && n in P.nodes
    && forall k: nat :: t <= k ==> Closed(states(k), n)
  }

  /** A routine that is there acts again. */
  lemma ActsAgain(P: Params, states: nat -> System, steps: nat -> SystemAction, n: Address, t: nat, r: Routine, i: nat)
      returns (j: nat)
    requires Stuck(P, states, steps, n, t) && t <= i && PcOf(states(i), n, r) != Exited
    ensures i <= j && Acts(steps(j), n, r) && PcOf(states(j), n, r) == PcOf(states(i), n, r)
  {
    hide Acts, CanAct, SystemInv, HonestSign;
    if k: nat :| i <= k && PcOf(states(k), n, r) == Exited {
      j := FirstAct(P, states, steps, n, t, r, i, k);
    } else {
      forall k: nat | i <= k ensures CanAct(P, states(k), n, r) {
        InvAt(P, states, steps, k);
        CanLeave(P, states(k), n, r);
      }
      assert ActsFrom(steps, n, r, i);
      var k: nat :| i <= k && Acts(steps(k), n, r);
      j := FirstAct(P, states, steps, n, t, r, i, k);
    }
  }

  lemma {:induction false} FirstAct(P: Params, states: nat -> System, steps: nat -> SystemAction, n: Address, t: nat,
                                    r: Routine, i: nat, k: nat)
      returns (j: nat)
    requires Stuck(P, states, steps, n, t) && t <= i <= k && PcOf(states(i), n, r) != Exited
    requires Acts(steps(k), n, r) || PcOf(states(k), n, r) == Exited
    ensures i <= j && Acts(steps(j), n, r) && PcOf(states(j), n, r) == PcOf(states(i), n, r)
    decreases k - i
  {
    hide Acts, SystemEnabled, SystemNext;
    if Acts(steps(i), n, r) {
      j := i;
    } else {
      assert StepAt(P, states, steps, i);
      OthersDoNotMove(P, states(i), steps(i), n, r);
      j := FirstAct(P, states, steps, n, t, r, i + 1, k);
    }
  }

  /** A routine comes to a select, if it does not exit. */
  lemma {:induction false} ComesToSelect(P: Params, states: nat -> System, steps: nat -> SystemAction, n: Address,
                                         t: nat, r: Routine, i: nat)
      returns (j: nat)
    requires Stuck(P, states, steps, n, t) && t <= i
    ensures i <= j && (Blocked(PcOf(states(j), n, r)) || PcOf(states(j), n, r) == Exited)
    decreases Rank(PcOf(states(i), n, r))
  {
    hide Acts, SystemEnabled, SystemNext, Rank;
    if Blocked(PcOf(states(i), n, r)) || PcOf(states(i), n, r) == Exited {
      j := i;
    } else {
      j := ActsAgain(P, states, steps, n, t, r, i);
      assert StepAt(P, states, steps, j);
      ActingLowersRank(P, states(j), steps(j), n, r);
      j := ComesToSelect(P, states, steps, n, t, r, j + 1);
    }
  }

  lemma SelectComes(P: Params, states: nat -> System, steps: nat -> SystemAction, n: Address, t: nat, r: Routine,
                    k: nat)
    requires Stuck(P, states, steps, n, t) && t <= k
    requires forall j: nat :: k <= j ==> PcOf(states(j), n, r) != Exited
    ensures AtSelectFrom(states, n, r, k)
  {
    hide SystemInv, HonestSign, CanAct;
    var j := ComesToSelect(P, states, steps, n, t, r, k);
    InvAt(P, states, steps, j);
    CanLeave(P, states(j), n, r);
    assert AtSelect(states(j), n, r);
  }

  lemma GivingUpLeaves(P: Params, s: System, n: Address, r: Routine)
    requires SystemEnabled(P, s, Local(n, GiveUp(r)))
    ensures PcOf(SystemNext(P, s, Local(n, GiveUp(r))), n, r) == Leaving
  {
  }

  /** Coming to a select again and again, a routine gives up. */
  lemma GivesUpOnce(P: Params, states: nat -> System, steps: nat -> SystemAction, n: Address, t: nat, r: Routine)
      returns (g: nat)
    requires Stuck(P, states, steps, n, t) && forall j: nat :: t <= j ==> PcOf(states(j), n, r) != Exited
    ensures t <= g && steps(g) == Local(n, GiveUp(r))
  {
    hide FairScheduler, EndlessRun, HonestSign, PcOf, AtSelect;
    forall k: nat | t <= k ensures AtSelectFrom(states, n, r, k) {
      SelectComes(P, states, steps, n, t, r, k);
    }
    assert GivesUpFrom(steps, n, r, t);
    g :| t <= g && steps(g) == Local(n, GiveUp(r));
  }

  /** Having given up, it exits. */
  lemma ExitsAfter(P: Params, states: nat -> System, steps: nat -> SystemAction, n: Address, t: nat, r: Routine, g: nat)
      returns (j: nat)
    requires Stuck(P, states, steps, n, t) && t <= g && steps(g) == Local(n, GiveUp(r))
    ensures t <= j && PcOf(states(j), n, r) == Exited
  {
    hide FairScheduler, FairSelect, HonestSign, SystemEnabled, SystemNext, Acts, PcOf;
    assert StepAt(P, states, steps, g);
    GivingUpLeaves(P, states(g), n, r);
    j := ActsAgain(P, states, steps, n, t, r, g + 1);
    assert StepAt(P, states, steps, j);
    ActingLowersRank(P, states(j), steps(j), n, r);
    j := j + 1;
  }

  /** Every routine exits. */
  lemma Exits(P: Params, states: nat -> System, steps: nat -> SystemAction, n: Address, t: nat, r: Routine)
    requires Stuck(P, states, steps, n, t)
    ensures exists j: nat :: t <= j && PcOf(states(j), n, r) == Exited
  {
    hide Stuck, PcOf;
    if forall j: nat :: t <= j ==> PcOf(states(j), n, r) != Exited {
      var g := GivesUpOnce(P, states, steps, n, t, r);
      var j := ExitsAfter(P, states, steps, n, t, r, g);
      assert false;
    }
  }

  lemma {:induction false} ExitedStays(P: Params, states: nat -> System, steps: nat -> SystemAction, n: Address, t: nat,
                                       r: Routine, i: nat, j: nat)
    requires Stuck(P, states, steps, n, t) && t <= i <= j && PcOf(states(i), n, r) == Exited
    ensures PcOf(states(j), n, r) == Exited
    decreases j - i
  {
    hide SystemEnabled, SystemNext;
    if i < j {
      assert StepAt(P, states, steps, i);
      ExitedDoNotMove(P, states(i), steps(i), n, r);
      ExitedStays(P, states, steps, n, t, r, i + 1, j);
    }
  }

  lemma {:induction false} SameWaitLater(P: Params, states: nat -> System, steps: nat -> SystemAction, n: Address,
                                         t: nat, i: nat)
    requires Stuck(P, states, steps, n, t) && t <= i
    ensures SameWait(states(t), states(i), n)
  {
    hide SystemEnabled, SystemNext;
    if t < i {
      SameWaitLater(P, states, steps, n, t, i - 1);
      assert StepAt(P, states, steps, i - 1);
      WaitStays(P, states(i - 1), steps(i - 1), n);
    }
  }

  lemma SomebodyLeft(P: Params, s: System, n: Address)
    requires SystemInv(P, s) && Closed(s, n)
    ensures exists kind :: PcOf(s, n, Routine(s.nodes[n].Worker().iteration, kind)) != Exited
  {
    var f := s.nodes[n];
    assert LoopInv(P, s.sent, n, f);
    assert |LiveSet(f)| != 0;
    var r :| r in LiveSet(f);
    assert r == Routine(f.Worker().iteration, r.kind);
  }

  /** These routines of one iteration are all gone at some time. */
  lemma {:induction false} AllExit(P: Params, states: nat -> System, steps: nat -> SystemAction, n: Address, t: nat,
                                   iteration: nat, kinds: seq<Kind>)
      returns (j: nat)
    requires Stuck(P, states, steps, n, t)
    ensures t <= j && forall kind :: kind in kinds ==> PcOf(states(j), n, Routine(iteration, kind)) == Exited
  {
    hide Stuck;
    if kinds == [] {
      j := t;
    } else {
      var i := AllExit(P, states, steps, n, t, iteration, kinds[1..]);
      Exits(P, states, steps, n, t, Routine(iteration, kinds[0]));
      var k: nat :| t <= k && PcOf(states(k), n, Routine(iteration, kinds[0])) == Exited;
      j := if i < k then k else i;
      forall kind | kind in kinds ensures PcOf(states(j), n, Routine(iteration, kind)) == Exited {
        ExitedStays(P, states, steps, n, t, Routine(iteration, kind), if kind == kinds[0] then k else i, j);
      }
    }
  }

  function AllKinds(): seq<Kind> {
    [RoundTimer, ProposalWatcher, CertificateWatcher, StateMachine]
  }

  lemma EveryKind(kind: Kind)
    ensures kind in AllKinds()
  {
    match kind
    case RoundTimer => assert AllKinds()[0] == kind;
    case ProposalWatcher => assert AllKinds()[1] == kind;
    case CertificateWatcher => assert AllKinds()[2] == kind;
    case StateMachine => assert AllKinds()[3] == kind;
  }

  /** So the barrier is not closed for ever. */
  lemma NotStuck(P: Params, states: nat -> System, steps: nat -> SystemAction, n: Address, t: nat)
    ensures !Stuck(P, states, steps, n, t)
  {
    if Stuck(P, states, steps, n, t) {
      assert n in states(t).nodes;
      hide SystemInv, FairRun, PcOf;
      var iteration := states(t).nodes[n].Worker().iteration;
      var j := AllExit(P, states, steps, n, t, iteration, AllKinds());
      forall kind ensures PcOf(states(j), n, Routine(iteration, kind)) == Exited {
        EveryKind(kind);
      }
      SameWaitLater(P, states, steps, n, t, j);
      EndlessInv(P, states, steps, n, j);
      SomebodyLeft(P, states(j), n);
      assert false;
    }
  }

  lemma EndlessInv(P: Params, states: nat -> System, steps: nat -> SystemAction, n: Address, j: nat)
    requires FairRun(P, states, steps, n)
    ensures SystemInv(P, states(j))
  {
    InvAt(P, states, steps, j);
  }

  lemma {:induction false} FirstOpening(P: Params, states: nat -> System, steps: nat -> SystemAction, n: Address,
                                        t: nat, k: nat)
      returns (j: nat)
    requires EndlessRun(P, states, steps) && n in states(t).nodes && states(t).nodes[n].main.Joining?
    requires t <= k && !Closed(states(k), n)
    ensures t <= j && SameWait(states(t), states(j), n) && states(j).nodes[n].wg == 0
    decreases k - t
  {
    hide SystemEnabled, SystemNext;
    if states(t).nodes[n].wg == 0 {
      j := t;
    } else {
      assert StepAt(P, states, steps, t);
      WaitStays(P, states(t), steps(t), n);
      j := FirstOpening(P, states, steps, n, t + 1, k);
    }
  }

  /** Once RunSequence has received an event, then in every fair run the barrier opens
      and RunSequence can move on with that event. */
  lemma BarrierOpensFairly(P: Params, states: nat -> System, steps: nat -> SystemAction, n: Address, t: nat)
      returns (j: nat)
    requires HonestSign(P) && n in P.nodes && FairRun(P, states, steps, n)
    requires n in states(t).nodes && states(t).nodes[n].main.Joining?
    ensures t <= j && SameWait(states(t), states(j), n) && states(j).nodes[n].wg == 0
    ensures forall s :: LoopEnabled(P, states(j).sent, n, states(j).nodes[n], AfterJoin(s))
  {
    hide FairScheduler, FairSelect, SystemInv, LoopInv, HonestSign, StepAt;
    NotStuck(P, states, steps, n, t);
    var k: nat :| t <= k && !Closed(states(k), n);
    j := FirstOpening(P, states, steps, n, t, k);
    InvAt(P, states, steps, j);
    assert LoopInv(P, states(j).sent, n, states(j).nodes[n]) by {
      InvOfNode(P, states(j), n);
    }
    EventGiven(P, states(j).sent, n, states(j).nodes[n]);
  }

  lemma InvOfNode(P: Params, s: System, n: Address)
    requires SystemInv(P, s) && n in s.nodes
    ensures LoopInv(P, s.sent, n, s.nodes[n])
  {
  }
}
