/** Nobody leaves a round early: as long as RunSequence waits for an event and nothing
    is cancelled, the timer, both watchers and the state machine are there. */
module Attendance {
  import opened Types
  import opened Protocol
  import opened RoundLoop
  import opened LoopInvariant
  import opened Simulation

  /** The routine of the current iteration has neither returned nor is about to. */
  predicate Present(f: Loop, kind: Kind) {
    var r := Routine(f.Worker().iteration, kind);
    r in f.routines && f.routines[r] != Leaving && f.routines[r] != Exited
  }

  ghost predicate Attended(f: Loop) {
    && (forall i :: i in f.cancelled ==> i < f.iteration)
    && (f.main.Selecting? ==>
          && f.iteration > 0 && f.iteration - 1 !in f.cancelled
          && (!f.cancelAll ==> forall kind :: Present(f, kind)))
  }

  /** A step of a routine whose context is not cancelled does not make it leave. */
  lemma StaysPresent(P: Params, sent: set<Message>, id: Address, f: Loop, a: LoopAction, kind: Kind)
    requires LoopEnabled(P, sent, id, f, a) && f.main.Selecting? && Present(f, kind)
    requires !f.ContextDone(Routine(f.Worker().iteration, kind)) && !a.Spawn? && !a.Receive?
    ensures LoopNext(P, sent, id, f, a).main.Selecting? ==> Present(LoopNext(P, sent, id, f, a), kind)
  {
    hide ProposalFor, UsableCertificate, PreparesFor, CommitsFor, Buildable, ProposedMessage, Move;
  }

  lemma AllPresentAtStart(P: Params, sent: set<Message>, id: Address, f: Loop, kind: Kind)
    requires LoopEnabled(P, sent, id, f, Spawn)
    ensures Present(LoopNext(P, sent, id, f, Spawn), kind)
  {
  }

  lemma AttendedKept(P: Params, sent: set<Message>, id: Address, f: Loop, a: LoopAction)
    requires Attended(f) && LoopEnabled(P, sent, id, f, a)
    ensures Attended(LoopNext(P, sent, id, f, a))
  {
    var f' := LoopNext(P, sent, id, f, a);
    if f'.main.Selecting? && !f'.cancelAll {
      forall kind ensures Present(f', kind) {
        if a.Spawn? {
          AllPresentAtStart(P, sent, id, f, kind);
        } else {
          StaysPresent(P, sent, id, f, a, kind);
        }
      }
    }
    hide RoutineEnabled, Proceed, Move, NewRoutines, Present;
  }

  lemma {:induction false} AttendedAlways(P: Params, states: seq<System>, steps: seq<SystemAction>, i: nat, n: Address)
    requires SystemRun(P, states, steps) && i < |states| && n in states[i].nodes
    ensures Attended(states[i].nodes[n])
  {
    hide LoopNext, LoopEnabled, LoopMulticast;
    if i > 0 {
      var x := steps[i - 1];
      assert states[i] == SystemNext(P, states[i - 1], x);
      AttendedAlways(P, states, steps, i - 1, n);
      if x.Local? && x.node == n {
        AttendedKept(P, states[i - 1].sent, n, states[i - 1].nodes[n], x.a);
      }
    }
  }

  /** In every run, while RunSequence waits for an event and the caller has not
      cancelled, all four routines of the round are there, and the barrier counts
      exactly them. */
  lemma NobodyLeavesEarly(P: Params, states: seq<System>, steps: seq<SystemAction>, i: nat, n: Address)
    requires SystemRun(P, states, steps) && i < |states| && n in states[i].nodes
    requires states[i].nodes[n].main.Selecting? && !states[i].nodes[n].cancelAll
    ensures forall kind :: Present(states[i].nodes[n], kind)
    ensures states[i].nodes[n].wg == 4
  {
    hide SystemRun;
    var f := states[i].nodes[n];
    AttendedAlways(P, states, steps, i, n);
    SystemInvAlways(P, states, steps, i);
    AllFourLive(P, states[i].sent, n, f);
  }

  /** Once the caller cancels, a routine that is blocked can leave at once, before
      RunSequence has noticed. */
  lemma CancelReachesAll(P: Params, sent: set<Message>, id: Address, f: Loop, r: Routine)
    requires r in f.routines && Blocked(f.routines[r])
    ensures LoopEnabled(P, sent, id, f, CancelSequence)
    ensures LoopEnabled(P, sent, id, LoopNext(P, sent, id, f, CancelSequence), GiveUp(r))
  {
  }

  function FourOf(iteration: nat): set<Routine> {
    {Routine(iteration, RoundTimer), Routine(iteration, ProposalWatcher), Routine(iteration, CertificateWatcher),
     Routine(iteration, StateMachine)}
  }

  lemma OneOfFour(r: Routine)
    ensures r in FourOf(r.iteration)
  {
    match r.kind
    case RoundTimer => assert r == Routine(r.iteration, RoundTimer);
    case ProposalWatcher => assert r == Routine(r.iteration, ProposalWatcher);
    case CertificateWatcher => assert r == Routine(r.iteration, CertificateWatcher);
    case StateMachine => assert r == Routine(r.iteration, StateMachine);
  }

  lemma AllFourLive(P: Params, sent: set<Message>, n: Address, f: Loop)
    requires LoopInv(P, sent, n, f) && f.main.Selecting? && forall kind :: Present(f, kind)
    ensures f.wg == 4
  {
    hide RoutineOk, WorkerOk, EventOk, RoundReady, FourOf;
    var i := f.Worker().iteration;
    forall r ensures r in LiveSet(f) <==> r in FourOf(i) {
      OneOfFour(r);
      if r.iteration == i {
        assert Present(f, r.kind);
      } else {
        OnlyThatIteration(i, r);
      }
    }
    assert LiveSet(f) == FourOf(i);
    FourAreFour(i);
  }

  lemma OnlyThatIteration(i: nat, r: Routine)
    ensures r in FourOf(i) ==> r.iteration == i
  {
  }

  lemma FourAreFour(i: nat)
    ensures |FourOf(i)| == 4
  {
  }
}
