/** RunSequence waits on the barrier after each event; it never waits forever,
    because every routine that is still there can get to where it leaves. */
module Barrier {
  import opened Types
  import opened NodeState
  import opened Protocol
  import opened RoundLoop
  import opened LoopInvariant
  import opened Simulation

  /** How many steps a routine is from having left. */
  function Rank(pc: Pc): nat {
    match pc
    case Exited => 0
    case Leaving => 1
    case Offering(_) => 2
    case TimerRunning => 2
    case Watching(_) => 2
    case InNewRound(_) => 2
    case InPrepare(_) => 2
    case InCommit(_) => 2
    case Searching(_, _) => 3
    case Looping => 3
    case Prepared(_) => 4
    case Locking(_, _) => 4
    case Finishing(_) => 4
    case Announcing(_, _) => 4
    case Preparing(_, _) => 5
    case Committing(_, _) => 5
    case Sealing(_, _) => 5
    case BuiltSet(_, _) => 5
    case Holding(_, _) => 6
    case Built(_, _) => 6
    case Building(_) => 7
    case Started => 8
    case Starting => 9
  }

  function RankAt(f: Loop, kind: Kind): nat {
    var r := Routine(f.Worker().iteration, kind);
    if r in f.routines then Rank(f.routines[r]) else 0
  }

  function TotalRank(f: Loop): nat {
    RankAt(f, RoundTimer) + RankAt(f, ProposalWatcher) + RankAt(f, CertificateWatcher) + RankAt(f, StateMachine)
  }

  /** The messages that honest nodes build are well signed. */
  ghost predicate HonestSign(P: Params) {
    forall m: Message :: m.from in P.nodes ==> P.b.validSender(m)
  }

  /** What a routine can do next on its way out. */
  function WayOut(id: Address, r: Routine, pc: Pc): LoopAction {
    if pc == Leaving then Exit(r)
    else if Blocked(pc) then GiveUp(r)
    else match pc
      case Starting => if r.kind == StateMachine then KickOff(r) else ReadView(r)
      case Searching(_, _) => SeeNothing(r)
      case Started => Dispatch(r)
      case Building(_) => Build(r, Propose(id, [], Nil, Nil))
      case _ => Continue(r, Nil, Nil)
  }

  /** The facts about a routine that is still there, once an event is received. */
  lemma StillThere(P: Params, sent: set<Message>, id: Address, f: Loop, r: Routine)
    requires LoopInv(P, sent, id, f) && f.main.Joining? && r in f.routines && f.routines[r] != Exited
    ensures f.ContextDone(r) && RoutineOk(P, sent, id, f.st, r, f.routines[r]) && r.iteration == f.Worker().iteration
    ensures r.kind == StateMachine ==> WorkerOk(P, sent, id, f.st, f.routines[r])
  {
    LiveIsCurrent(f, r);
    hide RoutineOk, WorkerOk, EventOk;
  }

  lemma WayOutAllowed(P: Params, sent: set<Message>, id: Address, f: Loop, r: Routine, pc: Pc)
    requires f.ContextDone(r) && RoutineOk(P, sent, id, f.st, r, pc) && pc != Exited
    requires r.kind == StateMachine ==> WorkerOk(P, sent, id, f.st, pc)
    ensures RoutineEnabled(P, sent, id, f, r, pc, WayOut(id, r, pc))
  {
    hide EventOk, ProposalFor, CommitsFor, UsableCertificate, Fetched, RoundReady;
  }

  lemma WayOutEnabled(P: Params, sent: set<Message>, id: Address, f: Loop, r: Routine)
    requires LoopInv(P, sent, id, f) && f.main.Joining? && r in f.routines && f.routines[r] != Exited
    ensures LoopEnabled(P, sent, id, f, WayOut(id, r, f.routines[r]))
  {
    hide LoopInv, WorkerOk, RoutineOk, RoutineEnabled;
    StillThere(P, sent, id, f, r);
    WayOutAllowed(P, sent, id, f, r, f.routines[r]);
  }

  lemma WayOutSigned(P: Params, sent: set<Message>, id: Address, f: Loop, r: Routine)
    requires HonestSign(P) && id in P.nodes
    requires LoopInv(P, sent, id, f) && f.main.Joining? && r in f.routines && f.routines[r] != Exited
    requires LoopEnabled(P, sent, id, f, WayOut(id, r, f.routines[r]))
    ensures var out := LoopMulticast(P, sent, id, f, WayOut(id, r, f.routines[r]));
            out.Some? ==> P.b.validSender(out.value)
  {
    assert RoutineOk(P, sent, id, f.st, r, f.routines[r]);
    LiveIsCurrent(f, r);
    hide EventOk, ProposalFor, PreparesFor, CommitsFor, UsableCertificate;
  }

  lemma ProceedRank(P: Params, st: State, pc: Pc)
    requires Proceeding(st, pc)
    ensures Rank(Proceed(P, st, pc).1) < Rank(pc)
  {
    hide ProposedMessage;
  }

  lemma WayOutRank(P: Params, sent: set<Message>, id: Address, f: Loop, r: Routine)
    requires r in f.routines && f.routines[r] != Exited && LoopEnabled(P, sent, id, f, WayOut(id, r, f.routines[r]))
    ensures var f' := LoopNext(P, sent, id, f, WayOut(id, r, f.routines[r]));
            && r in f'.routines && f'.main == f.main && f'.iteration == f.iteration
            && f'.routines == f.routines[r := f'.routines[r]] && Rank(f'.routines[r]) < Rank(f.routines[r])
  {
    var a := WayOut(id, r, f.routines[r]);
    hide EventOk, ProposalFor, PreparesFor, CommitsFor, UsableCertificate, Buildable, Proceed, Move, NewRoutines;
    if a.Continue? {
      ProceedRank(P, f.st, f.routines[r]);
    }
  }

  lemma TotalRankFalls(f: Loop, f': Loop, r: Routine)
    requires r in f.routines && r.iteration == f.Worker().iteration && f'.iteration == f.iteration
    requires r in f'.routines && f'.routines == f.routines[r := f'.routines[r]]
    requires Rank(f'.routines[r]) < Rank(f.routines[r])
    ensures TotalRank(f') < TotalRank(f)
  {
    hide Rank;
    forall kind | kind != r.kind ensures RankAt(f', kind) == RankAt(f, kind) {
    }
    assert RankAt(f', r.kind) < RankAt(f, r.kind);
  }

  /** As long as the barrier counts somebody, somebody can take a step out. */
  lemma SomebodyLeaves(P: Params, sent: set<Message>, id: Address, f: Loop) returns (a: LoopAction)
    requires HonestSign(P) && id in P.nodes && LoopInv(P, sent, id, f) && f.main.Joining? && f.wg != 0
    ensures LoopEnabled(P, sent, id, f, a) && !a.AfterJoin?
    ensures var out := LoopMulticast(P, sent, id, f, a); out.Some? ==> P.b.validSender(out.value)
    ensures LoopNext(P, sent, id, f, a).main == f.main && TotalRank(LoopNext(P, sent, id, f, a)) < TotalRank(f)
  {
    assert LiveSet(f) != {};
    var r :| r in LiveSet(f);
    assert r.iteration == f.Worker().iteration;
    hide LoopInv, LoopNext, LoopEnabled, LoopMulticast, TotalRank, HonestSign;
    a := WayOut(id, r, f.routines[r]);
    WayOutEnabled(P, sent, id, f, r);
    WayOutSigned(P, sent, id, f, r);
    WayOutRank(P, sent, id, f, r);
    TotalRankFalls(f, LoopNext(P, sent, id, f, a), r);
  }

  lemma Extended(P: Params, states: seq<System>, steps: seq<SystemAction>, x: SystemAction)
    requires SystemRun(P, states, steps) && SystemEnabled(P, states[|steps|], x)
    ensures SystemRun(P, states + [SystemNext(P, states[|steps|], x)], steps + [x])
  {
    hide SystemNext, SystemEnabled, SystemInit;
    var states', steps' := states + [SystemNext(P, states[|steps|], x)], steps + [x];
    forall i | 0 <= i < |steps'|
      ensures SystemEnabled(P, states'[i], steps'[i]) && states'[i + 1] == SystemNext(P, states'[i], steps'[i])
    {
      if i < |steps| {
        assert states'[i] == states[i] && states'[i + 1] == states[i + 1] && steps'[i] == steps[i];
      }
    }
  }

  lemma LocalMoves(P: Params, s: System, n: Address, a: LoopAction)
    requires SystemEnabled(P, s, Local(n, a))
    ensures n in SystemNext(P, s, Local(n, a)).nodes
    ensures SystemNext(P, s, Local(n, a)).nodes[n] == LoopNext(P, s.sent, n, s.nodes[n], a)
    ensures !(a.AfterJoin? && s.nodes[n].main.ev.Done?) ==> SystemNext(P, s, Local(n, a)).inserted == s.inserted
  {
    hide LoopNext, LoopEnabled;
  }

  /** The barrier never blocks for good: whatever the routines were doing when an
      event was received, every run can go on so that the barrier opens and
      RunSequence moves on with that event. */
  lemma {:induction false} BarrierOpensTheorem(P: Params, states: seq<System>, steps: seq<SystemAction>, n: Address)
      returns (states': seq<System>, steps': seq<SystemAction>)
    requires HonestSign(P) && SystemRun(P, states, steps) && n in P.nodes
    requires n in states[|steps|].nodes && states[|steps|].nodes[n].main.Joining?
    ensures SystemRun(P, states', steps') && states <= states' && steps <= steps'
    ensures n in states'[|steps'|].nodes && states'[|steps'|].nodes[n].main == states[|steps|].nodes[n].main
    ensures states'[|steps'|].inserted == states[|steps|].inserted
    ensures forall s :: LoopEnabled(P, states'[|steps'|].sent, n, states'[|steps'|].nodes[n], AfterJoin(s))
    decreases TotalRank(states[|steps|].nodes[n])
  {
    hide LoopInv, LoopNext, LoopMulticast, RoutineEnabled, TotalRank, HonestSign, SystemNext;
    SystemInvAlways(P, states, steps, |steps|);
    var s := states[|steps|];
    var f := s.nodes[n];
    assert LoopInv(P, s.sent, n, f);
    if f.wg == 0 {
      states', steps' := states, steps;
      EventGiven(P, s.sent, n, f);
    } else {
      var a := SomebodyLeaves(P, s.sent, n, f);
      LocalMoves(P, s, n, a);
      Extended(P, states, steps, Local(n, a));
      states', steps' := BarrierOpensTheorem(P, states + [SystemNext(P, s, Local(n, a))], steps + [Local(n, a)], n);
    }
  }

  /** A step of the node, put after the run. */
  lemma Continued(P: Params, states: seq<System>, steps: seq<SystemAction>, n: Address, a: LoopAction)
      returns (states': seq<System>, steps': seq<SystemAction>)
    requires SystemRun(P, states, steps) && n in states[|steps|].nodes
    requires LoopEnabled(P, states[|steps|].sent, n, states[|steps|].nodes[n], a)
    requires LoopMulticast(P, states[|steps|].sent, n, states[|steps|].nodes[n], a) == None
    requires !(a.AfterJoin? && states[|steps|].nodes[n].main.ev.Done?)
    ensures SystemRun(P, states', steps') && states <= states' && steps <= steps'
    ensures n in states'[|steps'|].nodes && states'[|steps'|].inserted == states[|steps|].inserted
    ensures var s := states[|steps|]; states'[|steps'|].nodes[n] == LoopNext(P, s.sent, n, s.nodes[n], a)
  {
    hide LoopNext, LoopEnabled, LoopMulticast, SystemNext, SystemInit;
    var s := states[|steps|];
    CanContinue(P, s, n, a);
    LocalMoves(P, s, n, a);
    Extended(P, states, steps, Local(n, a));
    states', steps' := states + [SystemNext(P, s, Local(n, a))], steps + [Local(n, a)];
  }

  lemma CanContinue(P: Params, s: System, n: Address, a: LoopAction)
    requires n in s.nodes && LoopEnabled(P, s.sent, n, s.nodes[n], a)
    requires LoopMulticast(P, s.sent, n, s.nodes[n], a) == None
    ensures SystemEnabled(P, s, Local(n, a))
  {
  }

  /** Cancellation gets through: from every state in which RunSequence waits for an
      event, the caller can cancel and RunSequence comes to its end without inserting. */
  lemma CancelledSequenceEnds(P: Params, states: seq<System>, steps: seq<SystemAction>, n: Address)
      returns (states': seq<System>, steps': seq<SystemAction>)
    requires HonestSign(P) && SystemRun(P, states, steps) && n in P.nodes
    requires n in states[|steps|].nodes && states[|steps|].nodes[n].main.Selecting?
    ensures SystemRun(P, states', steps') && states <= states' && steps <= steps'
    ensures n in states'[|steps'|].nodes && states'[|steps'|].nodes[n].main == Stopped
    ensures states'[|steps'|].inserted == states[|steps|].inserted
  {
    hide SystemRun, HonestSign, SystemNext, SystemEnabled, Move;
    states', steps' := Continued(P, states, steps, n, CancelSequence);
    states', steps' := Continued(P, states', steps', n, NoticeCancel);
    states', steps' := BarrierOpensTheorem(P, states', steps', n);
    states', steps' := Continued(P, states', steps', n, AfterJoin(Nil));
  }

  lemma EventGiven(P: Params, sent: set<Message>, id: Address, f: Loop)
    requires LoopInv(P, sent, id, f) && f.main.Joining?
    ensures f.main.ev.FutureCertificate? ==> f.main.ev.rcs != []
  {
  }
}
