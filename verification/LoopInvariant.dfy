/** What every interleaving of a node's routines keeps: live routines belong to
    the current iteration and its view, and the state is what the position of
    the state machine says. */
module LoopInvariant {
  import opened Types
  import opened Proposals
  import opened NodeState
  import opened Protocol
  import opened RoundLoop

  ghost function LiveIn(routines: map<Routine, Pc>): set<Routine> {
    set r | r in routines && routines[r] != Exited
  }

  ghost function LiveSet(f: Loop): set<Routine> {
    LiveIn(f.routines)
  }

  predicate InRound(f: Loop) {
    f.main.Selecting? || f.main.Joining?
  }

  /** No routine outlives its iteration, and the barrier counts the live ones. */
  ghost predicate BarrierOk(f: Loop) {
    && f.wg == |LiveSet(f)|
    && (forall r :: r in f.routines ==> r.iteration < f.iteration)
    && (forall r :: r in f.routines && f.routines[r] != Exited ==> r.iteration + 1 == f.iteration && InRound(f))
    && (InRound(f) ==> f.main.view == f.st.view && f.iteration > 0 && f.Worker() in f.routines)
  }

  predicate HasView(pc: Pc) {
    || pc.Watching? || pc.Searching? || pc.Building? || pc.Built? || pc.BuiltSet? || pc.Announcing? || pc.InNewRound?
    || pc.Holding?
    || pc.Preparing? || pc.Prepared? || pc.InPrepare? || pc.Committing? || pc.Locking? || pc.InCommit? || pc.Sealing?
    || pc.Finishing?
  }

  /** An event was produced for the current view. */
  ghost predicate EventOk(P: Params, sent: set<Message>, id: Address, st: State, ev: Event) {
    match ev
    case FutureProposal(m) =>
      && m.view.round >= NextRound(st.view.round)
      && ProposalFor(P, sent, id, m, View(st.view.height, m.view.round))
    case FutureCertificate(rcs) => UsableCertificate(P, sent, st.view.height, rcs)
    case Expired => true
    case Done => st.name == Fin && st.proposalMessage.Some?
    case Cancelled => true
  }

  predicate OffererOk(kind: Kind, ev: Event) {
    match ev
    case FutureProposal(_) => kind == ProposalWatcher
    case FutureCertificate(_) => kind == CertificateWatcher
    case Expired => kind == RoundTimer
    case Done => kind == StateMachine
    case Cancelled => false
  }

  /** The routines beside the state machine never get to its program points. */
  ghost predicate RoutineOk(P: Params, sent: set<Message>, id: Address, st: State, r: Routine, pc: Pc) {
    && (HasView(pc) ==> pc.view == st.view)
    && (pc.Offering? ==> OffererOk(r.kind, pc.ev) && EventOk(P, sent, id, st, pc.ev))
    && (r.kind != StateMachine ==>
          || pc.Exited? || pc.Leaving? || pc.Offering? || pc.Starting?
          || pc.TimerRunning? || pc.Watching? || pc.Searching?)
    && (pc.Watching? ==> r.kind == ProposalWatcher || r.kind == CertificateWatcher)
    && (pc.Searching? ==> r.kind == CertificateWatcher)
    && (pc.TimerRunning? ==> r.kind == RoundTimer)
  }

  predicate Settled(st: State) {
    st.name == NewRound <==> st.proposalMessage.None?
  }

  predicate Unproposed(st: State) {
    st.name == NewRound && st.proposalMessage.None?
  }

  /** Between rounds, and until the state machine starts: nothing yet, or a
      future proposal that another node made. */
  predicate RoundReady(P: Params, id: Address, st: State) {
    if st.roundStarted then st.name == Prepare && st.proposalMessage.Some? && !P.b.IsProposer(id, st.view)
    else Unproposed(st)
  }

  /** The state as the position of the state machine tells. */
  ghost predicate WorkerOk(P: Params, sent: set<Message>, id: Address, st: State, pc: Pc) {
    match pc
    case Starting => RoundReady(P, id, st)
    case Started => Unproposed(st) || (st.name == Prepare && st.proposalMessage.Some? && !P.b.IsProposer(id, st.view))
    case Building(_) => Unproposed(st) && P.b.IsProposer(id, st.view)
    case Built(_, build) =>
      Unproposed(st) && P.b.IsProposer(id, st.view) && Buildable(P, sent, id, st, st.view, build)
    case BuiltSet(_, build) =>
      && st.name == NewRound && P.b.IsProposer(id, st.view)
      && Buildable(P, sent, id, st.(proposalMessage := None), st.view, build)
      && st.proposalMessage == Some(ProposedMessage(P, st.view, build))
    case Announcing(_, build) =>
      && st.name == Prepare && P.b.IsProposer(id, st.view)
      && Buildable(P, sent, id, st.(proposalMessage := None), st.view, build)
      && st.proposalMessage == Some(ProposedMessage(P, st.view, build))
    case InNewRound(_) => Unproposed(st)
    case Holding(_, m) => Unproposed(st) && ProposalFor(P, sent, id, m, st.view)
    case Preparing(_, m) => st.name == NewRound && st.proposalMessage == Some(m) && ProposalFor(P, sent, id, m, st.view)
    case Prepared(_) => st.name == NewRound && st.proposalMessage.Some?
    case InPrepare(_) => st.name == Prepare && st.proposalMessage.Some?
    case Committing(_, prepares) => st.name == Prepare && PreparesFor(P, sent, st, prepares)
    case Locking(_, prepares) => st.name == Prepare && st.proposalMessage.Some?
    case InCommit(_) => st.name == Commit && st.proposalMessage.Some?
    case Sealing(_, commits) => st.name == Commit && st.proposalMessage.Some? && CommitsFor(P, sent, st, commits)
    case Finishing(_) => st.name == Commit && st.proposalMessage.Some?
    case _ => Settled(st)
  }

  ghost predicate LoopInv(P: Params, sent: set<Message>, id: Address, f: Loop) {
    && f.st.view.height == P.height
    && BarrierOk(f)
    && (forall r :: r in f.routines ==> RoutineOk(P, sent, id, f.st, r, f.routines[r]))
    && WorkerOk(P, sent, id, f.st, f.WorkerPc())
    && (f.main == Head ==> RoundReady(P, id, f.st))
    && (f.main.Joining? ==>
          && f.Worker().iteration in f.cancelled
          && EventOk(P, sent, id, f.st, f.main.ev)
          && (f.main.ev.Done? ==> f.WorkerPc().Leaving? || f.WorkerPc().Exited?))
  }

  // ---------- more messages ----------

  lemma UsableKept(P: Params, sent: set<Message>, sent': set<Message>, height: nat, rcs: seq<Message>)
    requires sent <= sent' && UsableCertificate(P, sent, height, rcs)
    ensures UsableCertificate(P, sent', height, rcs)
  {
    FetchedKept(P, sent, sent', rcs, rcs[0].view, ROUND_CHANGE);
  }

  lemma FetchedKept(P: Params, sent: set<Message>, sent': set<Message>, msgs: seq<Message>, view: View,
                    kind: MessageType)
    requires sent <= sent' && Fetched(P, sent, msgs, view, kind)
    ensures Fetched(P, sent', msgs, view, kind)
  {
  }

  lemma EventKept(P: Params, sent: set<Message>, sent': set<Message>, id: Address, st: State, ev: Event)
    requires sent <= sent' && EventOk(P, sent, id, st, ev)
    ensures EventOk(P, sent', id, st, ev)
  {
    match ev
    case FutureProposal(m) => FetchedKept(P, sent, sent', [m], View(st.view.height, m.view.round), PREPREPARE);
    case FutureCertificate(rcs) => UsableKept(P, sent, sent', st.view.height, rcs);
    case _ =>
  }

  lemma WorkerKept(P: Params, sent: set<Message>, sent': set<Message>, id: Address, st: State, pc: Pc)
    requires sent <= sent' && WorkerOk(P, sent, id, st, pc)
    ensures WorkerOk(P, sent', id, st, pc)
  {
    match pc
    case Built(_, build) =>
      if st.view.round > 0 { UsableKept(P, sent, sent', st.view.height, build.rcs); }
    case BuiltSet(_, build) =>
      if st.view.round > 0 { UsableKept(P, sent, sent', st.view.height, build.rcs); }
    case Announcing(_, build) =>
      if st.view.round > 0 { UsableKept(P, sent, sent', st.view.height, build.rcs); }
    case Holding(_, m) => FetchedKept(P, sent, sent', [m], st.view, PREPREPARE);
    case Preparing(_, m) => FetchedKept(P, sent, sent', [m], st.view, PREPREPARE);
    case Committing(_, prepares) => FetchedKept(P, sent, sent', prepares, st.view, PREPARE);
    case Sealing(_, commits) => FetchedKept(P, sent, sent', commits, st.view, COMMIT);
    case _ =>
  }

  lemma LoopInvMonotone(P: Params, sent: set<Message>, sent': set<Message>, id: Address, f: Loop)
    requires sent <= sent' && LoopInv(P, sent, id, f)
    ensures LoopInv(P, sent', id, f)
  {
    WorkerKept(P, sent, sent', id, f.st, f.WorkerPc());
    if f.main.Joining? {
      EventKept(P, sent, sent', id, f.st, f.main.ev);
    }
    forall r | r in f.routines ensures RoutineOk(P, sent', id, f.st, r, f.routines[r]) {
      if f.routines[r].Offering? {
        EventKept(P, sent, sent', id, f.st, f.routines[r].ev);
      }
    }
  }

  // ---------- steps of one routine ----------

  /** Events other than Done depend on the view alone. */
  lemma RoutineUnaffected(P: Params, sent: set<Message>, id: Address, st: State, st': State, r: Routine, pc: Pc)
    requires RoutineOk(P, sent, id, st, r, pc) && st'.view == st.view
    requires pc.Offering? && pc.ev.Done? ==> st' == st
    ensures RoutineOk(P, sent, id, st', r, pc)
  {
    hide UsableCertificate, ProposalFor;
  }

  lemma EventUnaffected(P: Params, sent: set<Message>, id: Address, st: State, st': State, ev: Event)
    requires EventOk(P, sent, id, st, ev) && st'.view == st.view && (ev.Done? ==> st' == st)
    ensures EventOk(P, sent, id, st', ev)
  {
    hide UsableCertificate, ProposalFor;
  }

  lemma DoneIsTheWorkers(P: Params, sent: set<Message>, id: Address, st: State, r: Routine, pc: Pc)
    requires RoutineOk(P, sent, id, st, r, pc) && pc.Offering? && pc.ev.Done?
    ensures r.kind == StateMachine
  {
  }

  lemma BarrierStepped(f: Loop, r: Routine, st': State, pc': Pc)
    requires BarrierOk(f) && r in f.routines && f.routines[r] != Exited && pc' != Exited && st'.view == f.st.view
    ensures BarrierOk(f.At(r, pc').(st := st')) && f.main != Head
    ensures r.kind == StateMachine ==> r == f.Worker()
  {
    assert LiveSet(f.At(r, pc').(st := st')) == LiveSet(f);
  }

  /** Replacing the program point of a live routine, and, for the state machine,
      the rest of the state, keeps everything that is not about that routine. */
  lemma RoutineStepped(P: Params, sent: set<Message>, id: Address, f: Loop, r: Routine, st': State, pc': Pc)
    requires LoopInv(P, sent, id, f) && r in f.routines
    requires f.routines[r] != Exited && f.routines[r] != Leaving && pc' != Exited
    requires st'.view == f.st.view && (r.kind != StateMachine ==> st' == f.st)
    requires RoutineOk(P, sent, id, st', r, pc')
    requires r.kind == StateMachine ==> WorkerOk(P, sent, id, st', pc')
    ensures LoopInv(P, sent, id, f.At(r, pc').(st := st'))
  {
    hide WorkerOk, RoutineOk, EventOk, RoundReady, BarrierOk;
    var f' := f.At(r, pc').(st := st');
    BarrierStepped(f, r, st', pc');
    forall q | q in f'.routines ensures RoutineOk(P, sent, id, st', q, f'.routines[q]) {
      if q != r {
        var pc := f.routines[q];
        if pc.Offering? && pc.ev.Done? {
          DoneIsTheWorkers(P, sent, id, f.st, q, pc);
        }
        RoutineUnaffected(P, sent, id, f.st, st', q, pc);
      }
    }
    if f'.main.Joining? {
      EventUnaffected(P, sent, id, f.st, st', f'.main.ev);
    }
  }

  lemma LiveIsCurrent(f: Loop, r: Routine)
    requires BarrierOk(f) && r in f.routines && f.routines[r] != Exited
    ensures r.kind == StateMachine ==> r == f.Worker()
  {
  }

  lemma WatcherMoves(P: Params, sent: set<Message>, id: Address, f: Loop, a: LoopAction)
    requires LoopEnabled(P, sent, id, f, a)
    requires a.ReadView? || a.Fire? || a.SeeProposal? || a.Search? || a.SeeCertificate? || a.SeeNothing?
    ensures var f' := LoopNext(P, sent, id, f, a); f' == f.At(a.r, f'.routines[a.r]).(st := f.st)
  {
    hide ProposalFor, UsableCertificate, PreparesFor, CommitsFor, Buildable, Proceed, Proceeding, Move, NewRoutines;
    assert f.(st := f.st) == f;
  }

  lemma WatcherOk(P: Params, sent: set<Message>, id: Address, f: Loop, a: LoopAction)
    requires LoopEnabled(P, sent, id, f, a)
    requires a.ReadView? || a.Fire? || a.SeeProposal? || a.Search? || a.SeeCertificate? || a.SeeNothing?
    requires RoutineOk(P, sent, id, f.st, a.r, f.routines[a.r])
    ensures a.r.kind != StateMachine && f.routines[a.r] != Exited && f.routines[a.r] != Leaving
    ensures var pc' := LoopNext(P, sent, id, f, a).routines[a.r];
            pc' != Exited && RoutineOk(P, sent, id, f.st, a.r, pc')
  {
    hide ProposalFor, UsableCertificate, PreparesFor, CommitsFor, Buildable, Proceed, Proceeding, Move, NewRoutines;
  }

  lemma WatcherKept(P: Params, sent: set<Message>, id: Address, f: Loop, a: LoopAction)
    requires LoopInv(P, sent, id, f) && LoopEnabled(P, sent, id, f, a)
    requires a.ReadView? || a.Fire? || a.SeeProposal? || a.Search? || a.SeeCertificate? || a.SeeNothing?
    ensures LoopInv(P, sent, id, LoopNext(P, sent, id, f, a))
  {
    assert RoutineOk(P, sent, id, f.st, a.r, f.routines[a.r]);
    hide WorkerOk, RoutineOk, BarrierOk, RoundReady, LoopNext, RoutineEnabled, EventOk;
    WatcherMoves(P, sent, id, f, a);
    WatcherOk(P, sent, id, f, a);
    RoutineStepped(P, sent, id, f, a.r, f.st, LoopNext(P, sent, id, f, a).routines[a.r]);
  }

  /** Wherever the state machine may give up, phase and proposal agree. */
  lemma GivenUpOk(P: Params, sent: set<Message>, id: Address, st: State, pc: Pc)
    requires WorkerOk(P, sent, id, st, pc) && Blocked(pc)
    ensures WorkerOk(P, sent, id, st, Leaving)
  {
    hide Buildable;
  }

  lemma GiveUpKept(P: Params, sent: set<Message>, id: Address, f: Loop, a: LoopAction)
    requires LoopInv(P, sent, id, f) && LoopEnabled(P, sent, id, f, a) && a.GiveUp?
    ensures LoopInv(P, sent, id, LoopNext(P, sent, id, f, a))
  {
    hide WorkerOk, ProposalFor, UsableCertificate, PreparesFor, CommitsFor, Buildable, BarrierOk;
    var f' := LoopNext(P, sent, id, f, a);
    assert RoutineOk(P, sent, id, f.st, a.r, f.routines[a.r]);
    LiveIsCurrent(f, a.r);
    if a.r.kind == StateMachine {
      GivenUpOk(P, sent, id, f.st, f.routines[a.r]);
    }
    RoutineStepped(P, sent, id, f, a.r, f.st, Leaving);
    assert f' == f.At(a.r, Leaving).(st := f.st);
  }

  lemma StartingOk(P: Params, sent: set<Message>, id: Address, f: Loop, a: LoopAction)
    requires LoopEnabled(P, sent, id, f, a) && (a.KickOff? || a.Dispatch? || a.Build?)
    requires RoutineOk(P, sent, id, f.st, a.r, f.routines[a.r])
    ensures a.r.kind == StateMachine && f.routines[a.r] != Exited && f.routines[a.r] != Leaving
    ensures var f' := LoopNext(P, sent, id, f, a);
            && f' == f.At(a.r, f'.routines[a.r]).(st := f'.st) && f'.routines[a.r] != Exited && f'.st.view == f.st.view
            && RoutineOk(P, sent, id, f'.st, a.r, f'.routines[a.r])
            && (WorkerOk(P, sent, id, f.st, f.routines[a.r]) ==> WorkerOk(P, sent, id, f'.st, f'.routines[a.r]))
  {
    hide ProposalFor, UsableCertificate, PreparesFor, CommitsFor, EventOk, Proceed, Proceeding, Move, NewRoutines;
  }

  lemma StartingKept(P: Params, sent: set<Message>, id: Address, f: Loop, a: LoopAction)
    requires LoopInv(P, sent, id, f) && LoopEnabled(P, sent, id, f, a)
    requires a.KickOff? || a.Dispatch? || a.Build?
    ensures a.r == f.Worker()
    ensures LoopInv(P, sent, id, LoopNext(P, sent, id, f, a))
  {
    assert RoutineOk(P, sent, id, f.st, a.r, f.routines[a.r]);
    hide WorkerOk, RoutineOk, BarrierOk, RoundReady, LoopNext, RoutineEnabled, EventOk;
    StartingOk(P, sent, id, f, a);
    LiveIsCurrent(f, a.r);
    var f' := LoopNext(P, sent, id, f, a);
    RoutineStepped(P, sent, id, f, a.r, f'.st, f'.routines[a.r]);
  }

  lemma TakingOk(P: Params, sent: set<Message>, id: Address, f: Loop, a: LoopAction)
    requires LoopEnabled(P, sent, id, f, a) && (a.TakeProposal? || a.TakePrepares? || a.TakeCommits?)
    requires WorkerOk(P, sent, id, f.st, f.routines[a.r]) && f.routines[a.r].view == f.st.view
    ensures WorkerOk(P, sent, id, f.st, LoopNext(P, sent, id, f, a).routines[a.r])
  {
    assert f.st.(view := f.routines[a.r].view) == f.st;
  }

  lemma TakingKept(P: Params, sent: set<Message>, id: Address, f: Loop, a: LoopAction)
    requires LoopInv(P, sent, id, f) && LoopEnabled(P, sent, id, f, a)
    requires a.TakeProposal? || a.TakePrepares? || a.TakeCommits?
    ensures a.r == f.Worker()
    ensures LoopInv(P, sent, id, LoopNext(P, sent, id, f, a))
  {
    hide WorkerOk, UsableCertificate, ProposalFor, PreparesFor, CommitsFor, Buildable, BarrierOk;
    var pc' := LoopNext(P, sent, id, f, a).routines[a.r];
    assert RoutineOk(P, sent, id, f.st, a.r, f.routines[a.r]);
    LiveIsCurrent(f, a.r);
    TakingOk(P, sent, id, f, a);
    RoutineStepped(P, sent, id, f, a.r, f.st, pc');
    assert LoopNext(P, sent, id, f, a) == f.At(a.r, pc').(st := f.st);
  }

  lemma ProceedOk(P: Params, sent: set<Message>, id: Address, st: State, pc: Pc)
    requires WorkerOk(P, sent, id, st, pc) && (HasView(pc) ==> pc.view == st.view)
    requires Proceeding(st, pc)
    ensures var (st', pc') := Proceed(P, st, pc);
            WorkerOk(P, sent, id, st', pc') && st'.view == st.view && !pc'.Exited? && !pc'.Leaving?
            && (HasView(pc') ==> pc'.view == st.view)
            && (pc'.Offering? ==> pc'.ev == Done && st'.name == Fin && st'.proposalMessage.Some?)
            && !pc'.Watching? && !pc'.Searching? && !pc'.TimerRunning?
  {
    hide ProposalFor, UsableCertificate, PreparesFor, CommitsFor, ProposedMessage, RoundReady;
    if pc.Built? {
      assert st == st.(proposalMessage := None);
    }
  }

  lemma ContinueKept(P: Params, sent: set<Message>, id: Address, f: Loop, a: LoopAction)
    requires LoopInv(P, sent, id, f) && LoopEnabled(P, sent, id, f, a) && a.Continue?
    ensures LoopInv(P, sent, id, LoopNext(P, sent, id, f, a))
    ensures a.r == f.Worker()
  {
    hide WorkerOk, ProposalFor, UsableCertificate, PreparesFor, CommitsFor, Buildable, BarrierOk;
    var pc := f.routines[a.r];
    assert RoutineOk(P, sent, id, f.st, a.r, pc);
    LiveIsCurrent(f, a.r);
    ProceedOk(P, sent, id, f.st, pc);
    var (st', pc') := Proceed(P, f.st, pc);
    RoutineStepped(P, sent, id, f, a.r, st', pc');
  }

  // ---------- the barrier ----------

  lemma ExitedOk(P: Params, sent: set<Message>, id: Address, st: State, r: Routine)
    ensures RoutineOk(P, sent, id, st, r, Exited)
    ensures WorkerOk(P, sent, id, st, Leaving) ==> WorkerOk(P, sent, id, st, Exited)
  {
  }

  lemma BarrierExit(f: Loop, f': Loop, r: Routine)
    requires BarrierOk(f) && r in f.routines && f.routines[r] == Leaving
    requires f' == f.At(r, Exited).(wg := f.wg - 1)
    ensures BarrierOk(f')
  {
    assert LiveSet(f') == LiveSet(f) - {r} && r in LiveSet(f);
    hide LiveIn;
  }

  lemma ExitKept(P: Params, sent: set<Message>, id: Address, f: Loop, a: LoopAction)
    requires LoopInv(P, sent, id, f) && LoopEnabled(P, sent, id, f, a) && a.Exit?
    ensures LoopInv(P, sent, id, LoopNext(P, sent, id, f, a))
  {
    hide WorkerOk, RoutineOk, EventOk, RoundReady, BarrierOk;
    var f' := LoopNext(P, sent, id, f, a);
    ExitedOk(P, sent, id, f.st, a.r);
    BarrierExit(f, f', a.r);
    assert f'.WorkerPc() == f.WorkerPc() || (f.WorkerPc() == Leaving && f'.WorkerPc() == Exited);
  }

  lemma SpawnKept(P: Params, sent: set<Message>, id: Address, f: Loop, a: LoopAction)
    requires LoopInv(P, sent, id, f) && LoopEnabled(P, sent, id, f, a) && a.Spawn?
    ensures LoopInv(P, sent, id, LoopNext(P, sent, id, f, a))
  {
    hide UsableCertificate, ProposalFor, PreparesFor, CommitsFor, Buildable, BarrierOk, EventOk, RoundReady;
    var f' := LoopNext(P, sent, id, f, a);
    BarrierSpawn(f, f');
    forall r | r in f'.routines ensures RoutineOk(P, sent, id, f'.st, r, f'.routines[r]) {
      if r in NewRoutines(f.iteration) {
        assert f'.routines[r] == Starting;
      }
    }
  }

  lemma NewRoutinesCount(i: nat)
    ensures |NewRoutines(i).Keys| == 4
  {
    assert NewRoutines(i).Keys ==
           {Routine(i, RoundTimer), Routine(i, ProposalWatcher), Routine(i, CertificateWatcher),
            Routine(i, StateMachine)};
  }

  /** With all earlier routines gone, the live ones are the new ones. */
  lemma NewRoutinesLive(m: map<Routine, Pc>, i: nat)
    requires LiveIn(m) == {}
    ensures LiveIn(m + NewRoutines(i)) == NewRoutines(i).Keys
  {
    forall r | r in m ensures m[r] == Exited {
      assert r in LiveIn(m) ==> LiveIn(m) != {};
    }
    forall r | r in NewRoutines(i) ensures NewRoutines(i)[r] == Starting {
    }
  }

  lemma NewRoutineIsNew(i: nat, r: Routine)
    ensures r in NewRoutines(i) ==> r.iteration == i && NewRoutines(i)[r] == Starting
    ensures Routine(i, StateMachine) in NewRoutines(i)
  {
  }

  lemma NothingLive(f: Loop)
    requires BarrierOk(f) && f.main == Head
    ensures LiveIn(f.routines) == {}
    ensures forall r :: r in f.routines ==> r.iteration < f.iteration && f.routines[r] == Exited
  {
  }

  lemma BarrierSpawn(f: Loop, f': Loop)
    requires BarrierOk(f) && f.main == Head
    requires f'.main == Selecting(f.st.view) && f'.st == f.st && f'.iteration == f.iteration + 1 && f'.wg == f.wg + 4
    requires f'.routines == f.routines + NewRoutines(f.iteration)
    ensures BarrierOk(f') && f'.WorkerPc() == Starting
  {
    hide LiveIn, NewRoutines;
    var i, m := f.iteration, f'.routines;
    NothingLive(f);
    NewRoutinesLive(f.routines, i);
    NewRoutinesCount(i);
    assert f'.wg == |LiveSet(f')|;
    forall r | r in m ensures r.iteration < i + 1 && (m[r] != Exited ==> r.iteration == i) {
      NewRoutineIsNew(i, r);
    }
    NewRoutineIsNew(i, Routine(i, StateMachine));
    assert f'.Worker() == Routine(i, StateMachine);
  }


  /** What a routine offers is for the current view; having delivered it, the routine leaves. */
  lemma OfferedOk(P: Params, sent: set<Message>, id: Address, st: State, r: Routine, pc: Pc)
    requires RoutineOk(P, sent, id, st, r, pc) && pc.Offering?
    ensures EventOk(P, sent, id, st, pc.ev) && OffererOk(r.kind, pc.ev) && RoutineOk(P, sent, id, st, r, Leaving)
    ensures WorkerOk(P, sent, id, st, pc) ==> WorkerOk(P, sent, id, st, Leaving)
  {
    hide ProposalFor, UsableCertificate;
  }

  lemma NoticeKept(P: Params, sent: set<Message>, id: Address, f: Loop, a: LoopAction)
    requires LoopInv(P, sent, id, f) && LoopEnabled(P, sent, id, f, a) && a.NoticeCancel?
    ensures LoopInv(P, sent, id, LoopNext(P, sent, id, f, a))
  {
    hide WorkerOk, RoutineOk, RoundReady;
    assert LiveSet(LoopNext(P, sent, id, f, a)) == LiveSet(f);
  }

  lemma BarrierReceived(f: Loop, f': Loop, r: Routine)
    requires BarrierOk(f) && f.main.Selecting? && r in f.routines && f.routines[r].Offering?
    requires f'.routines == f.routines[r := Leaving] && f'.main == Joining(f.main.view, f.routines[r].ev)
    requires f'.st == f.st && f'.iteration == f.iteration && f'.wg == f.wg
    ensures BarrierOk(f')
    ensures r.iteration + 1 == f.iteration && f.main.view == f.st.view
  {
    assert LiveSet(f') == LiveSet(f);
  }

  lemma ReceiveKept(P: Params, sent: set<Message>, id: Address, f: Loop, a: LoopAction)
    requires LoopInv(P, sent, id, f) && LoopEnabled(P, sent, id, f, a) && a.Receive?
    ensures LoopInv(P, sent, id, LoopNext(P, sent, id, f, a))
    ensures a.r.iteration + 1 == f.iteration && f.main.view == f.st.view
  {
    var f' := LoopNext(P, sent, id, f, a);
    hide WorkerOk, RoutineOk, RoundReady, BarrierOk, EventOk;
    OfferedOk(P, sent, id, f.st, a.r, f.routines[a.r]);
    LiveIsCurrent(f, a.r);
    BarrierReceived(f, f', a.r);
  }

  /** When the barrier opens, all four routines are gone. */
  lemma BarrierOpen(f: Loop)
    requires BarrierOk(f) && f.wg == 0
    ensures forall r :: r in f.routines ==> f.routines[r] == Exited
    ensures f.WorkerPc() == Exited
  {
    forall r | r in f.routines ensures f.routines[r] == Exited {
      assert r in LiveSet(f) ==> LiveSet(f) != {};
    }
  }

  lemma AfterJoinKept(P: Params, sent: set<Message>, id: Address, f: Loop, a: LoopAction)
    requires LoopInv(P, sent, id, f) && LoopEnabled(P, sent, id, f, a) && a.AfterJoin?
    ensures LoopInv(P, sent, id, LoopNext(P, sent, id, f, a))
  {
    var f' := LoopNext(P, sent, id, f, a);
    BarrierOpen(f);
    assert LiveSet(f') == LiveSet(f) == {};
    assert f'.WorkerPc() == Exited;
    if f.main.ev.FutureProposal? {
      var m := f.main.ev.proposal;
      assert ValidPrePrepare(P.b, id, m, View(f.st.view.height, m.view.round));
    }
    forall r | r in f'.routines ensures RoutineOk(P, sent, id, f'.st, r, f'.routines[r]) {
      assert f.routines[r] == Exited;
    }
  }

  /** Every step of every routine keeps the invariant of the loop. */
  lemma LoopKept(P: Params, sent: set<Message>, id: Address, f: Loop, a: LoopAction)
    requires LoopInv(P, sent, id, f) && LoopEnabled(P, sent, id, f, a)
    ensures LoopInv(P, sent, id, LoopNext(P, sent, id, f, a))
  {
    if a.Spawn? { SpawnKept(P, sent, id, f, a); }
    else if a.CancelSequence? { CancelKept(P, sent, id, f, a); }
    else if a.NoticeCancel? { NoticeKept(P, sent, id, f, a); }
    else if a.Receive? { ReceiveKept(P, sent, id, f, a); }
    else if a.AfterJoin? { AfterJoinKept(P, sent, id, f, a); }
    else if a.Exit? { ExitKept(P, sent, id, f, a); }
    else if a.Continue? { ContinueKept(P, sent, id, f, a); }
    else if a.GiveUp? { GiveUpKept(P, sent, id, f, a); }
    else if a.ReadView? || a.Fire? || a.SeeProposal? || a.Search? || a.SeeCertificate? || a.SeeNothing? {
      WatcherKept(P, sent, id, f, a);
    }
    else if a.KickOff? || a.Dispatch? || a.Build? { StartingKept(P, sent, id, f, a); }
    else { TakingKept(P, sent, id, f, a); }
  }

  lemma CancelKept(P: Params, sent: set<Message>, id: Address, f: Loop, a: LoopAction)
    requires LoopInv(P, sent, id, f) && LoopEnabled(P, sent, id, f, a) && a.CancelSequence?
    ensures LoopInv(P, sent, id, LoopNext(P, sent, id, f, a))
  {
    assert LiveSet(LoopNext(P, sent, id, f, a)) == LiveSet(f);
  }
}
