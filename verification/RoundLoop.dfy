/** The concurrency of one node: RunSequence starts four routines per round,
    takes one event from them over unbuffered channels, cancels them, waits on
    the barrier, and only then moves on. Every shared read and write is a step. */
module RoundLoop {
  import opened Types
  import opened Proposals
  import opened NodeState
  import opened Protocol

  datatype Kind = RoundTimer | ProposalWatcher | CertificateWatcher | StateMachine

  /** A routine started in some iteration of the loop of RunSequence. */
  datatype Routine = Routine(iteration: nat, kind: Kind)

  datatype Event =
    | FutureProposal(proposal: Message)
    | FutureCertificate(rcs: seq<Message>)
    | Expired
    | Done
    | Cancelled

  /** Where a routine stands. `view` is the view it has read from the state. */
  datatype Pc =
    | Exited                                     // wg.Done() has been called
    | Leaving                                    // returned, wg.Done() still to come
    | Offering(ev: Event)                        // blocked sending to RunSequence
    | Starting
    | TimerRunning
    | Watching(view: View)
    | Searching(view: View, hasAccepted: bool)   // has read whether there is a proposal, not yet the queues
    // the state machine: buildProposal and its announcement
    | Started                                    // state.newRound() done
    | Building(view: View)
    | Built(view: View, build: Action)           // before setProposalMessage
    | BuiltSet(view: View, build: Action)        // before changeState(prepare)
    | Announcing(view: View, build: Action)      // before multicasting PREPREPARE
    // the state machine: the loop over the phases
    | Looping
    | InNewRound(view: View)
    | Holding(view: View, proposal: Message)     // before setProposalMessage
    | Preparing(view: View, proposal: Message)   // before multicasting PREPARE
    | Prepared(view: View)                       // before changeState(prepare)
    | InPrepare(view: View)
    | Committing(view: View, prepares: seq<Message>)  // before multicasting COMMIT
    | Locking(view: View, prepares: seq<Message>)     // before finalizePrepare
    | InCommit(view: View)
    | Sealing(view: View, commits: seq<Message>)      // before setCommittedSeals
    | Finishing(view: View)                           // before changeState(fin)

  /** RunSequence itself: at the top of its loop, in the select, or waiting on
      the barrier with the event it has received. */
  datatype MainPc = Head | Selecting(view: View) | Joining(view: View, ev: Event) | Stopped

  /** `wg` is the barrier's counter; `cancelled` the iterations whose context is
      cancelled; `cancelAll` says that the caller's context is. */
  datatype Loop = Loop(
    st: State,
    main: MainPc,
    iteration: nat,
    routines: map<Routine, Pc>,
    wg: int,
    cancelled: set<nat>,
    cancelAll: bool)
  {
    predicate ContextDone(r: Routine) {
      cancelAll || r.iteration in cancelled
    }

    function At(r: Routine, pc: Pc): Loop {
      this.(routines := routines[r := pc])
    }

    /** The state machine of the current iteration. */
    function Worker(): Routine {
      Routine(if iteration > 0 then iteration - 1 else 0, StateMachine)
    }

    function WorkerPc(): Pc {
      if Worker() in routines then routines[Worker()] else Exited
    }
  }

  datatype LoopAction =
    | Spawn
    | CancelSequence
    | NoticeCancel
    | Receive(r: Routine)
    | AfterJoin(signature: Bytes)
    | Exit(r: Routine)
    | GiveUp(r: Routine)
    | ReadView(r: Routine)
    | Fire(r: Routine)
    | SeeProposal(r: Routine, proposal: Message)
    | Search(r: Routine)
    | SeeCertificate(r: Routine, rcs: seq<Message>)
    | SeeNothing(r: Routine)
    | KickOff(r: Routine)
    | Dispatch(r: Routine)
    | Build(r: Routine, build: Action)
    | TakeProposal(r: Routine, proposal: Message)
    | TakePrepares(r: Routine, prepares: seq<Message>)
    | TakeCommits(r: Routine, commits: seq<Message>)
    | Continue(r: Routine, seal: Bytes, signature: Bytes)

  /** The points at which a routine selects on its context. */
  predicate Blocked(pc: Pc) {
    || pc.Offering? || pc.TimerRunning? || pc.Watching? || (pc.Building? && pc.view.round > 0)
    || pc.InNewRound? || pc.InPrepare? || pc.InCommit?
  }

  predicate NeedsProposal(pc: Pc) {
    pc.Preparing? || pc.Committing? || pc.Locking?
  }

  /** The program points from which the state machine goes on by itself. */
  ghost predicate Proceeding(st: State, pc: Pc) {
    && !pc.Exited? && !pc.Leaving? && !Blocked(pc) && !pc.Starting? && !pc.Searching? && !pc.Started? && !pc.Building?
    && (NeedsProposal(pc) ==> st.proposalMessage.Some?)
    && (pc.Announcing? || pc.Built? || pc.BuiltSet? ==>
          pc.build.Propose? && (pc.view.round > 0 ==> AllReadable(pc.build.rcs)))
  }

  ghost predicate Buildable(P: Params, sent: set<Message>, id: Address, st: State, view: View, build: Action) {
    && build.Propose? && build.node == id
    && (view.round > 0 ==> RoundChangesFor(P, sent, st, build.rcs) && AllReadable(build.rcs))
  }

  /** The steps only a routine of its kind can take. */
  ghost predicate RoutineEnabled(P: Params, sent: set<Message>, id: Address, f: Loop, r: Routine, pc: Pc,
                                 a: LoopAction) {
    match a
    case Exit(_) => pc == Leaving
    case GiveUp(_) => Blocked(pc) && f.ContextDone(r)
    case ReadView(_) => pc == Starting && r.kind != StateMachine
    case Fire(_) => pc == TimerRunning
    case SeeProposal(_, m) =>
      && pc.Watching? && r.kind == ProposalWatcher
      && m.view.round >= NextRound(pc.view.round)
      && ProposalFor(P, sent, id, m, View(pc.view.height, m.view.round))
    case Search(_) => pc.Watching? && r.kind == CertificateWatcher
    case SeeCertificate(_, rcs) =>
      && pc.Searching? && UsableCertificate(P, sent, pc.view.height, rcs)
      && (rcs[0].view.round == pc.view.round ==> !pc.hasAccepted)
    case SeeNothing(_) => pc.Searching?
    case KickOff(_) => pc == Starting && r.kind == StateMachine
    case Dispatch(_) => pc == Started
    case Build(_, build) => pc.Building? && Buildable(P, sent, id, f.st, pc.view, build)
    case TakeProposal(_, m) => pc.InNewRound? && ProposalFor(P, sent, id, m, pc.view)
    case TakePrepares(_, prepares) => pc.InPrepare? && PreparesFor(P, sent, f.st.(view := pc.view), prepares)
    case TakeCommits(_, commits) => pc.InCommit? && CommitsFor(P, sent, f.st.(view := pc.view), commits)
    case Continue(_, _, _) => Proceeding(f.st, pc)
    case _ => false
  }

  ghost predicate LoopEnabled(P: Params, sent: set<Message>, id: Address, f: Loop, a: LoopAction) {
    match a
    case Spawn => f.main == Head
    case CancelSequence => true
    case NoticeCancel => f.main.Selecting? && f.cancelAll
    case Receive(r) => f.main.Selecting? && r in f.routines && f.routines[r].Offering?
    case AfterJoin(_) =>
      && f.main.Joining? && f.wg == 0
      && (f.main.ev.FutureCertificate? ==> f.main.ev.rcs != [])
    case _ => a.r in f.routines && RoutineEnabled(P, sent, id, f, a.r, f.routines[a.r], a)
  }

  /** The next program point and state of a routine. */
  ghost function Proceed(P: Params, st: State, pc: Pc): (State, Pc)
    requires Proceeding(st, pc)
  {
    match pc
    case Built(view, build) =>
      (st.(proposalMessage := Some(ProposedMessage(P, view, build))), BuiltSet(view, build))
    case BuiltSet(view, build) => (st.(name := Prepare), Announcing(view, build))
    case Announcing(_, _) => (st, Looping)
    case Holding(view, m) => (st.(proposalMessage := Some(m)), Preparing(view, m))
    case Preparing(view, _) => (st, Prepared(view))
    case Prepared(_) => (st.(name := Prepare), Looping)
    case Committing(view, prepares) => (st, Locking(view, prepares))
    case Locking(_, prepares) => (st.Lock(PreparedCertificate(st.proposalMessage, Some(prepares))), Looping)
    case Sealing(view, commits) => (st.(seals := SealsOf(commits)), Finishing(view))
    case Finishing(_) => (st.(name := Fin), Looping)
    case Looping =>
      (st, match st.name
           case NewRound => InNewRound(st.view)
           case Prepare => InPrepare(st.view)
           case Commit => InCommit(st.view)
           case Fin => Offering(Done))
    case _ => (st, pc)
  }

  /** What RunSequence does to the state with the event, once all have left. */
  function Move(st: State, view: View, ev: Event): State
    requires ev.FutureCertificate? ==> ev.rcs != []
  {
    match ev
    case FutureProposal(m) => st.MoveTo(m.view.round).Accept(m).(roundStarted := true)
    case FutureCertificate(rcs) => st.MoveTo(rcs[0].view.round)
    case Expired => st.MoveTo(NextRound(view.round))
    case Done => st
    case Cancelled => st
  }

  function NewRoutines(iteration: nat): map<Routine, Pc> {
    map[Routine(iteration, RoundTimer) := Starting, Routine(iteration, ProposalWatcher) := Starting,
        Routine(iteration, CertificateWatcher) := Starting, Routine(iteration, StateMachine) := Starting]
  }

  ghost function LoopNext(P: Params, sent: set<Message>, id: Address, f: Loop, a: LoopAction): Loop
    requires LoopEnabled(P, sent, id, f, a)
  {
    match a
    case Spawn =>
      f.(main := Selecting(f.st.view), iteration := f.iteration + 1,
         routines := f.routines + NewRoutines(f.iteration), wg := f.wg + 4)
    case CancelSequence => f.(cancelAll := true)
    case NoticeCancel => f.(main := Joining(f.main.view, Cancelled), cancelled := f.cancelled + {f.Worker().iteration})
    case Receive(r) =>
      f.At(r, Leaving).(main := Joining(f.main.view, f.routines[r].ev),
                        cancelled := f.cancelled + {f.Worker().iteration})
    case AfterJoin(_) =>
      f.(st := Move(f.st, f.main.view, f.main.ev),
         main := if f.main.ev.Done? || f.main.ev.Cancelled? then Stopped else Head)
    case Exit(r) => f.At(r, Exited).(wg := f.wg - 1)
    case GiveUp(r) => f.At(r, Leaving)
    case ReadView(r) => f.At(r, if r.kind == RoundTimer then TimerRunning else Watching(f.st.view))
    case Fire(r) => f.At(r, Offering(Expired))
    case SeeProposal(r, m) => f.At(r, Offering(FutureProposal(m)))
    case Search(r) => f.At(r, Searching(f.routines[r].view, f.st.GetProposal().Some?))
    case SeeCertificate(r, rcs) => f.At(r, Offering(FutureCertificate(rcs)))
    case SeeNothing(r) => f.At(r, Watching(f.routines[r].view))
    case KickOff(r) => f.At(r, Started).(st := f.st.KickOff())
    case Dispatch(r) => f.At(r, if P.b.IsProposer(id, f.st.view) then Building(f.st.view) else Looping)
    case Build(r, build) => f.At(r, Built(f.routines[r].view, build))
    case TakeProposal(r, m) => f.At(r, Holding(f.routines[r].view, m))
    case TakePrepares(r, prepares) => f.At(r, Committing(f.routines[r].view, prepares))
    case TakeCommits(r, commits) => f.At(r, Sealing(f.routines[r].view, commits))
    case Continue(r, _, _) =>
      var (st', pc') := Proceed(P, f.st, f.routines[r]);
      f.At(r, pc').(st := st')
  }

  /** What the state machine multicasts when it goes on. */
  ghost function Announced(P: Params, id: Address, st: State, pc: Pc, seal: Bytes, signature: Bytes): Option<Message>
    requires Proceeding(st, pc)
  {
    match pc
    case Announcing(view, build) => Some(ProposedMessage(P, view, build))
    case Preparing(view, _) => Some(BuildPrepareMessage(id, st.GetProposalHash(), view, signature))
    case Committing(view, _) => Some(BuildCommitMessage(id, st.GetProposalHash(), view, seal, signature))
    case _ => None
  }

  /** The message multicast in the step, if any. */
  ghost function LoopMulticast(P: Params, sent: set<Message>, id: Address, f: Loop, a: LoopAction): Option<Message>
    requires LoopEnabled(P, sent, id, f, a)
  {
    match a
    case AfterJoin(s) => (
      match f.main.ev
      case FutureProposal(m) => Some(BuildPrepareMessage(id, ExtractProposalHash(m), f.main.view, s))
      case Expired =>
        Some(BuildRoundChangeMessage(id, f.st.latestPreparedProposal, f.st.latestPC,
                                     View(P.height, NextRound(f.main.view.round)), s))
      case _ => None)
    case Continue(r, seal, s) => Announced(P, id, f.st, f.routines[r], seal, s)
    case _ => None
  }

  // ---------- all nodes together ----------

  datatype System = System(nodes: map<Address, Loop>, sent: set<Message>, inserted: map<Address, Block>)

  datatype SystemAction = Local(node: Address, a: LoopAction) | Elsewhere(messages: set<Message>)

  ghost predicate SystemEnabled(P: Params, s: System, x: SystemAction) {
    match x
    case Elsewhere(ms) => forall m :: m in ms ==> m.view.height != P.height
    case Local(n, a) =>
      && n in s.nodes && LoopEnabled(P, s.sent, n, s.nodes[n], a)
      && var out := LoopMulticast(P, s.sent, n, s.nodes[n], a); out.Some? ==> P.b.validSender(out.value)
  }

  ghost function SystemNext(P: Params, s: System, x: SystemAction): System
    requires SystemEnabled(P, s, x)
  {
    match x
    case Elsewhere(ms) => s.(sent := s.sent + ms)
    case Local(n, a) =>
      var f := s.nodes[n];
      var out := LoopMulticast(P, s.sent, n, f, a);
      System(s.nodes[n := LoopNext(P, s.sent, n, f, a)],
             if out.Some? then s.sent + {out.value} else s.sent,
             if a.AfterJoin? && f.main.ev.Done?
             then s.inserted[n := Block(f.st.RawData(), f.st.view.round, f.st.seals)] else s.inserted)
  }

  /** The round RunSequence moves to lies above the one it leaves. */
  predicate LoopMovesUp(f: Loop, a: LoopAction) {
    a.AfterJoin? && f.main.Joining? ==>
      match f.main.ev
      case FutureProposal(m) => m.view.round > f.st.view.round
      case FutureCertificate(rcs) => rcs != [] ==> rcs[0].view.round > f.st.view.round
      case Expired => NextRound(f.st.view.round) > f.st.view.round
      case _ => true
  }

  predicate SystemMovesUp(s: System, x: SystemAction) {
    x.Local? && x.node in s.nodes ==> LoopMovesUp(s.nodes[x.node], x.a)
  }

  function InitialLoop(height: nat): Loop {
    Loop(Initial(height), Head, 0, map[], 0, {}, false)
  }

  ghost predicate SystemInit(P: Params, s: System) {
    && s.nodes == (map n | n in P.nodes :: InitialLoop(P.height))
    && (forall m :: m in s.sent ==> m.view.height != P.height)
    && s.inserted == map[]
  }

  ghost predicate SystemRun(P: Params, states: seq<System>, steps: seq<SystemAction>) {
    && |states| == |steps| + 1
    && SystemInit(P, states[0])
    && forall i :: 0 <= i < |steps| ==>
         SystemEnabled(P, states[i], steps[i]) && states[i + 1] == SystemNext(P, states[i], steps[i])
  }

  /** A run in which RunSequence of this node always moves to a round above the one it leaves. */
  ghost predicate SystemUpwardAt(states: seq<System>, steps: seq<SystemAction>, n: Address) {
    && |states| == |steps| + 1
    && forall i :: 0 <= i < |steps| && steps[i].Local? && steps[i].node == n ==> SystemMovesUp(states[i], steps[i])
  }

  /** The same of every node. */
  ghost predicate SystemUpward(states: seq<System>, steps: seq<SystemAction>) {
    |states| == |steps| + 1 && forall i :: 0 <= i < |steps| ==> SystemMovesUp(states[i], steps[i])
  }
}
