/** The other direction: the protocol steps are not only an upper bound of what the
    interleaved routines do. Every protocol run is a run of the system, if no node
    moves on a certificate of its own round with a proposal in hand, and none
    leaves round 0 as its proposer without having proposed. */
module Realization {
  import opened Types
  import opened NodeState
  import opened Proposals
  import opened Protocol
  import opened RoundLoop
  import opened LoopInvariant
  import opened Simulation

  // ---------- reachable states ----------

  /** How many of the moves to another round were not upward. */
  ghost function Downs(states: seq<System>, steps: seq<SystemAction>): nat
    requires |states| == |steps| + 1
  {
    if steps == [] then 0 else
      var n := |steps| - 1;
      Downs(states[..|steps|], steps[..n]) + if SystemMovesUp(states[n], steps[n]) then 0 else 1
  }

  lemma {:induction false} NoDowns(states: seq<System>, steps: seq<SystemAction>)
    requires |states| == |steps| + 1 && Downs(states, steps) == 0
    ensures SystemUpward(states, steps)
  {
    if steps != [] {
      var n := |steps| - 1;
      NoDowns(states[..|steps|], steps[..n]);
      assert forall i :: 0 <= i < n ==> states[i] == states[..|steps|][i] && steps[i] == steps[..n][i];
    }
  }

  ghost predicate ReachedBy(P: Params, d: nat, s: System, states: seq<System>, steps: seq<SystemAction>) {
    SystemRun(P, states, steps) && states[|steps|] == s && Downs(states, steps) == d
  }

  /** Some run with that many moves that are not upward leads to the state. */
  ghost predicate Reachable(P: Params, d: nat, s: System) {
    exists states, steps :: ReachedBy(P, d, s, states, steps)
  }

  function Counted(d: nat, up: bool): nat {
    if up then d else d + 1
  }

  lemma ReachStep(P: Params, d: nat, s: System, x: SystemAction)
    requires Reachable(P, d, s) && SystemEnabled(P, s, x)
    ensures Reachable(P, Counted(d, SystemMovesUp(s, x)), SystemNext(P, s, x))
  {
    hide SystemNext, SystemEnabled, SystemInit, SystemMovesUp;
    var states, steps :| ReachedBy(P, d, s, states, steps);
    var states', steps' := states + [SystemNext(P, s, x)], steps + [x];
    forall i | 0 <= i < |steps'|
      ensures SystemEnabled(P, states'[i], steps'[i]) && states'[i + 1] == SystemNext(P, states'[i], steps'[i])
    {
      if i < |steps| {
        assert states'[i] == states[i] && states'[i + 1] == states[i + 1] && steps'[i] == steps[i];
      }
    }
    assert states'[..|steps'|] == states && steps'[..|steps|] == steps;
    assert ReachedBy(P, Counted(d, SystemMovesUp(s, x)), SystemNext(P, s, x), states', steps');
  }

  function Put(s: System, n: Address, f: Loop): System {
    s.(nodes := s.nodes[n := f])
  }

  /** The state with the node's loop replaced can be reached. */
  ghost predicate Reaches(P: Params, d: nat, s: System, n: Address, f: Loop) {
    Reachable(P, d, Put(s, n, f))
  }

  /** A step of a routine, with the message it may send. */
  lemma Step(P: Params, d: nat, s: System, n: Address, f: Loop, a: LoopAction) returns (s': System)
    requires Reaches(P, d, s, n, f) && LoopEnabled(P, s.sent, n, f, a) && !(a.AfterJoin? && f.main.ev.Done?)
    requires var out := LoopMulticast(P, s.sent, n, f, a); out.Some? ==> P.b.validSender(out.value)
    ensures s' == (match LoopMulticast(P, s.sent, n, f, a) case Some(m) => s.(sent := s.sent + {m}) case None => s)
    ensures Reaches(P, Counted(d, LoopMovesUp(f, a)), s', n, LoopNext(P, s.sent, n, f, a))
    ensures !a.AfterJoin? ==> Counted(d, LoopMovesUp(f, a)) == d
  {
    hide LoopNext, LoopMulticast, LoopEnabled, Reachable;
    s' := match LoopMulticast(P, s.sent, n, f, a) case Some(m) => s.(sent := s.sent + {m}) case None => s;
    var was := Put(s, n, f);
    ReachStep(P, d, was, Local(n, a));
    assert was.nodes[n := LoopNext(P, s.sent, n, f, a)] == s.nodes[n := LoopNext(P, s.sent, n, f, a)];
    assert SystemNext(P, was, Local(n, a)) == Put(s', n, LoopNext(P, s.sent, n, f, a));
  }

  // ---------- nodes at rest ----------

  /** Where the state machine waits. */
  function RestPc(P: Params, id: Address, st: State): Pc {
    match st.name
    case NewRound => if P.b.IsProposer(id, st.view) then Building(st.view) else InNewRound(st.view)
    case Prepare => InPrepare(st.view)
    case Commit => InCommit(st.view)
    case Fin => Offering(Done)
  }

  /** The program points of the four routines of the current iteration. */
  predicate At(f: Loop, timer: Pc, proposals: Pc, certificates: Pc, worker: Pc) {
    var i := f.Worker().iteration;
    && Routine(i, RoundTimer) in f.routines && f.routines[Routine(i, RoundTimer)] == timer
    && Routine(i, ProposalWatcher) in f.routines && f.routines[Routine(i, ProposalWatcher)] == proposals
    && Routine(i, CertificateWatcher) in f.routines && f.routines[Routine(i, CertificateWatcher)] == certificates
    && Routine(i, StateMachine) in f.routines && f.routines[Routine(i, StateMachine)] == worker
  }

  predicate Uncancelled(f: Loop) {
    !f.cancelAll && forall i :: i in f.cancelled ==> i + 1 < f.iteration
  }

  /** In the middle of a round, with the state machine at some point. */
  predicate InRoundAt(f: Loop, worker: Pc) {
    && f.iteration > 0 && f.main == Selecting(f.st.view) && f.wg == 4 && Uncancelled(f)
    && At(f, TimerRunning, Watching(f.st.view), Watching(f.st.view), worker)
  }

  /** About to start a round. */
  predicate AtHead(P: Params, id: Address, f: Loop) {
    && f.main == Head && f.wg == 0 && !f.cancelAll && (forall i :: i in f.cancelled ==> i < f.iteration)
    && RoundReady(P, id, f.st)
  }

  predicate Ready(P: Params, id: Address, f: Loop, st: State) {
    (InRoundAt(f, RestPc(P, id, f.st)) || AtHead(P, id, f)) && f.st.(roundStarted := false) == st
  }

  // ---------- single steps of a routine ----------

  lemma ReadsView(P: Params, d: nat, s: System, n: Address, f: Loop, r: Routine) returns (f': Loop)
    requires Reaches(P, d, s, n, f) && r in f.routines && f.routines[r] == Starting && r.kind != StateMachine
    ensures f' == f.At(r, if r.kind == RoundTimer then TimerRunning else Watching(f.st.view)) && Reaches(P, d, s, n, f')
  {
    hide Reaches;
    var s' := Step(P, d, s, n, f, ReadView(r));
    f' := LoopNext(P, s.sent, n, f, ReadView(r));
  }

  lemma KicksOff(P: Params, d: nat, s: System, n: Address, f: Loop, r: Routine) returns (f': Loop)
    requires Reaches(P, d, s, n, f) && r in f.routines && f.routines[r] == Starting && r.kind == StateMachine
    ensures f' == f.At(r, if P.b.IsProposer(n, f.st.view) then Building(f.st.view) else Looping).(st := f.st.KickOff())
    ensures Reaches(P, d, s, n, f')
  {
    hide Reaches;
    var s' := Step(P, d, s, n, f, KickOff(r));
    var g := LoopNext(P, s.sent, n, f, KickOff(r));
    s' := Step(P, d, s, n, g, Dispatch(r));
    f' := LoopNext(P, s.sent, n, g, Dispatch(r));
    Overwritten(f.routines, r, Started, f'.routines[r]);
  }

  lemma Overwritten(m: map<Routine, Pc>, r: Routine, pc: Pc, pc': Pc)
    ensures m[r := pc][r := pc'] == m[r := pc']
  {
  }

  /** The loop with its state machine somewhere else, in another state. */
  function Now(f: Loop, st: State, pc: Pc): Loop {
    f.At(f.Worker(), pc).(st := st)
  }

  function Sent(s: System, out: Option<Message>): System {
    match out
    case Some(m) => s.(sent := s.sent + {m})
    case None => s
  }

  lemma NowAgain(f: Loop, st: State, pc: Pc, st': State, pc': Pc)
    ensures Now(Now(f, st, pc), st', pc') == Now(f, st', pc')
  {
    Overwritten(f.routines, f.Worker(), pc, pc');
  }

  /** The state machine goes on by itself. */
  lemma Proceeds(P: Params, d: nat, s: System, n: Address, f: Loop, st: State, pc: Pc, seal: Bytes, signature: Bytes)
      returns (s': System)
    requires Reaches(P, d, s, n, Now(f, st, pc)) && Proceeding(st, pc)
    requires var out := Announced(P, n, st, pc, seal, signature); out.Some? ==> P.b.validSender(out.value)
    ensures s' == Sent(s, Announced(P, n, st, pc, seal, signature))
    ensures Reaches(P, d, s', n, Now(f, Proceed(P, st, pc).0, Proceed(P, st, pc).1))
  {
    hide Reaches, Proceed, Proceeding, Announced;
    var a := Continue(f.Worker(), seal, signature);
    s' := Step(P, d, s, n, Now(f, st, pc), a);
    NowAgain(f, st, pc, Proceed(P, st, pc).0, Proceed(P, st, pc).1);
  }

  /** From the top of its loop, the state machine goes to where it waits. */
  lemma Loops(P: Params, d: nat, s: System, n: Address, f: Loop, st: State)
    requires Reaches(P, d, s, n, Now(f, st, Looping)) && (st.name == NewRound ==> !P.b.IsProposer(n, st.view))
    ensures Reaches(P, d, s, n, Now(f, st, RestPc(P, n, st)))
  {
    hide Reaches;
    var s' := Proceeds(P, d, s, n, f, st, Looping, Nil, Nil);
  }

  /** The state machine takes what it waits for. */
  lemma Takes(P: Params, d: nat, s: System, n: Address, f: Loop, a: LoopAction, st: State, pc: Pc)
    requires Reaches(P, d, s, n, f) && (a.Build? || a.TakeProposal? || a.TakePrepares? || a.TakeCommits?)
    requires a.r == f.Worker() && a.r in f.routines && LoopEnabled(P, s.sent, n, f, a) && st == f.st
    requires pc == match a
                   case Build(_, build) => Built(f.routines[a.r].view, build)
                   case TakeProposal(_, m) => Holding(f.routines[a.r].view, m)
                   case TakePrepares(_, prepares) => Committing(f.routines[a.r].view, prepares)
                   case TakeCommits(_, commits) => Sealing(f.routines[a.r].view, commits)
    ensures Reaches(P, d, s, n, Now(f, st, pc))
  {
    hide Reaches, RoutineEnabled;
    var s' := Step(P, d, s, n, f, a);
    assert LoopNext(P, s.sent, n, f, a) == Now(f, st, pc);
  }

  lemma NowInRound(f: Loop, st: State, pc: Pc, pc0: Pc)
    requires InRoundAt(f, pc0) && st.view == f.st.view
    ensures InRoundAt(Now(f, st, pc), pc) && Now(f, st, pc).st == st
  {
  }

  lemma WorkerIsThere(f: Loop, pc: Pc)
    requires InRoundAt(f, pc)
    ensures f.Worker() in f.routines && f.routines[f.Worker()] == pc
  {
  }

  lemma ReadyView(P: Params, id: Address, f: Loop, st: State)
    requires Ready(P, id, f, st)
    ensures f.st.view == st.view
  {
  }

  // ---------- what a node does ----------

  lemma Spawns(P: Params, d: nat, s: System, n: Address, f: Loop) returns (f': Loop)
    requires Reaches(P, d, s, n, f) && AtHead(P, n, f)
    ensures Reaches(P, d, s, n, f') && f'.iteration == f.iteration + 1 && f'.main == Selecting(f.st.view) && f'.wg == 4
    ensures f'.st == f.st && Uncancelled(f') && At(f', Starting, Starting, Starting, Starting)
  {
    hide Reaches;
    var s' := Step(P, d, s, n, f, Spawn);
    f' := LoopNext(P, s.sent, n, f, Spawn);
  }

  lemma WatchersStart(P: Params, d: nat, s: System, n: Address, f: Loop) returns (f': Loop)
    requires Reaches(P, d, s, n, f) && f.iteration > 0 && At(f, Starting, Starting, Starting, Starting)
    ensures Reaches(P, d, s, n, f') && f' == f.(routines := f'.routines)
    ensures At(f', TimerRunning, Watching(f.st.view), Watching(f.st.view), Starting)
  {
    hide Reaches;
    var i := f.iteration - 1;
    f' := ReadsView(P, d, s, n, f, Routine(i, RoundTimer));
    f' := ReadsView(P, d, s, n, f', Routine(i, ProposalWatcher));
    f' := ReadsView(P, d, s, n, f', Routine(i, CertificateWatcher));
  }

  lemma WorkerStarts(P: Params, d: nat, s: System, n: Address, f: Loop, t: Pc, p: Pc, c: Pc) returns (f': Loop)
    requires Reaches(P, d, s, n, f) && f.iteration > 0 && At(f, t, p, c, Starting) && RoundReady(P, n, f.st)
    ensures Reaches(P, d, s, n, f') && f' == f.(routines := f'.routines, st := f.st.KickOff())
    ensures At(f', t, p, c, RestPc(P, n, f'.st))
  {
    hide Reaches;
    f' := KicksOff(P, d, s, n, f, f.Worker());
    if !P.b.IsProposer(n, f.st.view) {
      NowSame(f', Looping);
      Loops(P, d, s, n, f', f'.st);
      f' := Now(f', f'.st, RestPc(P, n, f'.st));
    }
  }

  lemma NowSame(f: Loop, pc: Pc)
    requires f.Worker() in f.routines && f.routines[f.Worker()] == pc
    ensures Now(f, f.st, pc) == f
  {
  }

  /** A round starts: the four routines get to where they wait. */
  lemma RoundStarts(P: Params, d: nat, s: System, n: Address, f: Loop) returns (f': Loop)
    requires Reaches(P, d, s, n, f) && AtHead(P, n, f)
    ensures Reaches(P, d, s, n, f') && InRoundAt(f', RestPc(P, n, f'.st)) && f'.st == f.st.KickOff()
  {
    hide Reaches, At, RestPc;
    f' := Spawns(P, d, s, n, f);
    f' := WatchersStart(P, d, s, n, f');
    f' := WorkerStarts(P, d, s, n, f', TimerRunning, Watching(f.st.view), Watching(f.st.view));
  }

  lemma Proposes(P: Params, d: nat, s: System, n: Address, f: Loop, c: Action) returns (s': System, f': Loop)
    requires Reaches(P, d, s, n, f) && InRoundAt(f, Building(f.st.view)) && f.st.name == NewRound
    requires Buildable(P, s.sent, n, f.st, f.st.view, c) && P.b.validSender(ProposedMessage(P, f.st.view, c))
    ensures s' == Sent(s, Some(ProposedMessage(P, f.st.view, c))) && Reaches(P, d, s', n, f')
    ensures f'.st == f.st.Accept(ProposedMessage(P, f.st.view, c)) && InRoundAt(f', InPrepare(f.st.view))
  {
    hide Reaches, UsableCertificate, Now, InRoundAt;
    WorkerIsThere(f, Building(f.st.view));
    var v, m := f.st.view, ProposedMessage(P, f.st.view, c);
    Takes(P, d, s, n, f, Build(f.Worker(), c), f.st, Built(v, c));
    s' := Proceeds(P, d, s, n, f, f.st, Built(v, c), Nil, Nil);
    s' := Proceeds(P, d, s', n, f, f.st.(proposalMessage := Some(m)), BuiltSet(v, c), Nil, Nil);
    s' := Proceeds(P, d, s', n, f, f.st.Accept(m), Announcing(v, c), Nil, Nil);
    Loops(P, d, s', n, f, f.st.Accept(m));
    f' := Now(f, f.st.Accept(m), InPrepare(v));
    NowInRound(f, f.st.Accept(m), InPrepare(v), Building(v));
  }

  lemma AcceptsProposal(P: Params, d: nat, s: System, n: Address, f: Loop, m: Message, signature: Bytes)
      returns (s': System, f': Loop)
    requires Reaches(P, d, s, n, f) && InRoundAt(f, InNewRound(f.st.view)) && ProposalFor(P, s.sent, n, m, f.st.view)
    requires P.b.validSender(BuildPrepareMessage(n, ExtractProposalHash(m), f.st.view, signature))
    ensures s' == Sent(s, Some(BuildPrepareMessage(n, ExtractProposalHash(m), f.st.view, signature)))
    ensures Reaches(P, d, s', n, f')
    ensures f'.st == f.st.Accept(m) && InRoundAt(f', InPrepare(f.st.view))
  {
    hide Reaches, ProposalFor, Now, InRoundAt;
    WorkerIsThere(f, InNewRound(f.st.view));
    var v, st := f.st.view, f.st.(proposalMessage := Some(m));
    Takes(P, d, s, n, f, TakeProposal(f.Worker(), m), f.st, Holding(v, m));
    s' := Proceeds(P, d, s, n, f, f.st, Holding(v, m), Nil, Nil);
    s' := Proceeds(P, d, s', n, f, st, Preparing(v, m), Nil, signature);
    s' := Proceeds(P, d, s', n, f, st, Prepared(v), Nil, Nil);
    Loops(P, d, s', n, f, f.st.Accept(m));
    f' := Now(f, f.st.Accept(m), InPrepare(v));
    NowInRound(f, f.st.Accept(m), InPrepare(v), InNewRound(v));
  }

  lemma Commits(P: Params, d: nat, s: System, n: Address, f: Loop, prepares: seq<Message>, seal: Bytes,
                signature: Bytes)
      returns (s': System, f': Loop)
    requires Reaches(P, d, s, n, f) && InRoundAt(f, InPrepare(f.st.view)) && PreparesFor(P, s.sent, f.st, prepares)
    requires f.st.proposalMessage.Some?
    requires P.b.validSender(BuildCommitMessage(n, f.st.GetProposalHash(), f.st.view, seal, signature))
    ensures s' == Sent(s, Some(BuildCommitMessage(n, f.st.GetProposalHash(), f.st.view, seal, signature)))
    ensures f'.st == f.st.Lock(PreparedCertificate(f.st.proposalMessage, Some(prepares)))
    ensures Reaches(P, d, s', n, f') && InRoundAt(f', InCommit(f.st.view))
  {
    hide Reaches, PreparesFor, Now, InRoundAt;
    WorkerIsThere(f, InPrepare(f.st.view));
    var v, st := f.st.view, f.st.Lock(PreparedCertificate(f.st.proposalMessage, Some(prepares)));
    assert f.st.(view := v) == f.st;
    Takes(P, d, s, n, f, TakePrepares(f.Worker(), prepares), f.st, Committing(v, prepares));
    s' := Proceeds(P, d, s, n, f, f.st, Committing(v, prepares), seal, signature);
    s' := Proceeds(P, d, s', n, f, f.st, Locking(v, prepares), Nil, Nil);
    Loops(P, d, s', n, f, st);
    f' := Now(f, st, InCommit(v));
    NowInRound(f, st, InCommit(v), InPrepare(v));
  }

  lemma Seals(P: Params, d: nat, s: System, n: Address, f: Loop, commits: seq<Message>) returns (f': Loop)
    requires Reaches(P, d, s, n, f) && InRoundAt(f, InCommit(f.st.view)) && CommitsFor(P, s.sent, f.st, commits)
    ensures f'.st == f.st.Seal(SealsOf(commits)) && Reaches(P, d, s, n, f') && InRoundAt(f', Offering(Done))
  {
    hide Reaches, CommitsFor, Now, InRoundAt;
    WorkerIsThere(f, InCommit(f.st.view));
    var v, st := f.st.view, f.st.Seal(SealsOf(commits));
    assert f.st.(view := v) == f.st;
    Takes(P, d, s, n, f, TakeCommits(f.Worker(), commits), f.st, Sealing(v, commits));
    var s' := Proceeds(P, d, s, n, f, f.st, Sealing(v, commits), Nil, Nil);
    s' := Proceeds(P, d, s', n, f, f.st.(seals := SealsOf(commits)), Finishing(v), Nil, Nil);
    Loops(P, d, s', n, f, st);
    f' := Now(f, st, Offering(Done));
    NowInRound(f, st, Offering(Done), InCommit(v));
  }

  // ---------- leaving a round ----------

  /** A routine leaves when its round is over. */
  lemma Exits(P: Params, d: nat, s: System, n: Address, f: Loop, r: Routine) returns (f': Loop)
    requires Reaches(P, d, s, n, f) && r in f.routines && r.iteration in f.cancelled
    requires Blocked(f.routines[r]) || f.routines[r] == Leaving
    ensures f' == f.At(r, Exited).(wg := f.wg - 1) && Reaches(P, d, s, n, f')
  {
    hide Reaches;
    f' := f;
    if f.routines[r] != Leaving {
      var s' := Step(P, d, s, n, f, GiveUp(r));
      f' := LoopNext(P, s.sent, n, f, GiveUp(r));
      Overwritten(f.routines, r, Leaving, Exited);
    }
    var s' := Step(P, d, s, n, f', Exit(r));
    f' := LoopNext(P, s.sent, n, f', Exit(r));
  }

  /** RunSequence receives what a routine offers. */
  lemma Receives(P: Params, d: nat, s: System, n: Address, f: Loop, r: Routine) returns (f': Loop)
    requires Reaches(P, d, s, n, f) && r in f.routines && f.routines[r].Offering? && f.main.Selecting?
    ensures f' == f.At(r, Leaving).(main := Joining(f.main.view, f.routines[r].ev),
                                    cancelled := f.cancelled + {f.Worker().iteration})
    ensures Reaches(P, d, s, n, f')
  {
    hide Reaches;
    var s' := Step(P, d, s, n, f, Receive(r));
    f' := LoopNext(P, s.sent, n, f, Receive(r));
  }

  /** With one routine offering an event and the others blocked, the barrier opens. */
  lemma Joins(P: Params, d: nat, s: System, n: Address, f: Loop, r: Routine, t: Pc, p: Pc, c: Pc, w: Pc)
      returns (f': Loop)
    requires Reaches(P, d, s, n, f) && f.iteration > 0 && f.main.Selecting? && f.wg == 4 && Uncancelled(f)
    requires At(f, t, p, c, w)
    requires Blocked(t) && Blocked(p) && Blocked(c) && Blocked(w)
    requires r.iteration == f.Worker().iteration && r in f.routines && f.routines[r].Offering?
    ensures Reaches(P, d, s, n, f') && f'.main == Joining(f.main.view, f.routines[r].ev) && f'.wg == 0 && f'.st == f.st
    ensures !f'.cancelAll && f'.iteration == f.iteration && forall i :: i in f'.cancelled ==> i < f'.iteration
  {
    hide Reaches;
    var i := f.Worker().iteration;
    f' := Receives(P, d, s, n, f, r);
    f' := Exits(P, d, s, n, f', Routine(i, RoundTimer));
    f' := Exits(P, d, s, n, f', Routine(i, ProposalWatcher));
    f' := Exits(P, d, s, n, f', Routine(i, CertificateWatcher));
    f' := Exits(P, d, s, n, f', Routine(i, StateMachine));
  }

  predicate IsMove(ev: Event) {
    ev.FutureProposal? || ev.Expired? || (ev.FutureCertificate? && ev.rcs != [])
  }

  function MoveMessage(P: Params, id: Address, st: State, ev: Event, signature: Bytes): Option<Message> {
    match ev
    case FutureProposal(m) => Some(BuildPrepareMessage(id, ExtractProposalHash(m), st.view, signature))
    case Expired =>
      Some(BuildRoundChangeMessage(id, st.latestPreparedProposal, st.latestPC,
                                   View(P.height, NextRound(st.view.round)), signature))
    case _ => None
  }

  predicate MoveIsUp(st: State, ev: Event) {
    match ev
    case FutureProposal(m) => m.view.round > st.view.round
    case FutureCertificate(rcs) => rcs != [] ==> rcs[0].view.round > st.view.round
    case Expired => NextRound(st.view.round) > st.view.round
    case _ => true
  }

  /** Once all have left, RunSequence moves to the next round. */
  lemma Moves(P: Params, d: nat, s: System, n: Address, f: Loop, ev: Event, signature: Bytes)
      returns (s': System, f': Loop)
    requires Reaches(P, d, s, n, f) && f.main == Joining(f.st.view, ev) && f.wg == 0 && IsMove(ev)
    requires !f.cancelAll && forall i :: i in f.cancelled ==> i < f.iteration
    requires ev.FutureProposal? ==> !P.b.IsProposer(n, View(f.st.view.height, ev.proposal.view.round))
    requires var out := MoveMessage(P, n, f.st, ev, signature); out.Some? ==> P.b.validSender(out.value)
    ensures s' == Sent(s, MoveMessage(P, n, f.st, ev, signature))
    ensures Reaches(P, Counted(d, MoveIsUp(f.st, ev)), s', n, f')
    ensures AtHead(P, n, f') && f'.st == Move(f.st, f.st.view, ev)
  {
    hide Reaches;
    s' := Step(P, d, s, n, f, AfterJoin(signature));
    f' := LoopNext(P, s.sent, n, f, AfterJoin(signature));
  }

  /** The event of a move, and the routine that offers it. */
  lemma Offers(P: Params, d: nat, s: System, n: Address, f: Loop, ev: Event) returns (f': Loop)
    requires Reaches(P, d, s, n, f) && IsMove(ev) && InRoundAt(f, RestPc(P, n, f.st)) && Blocked(RestPc(P, n, f.st))
    requires match ev
             case FutureProposal(m) =>
               && m.view.round >= NextRound(f.st.view.round)
               && ProposalFor(P, s.sent, n, m, View(f.st.view.height, m.view.round))
             case FutureCertificate(rcs) => RoundChangesFor(P, s.sent, f.st, rcs)
             case _ => true
    ensures Reaches(P, d, s, n, f') && f'.main == Joining(f.st.view, ev) && f'.wg == 0 && f'.st == f.st
    ensures !f'.cancelAll && forall i :: i in f'.cancelled ==> i < f'.iteration
  {
    hide Reaches, ProposalFor, UsableCertificate;
    var i, v, w := f.Worker().iteration, f.st.view, RestPc(P, n, f.st);
    match ev
    case FutureProposal(m) =>
      f' := Sees(P, d, s, n, f, SeeProposal(Routine(i, ProposalWatcher), m), Offering(ev));
      f' := Joins(P, d, s, n, f', Routine(i, ProposalWatcher), TimerRunning, Offering(ev), Watching(v), w);
    case FutureCertificate(rcs) =>
      f' := Sees(P, d, s, n, f, Search(Routine(i, CertificateWatcher)), Searching(v, f.st.GetProposal().Some?));
      f' := Sees(P, d, s, n, f', SeeCertificate(Routine(i, CertificateWatcher), rcs), Offering(ev));
      f' := Joins(P, d, s, n, f', Routine(i, CertificateWatcher), TimerRunning, Watching(v), Offering(ev), w);
    case Expired =>
      f' := Sees(P, d, s, n, f, Fire(Routine(i, RoundTimer)), Offering(ev));
      f' := Joins(P, d, s, n, f', Routine(i, RoundTimer), Offering(ev), Watching(v), Watching(v), w);
  }

  /** A timer or a watcher takes a step. */
  lemma Sees(P: Params, d: nat, s: System, n: Address, f: Loop, a: LoopAction, pc: Pc) returns (f': Loop)
    requires Reaches(P, d, s, n, f) && (a.Fire? || a.SeeProposal? || a.Search? || a.SeeCertificate?)
    requires LoopEnabled(P, s.sent, n, f, a)
    requires pc == match a
                   case Fire(_) => Offering(Expired)
                   case SeeProposal(_, m) => Offering(FutureProposal(m))
                   case Search(r) => Searching(f.routines[r].view, f.st.GetProposal().Some?)
                   case SeeCertificate(_, rcs) => Offering(FutureCertificate(rcs))
    ensures f' == f.At(a.r, pc) && Reaches(P, d, s, n, f')
  {
    hide Reaches, RoutineEnabled;
    var s' := Step(P, d, s, n, f, a);
    f' := LoopNext(P, s.sent, n, f, a);
  }

  /** The node inserts its block and stops. */
  lemma Inserts(P: Params, d: nat, s: System, n: Address, f: Loop) returns (f': Loop)
    requires Reaches(P, d, s, n, f) && InRoundAt(f, Offering(Done))
    ensures f'.main == Stopped && f'.st == f.st
    ensures var block := Block(f.st.RawData(), f.st.view.round, f.st.seals);
            Reachable(P, d, Put(s, n, f').(inserted := s.inserted[n := block]))
  {
    hide Reachable, LoopInv;
    var v := f.st.view;
    var g := Joins(P, d, s, n, f, f.Worker(), TimerRunning, Watching(v), Watching(v), Offering(Done));
    f' := LoopNext(P, s.sent, n, g, AfterJoin(Nil));
    ReachStep(P, d, Put(s, n, g), Local(n, AfterJoin(Nil)));
    assert Put(s, n, g).nodes[n := f'] == s.nodes[n := f'];
  }

  // ---------- whole runs ----------

  /** The system is in the protocol state, with every node waiting or stopped. */
  ghost predicate Realizes(P: Params, d: nat, s: System, g: Global) {
    && Reachable(P, d, s)
    && s.nodes.Keys == g.nodes.Keys && s.sent == g.sent && s.inserted == g.inserted
    && forall n :: n in s.nodes ==>
         if n in g.inserted then s.nodes[n].main == Stopped && s.nodes[n].st.(roundStarted := false) == g.nodes[n]
         else Ready(P, n, s.nodes[n], g.nodes[n])
  }

  /** What the routines cannot be made to do: the certificate watcher refuses its
      own round when there is a proposal, and in round 0 the proposer does not stop
      waiting for its own proposal. */
  ghost predicate Unforced(P: Params, st: State, c: Action)
    requires !c.OtherHeights?
  {
    && (c.JumpToCertificate? && c.rcs != [] && c.rcs[0].view.round == st.view.round ==> st.GetProposal().None?)
    && (c.RoundExpired? || c.JumpToProposal? || c.JumpToCertificate? ==>
          !(st.view.round == 0 && st.name == NewRound && P.b.IsProposer(c.node, st.view)))
  }

  /** The node is waiting in a round, having started it if need be. */
  lemma Rests(P: Params, d: nat, s: System, n: Address, st: State) returns (f: Loop)
    requires Reachable(P, d, s) && n in s.nodes && Ready(P, n, s.nodes[n], st)
    ensures Reaches(P, d, s, n, f) && InRoundAt(f, RestPc(P, n, f.st)) && f.st.(roundStarted := false) == st
  {
    hide Reachable;
    f := s.nodes[n];
    assert Put(s, n, f) == s;
    if AtHead(P, n, f) {
      f := RoundStarts(P, d, s, n, f);
    }
  }

  lemma HeightKept(P: Params, d: nat, s: System, n: Address)
    requires Reachable(P, d, s) && n in s.nodes
    ensures s.nodes[n].st.view.height == P.height
  {
    var states, steps :| ReachedBy(P, d, s, states, steps);
    SystemInvAlways(P, states, steps, |steps|);
    assert LoopInv(P, s.sent, n, s.nodes[n]);
  }

  /** The event on which a node moves to another round. */
  function MoveEvent(c: Action): Event
    requires c.RoundExpired? || c.JumpToProposal? || c.JumpToCertificate?
  {
    match c
    case RoundExpired(_, _) => Expired
    case JumpToProposal(_, m, _) => FutureProposal(m)
    case JumpToCertificate(_, rcs) => FutureCertificate(rcs)
  }

  lemma MovesRealized(P: Params, d: nat, s: System, n: Address, f: Loop, st: State, c: Action)
      returns (s': System, f': Loop)
    requires Reaches(P, d, s, n, f) && InRoundAt(f, RestPc(P, n, f.st)) && f.st.(roundStarted := false) == st
    requires (c.RoundExpired? || c.JumpToProposal? || c.JumpToCertificate?) && c.node == n
    requires NodeEnabled(P, s.sent, st, c) && Unforced(P, st, c) && st.view.height == P.height
    requires var out := Multicast(P, st, c); out.Some? ==> P.b.validSender(out.value)
    ensures s' == Sent(s, Multicast(P, st, c)) && Reaches(P, Counted(d, MoveIsUp(st, MoveEvent(c))), s', n, f')
    ensures Ready(P, n, f', NodeNext(P, st, c))
  {
    hide Reaches, InRoundAt, Fetched;
    var ev := MoveEvent(c);
    assert c.JumpToProposal? ==> !P.b.IsProposer(n, View(st.view.height, c.proposal.view.round));
    hide ValidProposal, ValidProposal0;
    var signature := if c.JumpToCertificate? then Nil else c.signature;
    f' := Offers(P, d, s, n, f, ev);
    s', f' := Moves(P, d, s, n, f', ev, signature);
  }

  /** What a node waits for and does in a phase does not depend on the flag. */
  lemma FlagDoesNotMatter(P: Params, sent: set<Message>, st: State, c: Action)
    requires c.Propose? || c.AcceptProposal? || c.PrepareQuorum? || c.CommitQuorum?
    requires NodeEnabled(P, sent, st.(roundStarted := false), c)
    ensures NodeEnabled(P, sent, st, c) && Multicast(P, st, c) == Multicast(P, st.(roundStarted := false), c)
    ensures NodeNext(P, st, c).(roundStarted := false) == NodeNext(P, st.(roundStarted := false), c)
  {
    hide Fetched, UsableCertificate, ValidPrePrepare, ProposedMessage;
  }

  lemma ProposalOfAnother(P: Params, sent: set<Message>, id: Address, m: Message, view: View)
    requires ProposalFor(P, sent, id, m, view)
    ensures !P.b.IsProposer(id, view)
  {
    hide Fetched, CarriesHighest, ValidProposalCommon;
  }

  lemma ProposeRealized(P: Params, d: nat, s: System, n: Address, f: Loop, c: Action) returns (s': System, f': Loop)
    requires Reaches(P, d, s, n, f) && InRoundAt(f, RestPc(P, n, f.st))
    requires c.Propose? && c.node == n && NodeEnabled(P, s.sent, f.st, c)
    requires var out := Multicast(P, f.st, c); out.Some? ==> P.b.validSender(out.value)
    ensures s' == Sent(s, Multicast(P, f.st, c)) && Reaches(P, d, s', n, f')
    ensures f'.st == NodeNext(P, f.st, c) && InRoundAt(f', RestPc(P, n, f'.st))
  {
    hide Reaches, InRoundAt, Fetched, UsableCertificate, ProposedMessage;
    s', f' := Proposes(P, d, s, n, f, c);
  }

  lemma AcceptRealized(P: Params, d: nat, s: System, n: Address, f: Loop, c: Action) returns (s': System, f': Loop)
    requires Reaches(P, d, s, n, f) && InRoundAt(f, RestPc(P, n, f.st))
    requires c.AcceptProposal? && c.node == n && NodeEnabled(P, s.sent, f.st, c)
    requires var out := Multicast(P, f.st, c); out.Some? ==> P.b.validSender(out.value)
    ensures s' == Sent(s, Multicast(P, f.st, c)) && Reaches(P, d, s', n, f')
    ensures f'.st == NodeNext(P, f.st, c) && InRoundAt(f', RestPc(P, n, f'.st))
  {
    hide Reaches, InRoundAt, ProposalFor;
    ProposalOfAnother(P, s.sent, n, c.proposal, f.st.view);
    s', f' := AcceptsProposal(P, d, s, n, f, c.proposal, c.signature);
  }

  lemma PrepareRealized(P: Params, d: nat, s: System, n: Address, f: Loop, c: Action) returns (s': System, f': Loop)
    requires Reaches(P, d, s, n, f) && InRoundAt(f, RestPc(P, n, f.st))
    requires c.PrepareQuorum? && c.node == n && NodeEnabled(P, s.sent, f.st, c)
    requires var out := Multicast(P, f.st, c); out.Some? ==> P.b.validSender(out.value)
    ensures s' == Sent(s, Multicast(P, f.st, c)) && Reaches(P, d, s', n, f')
    ensures f'.st == NodeNext(P, f.st, c) && InRoundAt(f', RestPc(P, n, f'.st))
  {
    hide Reaches, InRoundAt, Fetched;
    s', f' := Commits(P, d, s, n, f, c.prepares, c.seal, c.signature);
  }

  lemma CommitRealized(P: Params, d: nat, s: System, n: Address, f: Loop, c: Action) returns (s': System, f': Loop)
    requires Reaches(P, d, s, n, f) && InRoundAt(f, RestPc(P, n, f.st))
    requires c.CommitQuorum? && c.node == n && NodeEnabled(P, s.sent, f.st, c)
    requires var out := Multicast(P, f.st, c); out.Some? ==> P.b.validSender(out.value)
    ensures s' == Sent(s, Multicast(P, f.st, c)) && Reaches(P, d, s', n, f')
    ensures f'.st == NodeNext(P, f.st, c) && InRoundAt(f', RestPc(P, n, f'.st))
  {
    hide Reaches, InRoundAt, CommitsFor;
    s' := s;
    f' := Seals(P, d, s, n, f, c.commits);
  }

  lemma PhasesRealized(P: Params, d: nat, s: System, n: Address, f: Loop, st: State, c: Action)
      returns (s': System, f': Loop)
    requires Reaches(P, d, s, n, f) && InRoundAt(f, RestPc(P, n, f.st)) && f.st.(roundStarted := false) == st
    requires (c.Propose? || c.AcceptProposal? || c.PrepareQuorum? || c.CommitQuorum?) && c.node == n
    requires NodeEnabled(P, s.sent, st, c)
    requires var out := Multicast(P, st, c); out.Some? ==> P.b.validSender(out.value)
    ensures s' == Sent(s, Multicast(P, st, c)) && Reaches(P, d, s', n, f') && Ready(P, n, f', NodeNext(P, st, c))
  {
    hide Reaches, InRoundAt, NodeEnabled, Multicast, NodeNext, RestPc, AtHead;
    FlagDoesNotMatter(P, s.sent, f.st, c);
    match c
    case Propose(_, _, _, _) => s', f' := ProposeRealized(P, d, s, n, f, c);
    case AcceptProposal(_, _, _) => s', f' := AcceptRealized(P, d, s, n, f, c);
    case PrepareQuorum(_, _, _, _) => s', f' := PrepareRealized(P, d, s, n, f, c);
    case CommitQuorum(_, _) => s', f' := CommitRealized(P, d, s, n, f, c);
  }

  /** One step of the protocol, as steps of the routines. */
  lemma StepRealized(P: Params, d: nat, s: System, g: Global, c: Action) returns (s': System)
    requires Realizes(P, d, s, g) && Enabled(P, g, c) && (c.OtherHeights? || Unforced(P, g.nodes[c.node], c))
    ensures Realizes(P, Counted(d, MovesUp(g, c)), s', Next(P, g, c))
  {
    hide Reachable, Ready, InRoundAt, NodeEnabled, NodeNext, Multicast, Unforced;
    if c.OtherHeights? {
      s' := SystemNext(P, s, Elsewhere(c.messages));
      ReachStep(P, d, s, Elsewhere(c.messages));
    } else if c.InsertBlock? {
      var f := Rests(P, d, s, c.node, g.nodes[c.node]);
      s' := InsertRealized(P, d, s, g, c.node, f);
    } else if c.RoundExpired? || c.JumpToProposal? || c.JumpToCertificate? {
      s' := MoveRealized(P, d, s, g, c);
    } else {
      var f := Rests(P, d, s, c.node, g.nodes[c.node]);
      var s1, f' := PhasesRealized(P, d, s, c.node, f, g.nodes[c.node], c);
      s' := Put(s1, c.node, f');
    }
  }

  lemma MoveRealized(P: Params, d: nat, s: System, g: Global, c: Action) returns (s': System)
    requires Realizes(P, d, s, g) && Enabled(P, g, c) && (c.RoundExpired? || c.JumpToProposal? || c.JumpToCertificate?)
    requires Unforced(P, g.nodes[c.node], c)
    ensures Realizes(P, Counted(d, MovesUp(g, c)), s', Next(P, g, c))
  {
    hide Reachable, Ready, InRoundAt, NodeEnabled, NodeNext, Multicast, Unforced;
    var n := c.node;
    HeightKept(P, d, s, n);
    assert g.nodes[n].view.height == P.height by {
      assert Ready(P, n, s.nodes[n], g.nodes[n]);
      ReadyView(P, n, s.nodes[n], g.nodes[n]);
    }
    var f := Rests(P, d, s, n, g.nodes[n]);
    var s1, f' := MovesRealized(P, d, s, n, f, g.nodes[n], c);
    s' := Put(s1, n, f');
  }

  lemma InsertRealized(P: Params, d: nat, s: System, g: Global, n: Address, f: Loop) returns (s': System)
    requires Realizes(P, d, s, g) && Enabled(P, g, InsertBlock(n))
    requires Reaches(P, d, s, n, f) && InRoundAt(f, RestPc(P, n, f.st)) && f.st.(roundStarted := false) == g.nodes[n]
    ensures Realizes(P, d, s', Next(P, g, InsertBlock(n)))
  {
    hide Reachable, Ready;
    var f' := Inserts(P, d, s, n, f);
    s' := Put(s, n, f').(inserted := s.inserted[n := Block(f.st.RawData(), f.st.view.round, f.st.seals)]);
  }

  lemma InitRealized(P: Params, g: Global) returns (s: System)
    requires Init(P, g)
    ensures Realizes(P, 0, s, g)
  {
    s := System(map n | n in P.nodes :: InitialLoop(P.height), g.sent, map[]);
    assert ReachedBy(P, 0, s, [s], []);
  }

  /** Every unforced run of the protocol is what some run of the interleaved system
      amounts to: the same messages are sent and the same blocks inserted, and no
      node moves down if none does in the protocol run. */
  lemma {:induction false} ProtocolIsRealized(P: Params, gs: seq<Global>, cs: seq<Action>, i: nat)
      returns (s: System, d: nat)
    requires Run(P, gs, cs) && i < |gs|
    requires forall k :: 0 <= k < |cs| ==> cs[k].OtherHeights? || Unforced(P, gs[k].nodes[cs[k].node], cs[k])
    ensures Realizes(P, d, s, gs[i]) && (Upward(gs, cs) ==> d == 0)
  {
    hide Realizes, Enabled, Next, Unforced, Init, MovesUp;
    if i == 0 {
      s := InitRealized(P, gs[0]);
      d := 0;
    } else {
      s, d := ProtocolIsRealized(P, gs, cs, i - 1);
      s := StepRealized(P, d, s, gs[i - 1], cs[i - 1]);
      d := Counted(d, MovesUp(gs[i - 1], cs[i - 1]));
    }
  }
}
