/** The interleaved loops refine the protocol: seen through AbsState, each step
    of a routine is one protocol step or none. Every statement about protocol
    runs therefore holds of every interleaving. */
module Refinement {
  import opened Types
  import opened Proposals
  import opened NodeState
  import opened Protocol
  import opened RoundLoop
  import opened LoopInvariant

  /** The protocol state of a node: what it has begun and not yet announced does
      not count; what it has announced and not yet recorded does. */
  ghost function AbsState(f: Loop): State {
    Abs(f.st, f.WorkerPc())
  }

  ghost function Abs(state: State, pc: Pc): State {
    var st := state.(roundStarted := false);
    match pc
    case BuiltSet(_, _) => st.(proposalMessage := None)
    case Announcing(_, _) => st.(proposalMessage := None, name := NewRound)
    case Preparing(_, _) => st.(proposalMessage := None)
    case Prepared(_) => st.(name := Prepare)
    case Locking(_, prepares) => st.Lock(PreparedCertificate(st.proposalMessage, Some(prepares)))
    case Finishing(_) => st.(name := Fin)
    case _ => st
  }

  /** The protocol step that a step of the loop amounts to, if any. */
  ghost function Matching(id: Address, f: Loop, a: LoopAction): Option<Action> {
    match a
    case AfterJoin(s) => (
      if !f.main.Joining? then None else
      match f.main.ev
      case FutureProposal(m) => Some(JumpToProposal(id, m, s))
      case FutureCertificate(rcs) => Some(JumpToCertificate(id, rcs))
      case Expired => Some(RoundExpired(id, s))
      case Done => Some(InsertBlock(id))
      case Cancelled => None)
    case Continue(r, seal, s) => (
      if r !in f.routines then None else
      match f.routines[r]
      case Announcing(_, build) => Some(build)
      case Preparing(_, m) => Some(AcceptProposal(id, m, s))
      case Committing(_, prepares) => Some(PrepareQuorum(id, prepares, seal, s))
      case Sealing(_, commits) => Some(CommitQuorum(id, commits))
      case _ => None)
    case _ => None
  }

  /** One step of one node: the protocol step is enabled, sends the same message
      and leads to the same state; or nothing is sent and nothing changes. */
  ghost predicate Refines(P: Params, sent: set<Message>, id: Address, f: Loop, a: LoopAction)
    requires LoopEnabled(P, sent, id, f, a)
  {
    var st, st' := AbsState(f), AbsState(LoopNext(P, sent, id, f, a));
    match Matching(id, f, a)
    case None => st' == st && LoopMulticast(P, sent, id, f, a) == None
    case Some(c) =>
      && !c.OtherHeights? && c.node == id
      && NodeEnabled(P, sent, st, c)
      && st' == NodeNext(P, st, c)
      && LoopMulticast(P, sent, id, f, a) == Multicast(P, st, c)
  }

  /** The steps of the state machine between announcements are not seen. */
  lemma SilentProceed(P: Params, sent: set<Message>, id: Address, st: State, pc: Pc)
    requires WorkerOk(P, sent, id, st, pc)
    requires Proceeding(st, pc) && !pc.Announcing? && !pc.Preparing? && !pc.Committing? && !pc.Sealing?
    ensures var (st', pc') := Proceed(P, st, pc); Abs(st', pc') == Abs(st, pc)
  {
  }

  /** The others are protocol steps: the proposal becomes visible with its
      PREPREPARE or PREPARE, the lock with its COMMIT, the phase fin with the seals. */
  lemma AnnouncingProceed(P: Params, sent: set<Message>, id: Address, st: State, pc: Pc)
    requires WorkerOk(P, sent, id, st, pc) && pc.Announcing? && pc.view == st.view
    ensures pc.build.Propose? && (pc.view.round > 0 ==> AllReadable(pc.build.rcs))
    ensures var (st', pc') := Proceed(P, st, pc);
            && !pc.build.OtherHeights? && pc.build.node == id
            && NodeEnabled(P, sent, Abs(st, pc), pc.build)
            && Abs(st', pc') == NodeNext(P, Abs(st, pc), pc.build)
            && Multicast(P, Abs(st, pc), pc.build) == Some(ProposedMessage(P, pc.view, pc.build))
  {
  }

  lemma PreparingProceed(P: Params, sent: set<Message>, id: Address, st: State, pc: Pc, s: Bytes)
    requires WorkerOk(P, sent, id, st, pc) && pc.Preparing? && pc.view == st.view
    ensures var (st', pc') := Proceed(P, st, pc);
            var c := AcceptProposal(id, pc.proposal, s);
            && NodeEnabled(P, sent, Abs(st, pc), c)
            && Abs(st', pc') == NodeNext(P, Abs(st, pc), c)
            && Multicast(P, Abs(st, pc), c) == Some(BuildPrepareMessage(id, st.GetProposalHash(), pc.view, s))
  {
  }

  lemma CommittingProceed(P: Params, sent: set<Message>, id: Address, st: State, pc: Pc, seal: Bytes, s: Bytes)
    requires WorkerOk(P, sent, id, st, pc) && pc.Committing? && pc.view == st.view
    ensures var (st', pc') := Proceed(P, st, pc);
            var c := PrepareQuorum(id, pc.prepares, seal, s);
            && NodeEnabled(P, sent, Abs(st, pc), c)
            && Abs(st', pc') == NodeNext(P, Abs(st, pc), c)
            && Multicast(P, Abs(st, pc), c) == Some(BuildCommitMessage(id, st.GetProposalHash(), pc.view, seal, s))
  {
  }

  lemma SealingProceed(P: Params, sent: set<Message>, id: Address, st: State, pc: Pc)
    requires WorkerOk(P, sent, id, st, pc) && pc.Sealing? && pc.view == st.view
    ensures var (st', pc') := Proceed(P, st, pc);
            var c := CommitQuorum(id, pc.commits);
            && NodeEnabled(P, sent, Abs(st, pc), c)
            && Abs(st', pc') == NodeNext(P, Abs(st, pc), c)
            && Multicast(P, Abs(st, pc), c) == None
  {
  }

  lemma ContinueRefines(P: Params, sent: set<Message>, id: Address, f: Loop, a: LoopAction)
    requires LoopInv(P, sent, id, f) && LoopEnabled(P, sent, id, f, a) && a.Continue?
    ensures Refines(P, sent, id, f, a)
  {
    hide WorkerOk, NodeEnabled, NodeNext, Multicast, Abs, Fetched, UsableCertificate, ProposalFor, PreparesFor;
    hide CommitsFor, Proceed;
    var st, pc := f.st, f.routines[a.r];
    ContinueKept(P, sent, id, f, a);
    assert RoutineOk(P, sent, id, st, a.r, pc);
    assert f.WorkerPc() == pc;
    assert AbsState(LoopNext(P, sent, id, f, a)) == Abs(Proceed(P, st, pc).0, Proceed(P, st, pc).1);
    if pc.Announcing? {
      AnnouncingProceed(P, sent, id, st, pc);
    } else if pc.Preparing? {
      PreparingProceed(P, sent, id, st, pc, a.signature);
    } else if pc.Committing? {
      CommittingProceed(P, sent, id, st, pc, a.seal, a.signature);
    } else if pc.Sealing? {
      SealingProceed(P, sent, id, st, pc);
    } else {
      SilentProceed(P, sent, id, st, pc);
    }
  }

  lemma AfterJoinRefines(P: Params, sent: set<Message>, id: Address, f: Loop, a: LoopAction)
    requires LoopInv(P, sent, id, f) && LoopEnabled(P, sent, id, f, a) && a.AfterJoin?
    ensures Refines(P, sent, id, f, a)
  {
    BarrierOpen(f);
  }

  lemma OthersRefine(P: Params, sent: set<Message>, id: Address, f: Loop, a: LoopAction)
    requires LoopInv(P, sent, id, f) && LoopEnabled(P, sent, id, f, a) && !a.AfterJoin? && !a.Continue?
    ensures AbsState(LoopNext(P, sent, id, f, a)) == AbsState(f)
  {
    if a.Spawn? || a.CancelSequence? || a.NoticeCancel? {
      MainRefines(P, sent, id, f, a);
    } else {
      hide WorkerOk, BarrierOk, RoundReady, EventOk, LoopNext;
      assert RoutineOk(P, sent, id, f.st, a.r, f.routines[a.r]);
      if a.r.kind == StateMachine {
        assert f.routines[a.r] != Exited;
        LiveIsCurrent(f, a.r);
        WorkerRefines(P, sent, id, f, a);
      } else {
        WatcherRefines(P, sent, id, f, a);
      }
    }
  }

  /** The steps of a timer or watcher do not touch the state or the state machine. */
  lemma WatcherRefines(P: Params, sent: set<Message>, id: Address, f: Loop, a: LoopAction)
    requires LoopEnabled(P, sent, id, f, a) && !a.AfterJoin? && !a.Continue?
    requires !a.Spawn? && !a.CancelSequence? && !a.NoticeCancel? && a.r.kind != StateMachine
    requires RoutineOk(P, sent, id, f.st, a.r, f.routines[a.r])
    ensures AbsState(LoopNext(P, sent, id, f, a)) == AbsState(f)
  {
    hide EventOk, ProposalFor, UsableCertificate, PreparesFor, CommitsFor, Buildable, Proceeding, Proceed, Move;
  }

  lemma MainRefines(P: Params, sent: set<Message>, id: Address, f: Loop, a: LoopAction)
    requires LoopInv(P, sent, id, f) && LoopEnabled(P, sent, id, f, a)
    requires a.Spawn? || a.CancelSequence? || a.NoticeCancel?
    ensures AbsState(LoopNext(P, sent, id, f, a)) == AbsState(f)
  {
    if a.Spawn? {
      assert f.WorkerPc() == Exited && LoopNext(P, sent, id, f, a).WorkerPc() == Starting;
    }
  }

  /** Only the announced positions count, and none of these steps begins or ends there. */
  lemma WorkerRefines(P: Params, sent: set<Message>, id: Address, f: Loop, a: LoopAction)
    requires LoopEnabled(P, sent, id, f, a) && !a.AfterJoin? && !a.Continue?
    requires !a.Spawn? && !a.CancelSequence? && !a.NoticeCancel? && a.r == f.Worker()
    requires WorkerOk(P, sent, id, f.st, f.WorkerPc())
    ensures AbsState(LoopNext(P, sent, id, f, a)) == AbsState(f)
  {
    hide ProposalFor, UsableCertificate, PreparesFor, CommitsFor, Buildable;
  }

  lemma StepRefines(P: Params, sent: set<Message>, id: Address, f: Loop, a: LoopAction)
    requires LoopInv(P, sent, id, f) && LoopEnabled(P, sent, id, f, a)
    ensures Refines(P, sent, id, f, a)
  {
    if a.AfterJoin? {
      AfterJoinRefines(P, sent, id, f, a);
    } else if a.Continue? {
      ContinueRefines(P, sent, id, f, a);
    } else {
      OthersRefine(P, sent, id, f, a);
    }
  }
}
