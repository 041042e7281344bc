/** Safety of the runs of the interleaved system. Where a statement needs that
    nodes only move to higher rounds, it says so with SystemUpward. */
module Theorems {
  import opened Types
  import opened Quorum
  import opened Certificates
  import opened Proposals
  import opened NodeState
  import opened Protocol
  import opened Invariant
  import opened Agreement
  import opened RoundLoop
  import opened LoopInvariant
  import opened Refinement
  import opened Simulation

  // ---------- safety of every run ----------

  /** Agreement: in every run, whatever two honest nodes insert at this height,
      and in whatever rounds, is the same raw proposal. */
  lemma AgreementTheorem(P: Params, states: seq<System>, steps: seq<SystemAction>, i: nat, j: nat, m: Address,
                         n: Address)
    requires P.WellFormed() && SystemRun(P, states, steps) && SystemUpward(states, steps)
    requires i < |states| && j < |states|
    requires m in states[i].inserted && n in states[j].inserted
    ensures states[i].inserted[m].raw.Content() == states[j].inserted[n].raw.Content()
  {
    var k := if i < j then j else i;
    InsertedStays(P, states, steps, i, k, m);
    InsertedStays(P, states, steps, j, k, n);
    var g := Reached(P, states, steps, k);
    AgreementNow(P, g, m, n);
  }

  /** Finality certificate: the seals inserted with a block come from distinct
      signers with quorum power and are valid for exactly its data and round,
      and a quorum has sent COMMIT for it. */
  lemma FinalityTheorem(P: Params, states: seq<System>, steps: seq<SystemAction>, i: nat, n: Address)
    requires P.b.CollisionFree() && SystemRun(P, states, steps) && i < |states| && n in states[i].inserted
    ensures var block := states[i].inserted[n];
            SealedBy(P, block.round, block.raw, block.seals) && Committed(P, states[i].sent, block.round, block.raw)
  {
    var g := ReachedSound(P, states, steps, i);
    assert NodeSound(P, g, n);
  }

  /** An accepted proposal shows in the protocol state, unless it is the node's own. */
  lemma AcceptedShows(P: Params, sent: set<Message>, id: Address, f: Loop)
    requires LoopInv(P, sent, id, f) && f.st.name != NewRound && !P.b.IsProposer(id, f.st.view)
    ensures f.st.proposalMessage.Some? && AbsState(f).proposalMessage == f.st.proposalMessage
    ensures AbsState(f).view == f.st.view
  {
  }

  /** Locking: once a quorum has sent COMMIT for some data in a round, every
      proposal that an honest node other than its proposer holds as accepted in a
      higher round carries the same data. */
  lemma LockingTheorem(P: Params, states: seq<System>, steps: seq<SystemAction>, i: nat, round: nat, raw: Bytes,
                       n: Address)
    requires P.WellFormed() && SystemRun(P, states, steps) && SystemUpward(states, steps) && i < |states|
    requires Committed(P, states[i].sent, round, raw) && n in states[i].nodes
    requires var st := states[i].nodes[n].st;
             st.view.round > round && st.name != NewRound && !P.b.IsProposer(n, st.view)
    ensures states[i].nodes[n].st.RawData().Content() == raw.Content()
  {
    var g := Reached(P, states, steps, i);
    AcceptedShows(P, states[i].sent, n, states[i].nodes[n]);
    assert NodeOk(P, g, n);
    LockedData(P, g, round, raw, g.nodes[n].view.round, n);
  }

  /** The same of any proposal that validateProposal would let through, held or not. */
  lemma LockedProposalsTheorem(P: Params, states: seq<System>, steps: seq<SystemAction>, i: nat, round: nat, raw: Bytes,
                               id: Address, m: Message, later: nat)
    requires P.WellFormed() && SystemRun(P, states, steps) && SystemUpward(states, steps) && i < |states|
    requires Committed(P, states[i].sent, round, raw) && later > round
    requires ProposalFor(P, states[i].sent, id, m, P.ViewAt(later))
    ensures ExtractProposal(m).Some? && ExtractProposal(m).value.raw.Content() == raw.Content()
  {
    hide SystemRun, SystemInv, Inv, ProposalFor, Committed, Justified;
    var g := Reached(P, states, steps, i);
    AcceptedIsJustified(P, g, id, m, P.ViewAt(later));
    LockedJustified(P, g, round, raw, later, ExtractProposal(m).value.raw);
  }

  lemma {:induction false} SentStays(P: Params, states: seq<System>, steps: seq<SystemAction>, i: nat, j: nat)
    requires SystemRun(P, states, steps) && i <= j < |states|
    ensures states[i].sent <= states[j].sent
    decreases j - i
  {
    if i < j {
      SentStays(P, states, steps, i, j - 1);
      assert states[j] == SystemNext(P, states[j - 1], steps[j - 1]);
    }
  }

  /** A ROUND_CHANGE sent after a COMMIT of the same node is for a higher round. */
  lemma {:induction false} LaterIsHigher(P: Params, states: seq<System>, steps: seq<SystemAction>, i: nat, j: nat,
                                         c: Message, m: Message)
    requires P.b.CollisionFree() && SystemRun(P, states, steps) && i <= j < |states|
    requires SystemUpwardAt(states, steps, c.from)
    requires c in states[i].sent && m !in states[i].sent && m in states[j].sent && c.from == m.from
    requires c.view.height == P.height && m.view.height == P.height && m.kind == ROUND_CHANGE
    ensures c.view.round < m.view.round
    decreases j - i
  {
    hide SystemNext, SystemEnabled, SystemMovesUp, SystemInv, InvOf, Next, Enabled, MovesUp, SystemInit;
    if m in states[j - 1].sent {
      LaterIsHigher(P, states, steps, i, j - 1, c, m);
    } else {
      SentStays(P, states, steps, i, j - 1);
      var g := ReachedOf(P, states, steps, j - 1, c.from);
      var a := StepSimulated(P, states[j - 1], g, steps[j - 1]);
      RoundChangeIsAbove(P, g, a.value, c, m);
    }
  }

  /** Lock persistence: after a node has sent a COMMIT, every ROUND_CHANGE it goes
      on to send carries a certificate from the COMMIT's round or later and below
      its own round, even when the timer fires between sending the COMMIT and
      recording the lock. */
  lemma LockPersistenceTheorem(P: Params, states: seq<System>, steps: seq<SystemAction>, i: nat, j: nat, c: Message,
                               m: Message)
    requires P.b.CollisionFree() && SystemRun(P, states, steps) && i <= j < |states|
    requires SystemUpwardAt(states, steps, c.from)
    requires c in states[i].sent && m !in states[i].sent && m in states[j].sent && c.from == m.from
    requires c.view.height == P.height && m.view.height == P.height && c.kind == COMMIT && m.kind == ROUND_CHANGE
    ensures ExtractLatestPC(m).Some? && ExtractLatestPC(m).value.proposalMessage.Some?
    ensures c.view.round <= PCRound(ExtractLatestPC(m).value) < m.view.round
  {
    hide SystemRun, SystemInv, InvOf;
    LaterIsHigher(P, states, steps, i, j, c, m);
    SentStays(P, states, steps, i, j);
    var g := ReachedOf(P, states, steps, j, c.from);
    LockIsReported(P, g, c, m);
  }

  /** Just before a lock is recorded, the one recorded earlier is still in place. */
  lemma LockingIsNew(P: Params, sent: set<Message>, n: Address, f: Loop, a: LoopAction)
    requires LoopInv(P, sent, n, f) && LoopEnabled(P, sent, n, f, a)
    requires LoopNext(P, sent, n, f, a).WorkerPc().Locking?
    ensures LoopNext(P, sent, n, f, a).st.latestPC == f.st.latestPC
    ensures LoopNext(P, sent, n, f, a).st.latestPreparedProposal == f.st.latestPreparedProposal
  {
    hide WorkerOk, RoutineOk, EventOk, RoundReady, BarrierOk, ProposalFor, UsableCertificate, PreparesFor;
    hide CommitsFor, Buildable;
    if a.Continue? {
      ContinueKept(P, sent, n, f, a);
    }
  }

  /** What every other node checks about a recorded certificate and proposal. */
  ghost predicate AcceptedEverywhere(P: Params, latestPC: Option<PreparedCertificate>, prepared: Option<Proposal>) {
    && MatchesCertificate(P.b, prepared, latestPC)
    && (latestPC.Some? ==>
          && latestPC.value.proposalMessage.Some?
          && forall limit: nat :: limit > PCRound(latestPC.value) ==> ValidPC(P.b, latestPC, limit, P.height))
  }

  lemma LockIsAccepted(P: Params, st: State)
    requires LockOk(P, st)
    ensures AcceptedEverywhere(P, st.latestPC, st.latestPreparedProposal)
  {
    if st.latestPC.Some? {
      forall limit: nat | limit > PCRound(st.latestPC.value) ensures ValidPC(P.b, st.latestPC, limit, P.height) {
        ValidPCAnyLimit(P.b, st.latestPC.value, PCRound(st.latestPC.value) + 1, limit, P.height);
      }
    }
  }

  lemma RecordedIsAccepted(P: Params, states: seq<System>, steps: seq<SystemAction>, i: nat, n: Address)
    requires P.b.CollisionFree() && SystemRun(P, states, steps) && i < |states| && n in states[i].nodes
    requires !states[i].nodes[n].WorkerPc().Locking?
    ensures AcceptedEverywhere(P, states[i].nodes[n].st.latestPC, states[i].nodes[n].st.latestPreparedProposal)
  {
    hide SystemRun, SystemInv, LoopInv, LockOk, AcceptedEverywhere, ProposalOk, PhaseOk, FinalOk;
    var g := ReachedSound(P, states, steps, i);
    assert LockOk(P, g.nodes[n]) by {
      assert NodeSound(P, g, n);
    }
    LockIsAccepted(P, g.nodes[n]);
  }

  lemma RecordedBefore(P: Params, states: seq<System>, steps: seq<SystemAction>, i: nat, n: Address)
    requires SystemRun(P, states, steps) && i < |states| && n in states[i].nodes
    requires states[i].nodes[n].WorkerPc().Locking?
    ensures i > 0 && n in states[i - 1].nodes
    ensures var st, st' := states[i - 1].nodes[n].st, states[i].nodes[n].st;
            st'.latestPC == st.latestPC && st'.latestPreparedProposal == st.latestPreparedProposal
  {
    hide LoopInv, LoopNext, LoopEnabled;
    SystemInvAlways(P, states, steps, if i > 0 then i - 1 else 0);
    var x := steps[i - 1];
    assert states[i] == SystemNext(P, states[i - 1], x);
    if x.Local? && x.node == n {
      LockingIsNew(P, states[i - 1].sent, n, states[i - 1].nodes[n], x.a);
    }
  }

  /** Certificates made are certificates accepted: at every moment of every run,
      the certificate and proposal an honest node has recorded match, and pass the
      certificate check for every round limit above the certificate's round. */
  lemma {:induction false} CertificatesAcceptedTheorem(P: Params, states: seq<System>, steps: seq<SystemAction>,
                                                       i: nat, n: Address)
    requires P.b.CollisionFree() && SystemRun(P, states, steps) && i < |states| && n in states[i].nodes
    ensures AcceptedEverywhere(P, states[i].nodes[n].st.latestPC, states[i].nodes[n].st.latestPreparedProposal)
  {
    hide SystemRun, AcceptedEverywhere;
    if states[i].nodes[n].WorkerPc().Locking? {
      RecordedBefore(P, states, steps, i, n);
      CertificatesAcceptedTheorem(P, states, steps, i - 1, n);
    } else {
      RecordedIsAccepted(P, states, steps, i, n);
    }
  }

  /** Every ROUND_CHANGE an honest node sends is one that every node finds usable,
      and its three rounds coincide. */
  lemma RoundChangesUsableTheorem(P: Params, states: seq<System>, steps: seq<SystemAction>, i: nat, m: Message)
    requires P.b.CollisionFree() && SystemRun(P, states, steps) && i < |states| && SystemUpwardAt(states, steps, m.from)
    requires m in states[i].sent && m.view.height == P.height && m.kind == ROUND_CHANGE
    ensures UsableRoundChange(P.b, m, m.view)
    ensures PreparedPair(ExtractLatestPC(m), ExtractLastPreparedProposal(m))
  {
    var g := ReachedOf(P, states, steps, i, m.from);
    SentIsUsable(P, g, m);
  }

  /** A node may send two PREPAREs in a round, one of them for the proposal of the
      round it jumps to; but those whose hash is one for their round agree. */
  lemma OnePreparePerRoundTheorem(P: Params, states: seq<System>, steps: seq<SystemAction>, i: nat,
                                  m: Message, m': Message, raw: Bytes, raw': Bytes)
    requires P.b.CollisionFree() && SystemRun(P, states, steps) && i < |states| && SystemUpwardAt(states, steps, m.from)
    requires m in states[i].sent && m' in states[i].sent && m.from == m'.from && m.kind == m'.kind == PREPARE
    requires m.view == m'.view && m.view.height == P.height
    requires P.HashFor(m.view.round, raw, ExtractPrepareHash(m))
    requires P.HashFor(m.view.round, raw', ExtractPrepareHash(m'))
    ensures Equal(ExtractPrepareHash(m), ExtractPrepareHash(m')) && raw.Content() == raw'.Content()
  {
    hide SystemRun, SystemInv, StateOk, LocksReported, AcceptedOk, FinalOk, UsableRoundChange;
    var g := ReachedOf(P, states, steps, i, m.from);
    assert From(P, g.sent, m.from, m) && From(P, g.sent, m.from, m');
    assert MessageOk(P, g.accepted, m.from, g.nodes[m.from], m);
    assert MessageOk(P, g.accepted, m.from, g.nodes[m.from], m');
  }

  /** Certificate uniqueness, over runs. */
  lemma UniqueCertificateTheorem(P: Params, states: seq<System>, steps: seq<SystemAction>, i: nat,
                                 pc: PreparedCertificate, pc': PreparedCertificate, limit: nat, limit': nat,
                                 raw: Bytes, raw': Bytes)
    requires P.FewFaulty() && SystemRun(P, states, steps) && SystemUpward(states, steps) && i < |states|
    requires ValidPCParts(P.b, pc, limit, P.height) && KnownPC(P, states[i].sent, pc)
    requires ValidPCParts(P.b, pc', limit', P.height) && KnownPC(P, states[i].sent, pc')
    requires PCRound(pc) == PCRound(pc')
    requires P.HashFor(PCRound(pc), raw, PCHash(pc)) && P.HashFor(PCRound(pc'), raw', PCHash(pc'))
    ensures Equal(PCHash(pc), PCHash(pc'))
  {
    var g := Reached(P, states, steps, i);
    CertificateUniqueness(P, g, pc, pc', limit, limit', raw, raw');
  }

  /** Builder and validator: in every reachable state, what the builder chooses
      from a usable certificate of its own round, whose carried certificates are
      well formed, is accepted by every other validator, if the data is valid. */
  lemma BuiltProposalTheorem(P: Params, states: seq<System>, steps: seq<SystemAction>, i: nat,
                             rcs: seq<Message>, newRaw: Bytes, signature: Bytes, id: Address)
    requires P.FewFaulty() && SystemRun(P, states, steps) && SystemUpward(states, steps) && i < |states|
    requires UsableCertificate(P, states[i].sent, P.height, rcs)
    requires AllReadable(rcs) && forall k :: 0 <= k < |rcs| ==> WellFormedRoundChange(rcs[k])
    requires var view := rcs[0].view; id != P.b.proposer(view) && P.b.validRaw(ProposedRaw(view.round, rcs, newRaw))
    ensures var view := rcs[0].view;
            var build := Propose(P.b.proposer(view), rcs, newRaw, signature);
            ValidProposal(P.b, id, ProposedMessage(P, view, build), view)
  {
    var view := rcs[0].view;
    var g := Reached(P, states, steps, i);
    assert UsableRCC(P.b, rcs, view);
    OneHashInCertificate(P, g, rcs);
    BuilderAgreesWithValidator(P.b, rcs, view);
    ProposalAcceptedIff(P.b, rcs, view, ProposedRaw(view.round, rcs, newRaw), signature, id);
  }

  /** What the proposer of round 0 announces is the data it has built, and every other
      node may accept it, exactly if that data is valid. */
  lemma FirstProposalTheorem(P: Params, g: Global, a: Action, id: Address)
    requires Enabled(P, g, a) && a.Propose? && g.nodes[a.node].view == P.ViewAt(0) && id != a.node
    ensures var st, m := g.nodes[a.node], Multicast(P, g.nodes[a.node], a);
            && m.Some? && m.value in Next(P, g, a).sent
            && ExtractProposal(m.value) == Some(Proposal(a.newRaw, 0))
            && (ProposalFor(P, Next(P, g, a).sent, id, m.value, st.view) <==> P.b.validRaw(a.newRaw))
  {
    var view, m := P.ViewAt(0), Multicast(P, g.nodes[a.node], a).value;
    FirstProposalAcceptedIff(P.b, view, a.newRaw, a.signature, id);
    assert m == BuildPrePrepareMessage(P.b, P.b.proposer(view), a.newRaw, None, view, a.signature);
    assert Known(P, Next(P, g, a).sent, m);
    assert [m][0] == m;
  }

  lemma OneHashInCertificate(P: Params, g: Global, rcs: seq<Message>)
    requires P.FewFaulty() && Inv(P, g) && UsableCertificate(P, g.sent, P.height, rcs)
    requires AllReadable(rcs) && forall k :: 0 <= k < |rcs| ==> WellFormedRoundChange(rcs[k])
    ensures OneHashPerRound(rcs)
  {
    hide Inv, ValidPCParts, IsQuorum, DistinctSenders;
    forall i, j | 0 <= i < |rcs| && 0 <= j < |rcs| && IsCandidate(rcs[i]) && IsCandidate(rcs[j])
                  && PCRound(ExtractLatestPC(rcs[i]).value) == PCRound(ExtractLatestPC(rcs[j]).value)
      ensures Equal(PCHash(ExtractLatestPC(rcs[i]).value), PCHash(ExtractLatestPC(rcs[j]).value))
    {
      var view := rcs[0].view;
      assert UsableRoundChange(P.b, rcs[i], view) && UsableRoundChange(P.b, rcs[j], view);
      assert Known(P, g.sent, rcs[i]) && Known(P, g.sent, rcs[j]);
      assert WellFormedRoundChange(rcs[i]) && WellFormedRoundChange(rcs[j]);
      CertificateUniqueness(P, g, ExtractLatestPC(rcs[i]).value, ExtractLatestPC(rcs[j]).value, view.round, view.round,
                            ExtractLastPreparedProposal(rcs[i]).value.raw,
                            ExtractLastPreparedProposal(rcs[j]).value.raw);
    }
  }

  /** With one vote per validator and at least two validators, the bound on the
      faulty ones already keeps every proposer below quorum. */
  lemma UnitWeightsSuffice(P: Params)
    requires P.b.CollisionFree() && P.nodes !! P.byzantine && P.nodes <= P.b.powers.Keys
    requires forall a :: a in P.b.powers ==> P.b.powers[a] == 1
    requires TotalPower(P.b.powers) >= 2 && 3 * PowerOf(P.b.powers, P.byzantine) < TotalPower(P.b.powers)
    ensures P.WellFormed()
  {
    forall r: nat ensures !IsQuorum(P.b.powers, P.byzantine + {P.b.proposer(P.ViewAt(r))}) {
      UnitWeights(P.b.powers, P.byzantine, P.b.proposer(P.ViewAt(r)));
    }
  }

  // ---------- the routines of one node ----------

  predicate JoinPoint(f: Loop) {
    f.main == Head || (f.main.Joining? && f.wg == 0)
  }

  lemma JoinPointState(P: Params, sent: set<Message>, n: Address, f: Loop)
    requires LoopInv(P, sent, n, f) && JoinPoint(f)
    ensures AbsState(f) == f.st.(roundStarted := false)
  {
    if f.main.Joining? {
      BarrierOpen(f);
    }
    assert f.WorkerPc() == Exited;
  }

  lemma StartedDoesNotMatter(P: Params, st: State)
    requires StateOk(P, st.(roundStarted := false))
    ensures StateOk(P, st)
  {
  }

  lemma JoinPointReached(P: Params, s: System, g: Global, n: Address)
    requires Simulates(s, g) && SystemInv(P, s) && n in s.nodes && JoinPoint(s.nodes[n])
    ensures n in g.nodes && g.nodes[n] == s.nodes[n].st.(roundStarted := false)
  {
    JoinPointState(P, s.sent, n, s.nodes[n]);
  }

  /** The phases at every join point of every run: from prepare on the proposal of
      the current view is held, from commit on the lock is for it, in fin it is
      sealed. */
  lemma PhaseTheorem(P: Params, states: seq<System>, steps: seq<SystemAction>, i: nat, n: Address)
    requires P.b.CollisionFree() && SystemRun(P, states, steps) && i < |states| && n in states[i].nodes
    requires JoinPoint(states[i].nodes[n])
    ensures var st := states[i].nodes[n].st; ProposalOk(P, st) && PhaseOk(P, st) && LockOk(P, st)
  {
    hide SystemRun, SystemInv, Simulates, FinalOk;
    var g := ReachedSound(P, states, steps, i);
    JoinPointReached(P, states[i], g, n);
    assert StateOk(P, g.nodes[n]) by {
      assert NodeSound(P, g, n);
    }
    StartedDoesNotMatter(P, states[i].nodes[n].st);
  }

  /** As long as a node only moves up, its lock is valid below the next round too. */
  lemma LockBelowTheorem(P: Params, states: seq<System>, steps: seq<SystemAction>, i: nat, n: Address)
    requires P.b.CollisionFree() && SystemRun(P, states, steps) && SystemUpwardAt(states, steps, n)
    requires i < |states| && n in states[i].nodes && JoinPoint(states[i].nodes[n])
    ensures var st := states[i].nodes[n].st; ValidPC(P.b, st.latestPC, st.view.round + 1, P.height)
  {
    hide SystemRun, SystemInv, Simulates, FinalOk, MessagesOk, LocksReported, AcceptedOk, ProposalOk, PhaseOk;
    var g := ReachedOf(P, states, steps, i, n);
    JoinPointReached(P, states[i], g, n);
    var st := g.nodes[n];
    assert LockOk(P, st) && LockBelow(st) by {
      assert NodeSound(P, g, n);
    }
    if st.latestPC.Some? {
      ValidPCAnyLimit(P.b, st.latestPC.value, PCRound(st.latestPC.value) + 1, st.view.round + 1, P.height);
    }
  }

  /** No event crosses rounds: what RunSequence receives was produced by a routine
      of the current iteration for the current view; the state is written only by
      the state machine of the current iteration, or by RunSequence when no
      routine is left. */
  lemma NoEventCrossesRounds(P: Params, states: seq<System>, steps: seq<SystemAction>, i: nat, n: Address,
                             a: LoopAction)
    requires SystemRun(P, states, steps) && i < |states| && n in states[i].nodes
    requires LoopEnabled(P, states[i].sent, n, states[i].nodes[n], a)
    ensures var f := states[i].nodes[n];
            && (a.Receive? ==> a.r.iteration + 1 == f.iteration && OffererOk(a.r.kind, f.routines[a.r].ev)
                               && EventOk(P, states[i].sent, n, f.st, f.routines[a.r].ev))
            && (LoopNext(P, states[i].sent, n, f, a).st != f.st ==>
                  || (a.AfterJoin? && LiveSet(f) == {})
                  || ((a.KickOff? || a.Continue?) && a.r == f.Worker()))
  {
    SystemInvAlways(P, states, steps, i);
    var f := states[i].nodes[n];
    var sent := states[i].sent;
    if a.Receive? {
      assert RoutineOk(P, sent, n, f.st, a.r, f.routines[a.r]);
    } else if a.Continue? {
      ContinueKept(P, sent, n, f, a);
    } else if a.KickOff? {
      StartingKept(P, sent, n, f, a);
    } else if a.AfterJoin? {
      assert |LiveSet(f)| == 0;
    }
  }

  /** A certificate of the own round is not taken by a watcher that saw a proposal
      when it began to look. */
  lemma OwnRoundNeedsNoProposal(P: Params, sent: set<Message>, n: Address, f: Loop, r: Routine, rcs: seq<Message>)
    requires LoopInv(P, sent, n, f) && r in f.routines
    ensures LoopEnabled(P, sent, n, f, SeeCertificate(r, rcs)) && f.routines[r].hasAccepted ==>
              rcs[0].view.round != f.st.view.round
    ensures LoopEnabled(P, sent, n, f, Search(r)) ==>
              var pc := LoopNext(P, sent, n, f, Search(r)).routines[r];
              pc.Searching? && (pc.hasAccepted <==> f.st.proposalMessage.Some? && f.st.GetProposal().Some?)
  {
    hide WorkerOk, EventOk, BarrierOk, RoundReady;
  }

  /** Of the moves to another round, those on a timeout and on a future proposal
      go up in every run, short of the round number wrapping around. */
  lemma MovesUpUnlessWrapped(P: Params, sent: set<Message>, n: Address, f: Loop, a: LoopAction)
    requires LoopInv(P, sent, n, f) && LoopEnabled(P, sent, n, f, a) && a.AfterJoin?
    requires f.st.view.round + 1 < UINT64_LIMIT && !f.main.ev.FutureCertificate?
    ensures LoopMovesUp(f, a)
  {
    hide WorkerOk, RoutineOk, BarrierOk, ProposalFor, UsableCertificate, RoundReady;
  }
}
