/** What holds of every honest node in every reachable state, and what follows
    from it at a single moment: unique certificates, locking and agreement. */
module Invariant {
  import opened Types
  import opened Quorum
  import opened Certificates
  import opened Proposals
  import opened NodeState
  import opened Protocol

  // ---------- facts that stay true once they are true ----------

  ghost predicate CommitFrom(P: Params, sent: set<Message>, a: Address, round: nat, raw: Bytes) {
    exists m :: m in sent && m.from == a && m.view == P.ViewAt(round) && m.kind == COMMIT
                && P.HashFor(round, raw, ExtractCommitHash(m))
  }

  ghost predicate CommittedBy(P: Params, sent: set<Message>, round: nat, raw: Bytes, senders: set<Address>) {
    && IsQuorum(P.b.powers, senders)
    && forall a :: a in senders && a !in P.byzantine ==> CommitFrom(P, sent, a, round, raw)
  }

  /** A quorum has sent COMMIT for the data in the round. */
  ghost predicate Committed(P: Params, sent: set<Message>, round: nat, raw: Bytes) {
    exists senders :: CommittedBy(P, sent, round, raw, senders)
  }

  predicate HonestCertificate(P: Params, rc: Message) {
    rc.from !in P.byzantine && ExtractLatestPC(rc).Some?
  }

  /** The data was prepared in a round no lower than any an honest sender of the
      round change reports. */
  ghost predicate HighestCertificate(P: Params, sent: set<Message>, round: nat, raw: Bytes,
                                     rcs: seq<Message>, pc: PreparedCertificate) {
    && ValidPCParts(P.b, pc, round, P.height) && KnownPC(P, sent, pc)
    && P.HashFor(PCRound(pc), raw, PCHash(pc))
    && forall i :: 0 <= i < |rcs| && HonestCertificate(P, rcs[i]) ==>
         var other := ExtractLatestPC(rcs[i]).value;
         other.proposalMessage.Some? && PCRound(other) <= PCRound(pc)
  }

  ghost predicate JustifiedBy(P: Params, sent: set<Message>, round: nat, raw: Bytes, rcs: seq<Message>) {
    && IsQuorum(P.b.powers, Senders(rcs))
    && (forall i :: 0 <= i < |rcs| ==> IsRoundChangeFor(P.b, rcs[i], P.ViewAt(round)) && Signed(P, sent, rcs[i]))
    && ( (forall i :: 0 <= i < |rcs| ==> !HonestCertificate(P, rcs[i]))
         || exists pc :: HighestCertificate(P, sent, round, raw, rcs, pc))
  }

  /** A round-change quorum allows the data in the round. */
  ghost predicate Justified(P: Params, sent: set<Message>, round: nat, raw: Bytes) {
    exists rcs :: JustifiedBy(P, sent, round, raw, rcs)
  }

  /** Seals from distinct signers with quorum power, each for this data and round. */
  ghost predicate SealedBy(P: Params, round: nat, raw: Bytes, seals: seq<Option<CommittedSeal>>) {
    && (forall i :: 0 <= i < |seals| ==>
          seals[i].Some? && P.b.validSeal(P.b.hash(raw.Content(), round), seals[i]))
    && (forall i, j :: 0 <= i < j < |seals| ==> seals[i].value.signer != seals[j].value.signer)
    && IsQuorum(P.b.powers, set i | 0 <= i < |seals| :: seals[i].value.signer)
  }

  // ---------- one node ----------

  /** The round of a recorded certificate, when there is one. */
  ghost predicate LockedFrom(pc: Option<PreparedCertificate>, round: nat) {
    pc.Some? && pc.value.proposalMessage.Some? && round <= PCRound(pc.value)
  }

  /** A certificate and the proposal in it, whose round is the certificate's. */
  ghost predicate PreparedPair(pc: Option<PreparedCertificate>, prepared: Option<Proposal>) {
    if pc.None? then prepared.None? else
      && pc.value.proposalMessage.Some? && prepared.Some?
      && prepared == ExtractProposal(pc.value.proposalMessage.value)
      && prepared.value.round == PCRound(pc.value)
  }

  /** A recorded certificate passes every check another node will make on it,
      for round limits above its own round. */
  ghost predicate LockOk(P: Params, st: State) {
    && PreparedPair(st.latestPC, st.latestPreparedProposal)
    && MatchesCertificate(P.b, st.latestPreparedProposal, st.latestPC)
    && (st.latestPC.Some? ==>
          ValidPCParts(P.b, st.latestPC.value, PCRound(st.latestPC.value) + 1, P.height))
  }

  /** As long as a node only moves up, its lock is not from a round ahead of it. */
  ghost predicate LockBelow(st: State) {
    st.latestPC.Some? && st.latestPC.value.proposalMessage.Some? ==> PCRound(st.latestPC.value) <= st.view.round
  }

  /** An accepted proposal belongs to the current view and its proposer. */
  ghost predicate ProposalOk(P: Params, st: State) {
    st.proposalMessage.Some? ==>
      var m := st.proposalMessage.value;
      && m.kind == PREPREPARE && m.view == st.view && P.b.validSender(m)
      && P.b.IsProposer(m.from, st.view)
      && st.GetProposal().Some? && st.GetProposal().value.round == st.view.round
      && P.HashFor(st.view.round, st.RawData(), ExtractProposalHash(m))
  }

  /** The phases: a proposal from prepare on, its certificate from commit on,
      the seals in fin. */
  ghost predicate PhaseOk(P: Params, st: State) {
    && (st.name == NewRound <==> st.proposalMessage.None?)
    && (st.name == Commit || st.name == Fin ==>
          && st.latestPC.Some? && st.latestPC.value.proposalMessage.Some?
          && PCRound(st.latestPC.value) == st.view.round
          && Equal(PCHash(st.latestPC.value), st.GetProposalHash()))
    && (st.name == Fin ==> SealedBy(P, st.view.round, st.RawData(), st.seals))
  }

  ghost predicate StateOk(P: Params, st: State) {
    st.view.height == P.height && LockOk(P, st) && ProposalOk(P, st) && PhaseOk(P, st)
  }

  ghost predicate HashForLaterRound(P: Params, round: nat, hash: Bytes) {
    exists raw, later :: later > round && P.HashFor(later, raw, hash)
  }

  ghost predicate HashOfAccepted(P: Params, accepted: map<(Address, nat), Bytes>, n: Address, round: nat, hash: Bytes) {
    (n, round) in accepted && P.HashFor(round, accepted[(n, round)], hash)
  }

  /** A message a node has sent at this height: its hash is that of the data the
      node accepted in the round, except for a PREPARE sent on leaving the round. */
  ghost predicate MessageOk(P: Params, accepted: map<(Address, nat), Bytes>, n: Address, st: State, m: Message) {
    && m.view.round <= st.view.round
    && match m.kind
       case PREPREPARE =>
         P.b.IsProposer(n, m.view) && HashOfAccepted(P, accepted, n, m.view.round, ExtractProposalHash(m))
       case PREPARE =>
         || HashOfAccepted(P, accepted, n, m.view.round, ExtractPrepareHash(m))
         || HashForLaterRound(P, m.view.round, ExtractPrepareHash(m))
       case COMMIT =>
         && HashOfAccepted(P, accepted, n, m.view.round, ExtractCommitHash(m))
         && LockedFrom(st.latestPC, m.view.round)
       case ROUND_CHANGE =>
         && UsableRoundChange(P.b, m, m.view)
         && PreparedPair(ExtractLatestPC(m), ExtractLastPreparedProposal(m))
  }

  ghost predicate From(P: Params, sent: set<Message>, n: Address, m: Message) {
    m in sent && m.from == n && m.view.height == P.height
  }

  ghost predicate MessagesOk(P: Params, g: Global, n: Address)
    requires n in g.nodes
  {
    forall m :: From(P, g.sent, n, m) ==> MessageOk(P, g.accepted, n, g.nodes[n], m)
  }

  /** After a COMMIT, every ROUND_CHANGE for a higher round reports the lock. */
  ghost predicate LocksReported(P: Params, sent: set<Message>, n: Address) {
    forall c, m :: From(P, sent, n, c) && From(P, sent, n, m) && c.kind == COMMIT && m.kind == ROUND_CHANGE
                   && c.view.round < m.view.round ==>
      LockedFrom(ExtractLatestPC(m), c.view.round)
  }

  ghost predicate AcceptedOk(g: Global, n: Address)
    requires n in g.nodes
  {
    var st := g.nodes[n];
    && (forall r: nat :: (n, r) in g.accepted ==> r <= st.view.round)
    && ((n, st.view.round) in g.accepted <==> st.proposalMessage.Some?)
    && (st.proposalMessage.Some? ==> g.accepted[(n, st.view.round)] == st.RawData())
  }

  ghost predicate JustifiedOk(P: Params, g: Global, n: Address) {
    forall r: nat :: (n, r) in g.accepted && r > 0 && !P.b.IsProposer(n, P.ViewAt(r)) ==>
      Justified(P, g.sent, r, g.accepted[(n, r)])
  }

  ghost predicate FinalOk(P: Params, g: Global, n: Address)
    requires n in g.nodes
  {
    && (g.nodes[n].name == Fin ==> Committed(P, g.sent, g.nodes[n].view.round, g.nodes[n].RawData()))
    && (n in g.inserted ==>
          && Committed(P, g.sent, g.inserted[n].round, g.inserted[n].raw)
          && SealedBy(P, g.inserted[n].round, g.inserted[n].raw, g.inserted[n].seals))
  }

  /** What holds of a node whatever the rounds it moves to and whoever is faulty. */
  ghost predicate NodeSound(P: Params, g: Global, n: Address)
    requires n in g.nodes
  {
    StateOk(P, g.nodes[n]) && FinalOk(P, g, n)
  }

  ghost predicate Sound(P: Params, g: Global) {
    && g.nodes.Keys == P.nodes
    && g.inserted.Keys <= P.nodes
    && forall n :: n in g.nodes ==> NodeSound(P, g, n)
  }

  ghost predicate SendersOk(P: Params, sent: set<Message>) {
    forall m :: m in sent && m.view.height == P.height ==> m.from in P.nodes
  }

  /** What a node owes only to its own moves going up. */
  ghost predicate OwnOk(P: Params, g: Global, n: Address)
    requires n in g.nodes
  {
    LockBelow(g.nodes[n]) && MessagesOk(P, g, n) && LocksReported(P, g.sent, n) && AcceptedOk(g, n)
  }

  /** What holds while this node moves up, whatever the others do. */
  ghost predicate InvOf(P: Params, g: Global, n: Address) {
    Sound(P, g) && SendersOk(P, g.sent) && (n in g.nodes ==> OwnOk(P, g, n))
  }

  ghost predicate NodeOk(P: Params, g: Global, n: Address)
    requires n in g.nodes
  {
    NodeSound(P, g, n) && OwnOk(P, g, n) && JustifiedOk(P, g, n)
  }

  /** What holds while all nodes move up. */
  ghost predicate Inv(P: Params, g: Global) {
    && g.nodes.Keys == P.nodes
    && g.inserted.Keys <= P.nodes
    && SendersOk(P, g.sent)
    && forall n :: n in g.nodes ==> NodeOk(P, g, n)
  }

  lemma InvOfEach(P: Params, g: Global, n: Address)
    requires Inv(P, g)
    ensures InvOf(P, g, n)
  {
    hide NodeSound, OwnOk, JustifiedOk;
    assert forall k :: k in g.nodes ==> NodeOk(P, g, k);
  }

  // ---------- one honest witness ----------

  /** Two quorums share an honest validator. */
  lemma SharedHonest(P: Params, s: set<Address>, t: set<Address>) returns (a: Address)
    requires P.FewFaulty() && IsQuorum(P.b.powers, s) && IsQuorum(P.b.powers, t)
    ensures a in s && a in t && a !in P.byzantine
  {
    QuorumsOverlap(P.b.powers, s, t);
    a := HeavierHasMember(P.b.powers, s * t, P.byzantine);
  }

  /** A quorum has an honest member other than the proposer of a view. */
  lemma HonestFollower(P: Params, s: set<Address>, v: View) returns (a: Address)
    requires P.WellFormed() && IsQuorum(P.b.powers, s) && v.height == P.height && v.round > 0
    ensures a in s && a !in P.byzantine && !P.b.IsProposer(a, v)
  {
    assert v == P.ViewAt(v.round);
    a := HeavierHasMember(P.b.powers, s, P.byzantine + {P.b.proposer(v)});
  }

  // ---------- same round ----------

  /** Whatever an honest member of a certificate signed is the hash of the data
      it accepted in that round, if the hash is one for that round at all. */
  lemma CertificateMember(P: Params, g: Global, pc: PreparedCertificate, limit: nat, raw: Bytes, a: Address)
    requires P.b.CollisionFree() && Inv(P, g)
    requires ValidPCParts(P.b, pc, limit, P.height) && KnownPC(P, g.sent, pc)
    requires P.HashFor(PCRound(pc), raw, PCHash(pc))
    requires a in Senders(PCMessages(pc)) && a !in P.byzantine
    ensures a in P.nodes && (a, PCRound(pc)) in g.accepted
    ensures g.accepted[(a, PCRound(pc))].Content() == raw.Content()
  {
    var m :| m in PCMessages(pc) && m.from == a;
    ValidPCMember(P.b, pc, limit, P.height, m);
    assert Signed(P, g.sent, m) by {
      var i :| 0 <= i < |PCMessages(pc)| && PCMessages(pc)[i] == m;
      assert i > 0 ==> m == pc.prepareMessages.value[i - 1];
    }
    assert From(P, g.sent, a, m);
    assert NodeOk(P, g, a) && MessageOk(P, g.accepted, a, g.nodes[a], m);
  }

  /** Certificate uniqueness: certificates of one round whose hashes are hashes
      for that round were made for the same data, hence for the same hash. */
  lemma CertificateUniqueness(P: Params, g: Global, pc: PreparedCertificate, pc': PreparedCertificate,
                              limit: nat, limit': nat, raw: Bytes, raw': Bytes)
    requires P.FewFaulty() && Inv(P, g)
    requires ValidPCParts(P.b, pc, limit, P.height) && KnownPC(P, g.sent, pc)
    requires ValidPCParts(P.b, pc', limit', P.height) && KnownPC(P, g.sent, pc')
    requires PCRound(pc) == PCRound(pc')
    requires P.HashFor(PCRound(pc), raw, PCHash(pc)) && P.HashFor(PCRound(pc'), raw', PCHash(pc'))
    ensures raw.Content() == raw'.Content() && Equal(PCHash(pc), PCHash(pc'))
  {
    var a := SharedHonest(P, Senders(PCMessages(pc)), Senders(PCMessages(pc')));
    CertificateMember(P, g, pc, limit, raw, a);
    CertificateMember(P, g, pc', limit', raw', a);
  }

  lemma CommitMember(P: Params, g: Global, round: nat, raw: Bytes, a: Address)
    requires P.b.CollisionFree() && Inv(P, g) && CommitFrom(P, g.sent, a, round, raw)
    ensures a in P.nodes && (a, round) in g.accepted && g.accepted[(a, round)].Content() == raw.Content()
  {
    var m :| m in g.sent && m.from == a && m.view == P.ViewAt(round) && m.kind == COMMIT
             && P.HashFor(round, raw, ExtractCommitHash(m));
    assert From(P, g.sent, a, m);
    assert NodeOk(P, g, a) && MessageOk(P, g.accepted, a, g.nodes[a], m);
  }

  // ---------- locks in round changes ----------

  /** A ROUND_CHANGE that has been sent passes every check other nodes make. */
  lemma SentIsUsable(P: Params, g: Global, m: Message)
    requires InvOf(P, g, m.from) && m in g.sent && m.view.height == P.height && m.kind == ROUND_CHANGE
    ensures UsableRoundChange(P.b, m, m.view)
    ensures PreparedPair(ExtractLatestPC(m), ExtractLastPreparedProposal(m))
  {
    assert From(P, g.sent, m.from, m);
    assert MessageOk(P, g.accepted, m.from, g.nodes[m.from], m);
  }

  /** A ROUND_CHANGE for a round above that of a COMMIT of the same node reports
      a certificate from that round or later, below its own round. */
  lemma LockIsReported(P: Params, g: Global, c: Message, m: Message)
    requires InvOf(P, g, m.from) && c in g.sent && m in g.sent && c.from == m.from
    requires c.view.height == P.height && m.view.height == P.height && c.kind == COMMIT && m.kind == ROUND_CHANGE
    requires c.view.round < m.view.round
    ensures ExtractLatestPC(m).Some? && ExtractLatestPC(m).value.proposalMessage.Some?
    ensures c.view.round <= PCRound(ExtractLatestPC(m).value) < m.view.round
  {
    assert From(P, g.sent, m.from, c) && From(P, g.sent, m.from, m);
    SentIsUsable(P, g, m);
    var pc := ExtractLatestPC(m).value;
    ValidPCMember(P.b, pc, m.view.round, P.height, pc.proposalMessage.value);
  }

  // ---------- higher rounds ----------

  /** A round-change quorum meets the commit quorum, so some honest sender of a
      round change reports a certificate from the committed round or later. */
  lemma LockReported(P: Params, g: Global, senders: set<Address>, round: nat, raw: Bytes,
                     rcs: seq<Message>, later: nat) returns (i: nat)
    requires P.FewFaulty() && Inv(P, g) && CommittedBy(P, g.sent, round, raw, senders)
    requires round < later && IsQuorum(P.b.powers, Senders(rcs))
    requires forall i :: 0 <= i < |rcs| ==> IsRoundChangeFor(P.b, rcs[i], P.ViewAt(later)) && Signed(P, g.sent, rcs[i])
    ensures i < |rcs| && HonestCertificate(P, rcs[i])
    ensures LockedFrom(ExtractLatestPC(rcs[i]), round)
  {
    var a := SharedHonest(P, senders, Senders(rcs));
    CommitMember(P, g, round, raw, a);
    i :| 0 <= i < |rcs| && rcs[i].from == a;
    var c :| c in g.sent && c.from == a && c.view == P.ViewAt(round) && c.kind == COMMIT;
    assert From(P, g.sent, a, c) && From(P, g.sent, a, rcs[i]);
    assert NodeOk(P, g, a);
  }

  /** Data justified above a committed round was prepared in the committed round or later. */
  lemma PreparedSince(P: Params, g: Global, senders: set<Address>, round: nat, raw: Bytes, later: nat, raw': Bytes)
      returns (pc: PreparedCertificate)
    requires P.FewFaulty() && Inv(P, g) && CommittedBy(P, g.sent, round, raw, senders)
    requires round < later && Justified(P, g.sent, later, raw')
    ensures ValidPCParts(P.b, pc, later, P.height) && KnownPC(P, g.sent, pc)
    ensures pc.proposalMessage.Some? && round <= PCRound(pc) < later
    ensures P.HashFor(PCRound(pc), raw', PCHash(pc))
  {
    hide Inv, CommittedBy, KnownPC, IsQuorum;
    var rcs :| JustifiedBy(P, g.sent, later, raw', rcs);
    var i := LockReported(P, g, senders, round, raw, rcs, later);
    pc :| HighestCertificate(P, g.sent, later, raw', rcs, pc);
    assert PCRound(ExtractLatestPC(rcs[i]).value) <= PCRound(pc);
    ValidPCMember(P.b, pc, later, P.height, pc.proposalMessage.value);
  }

  /** Whatever a node other than the proposer has accepted in a positive round is justified. */
  lemma AcceptedJustified(P: Params, g: Global, n: Address, round: nat)
    requires Inv(P, g) && n in P.nodes && (n, round) in g.accepted && round > 0 && !P.b.IsProposer(n, P.ViewAt(round))
    ensures Justified(P, g.sent, round, g.accepted[(n, round)])
  {
    hide NodeSound, MessagesOk, LocksReported, Justified;
    assert NodeOk(P, g, n);
  }

  /** Locking: once a quorum has sent COMMIT for some data in a round, any data that
      a round-change quorum allows in a higher round is that data. */
  lemma {:induction false} LockedJustified(P: Params, g: Global, round: nat, raw: Bytes, later: nat, raw': Bytes)
    requires P.WellFormed() && Inv(P, g) && Committed(P, g.sent, round, raw)
    requires Justified(P, g.sent, later, raw') && round < later
    ensures raw'.Content() == raw.Content()
    decreases later
  {
    hide ValidPCParts, KnownPC, Justified, CommittedBy, IsQuorum, Inv;
    var senders :| CommittedBy(P, g.sent, round, raw, senders);
    var pc := PreparedSince(P, g, senders, round, raw, later, raw');
    if PCRound(pc) == round {
      PreparedAtCommit(P, g, senders, round, raw, pc, later, raw');
    } else {
      var a := CertificateFollower(P, g, pc, later, raw');
      AcceptedJustified(P, g, a, PCRound(pc));
      LockedJustified(P, g, round, raw, PCRound(pc), g.accepted[(a, PCRound(pc))]);
    }
  }

  /** So every proposal an honest node has accepted from another proposer in a
      higher round carries the committed data. */
  lemma LockedData(P: Params, g: Global, round: nat, raw: Bytes, later: nat, n: Address)
    requires P.WellFormed() && Inv(P, g) && Committed(P, g.sent, round, raw)
    requires n in P.nodes && (n, later) in g.accepted
    requires round < later && !P.b.IsProposer(n, P.ViewAt(later))
    ensures g.accepted[(n, later)].Content() == raw.Content()
  {
    AcceptedJustified(P, g, n, later);
    LockedJustified(P, g, round, raw, later, g.accepted[(n, later)]);
  }

  /** A certificate of a committed round was made for the committed data. */
  lemma PreparedAtCommit(P: Params, g: Global, senders: set<Address>, round: nat, raw: Bytes,
                         pc: PreparedCertificate, limit: nat, raw': Bytes)
    requires P.FewFaulty() && Inv(P, g) && CommittedBy(P, g.sent, round, raw, senders)
    requires ValidPCParts(P.b, pc, limit, P.height) && KnownPC(P, g.sent, pc) && PCRound(pc) == round
    requires P.HashFor(round, raw', PCHash(pc))
    ensures raw'.Content() == raw.Content()
  {
    var a := SharedHonest(P, senders, Senders(PCMessages(pc)));
    CommitMember(P, g, round, raw, a);
    CertificateMember(P, g, pc, limit, raw', a);
  }

  /** An honest node besides the proposer accepted the data of a certificate. */
  lemma CertificateFollower(P: Params, g: Global, pc: PreparedCertificate, limit: nat, raw: Bytes) returns (a: Address)
    requires P.WellFormed() && Inv(P, g)
    requires ValidPCParts(P.b, pc, limit, P.height) && KnownPC(P, g.sent, pc) && P.HashFor(PCRound(pc), raw, PCHash(pc))
    requires PCRound(pc) > 0
    ensures a in P.nodes && (a, PCRound(pc)) in g.accepted && !P.b.IsProposer(a, P.ViewAt(PCRound(pc)))
    ensures g.accepted[(a, PCRound(pc))].Content() == raw.Content()
  {
    a := HonestFollower(P, Senders(PCMessages(pc)), P.ViewAt(PCRound(pc)));
    CertificateMember(P, g, pc, limit, raw, a);
  }

  // ---------- agreement ----------

  /** Data committed by quorums in two rounds is the same data. */
  lemma CommittedOnce(P: Params, g: Global, round: nat, raw: Bytes, round': nat, raw': Bytes)
    requires P.WellFormed() && Inv(P, g)
    requires Committed(P, g.sent, round, raw) && Committed(P, g.sent, round', raw')
    requires round <= round'
    ensures raw.Content() == raw'.Content()
  {
    var senders :| CommittedBy(P, g.sent, round, raw, senders);
    var senders' :| CommittedBy(P, g.sent, round', raw', senders');
    if round == round' {
      var a := SharedHonest(P, senders, senders');
      CommitMember(P, g, round, raw, a);
      CommitMember(P, g, round, raw', a);
    } else {
      var a := HonestFollower(P, senders', P.ViewAt(round'));
      CommitMember(P, g, round', raw', a);
      LockedData(P, g, round, raw, round', a);
    }
  }

  /** No two honest nodes insert different data. */
  lemma AgreementNow(P: Params, g: Global, m: Address, n: Address)
    requires P.WellFormed() && Inv(P, g)
    requires m in g.inserted && n in g.inserted
    ensures g.inserted[m].raw.Content() == g.inserted[n].raw.Content()
  {
    assert NodeOk(P, g, m) && NodeOk(P, g, n);
    if g.inserted[m].round <= g.inserted[n].round {
      CommittedOnce(P, g, g.inserted[m].round, g.inserted[m].raw, g.inserted[n].round, g.inserted[n].raw);
    } else {
      CommittedOnce(P, g, g.inserted[n].round, g.inserted[n].raw, g.inserted[m].round, g.inserted[m].raw);
    }
  }
}
