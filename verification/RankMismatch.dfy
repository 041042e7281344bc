/** A run in which an honest proposer, on a usable round-change certificate, sends a
    proposal that every other honest node refuses: nothing ties the round embedded
    in a prepared proposal to the round of its certificate, and buildProposal and
    validateProposal rank the certificates by one each. */
module RankMismatch {
  import opened Types
  import opened Quorum
  import opened Certificates
  import opened Proposals
  import opened NodeState
  import opened Protocol
  import opened RoundLoop
  import opened Realization
  import opened Runs
  import opened FourValidators

  const EARLY: Bytes := Bytes.Bytes([1])
  const LATE: Bytes := Bytes.Bytes([2])

  // ---------- the certificates ----------

  function FirstChanges(): seq<Message> {
    PlainRoundChanges(A, B, D, 1)
  }

  /** The faulty validator's proposal of round 0, with another round in it; the
      hash, which the PREPAREs repeat, is still that of round 0. */
  function Altered(): Message {
    var m := ProposalOf(EARLY, 0, []);
    m.(payload := m.payload.(proposal := Some(Proposal(EARLY, 7))))
  }

  function EarlyCertificate(): PreparedCertificate {
    PreparedCertificate(Some(Altered()), Some([PrepareOf(A, EARLY, 0), PrepareOf(B, EARLY, 0)]))
  }

  function LateCertificate(): PreparedCertificate {
    PreparedCertificate(Some(ProposalOf(LATE, 1, FirstChanges())), Some([PrepareOf(A, LATE, 1), PrepareOf(B, LATE, 1)]))
  }

  function Reporting(n: Address, raw: Bytes, round: nat, pc: PreparedCertificate): Message {
    BuildRoundChangeMessage(n, Some(Proposal(raw, round)), Some(pc), View(1, 2), Nil)
  }

  /** The faulty validator reports the early certificate, one honest node the late one. */
  function RankedApart(): seq<Message> {
    [Reporting(D, EARLY, 0, EarlyCertificate()), PlainRoundChange(A, 2), Reporting(B, LATE, 1, LateCertificate())]
  }

  lemma CertificateValid(pc: PreparedCertificate, proposal: Message, raw: Bytes, round: nat)
    requires round < 2
    requires pc == PreparedCertificate(Some(proposal), Some([PrepareOf(A, raw, round), PrepareOf(B, raw, round)]))
    requires proposal.from == D && proposal.view == View(1, round) && proposal.kind == PREPREPARE
    requires ExtractProposalHash(proposal) == HashOf(raw, round)
    ensures ValidPCParts(Validators(), pc, 2, 1)
  {
    hide IsQuorum;
    var msgs := PCMessages(pc);
    assert msgs == [proposal, PrepareOf(A, raw, round), PrepareOf(B, raw, round)];
    ThreeSuffice(D, A, B);
    assert Senders(msgs) == {D, A, B};
  }

  lemma BothValid()
    ensures ValidPCParts(Validators(), EarlyCertificate(), 2, 1) && ValidPCParts(Validators(), LateCertificate(), 2, 1)
  {
    CertificateValid(EarlyCertificate(), Altered(), EARLY, 0);
    CertificateValid(LateCertificate(), ProposalOf(LATE, 1, FirstChanges()), LATE, 1);
  }

  predicate PreparesSent(sent: set<Message>) {
    && PrepareOf(A, EARLY, 0) in sent && PrepareOf(B, EARLY, 0) in sent
    && PrepareOf(A, LATE, 1) in sent && PrepareOf(B, LATE, 1) in sent
  }

  lemma RankedApartUsable(sent: set<Message>)
    requires PreparesSent(sent) && PlainRoundChange(A, 2) in sent && RankedApart()[2] in sent
    ensures UsableCertificate(Four(), sent, 1, RankedApart()) && UsableRCC(Validators(), RankedApart(), View(1, 2))
    ensures RankedApart() != [] && RankedApart()[0].view == View(1, 2) && AllReadable(RankedApart())
    ensures forall i :: 0 <= i < |RankedApart()| ==> RawGiven(RankedApart()[i])
  {
    hide IsQuorum, DistinctSenders, ValidPCParts;
    SendersOfThree(RankedApart(), D, A, B);
    BothValid();
  }

  // ---------- how the two rank them ----------

  lemma RanksDisagree()
    requires AllReadable(RankedApart())
    ensures !RanksAgree(Validators(), RankedApart(), View(1, 2)) && BuiltRaw(RankedApart(), LATE) == EARLY
  {
    hide ValidPCParts;
    BothValid();
    var rcs := RankedApart();
    assert IsFirstHighest(rcs, 0);
    assert IsLastHighest(Validators(), rcs, 2, 1, 2);
    var f := ChosenIsFirstHighest(rcs);
    FirstHighestIsUnique(rcs, 0);
  }

  // ---------- the run ----------

  /** Two honest nodes prepare in round 0 and get to round 1. */
  lemma FirstRound() returns (g: Global)
    ensures Realized(Four(), 0, g) && g.inserted == map[]
    ensures g.nodes == map[A := Initial(1).MoveTo(1), B := Initial(1).MoveTo(1), C := Initial(1)]
    ensures PrepareOf(A, EARLY, 0) in g.sent && PrepareOf(B, EARLY, 0) in g.sent
    ensures PlainRoundChange(A, 1) in g.sent && PlainRoundChange(B, 1) in g.sent
  {
    FourSign();
    hide Realized, ProposalFor, AllSigned;
    g := StartOfFour();
    FirstProposalValid(g.sent, A, EARLY);
    g := TakesProposal(Four(), 0, g, A, ProposalOf(EARLY, 0, []));
    FirstProposalValid(g.sent, B, EARLY);
    g := TakesProposal(Four(), 0, g, B, ProposalOf(EARLY, 0, []));
    g := Expires(Four(), 0, g, A);
    g := Expires(Four(), 0, g, B);
  }

  /** They prepare in round 1 too, where one of them locks, and go on to round 2. */
  lemma TwoRounds() returns (g: Global)
    ensures Realized(Four(), 0, g) && g.inserted == map[] && Active(g, C) && g.nodes[C] == Initial(1)
    ensures PreparesSent(g.sent) && PlainRoundChange(A, 2) in g.sent && RankedApart()[2] in g.sent
  {
    FourSign();
    hide Realized, ProposalFor, PreparesFor, AllSigned;
    g := FirstRound();
    ProposalValid(g.sent, A, LATE, 1, A, B, D);
    g := TakesProposal(Four(), 0, g, A, ProposalOf(LATE, 1, FirstChanges()));
    ProposalValid(g.sent, B, LATE, 1, A, B, D);
    g := TakesProposal(Four(), 0, g, B, ProposalOf(LATE, 1, FirstChanges()));
    g := OneCommits(0, g, B, A, B, LATE, 1, FirstChanges());
    g := Expires(Four(), 0, g, A);
    g := Expires(Four(), 0, g, B);
  }

  /** The proposal the honest proposer makes of the certificate. */
  ghost function Made(): Message
    requires AllReadable(RankedApart())
  {
    ProposedMessage(Four(), View(1, 2), Propose(C, RankedApart(), LATE, Nil))
  }

  lemma MadeIsRefused(id: Address)
    requires UsableRCC(Validators(), RankedApart(), View(1, 2)) && AllReadable(RankedApart()) && id != C
    requires RankedApart() != [] && RankedApart()[0].view == View(1, 2)
    requires forall i :: 0 <= i < |RankedApart()| ==> RawGiven(RankedApart()[i])
    ensures Made().view == View(1, 2) && Made().from == C && ExtractProposal(Made()).Some?
    ensures !ValidPrePrepare(Validators(), id, Made(), Made().view)
  {
    hide UsableRCC, AllReadable, RanksAgree, RankedApart, ValidProposal, IsQuorum;
    NoCollisions();
    RanksDisagree();
    BuiltProposalAcceptedIff(Validators(), RankedApart(), View(1, 2), LATE, Nil, id);
  }

  /** With one faulty validator of four, an honest proposer sends, on a certificate
      that could be presented to it, a proposal of valid data that no other
      validator accepts. */
  lemma BuiltProposalRefused() returns (s: System, m: Message)
    ensures Four().WellFormed() && Reachable(Four(), 0, s) && UsableCertificate(Four(), s.sent, 1, RankedApart())
    ensures m in s.sent && m.from == C && C in Four().nodes && m.view == View(1, 2) && ExtractProposal(m).Some?
    ensures Validators().validRaw(ExtractProposal(m).value.raw)
    ensures forall id :: id != C ==> !ValidPrePrepare(Validators(), id, m, m.view)
  {
    hide Realized, UsableCertificate, UsableRCC, AllReadable, RankedApart, ValidPrePrepare, ProposedMessage;
    FourSign();
    FourIsWellFormed();
    var g := TwoRounds();
    RankedApartUsable(g.sent);
    g := Jumps(Four(), 0, g, C, RankedApart());
    g := SendsProposal(Four(), 0, g, C, RankedApart(), LATE);
    m := Made();
    RankedApartUsable(g.sent);
    forall id | id != C ensures !ValidPrePrepare(Validators(), id, m, m.view) {
      MadeIsRefused(id);
    }
    MadeIsRefused(A);
    s := SystemOf(Four(), 0, g);
  }
}
