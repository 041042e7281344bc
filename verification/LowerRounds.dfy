/** What can happen when a node moves to a round that is not above its own. Two
    values: the first is proposed in round 1 and committed there by one honest node,
    the second in rounds 3 and 4 on ROUND_CHANGEs of nodes that hold no lock. */
module LowerRounds {
  import opened Types
  import opened NodeState
  import opened Proposals
  import opened Protocol
  import opened RoundLoop
  import opened Realization
  import opened Runs
  import opened FourValidators
  import opened Quorum
  import opened Store
  import opened Ibft

  const FIRST: Bytes := Bytes.Bytes([1])
  const SECOND: Bytes := Bytes.Bytes([2])

  // ---------- the messages ----------

  /** The certificate of round 1. */
  function Certificate(): seq<Message> {
    PlainRoundChanges(A, B, C, 1)
  }

  /** The certificate of round 3, without the node that has a lock. */
  function Unlocked(): seq<Message> {
    PlainRoundChanges(A, C, D, 3)
  }

  function LockedRoundChange(n: Address): Message {
    BuildRoundChangeMessage(n, Some(Proposal(SECOND, 3)), Some(LockOn(SECOND, 3, Unlocked(), B, C)), View(1, 4), Nil)
  }

  /** The certificate of round 4, with two locks on the second value. */
  function Relocked(): seq<Message> {
    [LockedRoundChange(B), LockedRoundChange(C), PlainRoundChange(D, 4)]
  }

  /** A ROUND_CHANGE with a certificate that no check lets through. */
  function Invalid(round: nat): Message {
    BuildRoundChangeMessage(D, None, Some(PreparedCertificate(None, None)), View(1, round), Nil)
  }

  /** The ROUND_CHANGEs that the first node holds in round 3: a quorum of valid ones
      in round 1, and in rounds 2 to 4 three messages of which one is invalid. */
  function Held(): RoundMessageMap {
    map[1 := map[A := PlainRoundChange(A, 1), B := PlainRoundChange(B, 1), C := PlainRoundChange(C, 1)],
        2 := map[A := PlainRoundChange(A, 2), C := PlainRoundChange(C, 2), D := Invalid(2)],
        3 := map[A := PlainRoundChange(A, 3), C := PlainRoundChange(C, 3), D := Invalid(3)],
        4 := map[B := LockedRoundChange(B), C := LockedRoundChange(C), D := Invalid(4)]]
  }

  // ---------- the run up to the move ----------

  predicate CertificateSent(sent: set<Message>) {
    PlainRoundChange(A, 1) in sent && PlainRoundChange(B, 1) in sent && PlainRoundChange(C, 1) in sent
  }

  /** What the first value has behind it: two PREPAREs and one COMMIT. */
  predicate FirstPrepared(sent: set<Message>) {
    PrepareOf(A, FIRST, 1) in sent && PrepareOf(B, FIRST, 1) in sent && CommitOf(B, FIRST, 1) in sent
  }

  /** Three nodes come to round 1; two of them accept the first value, and one of
      the two commits it. */
  lemma FirstIsPrepared() returns (g: Global)
    ensures Realized(Four(), 0, g) && g.inserted == map[] && CertificateSent(g.sent) && FirstPrepared(g.sent)
    ensures g.nodes.Keys == {A, B, C} && g.nodes[C] == Initial(1).MoveTo(1)
    ensures g.nodes[A] == Initial(1).MoveTo(1).Accept(ProposalOf(FIRST, 1, Certificate()))
    ensures g.nodes[B].view == View(1, 1) && g.nodes[B].name == Commit && g.nodes[B].seals == []
            && !g.nodes[B].roundStarted
  {
    FourSign();
    hide Realized, ProposalFor, AllSigned;
    g := StartOfFour();
    g := Expires(Four(), 0, g, A);
    g := Expires(Four(), 0, g, B);
    g := Expires(Four(), 0, g, C);
    ProposalValid(g.sent, A, FIRST, 1, A, B, C);
    ProposalValid(g.sent, B, FIRST, 1, A, B, C);
    g := TwoAccept(0, g, A, B, FIRST, 1, Certificate());
    g := OneCommits(0, g, B, A, B, FIRST, 1, Certificate());
  }

  /** All three time out twice; one has a lock now. */
  lemma ToRoundThree() returns (g: Global)
    ensures Realized(Four(), 0, g) && g.inserted == map[] && CertificateSent(g.sent) && FirstPrepared(g.sent)
    ensures g.nodes.Keys == {A, B, C} && g.nodes[A] == Initial(1).MoveTo(3) && g.nodes[C] == Initial(1).MoveTo(3)
    ensures g.nodes[B].view == View(1, 3) && g.nodes[B].name == NewRound && g.nodes[B].seals == []
            && !g.nodes[B].roundStarted
    ensures PlainRoundChange(A, 2) in g.sent && PlainRoundChange(C, 2) in g.sent
    ensures PlainRoundChange(A, 3) in g.sent && PlainRoundChange(C, 3) in g.sent
  {
    FourSign();
    hide Realized, AllSigned;
    g := FirstIsPrepared();
    g := Expires(Four(), 0, g, A);
    g := Expires(Four(), 0, g, B);
    g := Expires(Four(), 0, g, C);
    g := Expires(Four(), 0, g, A);
    g := Expires(Four(), 0, g, B);
    g := Expires(Four(), 0, g, C);
  }

  /** The state of the two nodes that prepared the second value, in round 4. */
  function Relocking(): State {
    State(View(1, 4), Some(LockOn(SECOND, 3, Unlocked(), B, C)), Some(Proposal(SECOND, 3)), None, [], false, NewRound)
  }

  ghost predicate BeforeTheMove(d: nat, g: Global) {
    && Realized(Four(), d, g) && g.inserted == map[] && CertificateSent(g.sent) && FirstPrepared(g.sent)
    && g.nodes == map[A := Initial(1).MoveTo(3), B := Relocking(), C := Relocking()]
    && PrepareOf(B, SECOND, 3) in g.sent && PrepareOf(C, SECOND, 3) in g.sent
    && forall r, a :: r in Held() && a in Held()[r] ==> Available(g.sent, Held()[r][a])
  }

  lemma HeldAvailable(sent: set<Message>)
    requires CertificateSent(sent) && LockedRoundChange(B) in sent && LockedRoundChange(C) in sent
    requires PlainRoundChange(A, 2) in sent && PlainRoundChange(C, 2) in sent
    requires PlainRoundChange(A, 3) in sent && PlainRoundChange(C, 3) in sent
    ensures forall r, a :: r in Held() && a in Held()[r] ==> Available(sent, Held()[r][a])
  {
  }

  /** Two nodes prepare and commit the second value in round 3 and time out. */
  lemma SecondIsPrepared() returns (g: Global)
    ensures BeforeTheMove(0, g)
  {
    FourSign();
    hide Realized, ProposalFor, AllSigned, Held;
    g := ToRoundThree();
    ProposalValid(g.sent, B, SECOND, 3, A, C, D);
    ProposalValid(g.sent, C, SECOND, 3, A, C, D);
    g := TwoAccept(0, g, B, C, SECOND, 3, Unlocked());
    g := OneCommits(0, g, B, B, C, SECOND, 3, Unlocked());
    g := OneCommits(0, g, C, B, C, SECOND, 3, Unlocked());
    g := Expires(Four(), 0, g, B);
    g := Expires(Four(), 0, g, C);
    assert g.nodes.Keys == {A, B, C};
    HeldAvailable(g.sent);
  }

  // ---------- the move ----------

  lemma FewAreNoQuorum(s: set<Address>)
    requires s <= {A, B, C, D} && |s| <= 2
    ensures !IsQuorum(Validators().powers, s)
  {
    AllFour();
    OneVoteEach(s);
  }

  /** A round with two messages beside an invalid one has no certificate. */
  lemma NoCertificate(rounds: RoundMessageMap, round: nat, x: Address, y: Address, isValidMsg: Message -> bool,
                      isValidRCC: (nat, seq<Message>) -> bool)
    requires forall r, msgs :: isValidRCC(r, msgs) ==> IsQuorum(Validators().powers, Senders(msgs))
    requires {x, y} <= {A, B, C} && round in rounds && rounds[round].Keys == {x, y, D}
    requires forall a :: a in rounds[round] ==> rounds[round][a].from == a
    requires !isValidMsg(rounds[round][D])
    ensures !HasRCC(rounds, isValidMsg, isValidRCC, round)
  {
    hide IsQuorum, Lists;
    forall list | Lists(list, rounds[round], isValidMsg) ensures !isValidRCC(round, list) {
      ListedSenders(list, rounds[round], isValidMsg);
      var senders := ValidSenders(rounds[round], isValidMsg);
      assert senders <= {x, y};
      FewerThanTwo(senders, x, y);
      FewAreNoQuorum(senders);
    }
  }

  lemma FewerThanTwo(s: set<Address>, x: Address, y: Address)
    requires s <= {x, y}
    ensures |s| <= 2
  {
    assert s == {} || s == {x} || s == {y} || s == {x, y};
  }

  lemma HeldValidity(view: View)
    ensures forall round :: !ValidRoundChange(Validators(), view, Invalid(round))
    ensures forall n, round :: ValidRoundChange(Validators(), view, PlainRoundChange(n, round))
  {
  }

  lemma RoundOneHasCertificate(isValidMsg: Message -> bool, isValidRCC: (nat, seq<Message>) -> bool, view: View)
    requires forall m :: isValidMsg(m) <==> ValidRoundChange(Validators(), view, m)
    requires forall r, msgs :: isValidRCC(r, msgs) <==> ValidRCC(Validators(), view, false, r, msgs)
    ensures HasRCC(Held(), isValidMsg, isValidRCC, 1)
  {
    HeldValidity(view);
    hide ValidRoundChange;
    var list := Certificate();
    assert isValidMsg(list[0]) && isValidMsg(list[1]) && isValidMsg(list[2]);
    assert ListedAs(list, Held()[1], isValidMsg, [A, B, C]);
    SendersOfThree(list, A, B, C);
    assert isValidRCC(1, list);
  }

  lemma OnlyRoundOne(isValidMsg: Message -> bool, isValidRCC: (nat, seq<Message>) -> bool, view: View)
    requires forall m :: isValidMsg(m) <==> ValidRoundChange(Validators(), view, m)
    requires forall r, msgs :: isValidRCC(r, msgs) ==> IsQuorum(Validators().powers, Senders(msgs))
    ensures forall r: nat :: HasRCC(Held(), isValidMsg, isValidRCC, r) ==> r == 1
  {
    HeldValidity(view);
    hide ValidRoundChange, IsQuorum, Lists;
    NoCertificate(Held(), 2, A, C, isValidMsg, isValidRCC);
    NoCertificate(Held(), 3, A, C, isValidMsg, isValidRCC);
    NoCertificate(Held(), 4, B, C, isValidMsg, isValidRCC);
  }

  /** Not only for higher rounds: a node waiting in round 3 is notified, because a
      quorum of messages for round 4 is there, and the highest certificate it finds
      is for round 1. */
  lemma CertificateOfLowerRound(isValidMsg: Message -> bool, isValidRCC: (nat, seq<Message>) -> bool)
    requires forall m :: isValidMsg(m) <==> ValidRoundChange(Validators(), View(1, 3), m)
    requires forall r, msgs :: isValidRCC(r, msgs) <==> ValidRCC(Validators(), View(1, 3), false, r, msgs)
    ensures IsQuorumFor(Validators().powers, ROUND_CHANGE, None, Held()[4].Keys)
    ensures IsHighestRCC(Held(), isValidMsg, isValidRCC, 1)
  {
    assert forall r, msgs :: isValidRCC(r, msgs) ==> IsQuorum(Validators().powers, Senders(msgs));
    hide ValidRoundChange, ValidRCC, IsQuorum, HasRCC;
    assert Held()[4].Keys == {B, C, D};
    ThreeSuffice(B, C, D);
    OnlyRoundOne(isValidMsg, isValidRCC, View(1, 3));
    RoundOneHasCertificate(isValidMsg, isValidRCC, View(1, 3));
  }

  /** And so it moves from round 3 to round 1. */
  lemma MovesToLowerRound(g: Global) returns (g': Global)
    requires BeforeTheMove(0, g)
    ensures Enabled(Four(), g, JumpToCertificate(A, Certificate()))
    ensures g' == Next(Four(), g, JumpToCertificate(A, Certificate())) && Realized(Four(), 1, g')
    ensures g'.nodes == map[A := Initial(1).MoveTo(1), B := Relocking(), C := Relocking()]
    ensures g'.sent == g.sent && g'.inserted == map[]
  {
    hide Realized, UsableCertificate;
    PlainCertificateUsable(g.sent, A, B, C, 1);
    g' := Do(Four(), 0, g, JumpToCertificate(A, Certificate()));
  }

  // ---------- what comes of it ----------

  /** Back in round 1, the node takes the first value again and inserts it. */
  lemma FirstIsInserted(d: nat, g: Global) returns (g': Global)
    requires Realized(Four(), d, g) && g.inserted == map[] && CertificateSent(g.sent) && FirstPrepared(g.sent)
    requires g.nodes == map[A := Initial(1).MoveTo(1), B := Relocking(), C := Relocking()]
    ensures Realized(Four(), d, g') && g.sent <= g'.sent && g'.inserted.Keys == {A} && g'.inserted[A].raw == FIRST
    ensures g'.nodes.Keys == {A, B, C} && g'.nodes[B] == Relocking() && g'.nodes[C] == Relocking()
  {
    FourSign();
    hide Realized, ProposalFor, AllSigned;
    var m := ProposalOf(FIRST, 1, Certificate());
    ProposalValid(g.sent, A, FIRST, 1, A, B, C);
    g' := TakesProposal(Four(), d, g, A, m);
    g' := OneCommits(d, g', A, A, B, FIRST, 1, Certificate());
    g' := OneInserts(d, g', A, A, B, FIRST, 1, Certificate());
  }

  /** The second value is proposed again, on the locks it has in round 4. */
  lemma RelockedProposalValid(sent: set<Message>, id: Address)
    requires Honest(id) && LockedRoundChange(B) in sent && LockedRoundChange(C) in sent
    requires PrepareOf(B, SECOND, 3) in sent && PrepareOf(C, SECOND, 3) in sent
    ensures ProposalFor(Four(), sent, id, ProposalOf(SECOND, 4, Relocked()), View(1, 4))
  {
    hide IsQuorum, HasCertificate;
    SendersOfThree(Relocked(), B, C, D);
    assert CarriesHighest(Validators(), Relocked(), 4, 1, SECOND) by {
      forall j: nat | IsLastHighest(Validators(), Relocked(), 4, 1, j) ensures j < 2 {
        assert !HasCertificate(Validators(), Relocked()[2], 4, 1) by {
          PlainHasNone();
        }
      }
    }
  }

  lemma PlainHasNone()
    ensures !HasCertificate(Validators(), Relocked()[2], 4, 1)
  {
  }

  lemma SecondIsInserted(d: nat, g: Global) returns (g': Global)
    requires Realized(Four(), d, g) && g.inserted.Keys == {A} && g.nodes.Keys == {A, B, C}
    requires g.nodes[B] == Relocking() && g.nodes[C] == Relocking()
    requires LockedRoundChange(B) in g.sent && LockedRoundChange(C) in g.sent
    requires PrepareOf(B, SECOND, 3) in g.sent && PrepareOf(C, SECOND, 3) in g.sent
    ensures Realized(Four(), d, g') && g'.inserted.Keys == {A, C}
    ensures g'.inserted[A] == g.inserted[A] && g'.inserted[C].raw == SECOND
  {
    hide Realized, ProposalFor;
    RelockedProposalValid(g.sent, B);
    RelockedProposalValid(g.sent, C);
    g' := TwoAccept(d, g, B, C, SECOND, 4, Relocked());
    g' := OneCommits(d, g', B, B, C, SECOND, 4, Relocked());
    g' := OneCommits(d, g', C, B, C, SECOND, 4, Relocked());
    g' := OneInserts(d, g', C, B, C, SECOND, 4, Relocked());
  }

  /** Agreement needs the guard: with one faulty validator of four, and one single
      move that is not upward, on a certificate the node finds when it has been
      notified, two honest nodes insert different data. */
  lemma AgreementNeedsUpwardMoves() returns (g: Global, s: System)
    ensures Four().WellFormed() && BeforeTheMove(0, g)
    ensures Enabled(Four(), g, JumpToCertificate(A, Certificate()))
    ensures IsQuorumFor(Validators().powers, ROUND_CHANGE, None, Held()[4].Keys)
    ensures Reachable(Four(), 1, s) && A in s.inserted && C in s.inserted
    ensures s.inserted[A].raw == FIRST && s.inserted[C].raw == SECOND
  {
    hide Realized, BeforeTheMove, Enabled, IsQuorum;
    FourIsWellFormed();
    ThreeSuffice(B, C, D);
    assert Held()[4].Keys == {B, C, D};
    g := SecondIsPrepared();
    var g' := MovesToLowerRound(g);
    WhatIsSent(g);
    g' := FirstIsInserted(1, g');
    g' := SecondIsInserted(1, g');
    s := SystemOf(Four(), 1, g');
  }

  lemma WhatIsSent(g: Global)
    requires BeforeTheMove(0, g)
    ensures CertificateSent(g.sent) && FirstPrepared(g.sent)
    ensures PrepareOf(B, SECOND, 3) in g.sent && PrepareOf(C, SECOND, 3) in g.sent
    ensures LockedRoundChange(B) in g.sent && LockedRoundChange(C) in g.sent
  {
    assert Available(g.sent, Held()[4][B]) && Available(g.sent, Held()[4][C]);
  }
}
