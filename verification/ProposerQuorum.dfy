/** Why no proposer may reach quorum together with the faulty validators: it does
    not judge its own proposal. Three votes, one vote and a faulty one, which is
    less than a third; the first validator proposes from round 1 on. In round 2 it
    builds on the certificate of round 1, the highest it finds, and with the faulty
    validator it commits other data than in round 1. Every move goes up. */
module ProposerQuorum {
  import opened Types
  import opened Quorum
  import opened Proposals
  import opened NodeState
  import opened Protocol
  import opened RoundLoop
  import opened Realization
  import opened Runs
  import opened FourValidators
  import opened Store
  import opened Ibft

  const FIRST: Bytes := Bytes.Bytes([1])
  const SECOND: Bytes := Bytes.Bytes([2])

  function Votes(): Backend {
    Backend(map[A := 3, B := 1, D := 1], (v: View) => if v.round == 0 then D else A,
            Hash, r => true, m => true, (h, s) => true)
  }

  function Three(): Params {
    Params(Votes(), {D}, {A, B}, 1)
  }

  // ---------- powers ----------

  lemma Powers()
    ensures PowerOf(Votes().powers, {A, D}) == 4 && PowerOf(Votes().powers, {D}) == 1
    ensures PowerOf(Votes().powers, {A}) == 3 && TotalPower(Votes().powers) == 5
  {
    var p := Votes().powers;
    assert p.Keys == {A, B, D};
    PowerOfSplit(p, {A, B, D}, B);
    PowerOfSplit(p, {A, D}, A);
    PowerOfSplit(p, {D}, D);
    PowerOfSplit(p, {A}, A);
    assert {A, B, D} - {B} == {A, D} && {A, D} - {A} == {D} && {D} - {D} == {} && {A} - {A} == {};
  }

  lemma ThreeHasFewFaulty()
    ensures Three().FewFaulty()
  {
    forall r, n: nat, r', n': nat ensures Hash(r, n) == Hash(r', n') ==> r == r' && n == n' {
      HashIsInjective(r, n, r', n');
    }
    Powers();
  }

  lemma ThreeSign()
    ensures AllSigned(Three())
  {
  }

  // ---------- messages ----------

  /** The certificate of round 1. */
  function Certificate(): seq<Message> {
    [PlainRoundChange(A, 1), PlainRoundChange(D, 1)]
  }

  function Proposed(raw: Bytes, round: nat): Message {
    BuildPrePrepareMessage(Votes(), A, raw, Some(RoundChangeCertificate(Certificate())), View(1, round), Nil)
  }

  lemma SendersOfTwo(msgs: seq<Message>)
    requires |msgs| == 2 && msgs[0].from == A && msgs[1].from == D
    ensures DistinctSenders(msgs) && IsQuorum(Votes().powers, Senders(msgs))
  {
    assert msgs == [msgs[0], msgs[1]];
    assert Senders(msgs) == {A, D};
    Powers();
  }

  lemma CertificateUsable(sent: set<Message>)
    requires PlainRoundChange(A, 1) in sent
    ensures UsableCertificate(Three(), sent, 1, Certificate()) && AllReadable(Certificate())
  {
    hide IsQuorum, DistinctSenders;
    SendersOfTwo(Certificate());
  }

  lemma ProposedOnCertificate(raw: Bytes, round: nat)
    requires AllReadable(Certificate()) && round > 0
    ensures ProposedMessage(Three(), View(1, round), Propose(A, Certificate(), raw, Nil)) == Proposed(raw, round)
  {
    assert !IsCandidate(Certificate()[0]) && !IsCandidate(Certificate()[1]);
    var f := ChosenIsFirstHighest(Certificate());
  }

  lemma ProposedIsValid(sent: set<Message>, raw: Bytes)
    requires PlainRoundChange(A, 1) in sent && Proposed(raw, 1) in sent
    ensures ProposalFor(Three(), sent, B, Proposed(raw, 1), View(1, 1))
  {
    hide IsQuorum;
    SendersOfTwo(Certificate());
  }

  lemma PrepareReady(sent: set<Message>, st: State, raw: Bytes, round: nat)
    requires st.view == View(1, round) && st.proposalMessage == Some(Proposed(raw, round))
    ensures PreparesFor(Three(), sent, st, [PrepareOf(D, raw, round)])
  {
    Powers();
    assert Senders([PrepareOf(D, raw, round)]) == {D};
    assert {A} + {D} == {A, D};
  }

  lemma CommitReady(sent: set<Message>, st: State, raw: Bytes, round: nat)
    requires st.view == View(1, round) && st.proposalMessage == Some(Proposed(raw, round))
    requires CommitOf(A, raw, round) in sent
    ensures CommitsFor(Three(), sent, st, [CommitOf(A, raw, round), CommitOf(D, raw, round)])
  {
    hide IsQuorum, DistinctSenders;
    SendersOfTwo([CommitOf(A, raw, round), CommitOf(D, raw, round)]);
  }

  // ---------- the run ----------

  /** A node that holds the proposal prepares it with the faulty validator. */
  lemma PreparesWithFaulty(g: Global, n: Address, raw: Bytes, round: nat) returns (g': Global)
    requires Realized(Three(), 0, g) && Active(g, n) && g.nodes[n].name == Prepare
    requires g.nodes[n].view == View(1, round) && g.nodes[n].proposalMessage == Some(Proposed(raw, round))
    ensures Acted(Three(), 0, g, g', n,
                  g.nodes[n].Lock(PreparedCertificate(Some(Proposed(raw, round)), Some([PrepareOf(D, raw, round)]))),
                  Some(CommitOf(n, raw, round)))
  {
    ThreeSign();
    hide Realized, PreparesFor, AllSigned;
    PrepareReady(g.sent, g.nodes[n], raw, round);
    g' := Prepares(Three(), 0, g, n, [PrepareOf(D, raw, round)]);
  }

  lemma InsertsWithFaulty(g: Global, n: Address, raw: Bytes, round: nat) returns (g': Global)
    requires Realized(Three(), 0, g) && Active(g, n) && g.nodes[n].name == Commit
    requires g.nodes[n].view == View(1, round) && g.nodes[n].proposalMessage == Some(Proposed(raw, round))
    requires CommitOf(A, raw, round) in g.sent
    ensures Realized(Three(), 0, g') && g'.sent == g.sent && g'.nodes.Keys == g.nodes.Keys
    ensures g'.inserted.Keys == g.inserted.Keys + {n} && g'.inserted[n].raw == raw
    ensures forall k :: k in g.inserted ==> g'.inserted[k] == g.inserted[k]
    ensures forall k :: k in g.nodes && k != n ==> g'.nodes[k] == g.nodes[k]
  {
    hide Realized, CommitsFor;
    CommitReady(g.sent, g.nodes[n], raw, round);
    g' := Finishes(Three(), 0, g, n, [CommitOf(A, raw, round), CommitOf(D, raw, round)]);
  }

  /** The proposer sends data on the certificate of round 1 and commits it. */
  lemma ProposesAndCommits(g: Global, raw: Bytes, round: nat) returns (g': Global)
    requires Realized(Three(), 0, g) && Active(g, A) && round > 0 && PlainRoundChange(A, 1) in g.sent
    requires g.nodes[A].view == View(1, round) && g.nodes[A].name == NewRound && g.nodes[A].proposalMessage == None
    ensures Realized(Three(), 0, g') && g.sent <= g'.sent && g'.inserted == g.inserted
    ensures g'.nodes.Keys == g.nodes.Keys && forall k :: k in g.nodes && k != A ==> g'.nodes[k] == g.nodes[k]
    ensures g'.nodes[A].view == View(1, round) && g'.nodes[A].name == Commit
    ensures g'.nodes[A].proposalMessage == Some(Proposed(raw, round))
    ensures Proposed(raw, round) in g'.sent && CommitOf(A, raw, round) in g'.sent
  {
    ThreeSign();
    hide Realized, UsableCertificate, AllSigned, Proposed;
    CertificateUsable(g.sent);
    ProposedOnCertificate(raw, round);
    g' := SendsProposal(Three(), 0, g, A, Certificate(), raw);
    g' := PreparesWithFaulty(g', A, raw, round);
  }

  /** The first data is proposed and committed in round 1, and the other honest
      node inserts it. */
  lemma FirstIsInserted() returns (g: Global)
    ensures Realized(Three(), 0, g) && g.inserted.Keys == {B} && g.inserted[B].raw == FIRST
    ensures g.nodes.Keys == {A, B} && g.nodes[A].view == View(1, 1) && g.nodes[A].name == Commit
    ensures PlainRoundChange(A, 1) in g.sent
  {
    ThreeSign();
    hide Realized, ProposalFor, AllSigned;
    g := Start(Three());
    g := Expires(Three(), 0, g, A);
    g := ProposesAndCommits(g, FIRST, 1);
    ProposedIsValid(g.sent, FIRST);
    g := JumpsOnProposal(Three(), 0, g, B, Proposed(FIRST, 1));
    g := PreparesWithFaulty(g, B, FIRST, 1);
    g := InsertsWithFaulty(g, B, FIRST, 1);
  }

  lemma ProposerAndFaulty()
    ensures IsQuorum(Votes().powers, Three().byzantine + {A})
  {
    Powers();
    assert {D} + {A} == {A, D};
  }

  /** Less than a third of the power is faulty and every move goes up, and still two
      honest nodes insert different data, because the proposer and the faulty
      validator are a quorum. */
  lemma AgreementNeedsProposerBound() returns (s: System)
    ensures Three().FewFaulty() && IsQuorum(Votes().powers, Three().byzantine + {A})
    ensures Reachable(Three(), 0, s) && A in s.inserted && B in s.inserted
    ensures s.inserted[B].raw == FIRST && s.inserted[A].raw == SECOND
  {
    ThreeSign();
    ThreeHasFewFaulty();
    ProposerAndFaulty();
    hide Realized, AllSigned, Proposed, IsQuorum, Reachable;
    var g := FirstIsInserted();
    g := Expires(Three(), 0, g, A);
    g := ProposesAndCommits(g, SECOND, 2);
    g := InsertsWithFaulty(g, A, SECOND, 2);
    s := SystemOf(Three(), 0, g);
  }

  // ---------- the certificate the proposer finds ----------

  /** What the proposer holds in round 2: a quorum of round 1, and its own lock
      beside a message of the faulty validator that no check lets through. */
  function Held(locked: Message): RoundMessageMap {
    map[1 := map[A := PlainRoundChange(A, 1), D := PlainRoundChange(D, 1)],
        2 := map[A := locked,
                 D := BuildRoundChangeMessage(D, None, Some(PreparedCertificate(None, None)), View(1, 2), Nil)]]
  }

  lemma RoundOneHasCertificate(locked: Message, isValidMsg: Message -> bool, isValidRCC: (nat, seq<Message>) -> bool)
    requires isValidMsg(PlainRoundChange(A, 1)) && isValidMsg(PlainRoundChange(D, 1))
    requires forall msgs :: IsQuorum(Votes().powers, Senders(msgs)) ==> isValidRCC(1, msgs)
    ensures HasRCC(Held(locked), isValidMsg, isValidRCC, 1)
  {
    hide IsQuorum;
    assert ListedAs(Certificate(), Held(locked)[1], isValidMsg, [A, D]);
    SendersOfTwo(Certificate());
  }

  lemma RoundTwoHasNone(locked: Message, isValidMsg: Message -> bool, isValidRCC: (nat, seq<Message>) -> bool)
    requires locked.from == A && !isValidMsg(Held(locked)[2][D])
    requires forall msgs :: isValidRCC(2, msgs) ==> IsQuorum(Votes().powers, Senders(msgs))
    ensures !HasRCC(Held(locked), isValidMsg, isValidRCC, 2)
  {
    Powers();
    hide Lists;
    var bucket := Held(locked)[2];
    forall list | Lists(list, bucket, isValidMsg) ensures !isValidRCC(2, list) {
      ListedSenders(list, bucket, isValidMsg);
      var senders := ValidSenders(bucket, isValidMsg);
      assert senders == {} || senders == {A};
    }
  }

  /** Waiting for a certificate of round 2, it is notified, and the highest it finds
      is for round 1. */
  lemma FindsLowerCertificate(locked: Message, isValidMsg: Message -> bool, isValidRCC: (nat, seq<Message>) -> bool)
    requires locked.from == A
    requires forall m :: isValidMsg(m) <==> ValidRoundChange(Votes(), View(1, 2), m)
    requires forall r, msgs :: isValidRCC(r, msgs) <==> ValidRCC(Votes(), View(1, 2), false, r, msgs)
    ensures IsQuorumFor(Votes().powers, ROUND_CHANGE, None, Held(locked)[2].Keys)
    ensures IsHighestRCC(Held(locked), isValidMsg, isValidRCC, 1)
  {
    Powers();
    assert Held(locked)[2].Keys == {A, D};
    assert !isValidMsg(Held(locked)[2][D]);
    assert forall msgs :: isValidRCC(1, msgs) <==> IsQuorum(Votes().powers, Senders(msgs));
    assert forall msgs :: isValidRCC(2, msgs) <==> IsQuorum(Votes().powers, Senders(msgs));
    RoundOneHasCertificate(locked, isValidMsg, isValidRCC);
    RoundTwoHasNone(locked, isValidMsg, isValidRCC);
    hide ValidRoundChange, ValidRCC, HasRCC;
    assert Held(locked).Keys == {1, 2};
    forall r: nat | HasRCC(Held(locked), isValidMsg, isValidRCC, r) ensures r <= 1 {
      InHeld(Held(locked), isValidMsg, isValidRCC, r);
    }
  }

  lemma InHeld(rounds: RoundMessageMap, isValidMsg: Message -> bool, isValidRCC: (nat, seq<Message>) -> bool, r: nat)
    ensures HasRCC(rounds, isValidMsg, isValidRCC, r) ==> r in rounds
  {
  }
}
