/** The messages of the protocol, the accessors that read them, and what the
    surrounding application (the Backend) is assumed to provide. */
module Types {

  datatype Option<+T> = None | Some(value: T)

  newtype byte = b: int | 0 <= b < 0x100

  /** A sender, as the string key the program turns `From` into. */
  type Address = seq<byte>

  /** A Go byte slice. A nil slice is kept apart from an empty one, because
      the program tests for nil in three places; comparisons ignore it. */
  datatype Bytes = Nil | Bytes(data: seq<byte>) {
    function Content(): seq<byte> {
      match this
      case Nil => []
      case Bytes(d) => d
    }
  }

  /** bytes.Equal */
  predicate Equal(a: Bytes, b: Bytes) {
    a.Content() == b.Content()
  }

  /** To a comparison a nil slice is an empty one, and nothing else is. */
  lemma NilIsEmpty(a: Bytes)
    ensures Equal(Nil, Bytes([])) && (Equal(a, Nil) <==> a == Nil || a == Bytes([]))
  {
  }

  datatype View = View(height: nat, round: nat)

  /** One past the largest value of a round number, which is a uint64. */
  const UINT64_LIMIT: nat := 0x1_0000_0000_0000_0000

  /** `round + 1` on a uint64. */
  function NextRound(round: nat): nat {
    (round + 1) % UINT64_LIMIT
  }

  /** Above the last round number of 64 bits comes round 0. */
  lemma RoundsWrapAt64Bits(round: nat)
    requires round <= 0xFFFF_FFFF_FFFF_FFFF
    ensures NextRound(round) == if round == 0xFFFF_FFFF_FFFF_FFFF then 0 else round + 1
  {
  }

  datatype MessageType = PREPREPARE | PREPARE | COMMIT | ROUND_CHANGE

  datatype Proposal = Proposal(raw: Bytes, round: nat)

  datatype Message = Message(view: View, from: Address, signature: Bytes, kind: MessageType, payload: Payload)

  datatype Payload =
    | NoPayload
    | PreprepareData(proposal: Option<Proposal>, proposalHash: Bytes, certificate: Option<RoundChangeCertificate>)
    | PrepareData(prepareHash: Bytes)
    | CommitData(commitHash: Bytes, committedSeal: Bytes)
    | RoundChangeData(lastPreparedProposal: Option<Proposal>, latestPreparedCertificate: Option<PreparedCertificate>)

  datatype PreparedCertificate =
    PreparedCertificate(proposalMessage: Option<Message>, prepareMessages: Option<seq<Message>>)

  datatype RoundChangeCertificate = RoundChangeCertificate(roundChangeMessages: seq<Message>)

  datatype CommittedSeal = CommittedSeal(signer: Address, signature: Bytes)

  // ---------- accessors ----------

  function ExtractProposal(m: Message): Option<Proposal> {
    if m.kind == PREPREPARE && m.payload.PreprepareData? then m.payload.proposal else None
  }

  function ExtractProposalHash(m: Message): Bytes {
    if m.kind == PREPREPARE && m.payload.PreprepareData? then m.payload.proposalHash else Nil
  }

  function ExtractRoundChangeCertificate(m: Message): Option<RoundChangeCertificate> {
    if m.kind == PREPREPARE && m.payload.PreprepareData? then m.payload.certificate else None
  }

  function ExtractPrepareHash(m: Message): Bytes {
    if m.kind == PREPARE && m.payload.PrepareData? then m.payload.prepareHash else Nil
  }

  function ExtractCommitHash(m: Message): Bytes {
    if m.kind == COMMIT && m.payload.CommitData? then m.payload.commitHash else Nil
  }

  function ExtractCommittedSeal(m: Message): Option<CommittedSeal> {
    if m.payload.CommitData? then Some(CommittedSeal(m.from, m.payload.committedSeal)) else None
  }

  function ExtractLatestPC(m: Message): Option<PreparedCertificate> {
    if m.kind == ROUND_CHANGE && m.payload.RoundChangeData? then m.payload.latestPreparedCertificate else None
  }

  function ExtractLastPreparedProposal(m: Message): Option<Proposal> {
    if m.kind == ROUND_CHANGE && m.payload.RoundChangeData? then m.payload.lastPreparedProposal else None
  }

  /** A message of another type, or with the payload of another type, answers nothing;
      only a seal is read without looking at the type. */
  lemma OtherTypesAnswerNothing(m: Message)
    ensures !(m.kind == PREPREPARE && m.payload.PreprepareData?) ==>
              ExtractProposal(m) == None && ExtractProposalHash(m) == Nil && ExtractRoundChangeCertificate(m) == None
    ensures !(m.kind == PREPARE && m.payload.PrepareData?) ==> ExtractPrepareHash(m) == Nil
    ensures !(m.kind == COMMIT && m.payload.CommitData?) ==> ExtractCommitHash(m) == Nil
    ensures !(m.kind == ROUND_CHANGE && m.payload.RoundChangeData?) ==>
              ExtractLatestPC(m) == None && ExtractLastPreparedProposal(m) == None
    ensures ExtractCommittedSeal(m).Some? <==> m.payload.CommitData?
  {
  }

  /** convertMessageToAddressSet */
  ghost function Senders(ms: seq<Message>): set<Address> {
    set m | m in ms :: m.from
  }

  ghost predicate DistinctSenders(ms: seq<Message>) {
    forall i, j :: 0 <= i < j < |ms| ==> ms[i].from != ms[j].from
  }

  // ---------- the application around the protocol ----------

  /** What the application answers at one height. There is one proposer for
      each view; everything else is unconstrained until WellFormed says so. */
  datatype Backend = Backend(
    powers: map<Address, int>,
    proposer: View -> Address,
    hash: (seq<byte>, nat) -> seq<byte>,
    validRaw: Bytes -> bool,
    validSender: Message -> bool,
    validSeal: (seq<byte>, Option<CommittedSeal>) -> bool)
  {
    predicate IsProposer(id: Address, view: View) {
      proposer(view) == id
    }

    /** The hash of a proposal covers its raw content and its round. A missing
        proposal has no valid hash. */
    predicate IsValidProposalHash(proposal: Option<Proposal>, hash: Bytes) {
      proposal.Some? && hash.Content() == this.hash(proposal.value.raw.Content(), proposal.value.round)
    }

    /** The hash determines raw content and round and is never empty. */
    ghost predicate CollisionFree() {
      && (forall r, n :: hash(r, n) != [])
      && (forall r, n, r', n' :: hash(r, n) == hash(r', n') ==> r == r' && n == n')
    }
  }
}
