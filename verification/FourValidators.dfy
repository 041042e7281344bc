/** Four validators with one vote each, of which the last is faulty and proposes
    in most rounds; and the steps of the honest ones, as steps of the system. */
module FourValidators {
  import opened Types
  import opened Quorum
  import opened Proposals
  import opened NodeState
  import opened Protocol
  import opened LoopInvariant
  import opened Runs
  import opened Theorems

  const A: Address := [1]
  const B: Address := [2]
  const C: Address := [3]
  const D: Address := [4]

  function Hash(raw: seq<byte>, round: nat): seq<byte> {
    seq(round, i => 0) + [1] + raw
  }

  function Validators(): Backend {
    Backend(map[A := 1, B := 1, C := 1, D := 1], (v: View) => if v.round == 2 then C else D,
            Hash, r => true, m => true, (h, s) => true)
  }

  function Four(): Params {
    Params(Validators(), {D}, {A, B, C}, 1)
  }

  // ---------- the assumptions hold ----------

  lemma HashIsInjective(r: seq<byte>, n: nat, r': seq<byte>, n': nat)
    ensures Hash(r, n) == Hash(r', n') ==> r == r' && n == n'
  {
    var h, h' := Hash(r, n), Hash(r', n');
    assert h[n] == 1 && h'[n'] == 1;
    if n < n' {
      assert h'[n] == 0;
    } else if n' < n {
      assert h[n'] == 0;
    } else {
      assert h[n + 1..] == r && h'[n + 1..] == r';
    }
  }

  lemma NoCollisions()
    ensures Validators().CollisionFree()
  {
    forall r, n: nat, r', n': nat
      ensures Validators().hash(r, n) == Validators().hash(r', n') ==> r == r' && n == n'
    {
      HashIsInjective(r, n, r', n');
    }
  }

  lemma {:induction false} OneVoteEach(s: set<Address>)
    requires s <= {A, B, C, D}
    ensures PowerOf(Validators().powers, s) == |s|
    decreases s
  {
    if s != {} {
      OneVoteEach(s - {Pick(s)});
    }
  }

  lemma AllFour()
    ensures Validators().powers.Keys == {A, B, C, D} && |{A, B, C, D}| == 4 && TotalPower(Validators().powers) == 4
  {
    assert Validators().powers.Keys == {A, B, C, D};
    OneVoteEach({A, B, C, D});
  }

  /** Three of the four are a quorum. */
  lemma ThreeSuffice(x: Address, y: Address, z: Address)
    requires {x, y, z} <= {A, B, C, D} && x != y && y != z && x != z
    ensures IsQuorum(Validators().powers, {x, y, z})
  {
    AllFour();
    OneVoteEach({x, y, z});
    assert |{x, y, z}| == 3;
  }

  lemma FourIsWellFormed()
    ensures Four().WellFormed()
  {
    NoCollisions();
    AllFour();
    OneVoteEach({D});
    UnitWeightsSuffice(Four());
  }

  lemma StartOfFour() returns (g: Global)
    ensures Realized(Four(), 0, g) && g.inserted == map[]
    ensures g.nodes == map[A := Initial(1), B := Initial(1), C := Initial(1)]
  {
    hide Realized;
    g := Start(Four());
    assert g.nodes.Keys == {A, B, C};
  }

  // ---------- messages and when they are good for something ----------

  function HashOf(raw: Bytes, round: nat): Bytes {
    Bytes.Bytes(Hash(raw.Content(), round))
  }

  /** A ROUND_CHANGE of a node without a lock. */
  function PlainRoundChange(n: Address, round: nat): Message {
    BuildRoundChangeMessage(n, None, None, View(1, round), Nil)
  }

  function PlainRoundChanges(x: Address, y: Address, z: Address, round: nat): seq<Message> {
    [PlainRoundChange(x, round), PlainRoundChange(y, round), PlainRoundChange(z, round)]
  }

  /** A proposal of the faulty validator. */
  function ProposalOf(raw: Bytes, round: nat, rcs: seq<Message>): Message {
    BuildPrePrepareMessage(Validators(), D, raw, if round == 0 then None else Some(RoundChangeCertificate(rcs)),
                           View(1, round), Nil)
  }

  function PrepareOf(n: Address, raw: Bytes, round: nat): Message {
    BuildPrepareMessage(n, HashOf(raw, round), View(1, round), Nil)
  }

  function CommitOf(n: Address, raw: Bytes, round: nat): Message {
    BuildCommitMessage(n, HashOf(raw, round), View(1, round), Nil, Nil)
  }

  predicate Honest(n: Address) {
    n == A || n == B || n == C
  }

  /** The message is the faulty validator's, or has been sent. */
  predicate Available(sent: set<Message>, m: Message) {
    m.from == D || m in sent
  }

  lemma SendersOfThree(rcs: seq<Message>, x: Address, y: Address, z: Address)
    requires |rcs| == 3 && rcs[0].from == x && rcs[1].from == y && rcs[2].from == z
    requires {x, y, z} <= {A, B, C, D} && x != y && y != z && x != z
    ensures DistinctSenders(rcs) && IsQuorum(Validators().powers, Senders(rcs))
  {
    ThreeSuffice(x, y, z);
    assert Senders(rcs) == {x, y, z} by {
      assert rcs == [rcs[0], rcs[1], rcs[2]];
    }
  }

  lemma PlainCertificateUsable(sent: set<Message>, x: Address, y: Address, z: Address, round: nat)
    requires {x, y, z} <= {A, B, C, D} && x != y && y != z && x != z && round > 0
    requires Available(sent, PlainRoundChange(x, round)) && Available(sent, PlainRoundChange(y, round))
    requires Available(sent, PlainRoundChange(z, round))
    ensures UsableCertificate(Four(), sent, 1, PlainRoundChanges(x, y, z, round))
  {
    hide IsQuorum, DistinctSenders;
    SendersOfThree(PlainRoundChanges(x, y, z, round), x, y, z);
  }

  lemma FirstProposalValid(sent: set<Message>, id: Address, raw: Bytes)
    requires Honest(id)
    ensures ProposalFor(Four(), sent, id, ProposalOf(raw, 0, []), View(1, 0))
  {
  }

  lemma ProposalValid(sent: set<Message>, id: Address, raw: Bytes, round: nat, x: Address, y: Address, z: Address)
    requires Honest(id) && round > 0 && round != 2
    requires {x, y, z} <= {A, B, C, D} && x != y && y != z && x != z
    requires Available(sent, PlainRoundChange(x, round)) && Available(sent, PlainRoundChange(y, round))
    requires Available(sent, PlainRoundChange(z, round))
    ensures ProposalFor(Four(), sent, id, ProposalOf(raw, round, PlainRoundChanges(x, y, z, round)), View(1, round))
  {
    hide IsQuorum;
    SendersOfThree(PlainRoundChanges(x, y, z, round), x, y, z);
  }

  /** Two PREPAREs beside the proposal are a quorum. */
  lemma PreparesReady(sent: set<Message>, st: State, x: Address, y: Address, raw: Bytes, round: nat, rcs: seq<Message>)
    requires st.view == View(1, round) && st.proposalMessage == Some(ProposalOf(raw, round, rcs))
    requires Honest(x) && Honest(y) && x != y && PrepareOf(x, raw, round) in sent && PrepareOf(y, raw, round) in sent
    ensures PreparesFor(Four(), sent, st, [PrepareOf(x, raw, round), PrepareOf(y, raw, round)])
  {
    hide IsQuorum;
    ThreeSuffice(D, x, y);
    assert Senders([PrepareOf(x, raw, round), PrepareOf(y, raw, round)]) == {x, y};
    assert {D} + {x, y} == {D, x, y};
  }

  /** Two COMMITs and the faulty validator's are a quorum. */
  lemma CommitsReady(sent: set<Message>, st: State, x: Address, y: Address, raw: Bytes, round: nat, rcs: seq<Message>)
    requires st.view == View(1, round) && st.proposalMessage == Some(ProposalOf(raw, round, rcs))
    requires Honest(x) && Honest(y) && x != y && CommitOf(x, raw, round) in sent && CommitOf(y, raw, round) in sent
    ensures CommitsFor(Four(), sent, st, [CommitOf(x, raw, round), CommitOf(y, raw, round), CommitOf(D, raw, round)])
  {
    hide IsQuorum, DistinctSenders;
    SendersOfThree([CommitOf(x, raw, round), CommitOf(y, raw, round), CommitOf(D, raw, round)], x, y, D);
  }

  // ---------- what two honest nodes do together ----------

  /** What a node records that has prepared with these PREPAREs. */
  function LockOn(raw: Bytes, round: nat, rcs: seq<Message>, x: Address, y: Address): PreparedCertificate {
    PreparedCertificate(Some(ProposalOf(raw, round, rcs)), Some([PrepareOf(x, raw, round), PrepareOf(y, raw, round)]))
  }

  lemma ProposalForKept(sent: set<Message>, sent': set<Message>, id: Address, m: Message, view: View)
    requires ProposalFor(Four(), sent, id, m, view) && sent <= sent'
    ensures ProposalFor(Four(), sent', id, m, view)
  {
    hide Fetched, ValidPrePrepare;
    FetchedKept(Four(), sent, sent', [m], view, PREPREPARE);
  }

  lemma FourSign()
    ensures AllSigned(Four())
  {
  }

  lemma TwoAccept(d: nat, g: Global, x: Address, y: Address, raw: Bytes, round: nat, rcs: seq<Message>)
      returns (g': Global)
    requires Realized(Four(), d, g) && Active(g, x) && Active(g, y) && x != y
    requires g.nodes[x].name == NewRound && g.nodes[x].view == View(1, round)
    requires g.nodes[y].name == NewRound && g.nodes[y].view == View(1, round)
    requires ProposalFor(Four(), g.sent, x, ProposalOf(raw, round, rcs), View(1, round))
    requires ProposalFor(Four(), g.sent, y, ProposalOf(raw, round, rcs), View(1, round))
    ensures Realized(Four(), d, g') && g'.inserted == g.inserted
    ensures var m := ProposalOf(raw, round, rcs);
            g'.nodes == g.nodes[x := g.nodes[x].Accept(m)][y := g.nodes[y].Accept(m)]
    ensures g'.sent == g.sent + {PrepareOf(x, raw, round)} + {PrepareOf(y, raw, round)}
  {
    FourSign();
    hide Realized, ProposalFor, AllSigned;
    var m := ProposalOf(raw, round, rcs);
    g' := TakesProposal(Four(), d, g, x, m);
    ProposalForKept(g.sent, g'.sent, y, m, View(1, round));
    g' := TakesProposal(Four(), d, g', y, m);
  }

  lemma OneCommits(d: nat, g: Global, n: Address, x: Address, y: Address, raw: Bytes, round: nat, rcs: seq<Message>)
      returns (g': Global)
    requires Realized(Four(), d, g) && Active(g, n) && Honest(x) && Honest(y) && x != y
    requires g.nodes[n].name == Prepare && g.nodes[n].view == View(1, round)
    requires g.nodes[n].proposalMessage == Some(ProposalOf(raw, round, rcs))
    requires PrepareOf(x, raw, round) in g.sent && PrepareOf(y, raw, round) in g.sent
    ensures Acted(Four(), d, g, g', n, g.nodes[n].Lock(LockOn(raw, round, rcs, x, y)), Some(CommitOf(n, raw, round)))
  {
    FourSign();
    hide Realized, PreparesFor, AllSigned;
    PreparesReady(g.sent, g.nodes[n], x, y, raw, round, rcs);
    g' := Prepares(Four(), d, g, n, [PrepareOf(x, raw, round), PrepareOf(y, raw, round)]);
  }

  /** With both COMMITs and that of the faulty validator, a node inserts the data. */
  lemma OneInserts(d: nat, g: Global, n: Address, x: Address, y: Address, raw: Bytes, round: nat, rcs: seq<Message>)
      returns (g': Global)
    requires Realized(Four(), d, g) && Active(g, n) && Honest(x) && Honest(y) && x != y
    requires g.nodes[n].name == Commit && g.nodes[n].view == View(1, round)
    requires g.nodes[n].proposalMessage == Some(ProposalOf(raw, round, rcs))
    requires CommitOf(x, raw, round) in g.sent && CommitOf(y, raw, round) in g.sent
    ensures Realized(Four(), d, g') && g'.sent == g.sent && g'.nodes.Keys == g.nodes.Keys
    ensures g'.inserted.Keys == g.inserted.Keys + {n} && g'.inserted[n].raw == raw
    ensures forall k :: k in g.inserted ==> g'.inserted[k] == g.inserted[k]
    ensures forall k :: k in g.nodes && k != n ==> g'.nodes[k] == g.nodes[k]
  {
    hide Realized, CommitsFor;
    CommitsReady(g.sent, g.nodes[n], x, y, raw, round, rcs);
    g' := Finishes(Four(), d, g, n, [CommitOf(x, raw, round), CommitOf(y, raw, round), CommitOf(D, raw, round)]);
  }
}
