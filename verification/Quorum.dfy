/** core/validator_manager.go: voting power, quorum size and the facts about
    overlapping quorums that safety rests on. */
module Quorum {
  import opened Types

  // ---------- specification ----------

  function Weight(powers: map<Address, int>, a: Address): int {
    if a in powers then powers[a] else 0
  }

  ghost function Pick(s: set<Address>): (a: Address)
    requires s != {}
    ensures a in s
  {
    var a :| a in s; a
  }

  /** The summed voting power of a set of addresses; strangers weigh nothing. */
  ghost function PowerOf(powers: map<Address, int>, s: set<Address>): int {
    if s == {} then 0 else var a := Pick(s); Weight(powers, a) + PowerOf(powers, s - {a})
  }

  ghost function TotalPower(powers: map<Address, int>): int {
    PowerOf(powers, powers.Keys)
  }

  function QuorumSize(total: int): int {
    2 * total / 3 + 1
  }

  ghost predicate IsQuorum(powers: map<Address, int>, s: set<Address>) {
    PowerOf(powers, s) >= QuorumSize(TotalPower(powers))
  }

  ghost predicate NonNegative(powers: map<Address, int>) {
    forall a :: a in powers ==> powers[a] >= 0
  }

  // ---------- sums over sets ----------

  lemma {:induction false} PowerOfSplit(powers: map<Address, int>, s: set<Address>, a: Address)
    requires a in s
    ensures PowerOf(powers, s) == Weight(powers, a) + PowerOf(powers, s - {a})
    decreases s
  {
    var b := Pick(s);
    if a != b {
      PowerOfSplit(powers, s - {b}, a);
      PowerOfSplit(powers, s - {a}, b);
      assert s - {b} - {a} == s - {a} - {b};
    }
  }

  lemma {:induction false} PowerOfUnion(powers: map<Address, int>, s: set<Address>, t: set<Address>)
    ensures PowerOf(powers, s + t) + PowerOf(powers, s * t) == PowerOf(powers, s) + PowerOf(powers, t)
    decreases s
  {
    if s == {} {
      assert s + t == t && s * t == {};
    } else {
      var a := Pick(s);
      var s' := s - {a};
      PowerOfUnion(powers, s', t);
      if a in t {
        assert s + t == s' + t;
        assert s * t - {a} == s' * t;
        PowerOfSplit(powers, s * t, a);
      } else {
        assert s * t == s' * t;
        assert s + t - {a} == s' + t;
        PowerOfSplit(powers, s + t, a);
      }
    }
  }

  lemma {:induction false} PowerOfNonNegative(powers: map<Address, int>, s: set<Address>)
    requires NonNegative(powers)
    ensures PowerOf(powers, s) >= 0
    decreases s
  {
    if s != {} {
      PowerOfNonNegative(powers, s - {Pick(s)});
    }
  }

  lemma PowerOfMonotone(powers: map<Address, int>, s: set<Address>, t: set<Address>)
    requires NonNegative(powers) && s <= t
    ensures PowerOf(powers, s) <= PowerOf(powers, t)
  {
    PowerOfUnion(powers, s, t - s);
    assert s + (t - s) == t && s * (t - s) == {};
    PowerOfNonNegative(powers, t - s);
  }

  lemma {:induction false} PowerOfStrangers(powers: map<Address, int>, s: set<Address>)
    requires forall a :: a in s ==> a !in powers
    ensures PowerOf(powers, s) == 0
    decreases s
  {
    if s != {} {
      PowerOfStrangers(powers, s - {Pick(s)});
    }
  }

  lemma PowerOfAtMostTotal(powers: map<Address, int>, s: set<Address>)
    requires NonNegative(powers)
    ensures PowerOf(powers, s) <= TotalPower(powers)
  {
    var known, strangers := s * powers.Keys, s - powers.Keys;
    PowerOfUnion(powers, known, strangers);
    assert known + strangers == s && known * strangers == {};
    PowerOfStrangers(powers, strangers);
    PowerOfMonotone(powers, known, powers.Keys);
  }

  // ---------- quorum arithmetic ----------

  /** floor(2T/3) + 1 is what remains of T after the largest tolerated fault. */
  lemma QuorumIsTotalMinusFaults(total: int)
    requires total > 0
    ensures QuorumSize(total) == total - (total - 1) / 3
    ensures 3 * QuorumSize(total) > 2 * total
  {
  }

  /** Any two accepted address sets share more than a third of the power. */
  lemma QuorumsOverlap(powers: map<Address, int>, s: set<Address>, t: set<Address>)
    requires NonNegative(powers)
    requires IsQuorum(powers, s) && IsQuorum(powers, t)
    ensures 3 * PowerOf(powers, s * t) > TotalPower(powers)
  {
    PowerOfUnion(powers, s, t);
    PowerOfAtMostTotal(powers, s + t);
  }

  /** The honest validators reach quorum alone exactly when the faulty ones
      hold at most floor((T-1)/3). */
  lemma HonestReachQuorum(powers: map<Address, int>, faulty: set<Address>)
    requires NonNegative(powers) && TotalPower(powers) > 0
    ensures IsQuorum(powers, powers.Keys - faulty)
            <==> PowerOf(powers, faulty) <= (TotalPower(powers) - 1) / 3
  {
    var inside, outside := faulty * powers.Keys, faulty - powers.Keys;
    PowerOfUnion(powers, inside, outside);
    assert inside + outside == faulty && inside * outside == {};
    PowerOfStrangers(powers, outside);
    var honest := powers.Keys - faulty;
    PowerOfUnion(powers, honest, inside);
    assert honest + inside == powers.Keys && honest * inside == {};
    QuorumIsTotalMinusFaults(TotalPower(powers));
  }

  /** A set heavier than another has a member with power outside it. */
  lemma {:induction false} HeavierHasMember(powers: map<Address, int>, s: set<Address>, t: set<Address>)
      returns (a: Address)
    requires NonNegative(powers)
    requires PowerOf(powers, s) > PowerOf(powers, t)
    ensures a in s && a !in t && a in powers
  {
    var rest := s - t;
    PowerOfUnion(powers, s * t, rest);
    assert s * t + rest == s && (s * t) * rest == {};
    PowerOfMonotone(powers, s * t, t);
    if forall b :: b in rest ==> b !in powers {
      PowerOfStrangers(powers, rest);
    }
    a :| a in rest && a in powers;
  }

  /** More senders never lose a quorum. */
  lemma QuorumMonotone(powers: map<Address, int>, s: set<Address>, t: set<Address>)
    requires NonNegative(powers) && s <= t
    ensures IsQuorum(powers, s) ==> IsQuorum(powers, t)
  {
    PowerOfMonotone(powers, s, t);
  }

  /** Equal weights of one: a proposer together with fewer than a third
      faulty validators is below quorum as soon as there are two validators. */
  lemma UnitWeights(powers: map<Address, int>, faulty: set<Address>, a: Address)
    requires forall v :: v in powers ==> powers[v] == 1
    requires TotalPower(powers) >= 2
    requires 3 * PowerOf(powers, faulty) < TotalPower(powers)
    ensures !IsQuorum(powers, faulty + {a})
  {
    PowerOfUnion(powers, faulty, {a});
    PowerOfSplit(powers, {a}, a);
    assert {a} - {a} == {};
    PowerOfNonNegative(powers, faulty * {a});
  }

  // ---------- quorums of messages ----------

  /** What hasQuorumByMsgType asks of the senders of the messages of a type; for
      PREPAREs the proposer counts once and must not be among them. */
  ghost predicate IsQuorumFor(powers: map<Address, int>, kind: MessageType, proposer: Option<Address>,
                              senders: set<Address>) {
    match kind
    case PREPREPARE => senders != {}
    case PREPARE => proposer.Some? && proposer.value !in senders && IsQuorum(powers, {proposer.value} + senders)
    case COMMIT => IsQuorum(powers, senders)
    case ROUND_CHANGE => IsQuorum(powers, senders)
  }

  // ---------- the validator manager ----------

  class ValidatorManager {
    var quorumSize: int
    var validatorsVotingPower: Option<map<Address, int>>

    /** Once initialised, the recorded quorum is the quorum of the recorded powers. */
    ghost predicate Valid()
      reads this
    {
      validatorsVotingPower.Some? ==>
        && TotalPower(validatorsVotingPower.value) > 0
        && quorumSize == QuorumSize(TotalPower(validatorsVotingPower.value))
    }

    ghost predicate Accepts(senders: set<Address>)
      reads this
    {
      validatorsVotingPower.Some? && IsQuorum(validatorsVotingPower.value, senders)
    }

    constructor ()
      ensures Valid() && validatorsVotingPower == None
    {
      quorumSize := 0;
      validatorsVotingPower := None;
    }

    /** A total of zero or less is an error and changes nothing. */
    method SetCurrentVotingPower(powers: map<Address, int>) returns (ok: bool)
      requires Valid()
      modifies this
      ensures Valid()
      ensures ok == (TotalPower(powers) > 0)
      ensures ok ==> validatorsVotingPower == Some(powers) && quorumSize == QuorumSize(TotalPower(powers))
      ensures !ok ==> validatorsVotingPower == old(validatorsVotingPower) && quorumSize == old(quorumSize)
    {
      var total := CalculateTotalVotingPower(powers);
      if total <= 0 {
        return false;
      }
      validatorsVotingPower := Some(powers);
      quorumSize := CalculateQuorum(total);
      return true;
    }

    method HasQuorum(senders: set<Address>) returns (ok: bool)
      requires Valid()
      ensures ok == Accepts(senders)
    {
      if validatorsVotingPower.None? {
        return false;
      }
      var powers := validatorsVotingPower.value;
      var messageVotePower := 0;
      var rest := senders;
      while rest != {}
        invariant rest <= senders
        invariant messageVotePower + PowerOf(powers, rest) == PowerOf(powers, senders)
        decreases rest
      {
        var from :| from in rest;
        PowerOfSplit(powers, rest, from);
        if from in powers {
          messageVotePower := messageVotePower + powers[from];
        }
        rest := rest - {from};
      }
      return messageVotePower >= quorumSize;
    }

    /** The proposer counts once, and must not be among the PREPARE senders. */
    method HasPrepareQuorum(proposalMessage: Option<Message>, msgs: seq<Message>) returns (ok: bool)
      requires Valid()
      ensures ok == (proposalMessage.Some?
                     && proposalMessage.value.from !in Senders(msgs)
                     && Accepts({proposalMessage.value.from} + Senders(msgs)))
    {
      if proposalMessage.None? {
        return false;
      }
      var proposer := proposalMessage.value.from;
      var addresses := {proposer};
      var i := 0;
      while i < |msgs|
        invariant 0 <= i <= |msgs|
        invariant addresses == {proposer} + Senders(msgs[..i])
        invariant proposer !in Senders(msgs[..i])
      {
        assert msgs[..i + 1] == msgs[..i] + [msgs[i]];
        if msgs[i].from == proposer {
          assert msgs[i] in msgs;
          return false;
        }
        addresses := addresses + {msgs[i].from};
        i := i + 1;
      }
      assert msgs[..i] == msgs;
      ok := HasQuorum(addresses);
    }
  }

  method CalculateTotalVotingPower(powers: map<Address, int>) returns (total: int)
    ensures total == TotalPower(powers)
  {
    total := 0;
    var rest := powers.Keys;
    while rest != {}
      invariant rest <= powers.Keys
      invariant total + PowerOf(powers, rest) == TotalPower(powers)
      decreases rest
    {
      var a :| a in rest;
      PowerOfSplit(powers, rest, a);
      total := total + powers[a];
      rest := rest - {a};
    }
  }

  /** One big integer is doubled, divided and incremented in place. */
  method CalculateQuorum(totalVotingPower: int) returns (quorum: int)
    ensures quorum == QuorumSize(totalVotingPower)
    ensures totalVotingPower > 0 ==> quorum == totalVotingPower - (totalVotingPower - 1) / 3
  {
    quorum := totalVotingPower * 2;
    quorum := quorum / 3;
    quorum := quorum + 1;
    if totalVotingPower > 0 {
      QuorumIsTotalMinusFaults(totalVotingPower);
    }
  }

  method ConvertMessageToAddressSet(msgs: seq<Message>) returns (addresses: set<Address>)
    ensures addresses == Senders(msgs)
  {
    addresses := {};
    var i := 0;
    while i < |msgs|
      invariant 0 <= i <= |msgs|
      invariant addresses == Senders(msgs[..i])
    {
      assert msgs[..i + 1] == msgs[..i] + [msgs[i]];
      addresses := addresses + {msgs[i].from};
      i := i + 1;
    }
    assert msgs[..i] == msgs;
  }
}
