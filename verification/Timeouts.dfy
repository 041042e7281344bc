/** core/ibft.go getRoundTimeout, in the 64-bit arithmetic it is computed in. */
module Timeouts {

  const INT64_LIMIT: int := 0x8000_0000_0000_0000

  /** The value an int64 operation leaves of an integer. */
  function Wrap(x: int): (y: int)
    ensures -INT64_LIMIT <= y < INT64_LIMIT
    ensures -INT64_LIMIT <= x < INT64_LIMIT ==> y == x
  {
    (x + INT64_LIMIT) % (2 * INT64_LIMIT) - INT64_LIMIT
  }

  /** Values of 64 bits: a product or sum is off by a multiple of 2^64, and by none
      exactly if it lies in the range of an int64. */
  lemma WrapIsInt64(x: int)
    ensures -0x8000_0000_0000_0000 <= Wrap(x) <= 0x7FFF_FFFF_FFFF_FFFF
    ensures (Wrap(x) - x) % 0x1_0000_0000_0000_0000 == 0
    ensures Wrap(x) == x <==> -0x8000_0000_0000_0000 <= x <= 0x7FFF_FFFF_FFFF_FFFF
  {
    var q := (x + INT64_LIMIT) / (2 * INT64_LIMIT);
    assert Wrap(x) - x == -q * (2 * INT64_LIMIT);
    Shift(0, q);
  }

  function Pow2(n: nat): nat {
    if n == 0 then 1 else 2 * Pow2(n - 1)
  }

  /** `int(math.Pow(2, round))`: exact as long as it fits; otherwise the
      conversion yields some value that depends on the platform. */
  function RoundFactor(round: nat, outOfRange: int): int {
    if Pow2(round) < INT64_LIMIT then Pow2(round) else outOfRange
  }

  function RoundTimeout(base: int, additional: int, round: nat, outOfRange: int): int {
    Wrap(Wrap(base * RoundFactor(round, outOfRange)) + additional)
  }

  /** The exact timeout, and the power of two in it, fit in 64 bits. */
  predicate Fits(base: int, additional: int, round: nat) {
    Pow2(round) < INT64_LIMIT && -INT64_LIMIT <= base * Pow2(round) + additional < INT64_LIMIT
  }

  /** As long as the power of two fits, the timeout is the exact value exactly if
      that fits; a product that overflows does no harm if the amount added brings
      it back into range. */
  lemma TimeoutIsExact(base: int, additional: int, round: nat, outOfRange: int)
    requires Pow2(round) <= 0x7FFF_FFFF_FFFF_FFFF
    ensures RoundTimeout(base, additional, round, outOfRange) == base * Pow2(round) + additional <==>
            -0x8000_0000_0000_0000 <= base * Pow2(round) + additional <= 0x7FFF_FFFF_FFFF_FFFF
  {
    WrapAdds(base * Pow2(round), additional);
  }

  /** Wrapping in between makes no difference. */
  lemma WrapAdds(x: int, y: int)
    ensures Wrap(Wrap(x) + y) == Wrap(x + y)
  {
    var q := (x + INT64_LIMIT) / (2 * INT64_LIMIT);
    assert Wrap(x) == x - q * (2 * INT64_LIMIT);
    Shift(x + y + INT64_LIMIT, q);
  }

  lemma Shift(x: int, q: int)
    ensures (x - q * (2 * INT64_LIMIT)) % (2 * INT64_LIMIT) == x % (2 * INT64_LIMIT)
  {
    var m := 2 * INT64_LIMIT;
    var k := x / m;
    assert x == k * m + x % m;
    assert x - q * m == (k - q) * m + x % m;
  }

  /** From one round to the next it increases exactly if the base is positive. */
  lemma TimeoutIncreases(base: int, additional: int, round: nat, outOfRange: int)
    requires Fits(base, additional, round) && Fits(base, additional, round + 1)
    ensures RoundTimeout(base, additional, round, outOfRange) < RoundTimeout(base, additional, round + 1, outOfRange)
            <==> base > 0
  {
    TimeoutIsExact(base, additional, round, outOfRange);
    TimeoutIsExact(base, additional, round + 1, outOfRange);
    hide RoundTimeout, Fits;
    Pow2Positive(round);
    Scaled(base, round);
    SameSign(base, Pow2(round));
  }

  lemma SameSign(x: int, p: nat)
    requires p >= 1
    ensures x * p > 0 <==> x > 0
  {
    if x > 0 {
      assert x * p == (x - 1) * p + p;
    } else {
      assert -x * p == -(x * p);
    }
  }

  lemma {:induction false} Pow2Positive(n: nat)
    ensures Pow2(n) >= 1
  {
    if n > 0 {
      Pow2Positive(n - 1);
    }
  }

  function TotalWait(base: int, additional: int, round: nat, outOfRange: int): int {
    RoundTimeout(base, additional, round, outOfRange)
    + if round == 0 then 0 else TotalWait(base, additional, round - 1, outOfRange)
  }

  /** The wait until a round is over, from the start of the sequence. */
  lemma {:induction false} TotalWaitIsGeometric(base: int, additional: int, round: nat, outOfRange: int)
    requires forall r: nat :: r <= round ==> Fits(base, additional, r)
    ensures TotalWait(base, additional, round, outOfRange) == base * (Pow2(round + 1) - 1) + (round + 1) * additional
  {
    assert Fits(base, additional, round);
    TimeoutIsExact(base, additional, round, outOfRange);
    hide RoundTimeout, Fits;
    Scaled(base, round);
    if round > 0 {
      Scaled(base, round - 1);
      TotalWaitIsGeometric(base, additional, round - 1, outOfRange);
      Distributes(round, additional);
    }
  }

  lemma Scaled(base: int, n: nat)
    ensures base * Pow2(n + 1) == 2 * (base * Pow2(n))
    ensures base * (Pow2(n + 1) - 1) == base * Pow2(n + 1) - base
  {
  }

  lemma Distributes(n: nat, x: int)
    ensures (n + 1) * x == n * x + x
  {
  }
}
