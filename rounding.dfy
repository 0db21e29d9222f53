/** Rounding of fees to whole cents, as the configurable calculator does it
    with Go's `math.Round(fee*100) / 100`. Go's `math.Round` rounds to the
    nearest integer and breaks ties away from zero; here it is built from
    the floor of a real. */
module Rounding {

  /** The nearest integer to `x`, ties rounded away from zero. */
  function RoundHalfAway(x: real): (n: int)
    ensures x - 0.5 <= n as real <= x + 0.5
    ensures x >= 0.0 ==> n >= 0
    ensures x <= 0.0 ==> n <= 0
  {
    if x >= 0.0 then (x + 0.5).Floor else -((-x + 0.5).Floor)
  }

  /** `x` is a whole number of cents. */
  predicate IsCents(x: real) {
    (x * 100.0).Floor as real == x * 100.0
  }

  /** `x` rounded to two decimal places. */
  function Round2(x: real): (r: real)
    ensures IsCents(r)
    ensures -0.005 <= r - x <= 0.005
  {
    RoundHalfAway(x * 100.0) as real / 100.0
  }

  /** Rounding leaves a whole integer alone. */
  lemma RoundHalfAwayOfInt(k: int)
    ensures RoundHalfAway(k as real) == k
  {
  }

  /** An amount that is already whole cents is returned unchanged. */
  lemma Round2OfCents(x: real)
    requires IsCents(x)
    ensures Round2(x) == x
  {
    var k := (x * 100.0).Floor;
    RoundHalfAwayOfInt(k);
  }

  /** Rounding twice is rounding once. */
  lemma Round2Idempotent(x: real)
    ensures Round2(Round2(x)) == Round2(x)
  {
    Round2OfCents(Round2(x));
  }

  /** Rounding is symmetric about zero, which rounding half up would not
      be. */
  lemma RoundHalfAwayOdd(x: real)
    ensures RoundHalfAway(-x) == -RoundHalfAway(x)
  {
  }

  /** A tie goes to the neighbour farther from zero: 2.5 becomes 3 and
      -2.5 becomes -3. */
  lemma RoundHalfAwayTies(k: nat)
    ensures RoundHalfAway(k as real + 0.5) == k + 1
    ensures RoundHalfAway(-(k as real + 0.5)) == -(k + 1)
  {
  }

  /** Rounding preserves order. */
  lemma RoundHalfAwayMonotone(x: real, y: real)
    requires x <= y
    ensures RoundHalfAway(x) <= RoundHalfAway(y)
  {
  }

  /** Rounding to cents preserves order. */
  lemma Round2Monotone(x: real, y: real)
    requires x <= y
    ensures Round2(x) <= Round2(y)
  {
    RoundHalfAwayMonotone(x * 100.0, y * 100.0);
  }

  /** The distance of `x` from zero. */
  function Abs(x: real): (r: real)
    ensures r >= 0.0
    ensures r == x || r == -x
  {
    if x < 0.0 then -x else x
  }

  /** No whole number of cents lies closer to `x` than `Round2(x)` does. */
  lemma Round2Nearest(x: real, k: int)
    ensures Abs(Round2(x) * 100.0 - x * 100.0) <= Abs(k as real - x * 100.0)
  {
    var n := RoundHalfAway(x * 100.0);
    assert Round2(x) * 100.0 == n as real;
    if k < n {
      assert k as real <= n as real - 1.0;
    } else if k > n {
      assert k as real >= n as real + 1.0;
    }
  }
}
