/** Real-number stand-ins for the float64 operations the forecast uses. */
module Numeric {

  /** math.Pow with a natural exponent: a factor of 1 (no growth) stays 1,
      and a factor of 0 (a rate of -100 %) wipes the base out. */
  function Pow(x: real, n: nat): (r: real)
    ensures x == 1.0 ==> r == 1.0
    ensures x == 0.0 && n > 0 ==> r == 0.0
  {
    if n == 0 then 1.0 else x * Pow(x, n - 1)
  }

  lemma {:induction false} PowPositive(x: real, n: nat)
    requires x > 0.0
    ensures Pow(x, n) > 0.0
  {
    if n > 0 {
      PowPositive(x, n - 1);
    }
  }

  /** math.Round: nearest integer, halves rounded away from zero. */
  function RoundHalfAway(x: real): (r: int)
    ensures -0.5 <= r as real - x <= 0.5
    ensures x >= 0.0 ==> r >= 0
    ensures x <= 0.0 ==> r <= 0
    ensures x >= 0.0 ==> x - 0.5 < r as real
    ensures x < 0.0 ==> r as real < x + 0.5
  {
    if x >= 0.0 then (x + 0.5).Floor else -((0.5 - x).Floor)
  }

  /** math.Round(x*100)/100: `x` rounded to a whole number of cents. */
  function Round2(x: real): (r: real)
    ensures (r * 100.0).Floor as real == r * 100.0
    ensures -0.005 <= r - x <= 0.005
    ensures x >= 0.0 ==> r >= 0.0
    ensures x <= 0.0 ==> r <= 0.0
  {
    (RoundHalfAway(x * 100.0) as real) / 100.0
  }

  lemma RoundHalfAwayOfInteger(n: int)
    ensures RoundHalfAway(n as real) == n
  {
    if n < 0 {
      assert (0.5 - n as real).Floor == -n;
    } else {
      assert (n as real + 0.5).Floor == n;
    }
  }

  /** Rounding to cents is idempotent, so totals of rounded amounts are stable. */
  lemma Round2Idempotent(x: real)
    ensures Round2(Round2(x)) == Round2(x)
  {
    var k := RoundHalfAway(x * 100.0);
    assert Round2(x) * 100.0 == k as real;
    RoundHalfAwayOfInteger(k);
  }

  /** A whole amount is left unchanged by rounding to cents. */
  lemma Round2OfWhole(n: int)
    ensures Round2(n as real) == n as real
  {
    assert (n as real) * 100.0 == (n * 100) as real;
    RoundHalfAwayOfInteger(n * 100);
  }
}
