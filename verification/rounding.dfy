/**
 * Python's `round(x, 2)`, `max` and `min` over exact reals.
 *
 * Python rounds a float to two decimals by looking at its exact value and
 * breaking ties towards the even neighbour. Over reals the same rule is:
 * scale by 100, take the nearest integer (ties to even), scale back.
 */
module Rounding {

  function Max(a: real, b: real): real { if a >= b then a else b }

  function Min(a: real, b: real): real { if a <= b then a else b }

  /** The integer nearest to `a`; a tie goes to the even neighbour. */
  function RoundHalfEven(a: real): (n: int)
    ensures n as real - 0.5 <= a <= n as real + 0.5
    ensures a - a.Floor as real == 0.5 ==> n % 2 == 0
  {
    var f := a.Floor;
    var frac := a - f as real;
    if frac > 0.5 then f + 1
    else if frac < 0.5 then f
    else if f % 2 == 0 then f
    else f + 1
  }

  /** A real with at most two decimals: a whole number of hundredths. */
  predicate IsCents(x: real) {
    (x * 100.0).Floor as real == x * 100.0
  }

  /** `round(x, 2)`: the nearest multiple of 0.01, ties to the even hundredth. */
  function Round2(x: real): (r: real)
    ensures -0.005 <= r - x <= 0.005
    ensures IsCents(r)
  {
    RoundHalfEven(x * 100.0) as real / 100.0
  }

  lemma RoundHalfEvenOfInt(n: int)
    ensures RoundHalfEven(n as real) == n
  {
    assert (n as real).Floor == n;
  }

  lemma {:induction false} RoundHalfEvenMonotone(a: real, b: real)
    requires a <= b
    ensures RoundHalfEven(a) <= RoundHalfEven(b)
  {
    var fa, fb := a.Floor, b.Floor;
    assert fa <= fb;
    if fa < fb {
      assert RoundHalfEven(a) <= fa + 1 <= fb <= RoundHalfEven(b);
    }
  }

  /** Rounding to hundredths never reverses the order of two values. */
  lemma Round2Monotone(x: real, y: real)
    requires x <= y
    ensures Round2(x) <= Round2(y)
  {
    RoundHalfEvenMonotone(x * 100.0, y * 100.0);
  }

  /** A value that already has at most two decimals is left as it is. */
  lemma Round2OfCents(n: int)
    ensures Round2(n as real / 100.0) == n as real / 100.0
  {
    assert (n as real / 100.0) * 100.0 == n as real;
    RoundHalfEvenOfInt(n);
  }

  /** Rounding keeps the unit interval, with both ends fixed. */
  lemma Round2UnitInterval(x: real)
    requires 0.0 <= x <= 1.0
    ensures 0.0 <= Round2(x) <= 1.0
  {
    Round2OfCents(0);
    Round2OfCents(100);
    Round2Monotone(0.0, x);
    Round2Monotone(x, 1.0);
  }

  /** Rounding a non-negative value gives a non-negative value. */
  lemma Round2NonNegative(x: real)
    requires 0.0 <= x
    ensures 0.0 <= Round2(x)
  {
    Round2OfCents(0);
    Round2Monotone(0.0, x);
  }
}
