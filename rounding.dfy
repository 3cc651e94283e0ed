/**
 * Rounding of a prediction to two decimal places, as `round(x, 2)` does:
 * scale by 100, round to the nearest integer with ties going to the even
 * neighbour, scale back. Carried out on exact reals.
 */
module Rounding {

  function Abs(x: real): (a: real)
    ensures a >= 0.0 && (a == x || a == -x)
  {
    if x < 0.0 then -x else x
  }

  /** `x` is a whole number of hundredths: it has at most two decimal places. */
  predicate TwoDecimals(x: real)
  {
    (x * 100.0).Floor as real == x * 100.0
  }

  /** The integer nearest to `y`; a tie goes to the even one. */
  function RoundHalfEven(y: real): (n: int)
    ensures Abs(n as real - y) <= 0.5
    ensures Abs(n as real - y) == 0.5 ==> n % 2 == 0
  {
    var f := y.Floor;
    var frac := y - f as real;
    if frac < 0.5 then f
    else if frac > 0.5 then f + 1
    else if f % 2 == 0 then f
    else f + 1
  }

  /** No integer is closer to `y` than `RoundHalfEven(y)`. */
  lemma RoundHalfEvenNearest(y: real, m: int)
    ensures Abs(RoundHalfEven(y) as real - y) <= Abs(m as real - y)
  {
    var f := y.Floor;
    if m <= f {
      assert Abs(m as real - y) >= y - f as real;
    } else {
      assert Abs(m as real - y) >= (f + 1) as real - y;
    }
  }

  /** An integer is its own rounding. */
  lemma RoundHalfEvenOfInt(k: int)
    ensures RoundHalfEven(k as real) == k
  {
    assert (k as real).Floor == k;
  }

  /** Rounding never reverses the order of two values. */
  lemma RoundHalfEvenMonotone(y: real, z: real)
    requires y <= z
    ensures RoundHalfEven(y) <= RoundHalfEven(z)
  {
    var fy, fz := y.Floor, z.Floor;
    if fy < fz {
      assert RoundHalfEven(y) <= fy + 1 <= fz <= RoundHalfEven(z);
    } else {
      assert fy == fz;
      assert y - fy as real <= z - fz as real;
    }
  }

  /** `round(x, 2)`: `x` rounded to the nearest hundredth, ties to even. */
  function Round2(x: real): (r: real)
    ensures TwoDecimals(r)
    ensures Abs(r - x) <= 0.005
  {
    var n := RoundHalfEven(x * 100.0);
    assert (n as real / 100.0) * 100.0 == n as real;
    n as real / 100.0
  }

  /** A value that already has two decimal places is left as it is. */
  lemma Round2Idempotent(x: real)
    requires TwoDecimals(x)
    ensures Round2(x) == x
  {
    var k := (x * 100.0).Floor;
    RoundHalfEvenOfInt(k);
  }

  /** No value with two decimal places is closer to `x` than `Round2(x)`. */
  lemma Round2Nearest(x: real, d: real)
    requires TwoDecimals(d)
    ensures Abs(Round2(x) - x) <= Abs(d - x)
  {
    var m := (d * 100.0).Floor;
    RoundHalfEvenNearest(x * 100.0, m);
    var n := RoundHalfEven(x * 100.0);
    assert Abs(n as real - x * 100.0) == 100.0 * Abs(Round2(x) - x);
    assert Abs(m as real - x * 100.0) == 100.0 * Abs(d - x);
  }

  /** Rounding keeps the order of two predictions. */
  lemma Round2Monotone(x: real, y: real)
    requires x <= y
    ensures Round2(x) <= Round2(y)
  {
    RoundHalfEvenMonotone(x * 100.0, y * 100.0);
  }
}
