/**
 * Python's built-in `round(x, n)` on the scanner's prices and ratios.
 *
 * Python rounds a float to the nearest multiple of 10^-n and breaks an
 * exact tie towards the even neighbour.  The model applies that rule to
 * exact real numbers; the binary representation of floats is not modelled.
 */
module Rounding {

  /** Nearest integer to `y`; an exact half goes to the even neighbour. */
  function RoundHalfEven(y: real): (n: int)
    ensures -0.5 <= n as real - y <= 0.5
    ensures n as real - y == 0.5 || y - n as real == 0.5 ==> n % 2 == 0
  {
    var f := y.Floor;
    var d := y - f as real;
    if d < 0.5 then f
    else if d > 0.5 then f + 1
    else if f % 2 == 0 then f
    else f + 1
  }

  /** An integer is its own rounding. */
  lemma RoundHalfEvenOfInt(k: int)
    ensures RoundHalfEven(k as real) == k
  {
  }

  /** Rounding to the nearest integer never inverts the order of two reals. */
  lemma RoundHalfEvenMonotone(y1: real, y2: real)
    requires y1 <= y2
    ensures RoundHalfEven(y1) <= RoundHalfEven(y2)
  {
    var f1, f2 := y1.Floor, y2.Floor;
    if f1 < f2 {
      assert RoundHalfEven(y1) <= f1 + 1 <= f2 <= RoundHalfEven(y2);
    } else {
      assert f1 == f2;
      var d1, d2 := y1 - f1 as real, y2 - f2 as real;
      assert d1 <= d2;
      if RoundHalfEven(y1) == f1 + 1 {
        assert d1 > 0.5 || (d1 == 0.5 && f1 % 2 != 0);
        assert RoundHalfEven(y2) == f2 + 1;
      }
    }
  }

  /** `round(x, 2)`: the nearest whole cent (paisa), ties to even. */
  function Round2(x: real): (r: real)
    ensures -0.005 <= r - x <= 0.005
    ensures IsCents(r)
  {
    RoundHalfEven(x * 100.0) as real / 100.0
  }

  /** `round(x, 1)`: the nearest tenth, ties to even. */
  function Round1(x: real): (r: real)
    ensures -0.05 <= r - x <= 0.05
  {
    RoundHalfEven(x * 10.0) as real / 10.0
  }

  /** A value that is a whole number of cents. */
  predicate IsCents(x: real) {
    (x * 100.0).Floor as real == x * 100.0
  }

  /** Rounding to cents preserves order. */
  lemma Round2Monotone(x: real, y: real)
    requires x <= y
    ensures Round2(x) <= Round2(y)
  {
    RoundHalfEvenMonotone(x * 100.0, y * 100.0);
  }

  /** A whole number of cents is its own rounding to cents. */
  lemma Round2OfCents(c: real)
    requires IsCents(c)
    ensures Round2(c) == c
  {
    RoundHalfEvenOfInt((c * 100.0).Floor);
  }

  /** Rounding a value twice to cents is the same as rounding it once. */
  lemma Round2Idempotent(x: real)
    ensures Round2(Round2(x)) == Round2(x)
  {
    Round2OfCents(Round2(x));
  }

  /** Zero is a whole number of cents. */
  lemma Round2Zero()
    ensures Round2(0.0) == 0.0
  {
    RoundHalfEvenOfInt(0);
  }
}
