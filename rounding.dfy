/**
 * Python's built-in `round(x, n)` for n = 1, 2 and 4 decimal places, taken on the exact
 * real value: the nearest multiple of 10^-n, ties going to the even neighbour.
 */
module Rounding {

  /** The integer nearest to `y`; a tie (fractional part exactly one half) goes to the even one. */
  function RoundToInteger(y: real): (n: int)
    ensures -0.5 <= n as real - y <= 0.5
    ensures n as real - y == 0.5 || y - n as real == 0.5 ==> n % 2 == 0
  {
    var f := y.Floor;
    var frac := y - f as real;
    if frac > 0.5 then f + 1
    else if frac < 0.5 then f
    else if f % 2 == 0 then f
    else f + 1
  }

  /** Rounding to an integer never reverses the order of two values. */
  lemma RoundToIntegerMonotone(x: real, y: real)
    requires x <= y
    ensures RoundToInteger(x) <= RoundToInteger(y)
  {
    var fx, fy := x.Floor, y.Floor;
    if fx < fy {
      assert RoundToInteger(x) <= fx + 1 <= fy <= RoundToInteger(y);
    }
  }

  /** An integral value is its own rounding. */
  lemma RoundToIntegerOfInteger(k: int)
    ensures RoundToInteger(k as real) == k
  {
  }

  /** `round(x, 2)`. */
  function Round2(x: real): (r: real)
    ensures -0.005 <= r - x <= 0.005
    ensures (r * 100.0).Floor as real == r * 100.0
  {
    RoundToInteger(x * 100.0) as real * 0.01
  }

  /** `round(x, 4)`. */
  function Round4(x: real): (r: real)
    ensures -0.00005 <= r - x <= 0.00005
    ensures (r * 10000.0).Floor as real == r * 10000.0
  {
    RoundToInteger(x * 10000.0) as real * 0.0001
  }

  lemma {:induction false} Round2Monotone(x: real, y: real)
    requires x <= y
    ensures Round2(x) <= Round2(y)
  {
    RoundToIntegerMonotone(x * 100.0, y * 100.0);
  }

  /**
   * A value between two bounds that are themselves whole hundredths rounds to a value
   * between the same bounds.
   */
  lemma {:induction false} Round2Between(x: real, lo: int, hi: int)
    requires lo as real / 100.0 <= x <= hi as real / 100.0
    ensures lo as real / 100.0 <= Round2(x) <= hi as real / 100.0
  {
    RoundToIntegerMonotone(lo as real, x * 100.0);
    RoundToIntegerMonotone(x * 100.0, hi as real);
    RoundToIntegerOfInteger(lo);
    RoundToIntegerOfInteger(hi);
  }
}
