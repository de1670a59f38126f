/** Decimal rounding as the source performs it: `+x.toFixed(k)`. */
module Numeric {

  function Pow10(k: nat): (p: nat)
    ensures p >= 1
  {
    if k == 0 then 1 else 10 * Pow10(k - 1)
  }

  /** Rounding half up of a non-negative x to the nearest multiple of 1/scale. */
  function RoundHalfUp(x: real, scale: real): real
    requires scale > 0.0
  {
    (x * scale + 0.5).Floor as real / scale
  }

  /** `+x.toFixed(digits)`. ECMAScript's `toFixed` picks the integer n for which
      n / 10^digits - x is closest to zero, the larger n on a tie, and renders a negative
      x as "-" followed by the rendering of -x; the unary `+` reads the text back.
      On exact reals that is rounding half up at `digits` decimals, mirrored for negatives. */
  function ToFixed(x: real, digits: nat): real {
    var scale := Pow10(digits) as real;
    if x < 0.0 then -RoundHalfUp(-x, scale) else RoundHalfUp(x, scale)
  }

  lemma ScaleMonotone(a: real, b: real, s: real)
    requires a <= b && s > 0.0
    ensures a * s <= b * s
  {
  }

  lemma DivMonotone(a: real, b: real, s: real)
    requires a <= b && s > 0.0
    ensures a / s <= b / s
  {
  }

  lemma DivDifference(a: real, b: real, s: real)
    requires s > 0.0
    ensures (a - b * s) / s == a / s - b
  {
  }

  lemma {:induction false} RoundHalfUpMonotone(x: real, y: real, scale: real)
    requires x <= y && scale > 0.0
    ensures RoundHalfUp(x, scale) <= RoundHalfUp(y, scale)
  {
    ScaleMonotone(x, y, scale);
    var fx := (x * scale + 0.5).Floor;
    var fy := (y * scale + 0.5).Floor;
    assert fx <= fy;
    DivMonotone(fx as real, fy as real, scale);
  }

  /** Rounding never reverses the order of two numbers. */
  lemma {:induction false} ToFixedMonotone(x: real, y: real, digits: nat)
    requires x <= y
    ensures ToFixed(x, digits) <= ToFixed(y, digits)
  {
    var scale := Pow10(digits) as real;
    if 0.0 <= x {
      RoundHalfUpMonotone(x, y, scale);
    } else if y < 0.0 {
      RoundHalfUpMonotone(-y, -x, scale);
    } else {
      RoundHalfUpMonotone(0.0, -x, scale);
      RoundHalfUpMonotone(0.0, y, scale);
      assert RoundHalfUp(0.0, scale) == 0.0;
    }
  }

  lemma MulDivCancel(a: real, s: real)
    requires s > 0.0
    ensures (a * s) / s == a
  {
  }

  lemma {:induction false} RoundHalfUpWhole(m: nat, p: nat)
    requires p >= 1
    ensures RoundHalfUp(m as real, p as real) == m as real
  {
    var k := m * p;
    assert (m as real) * (p as real) == k as real;
    assert ((k as real) + 0.5).Floor == k;
    MulDivCancel(m as real, p as real);
  }

  /** A whole number is already rounded at every number of decimals. */
  lemma {:induction false} ToFixedKeepsWhole(n: int, digits: nat)
    ensures ToFixed(n as real, digits) == n as real
  {
    RoundHalfUpWhole(if n < 0 then -n else n, Pow10(digits));
  }

  /** The rounded value is within half a unit of x. */
  lemma {:induction false} RoundHalfUpNear(x: real, scale: real)
    requires scale > 0.0
    ensures -0.5 / scale <= RoundHalfUp(x, scale) - x <= 0.5 / scale
  {
    var f := (x * scale + 0.5).Floor as real;
    DivMonotone(f - x * scale, 0.5, scale);
    DivMonotone(-0.5, f - x * scale, scale);
    DivDifference(f, x, scale);
  }

  /** Rounding moves a value by at most half a unit in the last kept decimal. */
  lemma {:induction false} ToFixedError(x: real, digits: nat)
    ensures -0.5 / Pow10(digits) as real <= ToFixed(x, digits) - x <= 0.5 / Pow10(digits) as real
  {
    var scale := Pow10(digits) as real;
    if x < 0.0 {
      RoundHalfUpNear(-x, scale);
    } else {
      RoundHalfUpNear(x, scale);
    }
  }
}
