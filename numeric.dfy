/** The two numeric primitives the views rely on, `Math.max(lo, Math.min(hi, x))`
    and JavaScript's `Math.round`, and the facts about real division and
    scaling that the knob's proofs use. */
module Numeric {

  /** `Math.max(lo, Math.min(hi, x))`. */
  function Clamp(lo: real, hi: real, x: real): (r: real)
    ensures lo <= hi ==> lo <= r <= hi
    ensures lo <= x <= hi ==> r == x
    ensures x < lo ==> r == lo
    ensures lo <= hi < x ==> r == hi
  {
    var m := if x < hi then x else hi;
    if m < lo then lo else m
  }

  lemma ClampIdempotent(lo: real, hi: real, x: real)
    requires lo <= hi
    ensures Clamp(lo, hi, Clamp(lo, hi, x)) == Clamp(lo, hi, x)
  {
  }

  lemma ClampMonotone(lo: real, hi: real, x: real, y: real)
    requires x <= y
    ensures Clamp(lo, hi, x) <= Clamp(lo, hi, y)
  {
  }

  /** `Math.round(x)`: the nearest integer, halves rounded up. */
  function Round(x: real): (k: int)
    ensures x - 0.5 < k as real <= x + 0.5
  {
    (x + 0.5).Floor
  }

  predicate IsInteger(x: real) { x.Floor as real == x }

  /** Rounding an integer gives it back. */
  lemma RoundInteger(x: real)
    requires IsInteger(x)
    ensures Round(x) as real == x
  {
    var f, k := x.Floor, Round(x);
    assert f as real - 0.5 < k as real <= f as real + 0.5;
    assert f - 1 < k <= f;
  }

  /** Rounding commutes with shifting by a whole number. */
  lemma RoundShift(a: int, x: real)
    ensures Round(a as real + x) == a + Round(x)
  {
    var k, r := Round(a as real + x), Round(x);
    assert x - 0.5 < (k - a) as real <= x + 0.5;
    assert -1 < k - a - r < 1;
  }

  /** Dividing and multiplying back by the same non-zero number. */
  lemma DivMul(x: real, d: real)
    requires d != 0.0
    ensures (x / d) * d == x
  {
  }

  /** Scaling by a positive factor keeps strict order. */
  lemma ScaleLess(a: real, b: real, s: real)
    requires a < b && s > 0.0
    ensures a * s < b * s
  {
    assert (b - a) * s > 0.0;
  }

  /** A part of a positive whole is a fraction between 0 and 1. */
  lemma FractionBounds(a: real, d: real)
    requires d > 0.0 && 0.0 <= a <= d
    ensures 0.0 <= a / d <= 1.0
  {
    var n := a / d;
    DivMul(a, d);
    if n < 0.0 {
      ScaleLess(n, 0.0, d);
    }
    if n > 1.0 {
      ScaleLess(1.0, n, d);
    }
  }
}
