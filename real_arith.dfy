/** Facts about division of reals used by the weight and rate computations. */
module RealArith {

  /** A non-negative part of a positive whole is a fraction in [0, 1]. */
  lemma RatioInUnitRange(a: real, t: real)
    requires t > 0.0 && 0.0 <= a <= t
    ensures 0.0 <= a / t <= 1.0
    ensures a / t == 1.0 <==> a == t
  {
    if a < t {
      DivStrictlyMonotone(a, t, t);
    }
    if 0.0 < a {
      DivStrictlyMonotone(0.0, a, t);
    }
  }

  lemma DivStrictlyMonotone(a: real, b: real, t: real)
    requires t > 0.0 && a < b
    ensures a / t < b / t
  {
    assert b / t - a / t == (b - a) / t;
  }

  /** One step of summing fractions with a common denominator. */
  lemma ScaleStep(s: real, q: real, t: real, a: real, b: real)
    requires t > 0.0 && s == a / t && q == b / t
    ensures s + q == (a + b) / t
  {
    assert (a + b) / t == a / t + b / t;
  }
}
