/**
 * Comparisons against a scaled square root, decided without computing the root.
 * A Bollinger band is basis +/- mult * std with std = sqrt(variance); whether it lies
 * above or below another number t' is whether mult * sqrt(variance) lies below or above
 * t = t' - basis, and that is settled exactly by the signs of mult and t and by
 * comparing mult^2 * variance with t^2.
 */
module Roots {
  /** m * sqrt(v) < t, for v >= 0. */
  predicate ScaledRootBelow(m: real, v: real, t: real)
  {
    if m >= 0.0 then t > 0.0 && m * m * v < t * t
    else t > 0.0 || m * m * v > t * t
  }

  /** m * sqrt(v) > t, for v >= 0. */
  predicate ScaledRootAbove(m: real, v: real, t: real)
  {
    if m >= 0.0 then t < 0.0 || m * m * v > t * t
    else t < 0.0 && m * m * v < t * t
  }

  lemma PositiveProduct(a: real, b: real)
    requires a > 0.0 && b > 0.0
    ensures a * b > 0.0
  {
  }

  lemma NonNegativeProduct(a: real, b: real)
    requires a >= 0.0 && b >= 0.0
    ensures a * b >= 0.0
  {
  }

  /** Squaring is strictly monotone on the non-negative reals. */
  lemma SquareLess(x: real, y: real)
    requires x >= 0.0 && y >= 0.0
    ensures x < y <==> x * x < y * y
  {
    if x < y {
      NonNegativeProduct(x, y - x);
      PositiveProduct(y, y - x);
      assert y * y - x * x == x * (y - x) + y * (y - x);
    } else {
      NonNegativeProduct(y, x - y);
      NonNegativeProduct(x, x - y);
      assert x * x - y * y == y * (x - y) + x * (x - y);
    }
  }

  lemma ProductSquare(m: real, s: real, v: real)
    requires s * s == v
    ensures (m * s) * (m * s) == m * m * v
    ensures (-m * s) * (-m * s) == m * m * v
  {
  }

  /** With s the non-negative square root of v, the predicates decide m * s < t and m * s > t. */
  lemma RootWitness(m: real, s: real, v: real, t: real)
    requires s >= 0.0 && s * s == v
    ensures ScaledRootBelow(m, v, t) <==> m * s < t
    ensures ScaledRootAbove(m, v, t) <==> m * s > t
  {
    ProductSquare(m, s, v);
    var q := m * m * v;
    if m >= 0.0 {
      NonNegativeProduct(m, s);
      if t >= 0.0 {
        SquareLess(m * s, t);
        SquareLess(t, m * s);
      }
    } else {
      NonNegativeProduct(-m, s);
      assert -m * s == -(m * s);
      if t <= 0.0 {
        SquareLess(-m * s, -t);
        SquareLess(-t, -m * s);
        assert (-t) * (-t) == t * t;
      }
    }
  }

  /** The two comparisons never hold together. */
  lemma BelowAboveExclusive(m: real, v: real, t: real)
    ensures !(ScaledRootBelow(m, v, t) && ScaledRootAbove(m, v, t))
  {
  }
}
