/**
 * The quadratic easing curves of the overlay engine: `easeOut` of
 * renderShapeOverlays and the inline `1 - (1 - u) * (1 - u)` and `u * u` of
 * the slide crossfade.
 *
 * The solver's non-linear arithmetic is weak, so every fact about a product
 * is derived from the three sign rules at the end of this module; callers use
 * the lemmas about EaseOut and EaseIn and never the products themselves.
 */
module Easing {

  /** Quadratic ease-out, `1 - (1 - u)^2`. */
  function EaseOut(u: real): real
  {
    1.0 - (1.0 - u) * (1.0 - u)
  }

  /** Quadratic ease-in, `u^2`. */
  function EaseIn(u: real): real
  {
    u * u
  }

  /** Ease-out maps [0, 1] into [0, 1]. */
  lemma EaseOutUnit(u: real)
    requires 0.0 <= u <= 1.0
    ensures 0.0 <= EaseOut(u) <= 1.0
  {
    NonnegMul(1.0 - u, 1.0 - u);
    EaseOutFactored(u);
    NonnegMul(u, 2.0 - u);
  }

  /** Ease-out maps the open interval (0, 1) into the open interval (0, 1). */
  lemma EaseOutOpenUnit(u: real)
    requires 0.0 < u < 1.0
    ensures 0.0 < EaseOut(u) < 1.0
  {
    EaseOutUnit(u);
    EaseOutAvoidsEnds(u);
  }

  /** Ease-out reaches neither 0 nor 1 strictly inside (0, 1). */
  lemma EaseOutAvoidsEnds(u: real)
    requires 0.0 < u < 1.0
    ensures EaseOut(u) != 0.0 && EaseOut(u) != 1.0
  {
    var w := 1.0 - u;
    if EaseOut(u) == 1.0 {
      assert w * w == 0.0;
      ZeroProduct(w, w);
    }
    EaseOutFactored(u);
    NonzeroProduct(u, 2.0 - u);
  }

  /** Ease-in maps [0, 1] into [0, 1]. */
  lemma EaseInUnit(u: real)
    requires 0.0 <= u <= 1.0
    ensures 0.0 <= EaseIn(u) <= 1.0
  {
    NonnegMul(u, u);
    EaseInComplement(u);
    NonnegMul(1.0 - u, 1.0 + u);
  }

  /** Ease-in maps the open interval (0, 1) into the open interval (0, 1). */
  lemma EaseInOpenUnit(u: real)
    requires 0.0 < u < 1.0
    ensures 0.0 < EaseIn(u) < 1.0
  {
    EaseInUnit(u);
    if EaseIn(u) == 0.0 {
      assert u * u == 0.0;
      ZeroProduct(u, u);
    }
    EaseInComplement(u);
    NonzeroProduct(1.0 - u, 1.0 + u);
  }

  /** Ease-out is non-decreasing on [0, 1]. */
  lemma EaseOutMonotone(u1: real, u2: real)
    requires 0.0 <= u1 <= u2 <= 1.0
    ensures EaseOut(u1) <= EaseOut(u2)
  {
    EaseOutGap(u1, u2);
    NonnegMul(u2 - u1, 2.0 - u1 - u2);
  }

  /** Ease-in is non-decreasing on [0, 1]. */
  lemma EaseInMonotone(u1: real, u2: real)
    requires 0.0 <= u1 <= u2 <= 1.0
    ensures EaseIn(u1) <= EaseIn(u2)
  {
    EaseInGap(u1, u2);
    NonnegMul(u2 - u1, u2 + u1);
  }

  /** The two curves are mirror images: ease-out is the complement of ease-in reflected. */
  lemma EaseOutMirrorsEaseIn(u: real)
    ensures EaseOut(u) == 1.0 - EaseIn(1.0 - u)
  {
  }

  /**
   * An ease-in fade-out overlapped with an ease-out fade-in never dips below
   * full coverage: over [0, 1] the two opacities sum to at least 1, and to
   * exactly 1 only at the ends.
   */
  lemma CrossfadeSumAtLeastOne(u: real)
    requires 0.0 <= u <= 1.0
    ensures (1.0 - EaseIn(u)) + EaseOut(u) >= 1.0
    ensures 0.0 < u < 1.0 ==> (1.0 - EaseIn(u)) + EaseOut(u) > 1.0
  {
    CrossfadeExcess(u);
    NonnegMul(u, 1.0 - u);
    if 0.0 < u < 1.0 && (1.0 - EaseIn(u)) + EaseOut(u) == 1.0 {
      assert u * (1.0 - u) == 0.0;
      ZeroProduct(u, 1.0 - u);
    }
  }

  // Polynomial identities, each proved by the solver's normalisation alone.

  lemma EaseOutFactored(u: real)
    ensures EaseOut(u) == u * (2.0 - u)
  {
  }

  lemma EaseInComplement(u: real)
    ensures 1.0 - EaseIn(u) == (1.0 - u) * (1.0 + u)
  {
  }

  lemma EaseOutGap(u1: real, u2: real)
    ensures EaseOut(u2) - EaseOut(u1) == (u2 - u1) * (2.0 - u1 - u2)
  {
  }

  lemma EaseInGap(u1: real, u2: real)
    ensures EaseIn(u2) - EaseIn(u1) == (u2 - u1) * (u2 + u1)
  {
  }

  lemma CrossfadeExcess(u: real)
    ensures (1.0 - EaseIn(u)) + EaseOut(u) - 1.0 == 2.0 * (u * (1.0 - u))
  {
  }

  // Sign rules for products.

  lemma NonnegMul(a: real, b: real)
    requires 0.0 <= a && 0.0 <= b
    ensures 0.0 <= a * b
  {
  }

  lemma NonzeroProduct(a: real, b: real)
    requires a != 0.0 && b != 0.0
    ensures a * b != 0.0
  {
  }

  lemma ZeroProduct(a: real, b: real)
    requires a * b == 0.0
    ensures a == 0.0 || b == 0.0
  {
  }
}
