/** Small facts about real multiplication and division, stated one step at a time so
    that the geometry proofs never ask the solver for more than one nonlinear step. */
module RealArith {

  lemma MulLe(x: real, y: real, z: real)
    requires x <= y && z >= 0.0
    ensures x * z <= y * z
  {
  }

  lemma MulLt(x: real, y: real, z: real)
    requires x < y && z > 0.0
    ensures x * z < y * z
  {
  }

  /** `MulLe` with the larger product already known by another name. */
  lemma MulLeNamed(x: real, y: real, z: real, n: real)
    requires x <= y && z >= 0.0 && y * z == n
    ensures x * z <= n
  {
    MulLe(x, y, z);
  }

  /** `MulLt` with the smaller product already known by another name. */
  lemma MulLtNamed(x: real, y: real, z: real, n: real)
    requires x < y && z > 0.0 && x * z == n
    ensures n < y * z
  {
    MulLt(x, y, z);
  }

  lemma MulLeCancel(x: real, y: real, z: real)
    requires x * z <= y * z && z > 0.0
    ensures x <= y
  {
    if x > y {
      MulLt(y, x, z);
    }
  }

  lemma MulLtCancel(x: real, y: real, z: real)
    requires x * z < y * z && z > 0.0
    ensures x < y
  {
    if x >= y {
      MulLe(y, x, z);
    }
  }

  /** Scaling a positive quantity by a factor above one makes it larger. */
  lemma BelowScaled(x: real, w: real, n: real)
    requires x > 0.0 && w > 1.0 && x * w <= n
    ensures x < n
  {
    MulLt(1.0, w, x);
    assert w * x == x * w;
  }

  /** Scaling a non-negative quantity by a factor of at most one does not enlarge it. */
  lemma AboveScaled(x: real, w: real, n: real)
    requires x >= 0.0 && w <= 1.0 && n < x * w
    ensures n < x
  {
    MulLe(w, 1.0, x);
    assert w * x == x * w;
  }

  /** Casting commutes with multiplication. */
  lemma CastMul(x: int, y: int)
    ensures (x * y) as real == x as real * y as real
  {
  }

  /** A factor in [-1, 1] keeps a non-negative quantity within its own magnitude. */
  lemma UnitFactor(c: real, k: real)
    requires -1.0 <= c <= 1.0 && k >= 0.0
    ensures -k <= c * k <= k
  {
    MulLe(c, 1.0, k);
    MulLe(-1.0, c, k);
  }

  /** A product of non-negative reals is non-negative. */
  lemma NonNegProduct(x: real, y: real)
    requires x >= 0.0 && y >= 0.0
    ensures x * y >= 0.0
  {
    MulLe(0.0, x, y);
  }

  /** A quotient `i / d` with `0 <= i <= d` is a fraction in [0, 1]. */
  lemma Fraction(i: real, d: real)
    requires 0.0 <= i <= d && d > 0.0
    ensures 0.0 <= i / d <= 1.0
  {
    var f := i / d;
    assert f * d == i;
    MulLeCancel(0.0, f, d);
    MulLeCancel(f, 1.0, d);
  }
}
