/** Three-component vectors over the reals, standing in for `glm::vec3`.
    Floating-point rounding is not modelled: every component is a `real`. */
module Vectors {

  datatype Vec3 = Vec3(x: real, y: real, z: real)

  const Zero: Vec3 := Vec3(0.0, 0.0, 0.0)

  function Add(a: Vec3, b: Vec3): Vec3 {
    Vec3(a.x + b.x, a.y + b.y, a.z + b.z)
  }

  function Sub(a: Vec3, b: Vec3): Vec3 {
    Vec3(a.x - b.x, a.y - b.y, a.z - b.z)
  }

  /** `v * k` in glm: every component multiplied by the scalar. */
  function Scale(v: Vec3, k: real): Vec3 {
    Vec3(v.x * k, v.y * k, v.z * k)
  }

  function Dot(a: Vec3, b: Vec3): real {
    a.x * b.x + a.y * b.y + a.z * b.z
  }

  /** `glm::cross`, written out component by component. */
  function Cross(a: Vec3, b: Vec3): Vec3 {
    Vec3(a.y * b.z - a.z * b.y,
         a.z * b.x - a.x * b.z,
         a.x * b.y - a.y * b.x)
  }

  /** Two vectors are parallel (or one of them is zero) when the Cauchy–Schwarz
      inequality `(a·b)² <= |a|²|b|²` holds with equality. */
  predicate Parallel(a: Vec3, b: Vec3) {
    Dot(a, b) * Dot(a, b) == Dot(a, a) * Dot(b, b)
  }

  /** The cross product is orthogonal to both of its arguments. */
  lemma CrossOrthogonal(a: Vec3, b: Vec3)
    ensures Dot(Cross(a, b), a) == 0.0
    ensures Dot(Cross(a, b), b) == 0.0
  {
  }

  /** Lagrange's identity: the squared length of `a × b` is `|a|²|b|² − (a·b)²`. */
  lemma Lagrange(a: Vec3, b: Vec3)
    ensures Dot(Cross(a, b), Cross(a, b)) == Dot(a, a) * Dot(b, b) - Dot(a, b) * Dot(a, b)
  {
  }

  /** A product with a non-zero factor vanishes only when the other factor does. */
  lemma ProductZero(s: real, c: real)
    requires s != 0.0 && s * c == 0.0
    ensures c == 0.0
  {
  }

  lemma SquareNonNegative(u: real)
    ensures u * u >= 0.0
  {
  }

  /** Only zero squares to zero. */
  lemma SquareZero(u: real)
    ensures u * u == 0.0 ==> u == 0.0
  {
    if u != 0.0 && u * u == 0.0 {
      ProductZero(u, u);
    }
  }

  /** Only the zero vector has squared length zero. */
  lemma DotSelfZero(v: Vec3)
    ensures Dot(v, v) == 0.0 <==> v == Zero
  {
    SquareNonNegative(v.x);
    SquareNonNegative(v.y);
    SquareNonNegative(v.z);
    SquareZero(v.x);
    SquareZero(v.y);
    SquareZero(v.z);
  }

  /** The cross product vanishes exactly when its arguments are parallel. */
  lemma CrossZeroIffParallel(a: Vec3, b: Vec3)
    ensures Cross(a, b) == Zero <==> Parallel(a, b)
  {
    if Cross(a, b) == Zero {
      CrossZeroIsParallel(a, b);
    }
    if Parallel(a, b) {
      ParallelCrossZero(a, b);
    }
  }

  lemma CrossZeroIsParallel(a: Vec3, b: Vec3)
    requires Cross(a, b) == Zero
    ensures Parallel(a, b)
  {
    Lagrange(a, b);
  }

  lemma ParallelCrossZero(a: Vec3, b: Vec3)
    requires Parallel(a, b)
    ensures Cross(a, b) == Zero
  {
    Lagrange(a, b);
    DotSelfZero(Cross(a, b));
  }

  /** Scaling by a non-zero factor keeps orthogonality in both directions, so every
      orthogonality fact about a vector also holds of its normalised form. */
  lemma OrthogonalScaled(a: Vec3, b: Vec3, k: real)
    requires k != 0.0
    ensures Dot(Scale(a, k), b) == 0.0 <==> Dot(a, b) == 0.0
  {
    assert Dot(Scale(a, k), b) == k * Dot(a, b);
  }

  /** Scaling distributes over a sum of factors. */
  lemma ScaleDistributes(v: Vec3, a: real, b: real)
    ensures Scale(v, a + b) == Add(Scale(v, a), Scale(v, b))
  {
    assert v.x * (a + b) == v.x * a + v.x * b;
    assert v.y * (a + b) == v.y * a + v.y * b;
    assert v.z * (a + b) == v.z * a + v.z * b;
  }

  lemma AddAssociative(a: Vec3, b: Vec3, c: Vec3)
    ensures Add(Add(a, b), c) == Add(a, Add(b, c))
  {
  }

  lemma AddSwap(a: Vec3, b: Vec3, c: Vec3)
    ensures Add(Add(a, b), c) == Add(b, Add(a, c))
  {
  }

  lemma AddRotate(a: Vec3, b: Vec3, c: Vec3)
    ensures Add(a, Add(b, c)) == Add(c, Add(a, b))
  {
  }
}
