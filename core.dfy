/**
 * The 3D vector algebra of the cyclone physics engine (include/cyclone/core.h).
 *
 * The engine's `real` is a single-precision float; here it is Dafny's exact
 * `real`, so every identity below is exact rather than "within tolerance".
 *
 * `Vector3` is a C++ value type whose member functions either return a new
 * value or update x, y and z in place. The model keeps the two halves apart:
 *   - `Vec` is the value of a vector, and carries the value-returning
 *     operations (`operator*`, `operator+`, `operator-`, `componentProduct`,
 *     `scalarProduct`, `operator*(Vector3)`, `vectorProduct`, `operator%`);
 *   - `Vector3` is the storage, a class with fields x, y, z whose methods are
 *     the in-place operations, each specified by the value operation it
 *     agrees with.
 *
 * The math library's square root (`real_sqrt`) is code the model cannot
 * see; it is passed in as a function `sqrt` and every member that needs it
 * assumes `IsSqrt(sqrt)`: the result is non-negative and squares back to the
 * argument.
 */
module Core {

  /** `sqrt` behaves as the square root on the non-negative reals. */
  ghost predicate IsSqrt(sqrt: real -> real)
  {
    forall s :: 0.0 <= s ==> 0.0 <= sqrt(s) && sqrt(s) * sqrt(s) == s
  }

  /** The value of a `Vector3`: its three components (the padding word is
      left out, it plays no part in any result). */
  datatype Vec = Vec(x: real, y: real, z: real)
  {
    /** x² + y² + z²: never negative, and zero exactly for the zero vector. */
    function SquareMagnitude(): (r: real)
      ensures 0.0 <= r
      ensures r == 0.0 <==> this == Zero()
    {
      SquaresNonNegative(x, y, z);
      x * x + y * y + z * z
    }

    /** sqrt(x² + y² + z²): the length, whose square is `SquareMagnitude`. */
    function Magnitude(sqrt: real -> real): (r: real)
      requires IsSqrt(sqrt)
      ensures 0.0 <= r && r * r == SquareMagnitude()
      ensures r == 0.0 <==> this == Zero()
    {
      var s := SquareMagnitude();
      var r := sqrt(s);
      SqrtOf(sqrt, s);
      RootZero(r, s);
      r
    }

    /** `operator*(real)`. */
    function Scaled(value: real): Vec
    {
      Vec(x * value, y * value, z * value)
    }

    /** `operator+`. */
    function Plus(v: Vec): Vec
    {
      Vec(x + v.x, y + v.y, z + v.z)
    }

    /** `operator-`: subtracting `v` is undone by adding it back. */
    function Minus(v: Vec): (r: Vec)
      ensures r.Plus(v) == this
    {
      Vec(x - v.x, y - v.y, z - v.z)
    }

    /** `componentProduct`: the Hadamard product; its components sum to the
        scalar product. */
    function ComponentProduct(v: Vec): (r: Vec)
      ensures r.x + r.y + r.z == ScalarProduct(v)
    {
      Vec(x * v.x, y * v.y, z * v.z)
    }

    /** `scalarProduct`. */
    function ScalarProduct(v: Vec): real
    {
      x * v.x + y * v.y + z * v.z
    }

    /** `operator*(const Vector3&)`: the same scalar as `scalarProduct`. */
    function Dot(v: Vec): (r: real)
      ensures r == ScalarProduct(v)
    {
      x * v.x + y * v.y + z * v.z
    }

    /** `vectorProduct` (right-hand rule). */
    function VectorProduct(v: Vec): Vec
    {
      Vec(y * v.z - z * v.y,
          z * v.x - x * v.z,
          x * v.y - y * v.x)
    }

    /** `operator%`: the same vector as `vectorProduct`. */
    function Cross(v: Vec): (r: Vec)
      ensures r == VectorProduct(v)
    {
      Vec(y * v.z - z * v.y,
          z * v.x - x * v.z,
          x * v.y - y * v.x)
    }

    /** The value `normalize` leaves behind: the vector scaled by
        1/magnitude when the magnitude is positive, the vector itself
        otherwise. */
    function Normalized(sqrt: real -> real): Vec
      requires IsSqrt(sqrt)
    {
      var l := Magnitude(sqrt);
      if l > 0.0 then Scaled(1.0 / l) else this
    }
  }

  /**
   * A normalized vector has length one unless the vector is zero, in which
   * case it is unchanged; it points the same way as the vector: parallel,
   * and its scalar product with the vector is the vector's magnitude.
   */
  lemma NormalizedIsUnit(v: Vec, sqrt: real -> real)
    requires IsSqrt(sqrt)
    ensures v == Zero() ==> v.Normalized(sqrt) == v
    ensures v != Zero() ==> v.Normalized(sqrt).SquareMagnitude() == 1.0
    ensures v.Normalized(sqrt).VectorProduct(v) == Zero()
    ensures v.Normalized(sqrt).ScalarProduct(v) == v.Magnitude(sqrt)
  {
    var l := v.Magnitude(sqrt);
    if l > 0.0 {
      InverseTimes(l);
      ScaledUnit(v, 1.0 / l, l);
    } else {
      ZeroProducts();
    }
  }

  /** The zero vector, the value of `Vector3()`. */
  function Zero(): Vec
  {
    Vec(0.0, 0.0, 0.0)
  }

  /** A sum of three squares is non-negative and zero only when all three
      are zero. */
  lemma SquaresNonNegative(x: real, y: real, z: real)
    ensures 0.0 <= x * x + y * y + z * z
    ensures x * x + y * y + z * z == 0.0 <==> x == 0.0 && y == 0.0 && z == 0.0
  {
    SquareZero(x);
    SquareZero(y);
    SquareZero(z);
    NonNegativeSum(x * x, y * y, z * z);
  }

  lemma SquareZero(x: real)
    ensures 0.0 <= x * x
    ensures x * x == 0.0 ==> x == 0.0
  {
    if x != 0.0 {
      assert (x * x) / x == x;
    }
  }

  lemma SqrtOf(sqrt: real -> real, s: real)
    requires IsSqrt(sqrt) && 0.0 <= s
    ensures 0.0 <= sqrt(s) && sqrt(s) * sqrt(s) == s
  {
  }

  /** A non-negative root of s is zero exactly when s is. */
  lemma RootZero(r: real, s: real)
    requires 0.0 <= r && r * r == s
    ensures r == 0.0 <==> s == 0.0
  {
    SquareZero(r);
  }

  lemma ScaleSquares(x: real, y: real, z: real, k: real)
    ensures (x * k) * (x * k) + (y * k) * (y * k) + (z * k) * (z * k) == k * k * (x * x + y * y + z * z)
  {
  }

  /** With k the reciprocal of l and s = l², k²s = 1 and ks = l. */
  lemma Reciprocal(k: real, l: real, s: real)
    requires k * l == 1.0 && l * l == s
    ensures k * k * s == 1.0 && k * s == l
  {
    calc {
      k * k * s;
      k * k * (l * l);
      (k * l) * (k * l);
    }
    calc {
      k * s;
      k * (l * l);
      (k * l) * l;
    }
  }

  lemma NonNegativeSum(a: real, b: real, c: real)
    requires 0.0 <= a && 0.0 <= b && 0.0 <= c
    ensures 0.0 <= a + b + c
    ensures a + b + c == 0.0 ==> a == 0.0 && b == 0.0 && c == 0.0
  {
  }

  /** Scaling by k = 1/l, where l² is the squared length, gives a unit
      vector parallel to the original whose scalar product with it is l. */
  lemma ScaledUnit(v: Vec, k: real, l: real)
    requires k * l == 1.0 && l * l == v.SquareMagnitude()
    ensures v.Scaled(k).SquareMagnitude() == 1.0
    ensures v.Scaled(k).VectorProduct(v) == Zero()
    ensures v.Scaled(k).ScalarProduct(v) == l
  {
    ScaledUnitLength(v, k, l);
    ScaledUnitDot(v, k, l);
    ScaledParallel(v, k);
  }

  lemma ZeroProducts()
    ensures Zero().VectorProduct(Zero()) == Zero()
    ensures Zero().ScalarProduct(Zero()) == 0.0
  {
    var z := Zero();
    assert z.x == 0.0 && z.y == 0.0 && z.z == 0.0;
    assert z.x * z.x == 0.0;
  }

  /** A multiple of v is parallel to v. */
  lemma ScaledParallel(v: Vec, k: real)
    ensures v.Scaled(k).VectorProduct(v) == Zero()
  {
    CrossScaleLeft(v.y, v.z, v.z, v.y, k);
    CrossScaleLeft(v.z, v.x, v.x, v.z, k);
    CrossScaleLeft(v.x, v.y, v.y, v.x, k);
  }

  lemma ScaledUnitDot(v: Vec, k: real, l: real)
    requires k * l == 1.0 && l * l == v.SquareMagnitude()
    ensures v.Scaled(k).ScalarProduct(v) == l
  {
    ScaledDot(v, k, v);
    ScalarProductAliases(v, v);
    Reciprocal(k, l, v.SquareMagnitude());
  }

  lemma InverseTimes(l: real)
    requires l != 0.0
    ensures (1.0 / l) * l == 1.0 && 1.0 / l != 0.0
  {
  }

  lemma ScaledUnitLength(v: Vec, k: real, l: real)
    requires k * l == 1.0 && l * l == v.SquareMagnitude()
    ensures v.Scaled(k).SquareMagnitude() == 1.0
  {
    Reciprocal(k, l, v.SquareMagnitude());
    ScaledSquareMagnitude(v, k);
  }

  /** Scaling a vector by k scales its squared length by k². */
  lemma ScaledSquareMagnitude(v: Vec, k: real)
    ensures v.Scaled(k).SquareMagnitude() == k * k * v.SquareMagnitude()
  {
    ScaleSquares(v.x, v.y, v.z, k);
  }

  /** Scaling one operand scales the scalar product. */
  lemma ScaledDot(v: Vec, k: real, w: Vec)
    ensures v.Scaled(k).ScalarProduct(w) == k * v.ScalarProduct(w)
  {
    DotScale(v.x, v.y, v.z, w.x, w.y, w.z, k);
  }

  /** Scaling either operand scales the vector product. */
  lemma ScaledCross(v: Vec, k: real, w: Vec)
    ensures v.Scaled(k).VectorProduct(w) == v.VectorProduct(w).Scaled(k)
    ensures w.VectorProduct(v.Scaled(k)) == w.VectorProduct(v).Scaled(k)
  {
    ScaledCrossLeft(v, k, w);
    ScaledCrossRight(w, v, k);
  }

  /** Scaling the left operand by k scales the vector product by k. */
  lemma ScaledCrossLeft(v: Vec, k: real, w: Vec)
    ensures v.Scaled(k).VectorProduct(w) == v.VectorProduct(w).Scaled(k)
  {
    ScaledCrossLeftX(v, k, w);
    ScaledCrossLeftY(v, k, w);
    ScaledCrossLeftZ(v, k, w);
  }

  // The x, y and z components of `ScaledCrossLeft`, one lemma each so that each
  // nonlinear proof obligation stays small.
  lemma ScaledCrossLeftX(v: Vec, k: real, w: Vec)
    ensures v.Scaled(k).VectorProduct(w).x == v.VectorProduct(w).Scaled(k).x
  {
    var p, q, r, t := v.y, w.z, v.z, w.y;
    CrossScaleLeft(p, q, r, t, k);
    assert v.Scaled(k).VectorProduct(w).x == (p * k) * q - (r * k) * t;
    assert v.VectorProduct(w).Scaled(k).x == (p * q - r * t) * k;
  }

  lemma ScaledCrossLeftY(v: Vec, k: real, w: Vec)
    ensures v.Scaled(k).VectorProduct(w).y == v.VectorProduct(w).Scaled(k).y
  {
    var p, q, r, t := v.z, w.x, v.x, w.z;
    CrossScaleLeft(p, q, r, t, k);
    assert v.Scaled(k).VectorProduct(w).y == (p * k) * q - (r * k) * t;
    assert v.VectorProduct(w).Scaled(k).y == (p * q - r * t) * k;
  }

  lemma ScaledCrossLeftZ(v: Vec, k: real, w: Vec)
    ensures v.Scaled(k).VectorProduct(w).z == v.VectorProduct(w).Scaled(k).z
  {
    var p, q, r, t := v.x, w.y, v.y, w.x;
    CrossScaleLeft(p, q, r, t, k);
    assert v.Scaled(k).VectorProduct(w).z == (p * k) * q - (r * k) * t;
    assert v.VectorProduct(w).Scaled(k).z == (p * q - r * t) * k;
  }

  /** Scaling the right operand by k scales the vector product by k. */
  lemma ScaledCrossRight(w: Vec, v: Vec, k: real)
    ensures w.VectorProduct(v.Scaled(k)) == w.VectorProduct(v).Scaled(k)
  {
    ScaledCrossRightX(w, v, k);
    ScaledCrossRightY(w, v, k);
    ScaledCrossRightZ(w, v, k);
  }

  // The x, y and z components of `ScaledCrossRight`, one lemma each so that each
  // nonlinear proof obligation stays small.
  lemma ScaledCrossRightX(w: Vec, v: Vec, k: real)
    ensures w.VectorProduct(v.Scaled(k)).x == w.VectorProduct(v).Scaled(k).x
  {
    var p, q, r, t := w.y, v.z, w.z, v.y;
    CrossScaleRight(p, q, r, t, k);
    assert w.VectorProduct(v.Scaled(k)).x == p * (q * k) - r * (t * k);
    assert w.VectorProduct(v).Scaled(k).x == (p * q - r * t) * k;
  }

  lemma ScaledCrossRightY(w: Vec, v: Vec, k: real)
    ensures w.VectorProduct(v.Scaled(k)).y == w.VectorProduct(v).Scaled(k).y
  {
    var p, q, r, t := w.z, v.x, w.x, v.z;
    CrossScaleRight(p, q, r, t, k);
    assert w.VectorProduct(v.Scaled(k)).y == p * (q * k) - r * (t * k);
    assert w.VectorProduct(v).Scaled(k).y == (p * q - r * t) * k;
  }

  lemma ScaledCrossRightZ(w: Vec, v: Vec, k: real)
    ensures w.VectorProduct(v.Scaled(k)).z == w.VectorProduct(v).Scaled(k).z
  {
    var p, q, r, t := w.x, v.y, w.y, v.x;
    CrossScaleRight(p, q, r, t, k);
    assert w.VectorProduct(v.Scaled(k)).z == p * (q * k) - r * (t * k);
    assert w.VectorProduct(v).Scaled(k).z == (p * q - r * t) * k;
  }

  lemma DotScale(x: real, y: real, z: real, a: real, b: real, c: real, k: real)
    ensures (x * k) * a + (y * k) * b + (z * k) * c == k * (x * a + y * b + z * c)
  {
  }

  /** One component of a cross product with one operand scaled by k. */
  lemma CrossScaleLeft(p: real, q: real, r: real, t: real, k: real)
    ensures (p * k) * q - (r * k) * t == (p * q - r * t) * k
  {
  }

  lemma CrossScaleRight(p: real, q: real, r: real, t: real, k: real)
    ensures p * (q * k) - r * (t * k) == (p * q - r * t) * k
  {
  }

  // ---- Properties of the value operations ---------------------------------

  /** Adding then subtracting `v`, or subtracting then adding it, returns the
      original vector; addition commutes. */
  lemma PlusMinusRoundTrip(u: Vec, v: Vec)
    ensures u.Plus(v).Minus(v) == u
    ensures u.Minus(v).Plus(v) == u
    ensures u.Plus(v) == v.Plus(u)
  {
  }

  /** `scalarProduct` and `operator*(Vector3)` agree, the scalar product is
      symmetric, and a vector's scalar product with itself is its squared
      length. */
  lemma ScalarProductAliases(u: Vec, v: Vec)
    ensures u.Dot(v) == u.ScalarProduct(v)
    ensures u.ScalarProduct(v) == v.ScalarProduct(u)
    ensures u.ScalarProduct(u) == u.SquareMagnitude()
  {
  }

  /** The component product is symmetric. */
  lemma ComponentProductCommutes(u: Vec, v: Vec)
    ensures u.ComponentProduct(v) == v.ComponentProduct(u)
  {
  }

  /** `vectorProduct` and `operator%` agree, and the cross product is
      anti-commutative: a×b == -(b×a). */
  lemma CrossAntiCommutative(a: Vec, b: Vec)
    ensures a.VectorProduct(b) == a.Cross(b)
    ensures a.VectorProduct(b) == b.VectorProduct(a).Scaled(-1.0)
    ensures a.VectorProduct(a) == Zero()
  {
  }

  /** a×b is perpendicular to a and to b. */
  lemma CrossOrthogonal(a: Vec, b: Vec)
    ensures a.ScalarProduct(a.VectorProduct(b)) == 0.0
    ensures b.ScalarProduct(a.VectorProduct(b)) == 0.0
  {
    ScalarProductAliases(a, a.VectorProduct(b));
    ScalarProductAliases(b, a.VectorProduct(b));
  }

  /** Lagrange's identity: |a×b|² == |a|²|b|² - (a·b)². */
  lemma Lagrange(a: Vec, b: Vec)
    ensures a.VectorProduct(b).SquareMagnitude()
         == a.SquareMagnitude() * b.SquareMagnitude() - a.ScalarProduct(b) * a.ScalarProduct(b)
  {
  }

  /** The triple product expansion: a×(b×c) == b(a·c) - c(a·b). */
  lemma TripleProduct(a: Vec, b: Vec, c: Vec)
    ensures a.VectorProduct(b.VectorProduct(c))
         == b.Scaled(a.ScalarProduct(c)).Minus(c.Scaled(a.ScalarProduct(b)))
  {
    TripleProductX(a, b, c);
    TripleProductY(a, b, c);
    TripleProductZ(a, b, c);
  }

  // The x, y and z components of `TripleProduct`, one lemma each so that each
  // nonlinear proof obligation stays small.
  lemma TripleProductX(a: Vec, b: Vec, c: Vec)
    ensures a.VectorProduct(b.VectorProduct(c)).x
         == b.Scaled(a.ScalarProduct(c)).Minus(c.Scaled(a.ScalarProduct(b))).x
  {
    TripleComponent(a.x, a.y, a.z, b.x, b.y, b.z, c.x, c.y, c.z, a.ScalarProduct(b), a.ScalarProduct(c));
  }

  lemma TripleProductY(a: Vec, b: Vec, c: Vec)
    ensures a.VectorProduct(b.VectorProduct(c)).y
         == b.Scaled(a.ScalarProduct(c)).Minus(c.Scaled(a.ScalarProduct(b))).y
  {
    TripleComponent(a.y, a.z, a.x, b.y, b.z, b.x, c.y, c.z, c.x, a.ScalarProduct(b), a.ScalarProduct(c));
  }

  lemma TripleProductZ(a: Vec, b: Vec, c: Vec)
    ensures a.VectorProduct(b.VectorProduct(c)).z
         == b.Scaled(a.ScalarProduct(c)).Minus(c.Scaled(a.ScalarProduct(b))).z
  {
    TripleComponent(a.z, a.x, a.y, b.z, b.x, b.y, c.z, c.x, c.y, a.ScalarProduct(b), a.ScalarProduct(c));
  }

  /** One component of the triple product expansion. */
  lemma TripleComponent(a1: real, a2: real, a3: real, b1: real, b2: real, b3: real,
                        c1: real, c2: real, c3: real, ab: real, ac: real)
    requires ab == a1 * b1 + a2 * b2 + a3 * b3
    requires ac == a1 * c1 + a2 * c2 + a3 * c3
    ensures a2 * (b1 * c2 - b2 * c1) - a3 * (b3 * c1 - b1 * c3) == b1 * ac - c1 * ab
  {
  }

  /** Negating twice (scaling by -1 twice) restores the vector. */
  lemma InvertInvolution(v: Vec)
    ensures v.Scaled(-1.0).Scaled(-1.0) == v
  {
  }

  // ---- Orthonormal basis ---------------------------------------------------

  /** Three vectors, the values `makeOrthonormalBasis` leaves in *a, *b, *c. */
  datatype Basis = Basis(a: Vec, b: Vec, c: Vec)

  /** Three unit vectors, pairwise perpendicular, with a×b == c. */
  ghost predicate RightHandedOrthonormal(r: Basis)
  {
    && r.a.SquareMagnitude() == 1.0
    && r.b.SquareMagnitude() == 1.0
    && r.c.SquareMagnitude() == 1.0
    && r.a.ScalarProduct(r.b) == 0.0
    && r.b.ScalarProduct(r.c) == 0.0
    && r.a.ScalarProduct(r.c) == 0.0
    && r.a.VectorProduct(r.b) == r.c
  }

  /**
   * What `makeOrthonormalBasis` computes from the inputs a0 and b0: a is
   * normalized and c becomes a×b0. When c is zero (a0 and b0 are parallel,
   * or one is zero) b is left as it was; otherwise c is normalized and b is
   * replaced by c×a, giving a right-handed orthonormal basis.
   */
  function OrthonormalBasis(a0: Vec, b0: Vec, sqrt: real -> real): Basis
    requires IsSqrt(sqrt)
  {
    var a := a0.Normalized(sqrt);
    var c := a.VectorProduct(b0);
    if c.SquareMagnitude() == 0.0 then
      Basis(a, b0, c)
    else
      var c' := c.Normalized(sqrt);
      Basis(a, c'.Cross(a), c')
  }

  /** The promise of `makeOrthonormalBasis`: a is a0 normalized; the result
      is degenerate (c is zero and b untouched) exactly when a0 and b0 are
      parallel, and otherwise it is a right-handed orthonormal basis. */
  lemma {:induction false} OrthonormalBasisCorrect(a0: Vec, b0: Vec, sqrt: real -> real)
    requires IsSqrt(sqrt)
    ensures var r := OrthonormalBasis(a0, b0, sqrt);
            && r.a == a0.Normalized(sqrt)
            && (r.c == Zero() <==> a0.VectorProduct(b0) == Zero())
            && (r.c == Zero() ==> r.b == b0)
            && (r.c != Zero() ==> RightHandedOrthonormal(r))
  {
    var a := a0.Normalized(sqrt);
    var c := a.VectorProduct(b0);
    DegenerateExactlyWhenParallel(a0, b0, sqrt);
    if c == Zero() {
      DegenerateBasis(a0, b0, sqrt);
    } else {
      NondegenerateBasis(a0, b0, sqrt);
      NondegenerateUnfold(a0, b0, sqrt);
    }
  }

  lemma DegenerateBasis(a0: Vec, b0: Vec, sqrt: real -> real)
    requires IsSqrt(sqrt)
    requires a0.Normalized(sqrt).VectorProduct(b0) == Zero()
    ensures OrthonormalBasis(a0, b0, sqrt) == Basis(a0.Normalized(sqrt), b0, Zero())
  {
    assert Zero().SquareMagnitude() == 0.0;
  }

  lemma NondegenerateUnfold(a0: Vec, b0: Vec, sqrt: real -> real)
    requires IsSqrt(sqrt)
    requires a0.Normalized(sqrt).VectorProduct(b0) != Zero()
    ensures var a := a0.Normalized(sqrt);
            var c := a.VectorProduct(b0).Normalized(sqrt);
            OrthonormalBasis(a0, b0, sqrt) == Basis(a, c.Cross(a), c)
  {
    var c := a0.Normalized(sqrt).VectorProduct(b0);
    assert c.SquareMagnitude() != 0.0;
  }

  /** When a×b0 is not zero, a0 was not zero, so a is a unit vector and the
      basis is completed. */
  lemma NondegenerateBasis(a0: Vec, b0: Vec, sqrt: real -> real)
    requires IsSqrt(sqrt)
    requires a0.Normalized(sqrt).VectorProduct(b0) != Zero()
    ensures var a := a0.Normalized(sqrt);
            var c := a.VectorProduct(b0).Normalized(sqrt);
            c != Zero() && RightHandedOrthonormal(Basis(a, c.Cross(a), c))
  {
    var a := a0.Normalized(sqrt);
    NormalizedIsUnit(a0, sqrt);
    if a0 == Zero() {
      ZeroCross(b0);
      assert false;
    }
    BasisCompletes(a, b0, sqrt);
  }

  /** The zero vector's cross product with anything is zero. */
  lemma ZeroCross(b: Vec)
    ensures Zero().VectorProduct(b) == Zero()
  {
    var z := Zero();
    assert z.x == 0.0 && z.y == 0.0 && z.z == 0.0;
    TimesZero(b.x, z.x);
    TimesZero(b.y, z.y);
    TimesZero(b.z, z.z);
  }

  /** Normalizing a scales it by a positive factor (or not at all), so a×b0
      is zero exactly when the original a0×b0 is. */
  lemma DegenerateExactlyWhenParallel(a0: Vec, b0: Vec, sqrt: real -> real)
    requires IsSqrt(sqrt)
    ensures a0.Normalized(sqrt).VectorProduct(b0) == Zero() <==> a0.VectorProduct(b0) == Zero()
  {
    var l := a0.Magnitude(sqrt);
    if l > 0.0 {
      InverseTimes(l);
      assert a0.Normalized(sqrt) == a0.Scaled(1.0 / l);
      ScaledDegenerate(a0, b0, 1.0 / l);
    } else {
      assert a0.Normalized(sqrt) == a0;
    }
  }

  lemma ScaledDegenerate(a0: Vec, b0: Vec, k: real)
    requires k != 0.0
    ensures a0.Scaled(k).VectorProduct(b0) == Zero() <==> a0.VectorProduct(b0) == Zero()
  {
    ScaledCross(a0, k, b0);
    ScaledNonZero(a0.VectorProduct(b0), k);
  }

  /** Scaling by a non-zero factor maps non-zero vectors to non-zero ones. */
  lemma ScaledNonZero(v: Vec, k: real)
    requires k != 0.0
    ensures v.Scaled(k) == Zero() <==> v == Zero()
  {
    ProductZero(v.x, k);
    ProductZero(v.y, k);
    ProductZero(v.z, k);
  }

  lemma ProductZero(x: real, k: real)
    requires k != 0.0
    ensures x * k == 0.0 <==> x == 0.0
  {
    if x != 0.0 {
      assert (x * k) / k == x;
    }
  }

  /** With a unit and c = a×b0 non-zero, normalizing c and taking b = c×a
      completes a right-handed orthonormal basis. */
  lemma BasisCompletes(a: Vec, b0: Vec, sqrt: real -> real)
    requires IsSqrt(sqrt)
    requires a.VectorProduct(b0) != Zero()
    requires a.SquareMagnitude() == 1.0
    ensures var c := a.VectorProduct(b0).Normalized(sqrt);
            RightHandedOrthonormal(Basis(a, c.Cross(a), c))
  {
    var c := a.VectorProduct(b0).Normalized(sqrt);
    NormalizedCrossPerpendicular(a, b0, sqrt);
    CompleteUnitPair(a, c);
  }

  /** Normalizing a×b0 keeps it perpendicular to a. */
  lemma NormalizedCrossPerpendicular(a: Vec, b0: Vec, sqrt: real -> real)
    requires IsSqrt(sqrt)
    requires a.VectorProduct(b0) != Zero()
    ensures a.VectorProduct(b0).Normalized(sqrt).SquareMagnitude() == 1.0
    ensures a.ScalarProduct(a.VectorProduct(b0).Normalized(sqrt)) == 0.0
  {
    var c0 := a.VectorProduct(b0);
    var l := c0.Magnitude(sqrt);
    var k := 1.0 / l;
    assert c0.Normalized(sqrt) == c0.Scaled(k);
    ScaledDot(c0, k, a);
    CrossOrthogonal(a, b0);
    ScalarProductAliases(c0, a);
    ScalarProductAliases(a, c0.Scaled(k));
    TimesZero(k, c0.ScalarProduct(a));
  }

  lemma TimesZero(k: real, t: real)
    requires t == 0.0
    ensures k * t == 0.0 && t * k == 0.0
  {
  }

  /** Two perpendicular unit vectors a and c, completed by b = c×a, form a
      right-handed orthonormal basis (a, b, c). */
  lemma CompleteUnitPair(a: Vec, c: Vec)
    requires a.SquareMagnitude() == 1.0 && c.SquareMagnitude() == 1.0
    requires a.ScalarProduct(c) == 0.0
    ensures RightHandedOrthonormal(Basis(a, c.Cross(a), c))
  {
    var b := c.VectorProduct(a);
    CrossOrthogonal(c, a);
    ScalarProductAliases(b, c);
    ScalarProductAliases(a, c);
    CrossUnitLength(c, a);
    CrossCompletes(a, c);
  }

  /** The cross product of perpendicular unit vectors is a unit vector. */
  lemma CrossUnitLength(c: Vec, a: Vec)
    requires a.SquareMagnitude() == 1.0 && c.SquareMagnitude() == 1.0
    requires c.ScalarProduct(a) == 0.0
    ensures c.VectorProduct(a).SquareMagnitude() == 1.0
  {
    Lagrange(c, a);
    UnitArithmetic(c.SquareMagnitude(), a.SquareMagnitude(), c.ScalarProduct(a));
  }

  lemma UnitArithmetic(p: real, q: real, d: real)
    requires p == 1.0 && q == 1.0 && d == 0.0
    ensures p * q - d * d == 1.0
  {
  }

  /** For a unit and c perpendicular to it, a×(c×a) == c. */
  lemma CrossCompletes(a: Vec, c: Vec)
    requires a.SquareMagnitude() == 1.0
    requires a.ScalarProduct(c) == 0.0
    ensures a.VectorProduct(c.VectorProduct(a)) == c
  {
    TripleProduct(a, c, a);
    ScalarProductAliases(a, a);
    ScaledByOneAndZero(c, a);
  }

  lemma ScaledByOneAndZero(c: Vec, a: Vec)
    ensures c.Scaled(1.0).Minus(a.Scaled(0.0)) == c
  {
    var one, zero := c.Scaled(1.0), a.Scaled(0.0);
    assert one == c;
    assert zero == Zero();
  }

  // ---- The storage: a Vector3 whose fields are updated in place ----------

  class Vector3 {
    var x: real
    var y: real
    var z: real

    /** The vector's current value. */
    function Value(): Vec
      reads this
    {
      Vec(x, y, z)
    }

    /** `Vector3()`: the zero vector. */
    constructor ()
      ensures Value() == Zero()
    {
      x, y, z := 0.0, 0.0, 0.0;
    }

    /** `Vector3(x, y, z)`. */
    constructor Make(x: real, y: real, z: real)
      ensures Value() == Vec(x, y, z)
    {
      this.x, this.y, this.z := x, y, z;
    }

    /** `invert`: every component negated, i.e. the old value scaled by -1. */
    method Invert()
      modifies this
      ensures x == -old(x) && y == -old(y) && z == -old(z)
      ensures Value() == old(Value()).Scaled(-1.0)
    {
      x := -x;
      y := -y;
      z := -z;
    }

    /** `normalize`: unchanged unless the length is positive, otherwise
        multiplied in place by 1/length. */
    method Normalize(sqrt: real -> real)
      requires IsSqrt(sqrt)
      modifies this
      ensures Value() == old(Value()).Normalized(sqrt)
    {
      var l := Value().Magnitude(sqrt);
      if l > 0.0 {
        MultiplyBy(1.0 / l);
      }
    }

    /** `operator*=(real)`: the same vector as `operator*(real)` on the old
        value. */
    method MultiplyBy(value: real)
      modifies this
      ensures Value() == old(Value()).Scaled(value)
    {
      x := x * value;
      y := y * value;
      z := z * value;
    }

    /** `operator+=`: the same vector as `operator+` on the old values; `v`
        may be this very vector. */
    method Add(v: Vector3)
      modifies this
      ensures Value() == old(Value()).Plus(old(v.Value()))
    {
      x := x + v.x;
      y := y + v.y;
      z := z + v.z;
    }

    /** `addScaledVector`: the same vector as `this + vector * scale` built by
        the value operators; `vector` may be this very vector. */
    method AddScaledVector(vector: Vector3, scale: real)
      modifies this
      ensures Value() == old(Value()).Plus(old(vector.Value()).Scaled(scale))
    {
      x := x + vector.x * scale;
      y := y + vector.y * scale;
      z := z + vector.z * scale;
    }

    /** `operator-=`: the same vector as `operator-` on the old values. */
    method Subtract(v: Vector3)
      modifies this
      ensures Value() == old(Value()).Minus(old(v.Value()))
    {
      x := x - v.x;
      y := y - v.y;
      z := z - v.z;
    }

    /** `componentProductUpdate`: the same vector as `componentProduct` on
        the old values. */
    method ComponentProductUpdate(vector: Vector3)
      modifies this
      ensures Value() == old(Value()).ComponentProduct(old(vector.Value()))
    {
      x := x * vector.x;
      y := y * vector.y;
      z := z * vector.z;
    }

    /**
     * `makeOrthonormalBasis(a, b, c)`: normalizes *a, sets *c to a×b, returns
     * early (leaving *b) when c has squared length zero, and otherwise
     * normalizes *c and sets *b to c×a. The C++ member never reads `this`,
     * so it is static here.
     */
    static method MakeOrthonormalBasis(a: Vector3, b: Vector3, c: Vector3, sqrt: real -> real)
      requires IsSqrt(sqrt)
      requires a != b && b != c && a != c
      modifies a, b, c
      ensures Basis(a.Value(), b.Value(), c.Value())
           == OrthonormalBasis(old(a.Value()), old(b.Value()), sqrt)
    {
      ghost var a0, b0 := a.Value(), b.Value();
      a.Normalize(sqrt);
      var cross := a.Value().VectorProduct(b.Value());
      c.x, c.y, c.z := cross.x, cross.y, cross.z;
      assert c.Value() == a0.Normalized(sqrt).VectorProduct(b0);
      if c.Value().SquareMagnitude() == 0.0 {
        DegenerateBasis(a0, b0, sqrt);
        return;
      }
      NondegenerateUnfold(a0, b0, sqrt);
      c.Normalize(sqrt);
      var other := c.Value().Cross(a.Value());
      b.x, b.y, b.z := other.x, other.y, other.z;
    }
  }

  /** Inverting a vector twice restores it. */
  method InvertTwice(v: Vector3)
    modifies v
    ensures v.Value() == old(v.Value())
  {
    v.Invert();
    v.Invert();
    InvertInvolution(old(v.Value()));
  }

  /** The basis of a = (1,0,0) and the parallel b = (2,0,0) is degenerate:
      a is already a unit vector, c becomes zero and b is left as it was. */
  method ParallelBasisExample(sqrt: real -> real) returns (a: Vec, b: Vec, c: Vec)
    requires IsSqrt(sqrt)
    ensures a == Vec(1.0, 0.0, 0.0) && b == Vec(2.0, 0.0, 0.0) && c == Zero()
  {
    var va := new Vector3.Make(1.0, 0.0, 0.0);
    var vb := new Vector3.Make(2.0, 0.0, 0.0);
    var vc := new Vector3();
    Vector3.MakeOrthonormalBasis(va, vb, vc, sqrt);
    a, b, c := va.Value(), vb.Value(), vc.Value();
    UnitXNormalized(sqrt);
    UnitXParallel();
    OrthonormalBasisCorrect(Vec(1.0, 0.0, 0.0), Vec(2.0, 0.0, 0.0), sqrt);
  }

  /** (1,0,0) has length 1, so normalizing leaves it as it is. */
  lemma UnitXNormalized(sqrt: real -> real)
    requires IsSqrt(sqrt)
    ensures Vec(1.0, 0.0, 0.0).Normalized(sqrt) == Vec(1.0, 0.0, 0.0)
  {
    var u := Vec(1.0, 0.0, 0.0);
    assert u.SquareMagnitude() == 1.0;
    var l := u.Magnitude(sqrt);
    UnitRoot(l);
    assert u.Scaled(1.0 / l) == u;
  }

  lemma UnitRoot(r: real)
    requires 0.0 <= r && r * r == 1.0
    ensures r == 1.0
  {
    assert (r - 1.0) * (r + 1.0) == 0.0;
    ProductZero(r - 1.0, r + 1.0);
  }

  lemma UnitXParallel()
    ensures Vec(1.0, 0.0, 0.0).VectorProduct(Vec(2.0, 0.0, 0.0)) == Zero()
  {
  }
}
