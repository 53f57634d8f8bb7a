/**
 * Three-component vectors and the vector helpers of the coordinate-system backend:
 * difference, cross and dot product, magnitude and normalisation.
 * `math.sqrt` is a parameter; lemmas that need its defining property require `IsSqrt`.
 */
module Vectors {
  import opened Wrappers

  datatype Vec3 = Vec3(x: real, y: real, z: real)

  const Zero := Vec3(0.0, 0.0, 0.0)

  function Add(a: Vec3, b: Vec3): Vec3 {
    Vec3(a.x + b.x, a.y + b.y, a.z + b.z)
  }

  function Scale(k: real, v: Vec3): Vec3 {
    Vec3(k * v.x, k * v.y, k * v.z)
  }

  /** `subtract_vectors(a, b)`: the vector that, added to `b`, gives `a`. */
  function Sub(a: Vec3, b: Vec3): (r: Vec3)
    ensures Add(b, r) == a
  {
    Vec3(a.x - b.x, a.y - b.y, a.z - b.z)
  }

  /** `dot_product`. */
  function Dot(a: Vec3, b: Vec3): real {
    a.x * b.x + a.y * b.y + a.z * b.z
  }

  /** `cross_product(a, b)`: a vector perpendicular to both arguments. */
  function Cross(a: Vec3, b: Vec3): Vec3 {
    Vec3(a.y * b.z - a.z * b.y, a.z * b.x - a.x * b.z, a.x * b.y - a.y * b.x)
  }

  /** The cross product is perpendicular to both of its factors. */
  lemma CrossIsPerpendicular(a: Vec3, b: Vec3)
    ensures Dot(a, Cross(a, b)) == 0.0 && Dot(b, Cross(a, b)) == 0.0
  {
    PerpendicularComponents(a.x, a.y, a.z, b.x, b.y, b.z);
    PerpendicularComponents(b.x, b.y, b.z, a.x, a.y, a.z);
  }

  lemma PerpendicularComponents(a1: real, a2: real, a3: real, b1: real, b2: real, b3: real)
    ensures a1 * (a2 * b3 - a3 * b2) + a2 * (a3 * b1 - a1 * b3) + a3 * (a1 * b2 - a2 * b1) == 0.0
  {
  }

  /** `math.sqrt` returns the non-negative square root of a non-negative argument. */
  ghost predicate IsSqrt(sqrt: real -> real) {
    forall x {:trigger sqrt(x)} :: 0.0 <= x ==> 0.0 <= sqrt(x) && sqrt(x) * sqrt(x) == x
  }

  /** `magnitude(v)`: the square root of `v . v`. */
  function Magnitude(v: Vec3, sqrt: real -> real): real {
    sqrt(Dot(v, v))
  }

  /**
   * `normalize(v)`: fails (None, Python's ValueError) exactly when the magnitude is 0;
   * otherwise a vector that, scaled by the magnitude, gives back `v`.
   */
  function Normalize(v: Vec3, sqrt: real -> real): (r: Option<Vec3>)
    ensures r.None? <==> Magnitude(v, sqrt) == 0.0
    ensures r.Some? ==> Scale(Magnitude(v, sqrt), r.value) == v
  {
    var mag := Magnitude(v, sqrt);
    if mag == 0.0 then None else Some(Vec3(v.x / mag, v.y / mag, v.z / mag))
  }

  // ---------------------------------------------------------------------------
  // Properties

  lemma ZeroProduct(a: real, b: real)
    requires a * b == 0.0
    ensures a == 0.0 || b == 0.0
  {
  }

  lemma Square(x: real)
    ensures x * x >= 0.0
    ensures x * x == 0.0 ==> x == 0.0
  {
    if x * x == 0.0 {
      ZeroProduct(x, x);
    }
  }

  lemma DotSelfNonNegative(v: Vec3)
    ensures Dot(v, v) >= 0.0
    ensures Dot(v, v) == 0.0 <==> v == Zero
  {
    Square(v.x);
    Square(v.y);
    Square(v.z);
  }

  lemma SqrtPositive(sqrt: real -> real, d: real)
    requires IsSqrt(sqrt) && d > 0.0
    ensures sqrt(d) > 0.0
  {
    assert sqrt(d) * sqrt(d) == d;
  }

  lemma SqrtOfZero(sqrt: real -> real)
    requires IsSqrt(sqrt)
    ensures sqrt(0.0) == 0.0
  {
    ZeroProduct(sqrt(0.0), sqrt(0.0));
  }

  /** With a true square root, only the zero vector has magnitude 0, so only it fails to normalise. */
  lemma NormalizeFailsOnlyOnZero(v: Vec3, sqrt: real -> real)
    requires IsSqrt(sqrt)
    ensures Normalize(v, sqrt).None? <==> v == Zero
  {
    DotSelfNonNegative(v);
    if v == Zero {
      SqrtOfZero(sqrt);
    } else {
      SqrtPositive(sqrt, Dot(v, v));
    }
  }

  lemma UnitComponents(u1: real, u2: real, u3: real, m: real, x: real, y: real, z: real)
    requires m != 0.0 && m * u1 == x && m * u2 == y && m * u3 == z
    requires m * m == x * x + y * y + z * z
    ensures u1 * u1 + u2 * u2 + u3 * u3 == 1.0
  {
    var s := u1 * u1 + u2 * u2 + u3 * u3;
    assert s * (m * m) == (m * u1) * (m * u1) + (m * u2) * (m * u2) + (m * u3) * (m * u3);
    assert (s - 1.0) * (m * m) == 0.0;
    ZeroProduct(s - 1.0, m * m);
    Square(m);
  }

  /** With a true square root, a normalised vector has unit length. */
  lemma NormalizeIsUnit(v: Vec3, sqrt: real -> real)
    requires IsSqrt(sqrt) && Normalize(v, sqrt).Some?
    ensures Dot(Normalize(v, sqrt).value, Normalize(v, sqrt).value) == 1.0
  {
    var m := Magnitude(v, sqrt);
    var u := Normalize(v, sqrt).value;
    DotSelfNonNegative(v);
    assert m * m == Dot(v, v);
    assert Scale(m, u) == v;
    UnitComponents(u.x, u.y, u.z, m, v.x, v.y, v.z);
  }

  /** Normalising does not change which vectors are perpendicular to the result. */
  lemma NormalizeKeepsPerpendicular(v: Vec3, w: Vec3, sqrt: real -> real)
    requires Normalize(v, sqrt).Some?
    ensures Dot(Normalize(v, sqrt).value, w) == 0.0 <==> Dot(v, w) == 0.0
  {
    var m := Magnitude(v, sqrt);
    var u := Normalize(v, sqrt).value;
    ScaledDot(m, u.x, u.y, u.z, w.x, w.y, w.z);
    assert Dot(v, w) == m * Dot(u, w);
    if m * Dot(u, w) == 0.0 {
      ZeroProduct(m, Dot(u, w));
    }
  }

  lemma ScaledDot(m: real, x: real, y: real, z: real, a: real, b: real, c: real)
    ensures (m * x) * a + (m * y) * b + (m * z) * c == m * (x * a + y * b + z * c)
  {
  }

  /** The cross product of a vector with a multiple of itself is zero. */
  lemma CrossOfParallel(v: Vec3, k: real)
    ensures Cross(v, Scale(k, v)) == Zero
  {
  }

  /** Lagrange's identity: |a x b|^2 = |a|^2 |b|^2 - (a . b)^2. */
  lemma Lagrange(a: Vec3, b: Vec3)
    ensures Dot(Cross(a, b), Cross(a, b)) == Dot(a, a) * Dot(b, b) - Dot(a, b) * Dot(a, b)
  {
    LagrangeComponents(a.x, a.y, a.z, b.x, b.y, b.z, Dot(a, a), Dot(b, b), Dot(a, b));
  }

  lemma LagrangeComponents(a1: real, a2: real, a3: real, b1: real, b2: real, b3: real,
                           aa: real, bb: real, ab: real)
    requires aa == a1 * a1 + a2 * a2 + a3 * a3
    requires bb == b1 * b1 + b2 * b2 + b3 * b3
    requires ab == a1 * b1 + a2 * b2 + a3 * b3
    ensures (a2 * b3 - a3 * b2) * (a2 * b3 - a3 * b2) + (a3 * b1 - a1 * b3) * (a3 * b1 - a1 * b3)
            + (a1 * b2 - a2 * b1) * (a1 * b2 - a2 * b1) == aa * bb - ab * ab
  {
  }

  lemma TripleCrossComponent(a1: real, a2: real, a3: real, b1: real, b2: real, b3: real,
                             c1: real, c2: real, c3: real, ac: real, ab: real)
    requires ac == a1 * c1 + a2 * c2 + a3 * c3 && ab == a1 * b1 + a2 * b2 + a3 * b3
    ensures a2 * (b1 * c2 - b2 * c1) - a3 * (b3 * c1 - b1 * c3) == ac * b1 - ab * c1
  {
  }

  lemma TripleCrossX(a: Vec3, b: Vec3, c: Vec3)
    ensures Cross(a, Cross(b, c)).x == Sub(Scale(Dot(a, c), b), Scale(Dot(a, b), c)).x
  {
    TripleCrossComponent(a.x, a.y, a.z, b.x, b.y, b.z, c.x, c.y, c.z, Dot(a, c), Dot(a, b));
  }

  lemma TripleCrossY(a: Vec3, b: Vec3, c: Vec3)
    ensures Cross(a, Cross(b, c)).y == Sub(Scale(Dot(a, c), b), Scale(Dot(a, b), c)).y
  {
    TripleCrossComponent(a.y, a.z, a.x, b.y, b.z, b.x, c.y, c.z, c.x, Dot(a, c), Dot(a, b));
  }

  lemma TripleCrossZ(a: Vec3, b: Vec3, c: Vec3)
    ensures Cross(a, Cross(b, c)).z == Sub(Scale(Dot(a, c), b), Scale(Dot(a, b), c)).z
  {
    TripleCrossComponent(a.z, a.x, a.y, b.z, b.x, b.y, c.z, c.x, c.y, Dot(a, c), Dot(a, b));
  }

  /** a x (b x c) = (a . c) b - (a . b) c. */
  lemma TripleCross(a: Vec3, b: Vec3, c: Vec3)
    ensures Cross(a, Cross(b, c)) == Sub(Scale(Dot(a, c), b), Scale(Dot(a, b), c))
  {
    TripleCrossX(a, b, c);
    TripleCrossY(a, b, c);
    TripleCrossZ(a, b, c);
  }
}
