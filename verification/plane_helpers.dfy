/** Mapping 2D plane coordinates to 3D world points (the plane helpers). */
module PlaneHelpers {
  import opened Vectors

  /** A working plane: its origin and the two in-plane axes (`origin`, `u_axis`, `v_axis`). */
  datatype PlaneContext = PlaneContext(origin: Vec3, uAxis: Vec3, vAxis: Vec3)

  /** The global XY plane: origin (0,0,0), U = (1,0,0), V = (0,1,0). */
  const XYPlane := PlaneContext(Zero, Vec3(1.0, 0.0, 0.0), Vec3(0.0, 1.0, 0.0))

  /** The axes of the plane are unit length and perpendicular. */
  predicate Orthonormal(ctx: PlaneContext) {
    Dot(ctx.uAxis, ctx.uAxis) == 1.0 && Dot(ctx.vAxis, ctx.vAxis) == 1.0
    && Dot(ctx.uAxis, ctx.vAxis) == 0.0
  }

  /** `transform_to_plane(u, v, **ctx)`: origin + u * U + v * V. */
  function TransformToPlane(u: real, v: real, ctx: PlaneContext): Vec3 {
    Add(ctx.origin, Add(Scale(u, ctx.uAxis), Scale(v, ctx.vAxis)))
  }

  // ---------------------------------------------------------------------------
  // Properties

  /** Plane coordinates (0, 0) are the plane's origin. */
  lemma TransformOfOrigin(ctx: PlaneContext)
    ensures TransformToPlane(0.0, 0.0, ctx) == ctx.origin
  {
    assert Scale(0.0, ctx.uAxis) == Zero;
    assert Scale(0.0, ctx.vAxis) == Zero;
  }

  /** On the XY plane, (u, v) becomes the world point (u, v, 0). */
  lemma TransformOnXY(u: real, v: real)
    ensures TransformToPlane(u, v, XYPlane) == Vec3(u, v, 0.0)
  {
  }

  /** The difference of two mapped points depends only on the difference of their coordinates. */
  lemma TransformDifference(u1: real, v1: real, u2: real, v2: real, ctx: PlaneContext)
    ensures Sub(TransformToPlane(u1, v1, ctx), TransformToPlane(u2, v2, ctx))
            == Add(Scale(u1 - u2, ctx.uAxis), Scale(v1 - v2, ctx.vAxis))
  {
    var a, b := ctx.uAxis, ctx.vAxis;
    LinearDifference(u1, v1, u2, v2, a.x, b.x);
    LinearDifference(u1, v1, u2, v2, a.y, b.y);
    LinearDifference(u1, v1, u2, v2, a.z, b.z);
  }

  lemma LinearDifference(u1: real, v1: real, u2: real, v2: real, a: real, b: real)
    ensures (u1 * a + v1 * b) - (u2 * a + v2 * b) == (u1 - u2) * a + (v1 - v2) * b
  {
  }

  lemma CombinationDot(a: real, b: real, p1: real, p2: real, p3: real, q1: real, q2: real, q3: real,
                       w1: real, w2: real, w3: real, pw: real, qw: real)
    requires pw == p1 * w1 + p2 * w2 + p3 * w3 && qw == q1 * w1 + q2 * w2 + q3 * w3
    ensures (a * p1 + b * q1) * w1 + (a * p2 + b * q2) * w2 + (a * p3 + b * q3) * w3 == a * pw + b * qw
  {
  }

  /** Dot product of a combination a P + b Q with W, expanded. */
  lemma DotOfCombination(a: real, p: Vec3, b: real, q: Vec3, w: Vec3)
    ensures Dot(Add(Scale(a, p), Scale(b, q)), w) == a * Dot(p, w) + b * Dot(q, w)
  {
    CombinationDot(a, b, p.x, p.y, p.z, q.x, q.y, q.z, w.x, w.y, w.z, Dot(p, w), Dot(q, w));
  }

  /**
   * On an orthonormal plane the coordinates are recovered by projecting the world point,
   * relative to the origin, on the two axes: `transform_to_plane` has an inverse.
   */
  lemma TransformReadBack(u: real, v: real, ctx: PlaneContext)
    requires Orthonormal(ctx)
    ensures Dot(Sub(TransformToPlane(u, v, ctx), ctx.origin), ctx.uAxis) == u
    ensures Dot(Sub(TransformToPlane(u, v, ctx), ctx.origin), ctx.vAxis) == v
  {
    var c := Add(Scale(u, ctx.uAxis), Scale(v, ctx.vAxis));
    assert Sub(TransformToPlane(u, v, ctx), ctx.origin) == c;
    DotOfCombination(u, ctx.uAxis, v, ctx.vAxis, ctx.uAxis);
    DotOfCombination(u, ctx.uAxis, v, ctx.vAxis, ctx.vAxis);
    assert Dot(ctx.vAxis, ctx.uAxis) == Dot(ctx.uAxis, ctx.vAxis);
  }

  lemma CombinationNorm(a: real, b: real, p1: real, p2: real, p3: real, q1: real, q2: real, q3: real,
                        pp: real, qq: real, pq: real)
    requires pp == p1 * p1 + p2 * p2 + p3 * p3 && qq == q1 * q1 + q2 * q2 + q3 * q3
    requires pq == p1 * q1 + p2 * q2 + p3 * q3
    ensures (a * p1 + b * q1) * (a * p1 + b * q1) + (a * p2 + b * q2) * (a * p2 + b * q2)
            + (a * p3 + b * q3) * (a * p3 + b * q3) == a * a * pp + 2.0 * a * b * pq + b * b * qq
  {
  }

  /**
   * On an orthonormal plane the squared distance between two mapped points equals the
   * squared distance between their plane coordinates.
   */
  lemma TransformPreservesDistance(u1: real, v1: real, u2: real, v2: real, ctx: PlaneContext)
    requires Orthonormal(ctx)
    ensures var d := Sub(TransformToPlane(u1, v1, ctx), TransformToPlane(u2, v2, ctx));
            Dot(d, d) == (u1 - u2) * (u1 - u2) + (v1 - v2) * (v1 - v2)
  {
    TransformDifference(u1, v1, u2, v2, ctx);
    var p, q := ctx.uAxis, ctx.vAxis;
    var a, b := u1 - u2, v1 - v2;
    CombinationNorm(a, b, p.x, p.y, p.z, q.x, q.y, q.z, Dot(p, p), Dot(q, q), Dot(p, q));
    var d := Add(Scale(a, p), Scale(b, q));
    assert Dot(d, d) == a * a * 1.0 + 2.0 * a * b * 0.0 + b * b * 1.0;
  }
}
