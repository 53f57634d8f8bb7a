/**
 * The primitive factory: mesh records (points, cells, topology) for points, lines,
 * triangles, circles, squares, cubes and the origin marker, each placed on a working
 * plane by the plane mapping. `math.cos` and `math.sin` are parameters.
 */
module Factory {
  import opened Wrappers
  import opened Vectors
  import opened PlaneHelpers

  /** The `'type'` entry of a mesh record. */
  datatype Topology = Verts | Lines | Polys

  /** A mesh record: `'points'`, `'cells'` (lists of point indices) and `'type'`. */
  datatype Mesh = Mesh(points: seq<Vec3>, cells: seq<seq<nat>>, topology: Topology)

  /** Every cell index names one of the mesh's points. */
  predicate WellFormed(m: Mesh) {
    forall c, k :: 0 <= c < |m.cells| && 0 <= k < |m.cells[c]| ==> m.cells[c][k] < |m.points|
  }

  /** An RGB colour triple. */
  datatype Rgb = Rgb(r: real, g: real, b: real)

  /** A mesh record carrying a `'color'` entry. */
  datatype ColoredMesh = ColoredMesh(mesh: Mesh, color: Rgb)

  /** The error `create_circle` raises: `2.0 * pi * i / segments` with `segments == 0`. */
  datatype FactoryError = ZeroDivision

  /** `math.pi`. */
  const Pi := 3.141592653589793

  /** `list(range(n))`. */
  function Range(n: nat): (r: seq<nat>)
    ensures |r| == n && forall k :: 0 <= k < n ==> r[k] == k
  {
    seq(n, k requires 0 <= k => k as nat)
  }

  /** `create_point(u, v, ctx)`: one vertex cell holding the plane image of (u, v). */
  function CreatePoint(u: real, v: real, ctx: PlaneContext): (m: Mesh)
    ensures WellFormed(m) && m.topology == Verts
    ensures |m.points| == 1 && m.cells == [[0]]
  {
    Mesh([TransformToPlane(u, v, ctx)], [[0]], Verts)
  }

  /** `create_line(u1, v1, u2, v2, ctx)`: one two-point line cell. */
  function CreateLine(u1: real, v1: real, u2: real, v2: real, ctx: PlaneContext): (m: Mesh)
    ensures WellFormed(m) && m.topology == Lines
    ensures |m.points| == 2 && m.cells == [[0, 1]]
  {
    Mesh([TransformToPlane(u1, v1, ctx), TransformToPlane(u2, v2, ctx)], [[0, 1]], Lines)
  }

  /** `create_triangle(u1, v1, u2, v2, u3, v3, ctx)`: one polygon over three points in input order. */
  function CreateTriangle(u1: real, v1: real, u2: real, v2: real, u3: real, v3: real, ctx: PlaneContext): (m: Mesh)
    ensures WellFormed(m) && m.topology == Polys
    ensures |m.points| == 3 && m.cells == [[0, 1, 2]]
  {
    Mesh([TransformToPlane(u1, v1, ctx), TransformToPlane(u2, v2, ctx), TransformToPlane(u3, v3, ctx)],
         [[0, 1, 2]], Polys)
  }

  // ---------------------------------------------------------------------------
  // Circle

  /** The number of iterations of `range(segments + 1)`. */
  function Steps(segments: int): nat {
    if segments + 1 > 0 then segments + 1 else 0
  }

  /** `2.0 * math.pi * i / segments`. */
  function Angle(i: int, segments: int): real
    requires segments != 0
  {
    2.0 * Pi * (i as real) / (segments as real)
  }

  /** Point `i` of the circle: the plane image of (cu + r cos a, cv + r sin a). */
  function CirclePoint(cu: real, cv: real, r: real, ctx: PlaneContext, segments: int, i: int,
                       cos: real -> real, sin: real -> real): Vec3
    requires segments != 0
  {
    var a := Angle(i, segments);
    TransformToPlane(cu + r * cos(a), cv + r * sin(a), ctx)
  }

  /**
   * The mesh `create_circle` returns: it fails exactly when `segments` is 0; otherwise it
   * has `segments + 1` points (none for a negative count) and one line strip visiting each
   * point once, in order.
   */
  function CircleMesh(cu: real, cv: real, r: real, ctx: PlaneContext, segments: int,
                      cos: real -> real, sin: real -> real): (res: Result<Mesh, FactoryError>)
    ensures res.Err? <==> segments == 0
    ensures res.Ok? ==> WellFormed(res.value) && res.value.topology == Lines
                        && |res.value.points| == Steps(segments) && |res.value.cells| == 1
                        && |res.value.cells[0]| == |res.value.points|
                        && forall k :: 0 <= k < |res.value.points| ==> res.value.cells[0][k] == k
  {
    if segments == 0 then Err(ZeroDivision)
    else
      var n := Steps(segments);
      Ok(Mesh(seq(n, i requires 0 <= i < n => CirclePoint(cu, cv, r, ctx, segments, i, cos, sin)),
              [Range(n)], Lines))
  }

  /** `create_circle(cu, cv, r, ctx, segments)`: the point list is built one angle at a time. */
  method CreateCircle(cu: real, cv: real, r: real, ctx: PlaneContext, segments: int,
                      cos: real -> real, sin: real -> real) returns (res: Result<Mesh, FactoryError>)
    ensures res == CircleMesh(cu, cv, r, ctx, segments, cos, sin)
  {
    var points: seq<Vec3> := [];
    var i := 0;
    while i < segments + 1
      invariant 0 <= i <= Steps(segments)
      invariant segments == 0 ==> i == 0
      invariant |points| == i
      invariant segments != 0 ==>
                  forall k :: 0 <= k < i ==> points[k] == CirclePoint(cu, cv, r, ctx, segments, k, cos, sin)
    {
      if segments == 0 {
        return Err(ZeroDivision);
      }
      var angle := 2.0 * Pi * (i as real) / (segments as real);
      var u := cu + r * cos(angle);
      var v := cv + r * sin(angle);
      points := points + [TransformToPlane(u, v, ctx)];
      i := i + 1;
    }
    var n := Steps(segments);
    assert i == n;
    assert points == seq(n, k requires 0 <= k < n => CirclePoint(cu, cv, r, ctx, segments, k, cos, sin));
    res := Ok(Mesh(points, [Range(n)], Lines));
  }

  // ---------------------------------------------------------------------------
  // Square and cube

  /** The four in-plane corners of `create_cuboid`, counter-clockwise from (-d, -d). */
  function SquareCorners(d: real): seq<(real, real)> {
    [(-d, -d), (d, -d), (d, d), (-d, d)]
  }

  /** `create_cuboid(size, ctx)`: a closed line loop around the square of half-side `size`. */
  function CreateCuboid(size: real, ctx: PlaneContext): (m: Mesh)
    ensures WellFormed(m) && m.topology == Lines && |m.points| == 4
    ensures |m.cells| == 1 && |m.cells[0]| == 5 && m.cells[0][0] == m.cells[0][4]
    ensures m.cells == [[0, 1, 2, 3, 0]]
  {
    var c := SquareCorners(size);
    Mesh(seq(4, k requires 0 <= k < 4 => TransformToPlane(c[k].0, c[k].1, ctx)), [[0, 1, 2, 3, 0]], Lines)
  }

  /** The eight local corners of `create_cube_data`: the bottom face, then the top face. */
  function CubeCorners(d: real): seq<Vec3> {
    [Vec3(-d, -d, -d), Vec3(d, -d, -d), Vec3(d, d, -d), Vec3(-d, d, -d),
     Vec3(-d, -d, d), Vec3(d, -d, d), Vec3(d, d, d), Vec3(-d, d, d)]
  }

  /** The six quadrilateral faces of the cube. */
  const CubeFaces: seq<seq<nat>> := [[0, 1, 2, 3], [4, 5, 6, 7], [0, 1, 5, 4], [2, 3, 7, 6], [0, 3, 7, 4], [1, 2, 6, 5]]

  /** The plane's normal axis `u_axis x v_axis`. */
  function NormalAxis(ctx: PlaneContext): Vec3 {
    Cross(ctx.uAxis, ctx.vAxis)
  }

  /** a U + b V + c W for the local point p = (a, b, c). */
  function Combination(p: Vec3, u: Vec3, v: Vec3, w: Vec3): Vec3 {
    Add(Add(Scale(p.x, u), Scale(p.y, v)), Scale(p.z, w))
  }

  /** A local point (a, b, c) placed in the plane's frame: origin + a U + b V + c (U x V). */
  function PlaceInFrame(p: Vec3, ctx: PlaneContext): Vec3 {
    Add(ctx.origin, Combination(p, ctx.uAxis, ctx.vAxis, NormalAxis(ctx)))
  }

  /** `create_cube_data(side, ctx)`: eight corners and six four-sided polygons. */
  function CreateCubeData(side: real, ctx: PlaneContext): (m: Mesh)
    ensures WellFormed(m) && m.topology == Polys && |m.points| == 8
    ensures |m.cells| == 6 && forall c :: 0 <= c < 6 ==> |m.cells[c]| == 4
  {
    var c := CubeCorners(side);
    Mesh(seq(8, k requires 0 <= k < 8 => PlaceInFrame(c[k], ctx)), CubeFaces, Polys)
  }

  // ---------------------------------------------------------------------------
  // Origin marker

  /** The unit vector along global axis k (X, Y, Z), which is also the marker colour of that axis. */
  function UnitAxis(k: nat): Vec3
    requires k < 3
  {
    if k == 0 then Vec3(1.0, 0.0, 0.0) else if k == 1 then Vec3(0.0, 1.0, 0.0) else Vec3(0.0, 0.0, 1.0)
  }

  /** `create_origin_marker(size)`: three two-point lines from the origin, red X, green Y, blue Z. */
  function CreateOriginMarker(size: real): (ms: seq<ColoredMesh>)
    ensures |ms| == 3
    ensures forall k :: 0 <= k < 3 ==>
              WellFormed(ms[k].mesh) && ms[k].mesh.topology == Lines
              && |ms[k].mesh.points| == 2 && ms[k].mesh.cells == [[0, 1]]
  {
    [ColoredMesh(Mesh([Zero, Vec3(size, 0.0, 0.0)], [[0, 1]], Lines), Rgb(1.0, 0.0, 0.0)),
     ColoredMesh(Mesh([Zero, Vec3(0.0, size, 0.0)], [[0, 1]], Lines), Rgb(0.0, 1.0, 0.0)),
     ColoredMesh(Mesh([Zero, Vec3(0.0, 0.0, size)], [[0, 1]], Lines), Rgb(0.0, 0.0, 1.0))]
  }

  // ---------------------------------------------------------------------------
  // Properties

  /** On an orthonormal plane, the point record reads back as the plane coordinates it was made from. */
  lemma PointReadsBack(u: real, v: real, ctx: PlaneContext)
    requires Orthonormal(ctx)
    ensures var p := CreatePoint(u, v, ctx).points[0];
            Dot(Sub(p, ctx.origin), ctx.uAxis) == u && Dot(Sub(p, ctx.origin), ctx.vAxis) == v
  {
    TransformReadBack(u, v, ctx);
  }

  /** On an orthonormal plane, a line record is as long as its segment in plane coordinates. */
  lemma LineLength(u1: real, v1: real, u2: real, v2: real, ctx: PlaneContext)
    requires Orthonormal(ctx)
    ensures var m := CreateLine(u1, v1, u2, v2, ctx);
            var d := Sub(m.points[0], m.points[1]);
            Dot(d, d) == (u1 - u2) * (u1 - u2) + (v1 - v2) * (v1 - v2)
  {
    TransformPreservesDistance(u1, v1, u2, v2, ctx);
  }

  /** The line (1, 2)-(3, 4) on the global XY plane runs from (1, 2, 0) to (3, 4, 0). */
  lemma LineOnXY()
    ensures CreateLine(1.0, 2.0, 3.0, 4.0, XYPlane).points == [Vec3(1.0, 2.0, 0.0), Vec3(3.0, 4.0, 0.0)]
  {
    TransformOnXY(1.0, 2.0);
    TransformOnXY(3.0, 4.0);
  }

  /** On an orthonormal plane, each triangle vertex reads back as its plane coordinates, in input order. */
  lemma TriangleReadsBack(u1: real, v1: real, u2: real, v2: real, u3: real, v3: real, ctx: PlaneContext)
    requires Orthonormal(ctx)
    ensures var m := CreateTriangle(u1, v1, u2, v2, u3, v3, ctx);
            var us, vs := [u1, u2, u3], [v1, v2, v3];
            forall k :: 0 <= k < 3 ==>
              Dot(Sub(m.points[k], ctx.origin), ctx.uAxis) == us[k]
              && Dot(Sub(m.points[k], ctx.origin), ctx.vAxis) == vs[k]
  {
    TransformReadBack(u1, v1, ctx);
    TransformReadBack(u2, v2, ctx);
    TransformReadBack(u3, v3, ctx);
  }

  lemma FullTurn(s: real)
    requires s != 0.0
    ensures 2.0 * Pi * s / s == 2.0 * Pi
  {
  }

  /**
   * With periodic `cos` and `sin` (same value at 0 and at 2 pi) and at least one segment,
   * the last point of the circle is its first: the line strip is closed.
   */
  lemma CircleCloses(cu: real, cv: real, r: real, ctx: PlaneContext, segments: int,
                     cos: real -> real, sin: real -> real)
    requires segments > 0
    requires cos(2.0 * Pi) == cos(0.0) && sin(2.0 * Pi) == sin(0.0)
    ensures var m := CircleMesh(cu, cv, r, ctx, segments, cos, sin).value;
            m.points[segments] == m.points[0]
  {
    FullTurn(segments as real);
    assert Angle(segments, segments) == 2.0 * Pi;
    assert Angle(0, segments) == 0.0;
  }

  lemma PolarRadius(du: real, dv: real, r: real, c: real, s: real)
    requires du == r * c && dv == r * s && c * c + s * s == 1.0
    ensures du * du + dv * dv == r * r
  {
    assert du * du + dv * dv == r * r * (c * c + s * s);
  }

  /** Point `i` of the circle mesh is the plane image of the point at angle `i` around (cu, cv). */
  lemma CirclePointAt(cu: real, cv: real, r: real, ctx: PlaneContext, segments: int,
                      cos: real -> real, sin: real -> real, i: nat)
    requires segments != 0 && i < Steps(segments)
    ensures var a := Angle(i, segments);
            CircleMesh(cu, cv, r, ctx, segments, cos, sin).value.points[i]
            == TransformToPlane(cu + r * cos(a), cv + r * sin(a), ctx)
  {
  }

  /** On an orthonormal plane, a point at polar offset (r cos, r sin) from the centre lies at distance r. */
  lemma PolarDistance(p: Vec3, cu: real, cv: real, r: real, ctx: PlaneContext, c: real, s: real)
    requires Orthonormal(ctx) && c * c + s * s == 1.0
    requires p == TransformToPlane(cu + r * c, cv + r * s, ctx)
    ensures Dot(Sub(p, TransformToPlane(cu, cv, ctx)), Sub(p, TransformToPlane(cu, cv, ctx))) == r * r
  {
    var u, v := cu + r * c, cv + r * s;
    TransformPreservesDistance(u, v, cu, cv, ctx);
    PolarRadius(u - cu, v - cv, r, c, s);
  }

  /**
   * With `cos^2 + sin^2 = 1` and an orthonormal plane, every point of the circle lies at
   * squared distance r^2 from the image of the centre (cu, cv).
   */
  lemma CirclePointsOnCircle(cu: real, cv: real, r: real, ctx: PlaneContext, segments: int,
                             cos: real -> real, sin: real -> real, i: nat)
    requires Orthonormal(ctx) && segments != 0 && i < Steps(segments)
    requires forall a {:trigger cos(a)} :: cos(a) * cos(a) + sin(a) * sin(a) == 1.0
    ensures var m := CircleMesh(cu, cv, r, ctx, segments, cos, sin).value;
            var d := Sub(m.points[i], TransformToPlane(cu, cv, ctx));
            Dot(d, d) == r * r
  {
    var a := Angle(i, segments);
    var c, s := cos(a), sin(a);
    assert c * c + s * s == 1.0;
    CirclePointAt(cu, cv, r, ctx, segments, cos, sin, i);
    var p := CircleMesh(cu, cv, r, ctx, segments, cos, sin).value.points[i];
    PolarDistance(p, cu, cv, r, ctx, c, s);
  }

  lemma SideLength(a1: real, b1: real, a2: real, b2: real, d: real)
    requires (a1 == a2 && (b1 - b2 == 2.0 * d || b2 - b1 == 2.0 * d))
             || (b1 == b2 && (a1 - a2 == 2.0 * d || a2 - a1 == 2.0 * d))
    ensures (a1 - a2) * (a1 - a2) + (b1 - b2) * (b1 - b2) == 4.0 * d * d
  {
  }

  /**
   * On an orthonormal plane, the loop of `create_cuboid` is a square: each of its four
   * sides has squared length (2 size)^2.
   */
  lemma CuboidIsSquare(size: real, ctx: PlaneContext, k: nat)
    requires Orthonormal(ctx) && k < 4
    ensures var m := CreateCuboid(size, ctx);
            var d := Sub(m.points[m.cells[0][k]], m.points[m.cells[0][k + 1]]);
            Dot(d, d) == 4.0 * size * size
  {
    var m := CreateCuboid(size, ctx);
    var c := SquareCorners(size);
    var j := if k == 3 then 0 else k + 1;
    assert m.cells[0][k] == k && m.cells[0][k + 1] == j;
    var a1, b1, a2, b2 := c[k].0, c[k].1, c[j].0, c[j].1;
    assert m.points[k] == TransformToPlane(a1, b1, ctx);
    assert m.points[j] == TransformToPlane(a2, b2, ctx);
    TransformPreservesDistance(a1, b1, a2, b2, ctx);
    SideLength(a1, b1, a2, b2, size);
  }

  /** On the global XY plane the square's corners are (+-size, +-size, 0). */
  lemma CuboidOnXY(size: real)
    ensures CreateCuboid(size, XYPlane).points
            == [Vec3(-size, -size, 0.0), Vec3(size, -size, 0.0), Vec3(size, size, 0.0), Vec3(-size, size, 0.0)]
  {
    var c := SquareCorners(size);
    forall k | 0 <= k < 4 {
      TransformOnXY(c[k].0, c[k].1);
    }
  }

  /** On an orthonormal plane, the cube's third axis U x V is a unit vector perpendicular to U and V. */
  lemma NormalAxisIsUnit(ctx: PlaneContext)
    requires Orthonormal(ctx)
    ensures var w := NormalAxis(ctx);
            Dot(w, w) == 1.0 && Dot(ctx.uAxis, w) == 0.0 && Dot(ctx.vAxis, w) == 0.0
  {
    Lagrange(ctx.uAxis, ctx.vAxis);
  }

  /** Opposite corners of the local cube: each index paired with its mirror through the centre. */
  function Opposite(k: nat): nat
    requires k < 8
  {
    [6, 7, 4, 5, 2, 3, 0, 1][k]
  }

  /** The cube is centred on the plane origin: every corner and its opposite corner average to it. */
  lemma CubeIsCentred(side: real, ctx: PlaneContext, k: nat)
    requires k < 8
    ensures var m := CreateCubeData(side, ctx);
            Add(m.points[k], m.points[Opposite(k)]) == Scale(2.0, ctx.origin)
  {
    var c := CubeCorners(side);
    var m := CreateCubeData(side, ctx);
    var p := c[k];
    assert c[Opposite(k)] == Scale(-1.0, p);
    var u, v, w := ctx.uAxis, ctx.vAxis, NormalAxis(ctx);
    MirrorCombination(p, u, v, w);
    var a, b := Combination(p, u, v, w), Combination(Scale(-1.0, p), u, v, w);
    assert m.points[k] == Add(ctx.origin, a);
    assert m.points[Opposite(k)] == Add(ctx.origin, b);
  }

  /** Mirroring a local point through the centre negates its combination of the axes. */
  lemma MirrorCombination(p: Vec3, u: Vec3, v: Vec3, w: Vec3)
    ensures Add(Combination(p, u, v, w), Combination(Scale(-1.0, p), u, v, w)) == Zero
  {
  }

  /** On the global XY plane the cube's corners are exactly its local corners (+-side, +-side, +-side). */
  lemma CubeOnXY(side: real)
    ensures CreateCubeData(side, XYPlane).points == CubeCorners(side)
  {
    var c := CubeCorners(side);
    assert NormalAxis(XYPlane) == Vec3(0.0, 0.0, 1.0);
    forall k | 0 <= k < 8
      ensures PlaceInFrame(c[k], XYPlane) == c[k]
    {
    }
  }

  /** The number of faces that contain point index `v`. */
  function FacesContaining(faces: seq<seq<nat>>, v: nat): (n: nat)
    ensures n <= |faces|
  {
    if faces == [] then 0
    else FacesContaining(faces[..|faces| - 1], v) + (if v in faces[|faces| - 1] then 1 else 0)
  }

  /**
   * The faces of the cube close up: each of the eight corners belongs to exactly three of the
   * six faces, and every face has four distinct corners.
   */
  lemma CubeFacesAreClosed(side: real, ctx: PlaneContext)
    ensures var m := CreateCubeData(side, ctx);
            (forall v: nat :: v < 8 ==> FacesContaining(m.cells, v) == 3)
            && forall c, i, j :: 0 <= c < 6 && 0 <= i < j < 4 ==> m.cells[c][i] != m.cells[c][j]
  {
    assert CreateCubeData(side, ctx).cells == CubeFaces;
    CornersInThreeFaces();
  }

  lemma CornersInThreeFaces()
    ensures forall v: nat :: v < 8 ==> FacesContaining(CubeFaces, v) == 3
  {
    var f := CubeFaces;
    assert f[..1] == [[0, 1, 2, 3]];
    assert f[..2] == [[0, 1, 2, 3], [4, 5, 6, 7]];
    assert f[..3] == [[0, 1, 2, 3], [4, 5, 6, 7], [0, 1, 5, 4]];
    assert f[..4] == [[0, 1, 2, 3], [4, 5, 6, 7], [0, 1, 5, 4], [2, 3, 7, 6]];
    assert f[..5] == [[0, 1, 2, 3], [4, 5, 6, 7], [0, 1, 5, 4], [2, 3, 7, 6], [0, 3, 7, 4]];
    forall v: nat | v < 8
      ensures FacesContaining(f, v) == 3
    {
      var n0 := FacesContaining(f[..0], v);
      var n1 := FacesContaining(f[..1], v);
      var n2 := FacesContaining(f[..2], v);
      var n3 := FacesContaining(f[..3], v);
      var n4 := FacesContaining(f[..4], v);
      var n5 := FacesContaining(f[..5], v);
      assert f[..1][..0] == f[..0] && f[..2][..1] == f[..1] && f[..3][..2] == f[..2];
      assert f[..4][..3] == f[..3] && f[..5][..4] == f[..4] && f[..5] == f[..|f| - 1];
    }
  }

  /**
   * The origin marker: each line starts at the origin and ends `size` along its own axis,
   * coloured with that axis's unit triple (X red, Y green, Z blue); the three lines are
   * mutually perpendicular.
   */
  lemma OriginMarkerAxes(size: real)
    ensures var ms := CreateOriginMarker(size);
            (forall k :: 0 <= k < 3 ==>
               ms[k].mesh.points[0] == Zero && ms[k].mesh.points[1] == Scale(size, UnitAxis(k))
               && ms[k].color == Rgb(UnitAxis(k).x, UnitAxis(k).y, UnitAxis(k).z))
            && forall i, j :: 0 <= i < j < 3 ==> Dot(ms[i].mesh.points[1], ms[j].mesh.points[1]) == 0.0
  {
  }
}
