/**
 * Local coordinate systems and their manager: a map from title to frame plus the title of
 * the active system. A frame is built from an x direction and a second direction in the
 * xy plane (given directly, or as two points relative to the origin); it is rejected when a
 * normalisation meets a zero vector.
 */
module Coords {
  import opened Wrappers
  import opened Vectors

  /** `LocalCoordinateSystem(title, origin, x_axis, y_axis, z_axis)`. */
  datatype LocalCoordinateSystem = LocalCoordinateSystem(title: string, origin: Vec3, xAxis: Vec3, yAxis: Vec3, zAxis: Vec3)

  /** The system every manager starts with. */
  const GlobalCs := LocalCoordinateSystem("Global", Zero, Vec3(1.0, 0.0, 0.0), Vec3(0.0, 1.0, 0.0), Vec3(0.0, 0.0, 1.0))

  /** The `ValueError`s the manager raises. */
  datatype CsError =
    | DuplicateTitle(title: string)   // "A Coordinate System with the title ... already exists."
    | Degenerate                      // a normalisation met a zero vector
    | NotFound(title: string)         // unknown title for set_active / rename_cs

  /** The three axes of a new frame. */
  datatype Axes = Axes(x: Vec3, y: Vec3, z: Vec3)

  /**
   * The frame of `create_cs_from_vectors`: x = normalize(x_dir), z = normalize(x * y_dir),
   * y = normalize(z * x); None when any normalisation fails. The x axis points along `x_dir`.
   */
  function AxesFromVectors(xDir: Vec3, yDir: Vec3, sqrt: real -> real): (r: Option<Axes>)
    ensures r.Some? ==> Scale(Magnitude(xDir, sqrt), r.value.x) == xDir
  {
    match Normalize(xDir, sqrt)
    case None => None
    case Some(x) =>
      match Normalize(Cross(x, yDir), sqrt)
      case None => None
      case Some(z) =>
        match Normalize(Cross(z, x), sqrt)
        case None => None
        case Some(y) => Some(Axes(x, y, z))
  }

  /** The frame of `create_cs_from_3_points`: the directions from the origin to the two points. */
  function AxesFromThreePoints(origin: Vec3, pointOnX: Vec3, pointInXy: Vec3, sqrt: real -> real): Option<Axes> {
    AxesFromVectors(Sub(pointOnX, origin), Sub(pointInXy, origin), sqrt)
  }

  /** `rename_cs` on the map: the entry leaves `oldTitle` and is stored under `newTitle` with that title. */
  function MoveEntry(systems: map<string, LocalCoordinateSystem>, oldTitle: string, newTitle: string)
    : (r: map<string, LocalCoordinateSystem>)
    requires oldTitle in systems
    ensures r.Keys == systems.Keys - {oldTitle} + {newTitle}
    ensures r[newTitle] == systems[oldTitle].(title := newTitle)
    ensures forall t :: t in r && t != newTitle ==> t in systems && r[t] == systems[t]
  {
    (systems - {oldTitle})[newTitle := systems[oldTitle].(title := newTitle)]
  }

  /** Every stored system carries its own key as its title. */
  ghost predicate TitlesMatchKeys(systems: map<string, LocalCoordinateSystem>) {
    forall t :: t in systems ==> systems[t].title == t
  }

  class CoordinateSystemManager {
    var systems: map<string, LocalCoordinateSystem>
    var activeCsTitle: string

    ghost predicate Valid()
      reads this
    {
      TitlesMatchKeys(systems)
    }

    /** A new manager holds only the Global system, which is active. */
    constructor()
      ensures Valid()
      ensures systems == map["Global" := GlobalCs] && activeCsTitle == "Global"
    {
      systems := map["Global" := GlobalCs];
      activeCsTitle := "Global";
    }

    /** `get_cs(title)`: the stored system, or None. */
    method GetCs(title: string) returns (r: Option<LocalCoordinateSystem>)
      ensures r.Some? <==> title in systems
      ensures r.Some? ==> r.value == systems[title]
    {
      if title in systems {
        r := Some(systems[title]);
      } else {
        r := None;
      }
    }

    /**
     * `create_cs_from_vectors`: a duplicate title is rejected first; then a degenerate frame;
     * otherwise the new system is stored under its title. Rejections leave the map as it was.
     */
    method CreateCsFromVectors(title: string, origin: Vec3, xDir: Vec3, yDir: Vec3, sqrt: real -> real)
      returns (r: Result<LocalCoordinateSystem, CsError>)
      requires Valid()
      modifies this
      ensures Valid() && activeCsTitle == old(activeCsTitle)
      ensures title in old(systems) ==> r == Err(DuplicateTitle(title)) && systems == old(systems)
      ensures title !in old(systems) && AxesFromVectors(xDir, yDir, sqrt).None? ==>
                r == Err(Degenerate) && systems == old(systems)
      ensures title !in old(systems) && AxesFromVectors(xDir, yDir, sqrt).Some? ==>
                var a := AxesFromVectors(xDir, yDir, sqrt).value;
                r == Ok(LocalCoordinateSystem(title, origin, a.x, a.y, a.z))
                && systems == old(systems)[title := r.value]
    {
      if title in systems {
        return Err(DuplicateTitle(title));
      }
      var x := Normalize(xDir, sqrt);
      if x.None? {
        return Err(Degenerate);
      }
      var z := Normalize(Cross(x.value, yDir), sqrt);
      if z.None? {
        return Err(Degenerate);
      }
      var y := Normalize(Cross(z.value, x.value), sqrt);
      if y.None? {
        return Err(Degenerate);
      }
      var cs := LocalCoordinateSystem(title, origin, x.value, y.value, z.value);
      systems := systems[title := cs];
      r := Ok(cs);
    }

    /** `create_cs_from_3_points`: as from vectors, with the directions from the origin to the two points. */
    method CreateCsFrom3Points(title: string, origin: Vec3, pointOnX: Vec3, pointInXy: Vec3, sqrt: real -> real)
      returns (r: Result<LocalCoordinateSystem, CsError>)
      requires Valid()
      modifies this
      ensures Valid() && activeCsTitle == old(activeCsTitle)
      ensures title in old(systems) ==> r == Err(DuplicateTitle(title)) && systems == old(systems)
      ensures title !in old(systems) && AxesFromThreePoints(origin, pointOnX, pointInXy, sqrt).None? ==>
                r == Err(Degenerate) && systems == old(systems)
      ensures title !in old(systems) && AxesFromThreePoints(origin, pointOnX, pointInXy, sqrt).Some? ==>
                var a := AxesFromThreePoints(origin, pointOnX, pointInXy, sqrt).value;
                r == Ok(LocalCoordinateSystem(title, origin, a.x, a.y, a.z))
                && systems == old(systems)[title := r.value]
    {
      if title in systems {
        return Err(DuplicateTitle(title));
      }
      var x := Normalize(Sub(pointOnX, origin), sqrt);
      if x.None? {
        return Err(Degenerate);
      }
      var temp := Sub(pointInXy, origin);
      var z := Normalize(Cross(x.value, temp), sqrt);
      if z.None? {
        return Err(Degenerate);
      }
      var y := Normalize(Cross(z.value, x.value), sqrt);
      if y.None? {
        return Err(Degenerate);
      }
      var cs := LocalCoordinateSystem(title, origin, x.value, y.value, z.value);
      systems := systems[title := cs];
      r := Ok(cs);
    }

    /** `set_active(title)`: an unknown title is rejected and the active title kept. */
    method SetActive(title: string) returns (r: Result<(), CsError>)
      modifies this
      ensures systems == old(systems)
      ensures title in systems ==> r == Ok(()) && activeCsTitle == title
      ensures title !in systems ==> r == Err(NotFound(title)) && activeCsTitle == old(activeCsTitle)
    {
      if title !in systems {
        return Err(NotFound(title));
      }
      activeCsTitle := title;
      r := Ok(());
    }

    /**
     * `delete_cs(title)`: reports whether the title was present and removes it. Neither the
     * Global system nor the active one is protected, and the active title is never changed.
     */
    method DeleteCs(title: string) returns (deleted: bool)
      requires Valid()
      modifies this
      ensures Valid()
      ensures deleted <==> title in old(systems)
      ensures systems == old(systems) - {title} && activeCsTitle == old(activeCsTitle)
    {
      if title in systems {
        systems := systems - {title};
        return true;
      }
      return false;
    }

    /**
     * `rename_cs(old, new)`: an existing new title is rejected first (so renaming a system to
     * its own title fails), then a missing old title; otherwise the entry moves, takes the new
     * title, and the active title follows it.
     */
    method RenameCs(oldTitle: string, newTitle: string) returns (r: Result<(), CsError>)
      requires Valid()
      modifies this
      ensures Valid()
      ensures newTitle in old(systems) ==>
                r == Err(DuplicateTitle(newTitle)) && systems == old(systems) && activeCsTitle == old(activeCsTitle)
      ensures newTitle !in old(systems) && oldTitle !in old(systems) ==>
                r == Err(NotFound(oldTitle)) && systems == old(systems) && activeCsTitle == old(activeCsTitle)
      ensures newTitle !in old(systems) && oldTitle in old(systems) ==>
                r == Ok(()) && systems == MoveEntry(old(systems), oldTitle, newTitle)
                && activeCsTitle == (if old(activeCsTitle) == oldTitle then newTitle else old(activeCsTitle))
    {
      if newTitle in systems {
        return Err(DuplicateTitle(newTitle));
      }
      if oldTitle !in systems {
        return Err(NotFound(oldTitle));
      }
      var cs := systems[oldTitle];
      systems := systems - {oldTitle};
      cs := cs.(title := newTitle);
      systems := systems[newTitle := cs];
      if activeCsTitle == oldTitle {
        activeCsTitle := newTitle;
      }
      r := Ok(());
    }

    /** `reset()`: back to the state of a new manager. */
    method Reset()
      modifies this
      ensures Valid()
      ensures systems == map["Global" := GlobalCs] && activeCsTitle == "Global"
    {
      systems := map["Global" := GlobalCs];
      activeCsTitle := "Global";
    }
  }

  // ---------------------------------------------------------------------------
  // Properties

  /** A rename followed by the reverse rename restores the map. */
  lemma MoveEntryRoundTrip(systems: map<string, LocalCoordinateSystem>, oldTitle: string, newTitle: string)
    requires TitlesMatchKeys(systems) && oldTitle in systems && newTitle !in systems
    ensures MoveEntry(MoveEntry(systems, oldTitle, newTitle), newTitle, oldTitle) == systems
  {
    var back := MoveEntry(MoveEntry(systems, oldTitle, newTitle), newTitle, oldTitle);
    assert back.Keys == systems.Keys;
    forall t | t in systems
      ensures back[t] == systems[t]
    {
    }
  }

  /** A rename keeps every stored system's title equal to its key. */
  lemma MoveEntryKeepsTitles(systems: map<string, LocalCoordinateSystem>, oldTitle: string, newTitle: string)
    requires TitlesMatchKeys(systems) && oldTitle in systems
    ensures TitlesMatchKeys(MoveEntry(systems, oldTitle, newTitle))
  {
  }

  /** Whatever `sqrt` returns, the three axes of a frame are pairwise perpendicular. */
  lemma AxesArePerpendicular(xDir: Vec3, yDir: Vec3, sqrt: real -> real)
    requires AxesFromVectors(xDir, yDir, sqrt).Some?
    ensures var a := AxesFromVectors(xDir, yDir, sqrt).value;
            Dot(a.x, a.y) == 0.0 && Dot(a.y, a.z) == 0.0 && Dot(a.z, a.x) == 0.0
  {
    var x := Normalize(xDir, sqrt).value;
    var c1 := Cross(x, yDir);
    var z := Normalize(c1, sqrt).value;
    var c2 := Cross(z, x);
    var y := Normalize(c2, sqrt).value;
    CrossIsPerpendicular(x, yDir);
    CrossIsPerpendicular(z, x);
    NormalizeKeepsPerpendicular(c1, x, sqrt);
    assert Dot(x, c1) == 0.0;
    assert Dot(c1, x) == Dot(x, c1);
    assert Dot(z, x) == 0.0;
    NormalizeKeepsPerpendicular(c2, x, sqrt);
    NormalizeKeepsPerpendicular(c2, z, sqrt);
    assert Dot(c2, x) == Dot(x, c2) && Dot(c2, z) == Dot(z, c2);
    assert Dot(x, y) == Dot(y, x);
  }

  lemma SqrtOfOne(sqrt: real -> real)
    requires IsSqrt(sqrt)
    ensures sqrt(1.0) == 1.0
  {
    var s := sqrt(1.0);
    assert s * s == 1.0 && s >= 0.0;
    assert (s - 1.0) * (s + 1.0) == 0.0;
    ZeroProduct(s - 1.0, s + 1.0);
  }

  /** The cross product of two perpendicular unit vectors is a unit vector; normalising it changes nothing. */
  lemma NormalizeCrossOfUnits(a: Vec3, b: Vec3, sqrt: real -> real)
    requires IsSqrt(sqrt)
    requires Dot(a, a) == 1.0 && Dot(b, b) == 1.0 && Dot(a, b) == 0.0
    ensures Normalize(Cross(a, b), sqrt) == Some(Cross(a, b))
  {
    Lagrange(a, b);
    SqrtOfOne(sqrt);
    var c := Cross(a, b);
    assert Dot(c, c) == 1.0;
    assert Magnitude(c, sqrt) == 1.0;
  }

  /** With a true square root every axis of a frame has unit length. */
  lemma AxesAreUnit(xDir: Vec3, yDir: Vec3, sqrt: real -> real)
    requires IsSqrt(sqrt) && AxesFromVectors(xDir, yDir, sqrt).Some?
    ensures var a := AxesFromVectors(xDir, yDir, sqrt).value;
            Dot(a.x, a.x) == 1.0 && Dot(a.y, a.y) == 1.0 && Dot(a.z, a.z) == 1.0
  {
    var x := Normalize(xDir, sqrt).value;
    var c1 := Cross(x, yDir);
    var z := Normalize(c1, sqrt).value;
    NormalizeIsUnit(xDir, sqrt);
    NormalizeIsUnit(c1, sqrt);
    NormalizeIsUnit(Cross(z, x), sqrt);
  }

  /** With a true square root the frame is right-handed: x * y = z. */
  lemma AxesAreRightHanded(xDir: Vec3, yDir: Vec3, sqrt: real -> real)
    requires IsSqrt(sqrt) && AxesFromVectors(xDir, yDir, sqrt).Some?
    ensures var a := AxesFromVectors(xDir, yDir, sqrt).value;
            Cross(a.x, a.y) == a.z
  {
    var a := AxesFromVectors(xDir, yDir, sqrt).value;
    AxesAreUnit(xDir, yDir, sqrt);
    AxesArePerpendicular(xDir, yDir, sqrt);
    var x, z := a.x, a.z;
    assert Dot(z, x) == 0.0;
    NormalizeCrossOfUnits(z, x, sqrt);
    assert a.y == Cross(z, x);
    TripleCross(x, z, x);
    assert Dot(x, z) == 0.0;
    assert Scale(Dot(x, x), z) == z;
  }

  lemma CrossScaleLeft(m: real, a: Vec3, b: Vec3)
    ensures Cross(Scale(m, a), b) == Scale(m, Cross(a, b))
  {
    CrossScaleLeftX(m, a, b);
    CrossScaleLeftY(m, a, b);
    CrossScaleLeftZ(m, a, b);
    SameComponents(Cross(Scale(m, a), b), Scale(m, Cross(a, b)));
  }

  lemma CrossScaleLeftX(m: real, a: Vec3, b: Vec3)
    ensures Cross(Scale(m, a), b).x == Scale(m, Cross(a, b)).x
  {
    var sa, c := Scale(m, a), Cross(a, b);
    ScaledDifference(m, a.y, b.z, a.z, b.y, sa.y, sa.z, c.x, Cross(sa, b).x, Scale(m, c).x);
  }

  lemma CrossScaleLeftY(m: real, a: Vec3, b: Vec3)
    ensures Cross(Scale(m, a), b).y == Scale(m, Cross(a, b)).y
  {
    var sa, c := Scale(m, a), Cross(a, b);
    ScaledDifference(m, a.z, b.x, a.x, b.z, sa.z, sa.x, c.y, Cross(sa, b).y, Scale(m, c).y);
  }

  lemma CrossScaleLeftZ(m: real, a: Vec3, b: Vec3)
    ensures Cross(Scale(m, a), b).z == Scale(m, Cross(a, b)).z
  {
    var sa, c := Scale(m, a), Cross(a, b);
    ScaledDifference(m, a.x, b.y, a.y, b.x, sa.x, sa.y, c.z, Cross(sa, b).z, Scale(m, c).z);
  }

  lemma ScaledDifference(m: real, p: real, q: real, u: real, v: real,
                         mp: real, mu: real, d: real, lhs: real, rhs: real)
    requires mp == m * p && mu == m * u && d == p * q - u * v
    requires lhs == mp * q - mu * v && rhs == m * d
    ensures lhs == rhs
  {
  }

  lemma SameComponents(l: Vec3, r: Vec3)
    requires l.x == r.x && l.y == r.y && l.z == r.z
    ensures l == r
  {
  }

  lemma ScaleIsZero(m: real, v: Vec3)
    requires m != 0.0
    ensures Scale(m, v) == Zero <==> v == Zero
  {
    if Scale(m, v) == Zero {
      ZeroProduct(m, v.x);
      ZeroProduct(m, v.y);
      ZeroProduct(m, v.z);
    }
  }

  /**
   * With a true square root, a frame is rejected exactly when the x direction is zero or
   * parallel to the second direction (their cross product is zero).
   */
  lemma AxesFailIffDegenerate(xDir: Vec3, yDir: Vec3, sqrt: real -> real)
    requires IsSqrt(sqrt)
    ensures AxesFromVectors(xDir, yDir, sqrt).None? <==> xDir == Zero || Cross(xDir, yDir) == Zero
  {
    NormalizeFailsOnlyOnZero(xDir, sqrt);
    if xDir != Zero {
      var m := Magnitude(xDir, sqrt);
      var x := Normalize(xDir, sqrt).value;
      assert Scale(m, x) == xDir && m != 0.0;
      CrossScaleLeft(m, x, yDir);
      ScaleIsZero(m, Cross(x, yDir));
      NormalizeFailsOnlyOnZero(Cross(x, yDir), sqrt);
      if Cross(x, yDir) != Zero {
        var z := Normalize(Cross(x, yDir), sqrt).value;
        NormalizeIsUnit(xDir, sqrt);
        NormalizeIsUnit(Cross(x, yDir), sqrt);
        CrossIsPerpendicular(x, yDir);
        NormalizeKeepsPerpendicular(Cross(x, yDir), x, sqrt);
        assert Dot(Cross(x, yDir), x) == Dot(x, Cross(x, yDir));
        NormalizeCrossOfUnits(z, x, sqrt);
      }
    }
  }

  /**
   * With a true square root, three points give no frame exactly when the point on x is the
   * origin or the three points are collinear.
   */
  lemma ThreePointsFailIffCollinear(origin: Vec3, pointOnX: Vec3, pointInXy: Vec3, sqrt: real -> real)
    requires IsSqrt(sqrt)
    ensures AxesFromThreePoints(origin, pointOnX, pointInXy, sqrt).None?
            <==> pointOnX == origin || Cross(Sub(pointOnX, origin), Sub(pointInXy, origin)) == Zero
  {
    AxesFailIffDegenerate(Sub(pointOnX, origin), Sub(pointInXy, origin), sqrt);
    SubIsZero(pointOnX, origin);
  }

  lemma SubIsZero(a: Vec3, b: Vec3)
    ensures Sub(a, b) == Zero <==> a == b
  {
    if Sub(a, b) == Zero {
      assert a.x == b.x && a.y == b.y && a.z == b.z;
    }
  }
}
