/**
 * The DXF reader: turns the lines of a DXF file into tags (group code, value), finds the
 * ENTITIES section, cuts it into entities at every group-code-0 tag, and converts each
 * entity's tags into a shape of a `Geometry2D`.
 * The file's lines are a parameter; opening and decoding the file are not modelled.
 */
module DxfReader {
  import opened Wrappers
  import opened Vectors
  import opened PyText
  import opened Shapes
  import opened Geometry

  /** A DXF group: an integer group code and the (stripped) value line. */
  datatype Tag = Tag(code: int, value: string)

  // ---------------------------------------------------------------------------
  // Tag stream

  /**
   * The tags `_tag_generator` yields: lines are taken two at a time and stripped; a pair whose
   * code line is not an integer is skipped; a last line without a partner ends the stream.
   */
  function Tags(lines: seq<string>): (tags: seq<Tag>)
    ensures 2 * |tags| <= |lines|
    decreases |lines|
  {
    if |lines| < 2 then []
    else
      var rest := Tags(lines[2..]);
      match ParseInt(Strip(lines[0]))
      case None => rest
      case Some(c) => [Tag(c, Strip(lines[1]))] + rest
  }

  /** `_tag_generator`, run to exhaustion. */
  method TagGenerator(lines: seq<string>) returns (tags: seq<Tag>)
    ensures tags == Tags(lines)
  {
    tags := [];
    var i := 0;
    while i + 1 < |lines|
      invariant 0 <= i <= |lines|
      invariant tags + Tags(lines[i..]) == Tags(lines)
    {
      var code := ParseInt(Strip(lines[i]));
      var valueLine := Strip(lines[i + 1]);
      TagsStep(lines, i, tags, code);
      if code.Some? {
        tags := tags + [Tag(code.value, valueLine)];
      }
      i := i + 2;
    }
  }

  /** One pair of lines read by the generator loop: a tag is emitted exactly when the code parses. */
  lemma TagsStep(lines: seq<string>, i: nat, tags: seq<Tag>, code: Option<int>)
    requires i + 1 < |lines| && code == ParseInt(Strip(lines[i]))
    ensures tags + Tags(lines[i..])
            == (if code.Some? then tags + [Tag(code.value, Strip(lines[i + 1]))] else tags) + Tags(lines[i + 2..])
  {
    assert lines[i..][2..] == lines[i + 2..];
  }

  /** The lines a writer emits for a list of tags: the code in decimal, then the value. */
  function TagLines(tags: seq<Tag>): (lines: seq<string>)
    ensures |lines| == 2 * |tags|
  {
    if |tags| == 0 then [] else [IntToString(tags[0].code), tags[0].value] + TagLines(tags[1..])
  }

  /** Reading lines whose pairs come first is reading the pairs, then the rest. */
  lemma {:induction false} TagsAppend(a: seq<string>, b: seq<string>)
    requires |a| % 2 == 0
    ensures Tags(a + b) == Tags(a) + Tags(b)
    decreases |a|
  {
    if |a| == 0 {
      assert a + b == b;
    } else {
      assert (a + b)[2..] == a[2..] + b;
      assert (a + b)[0] == a[0] && (a + b)[1] == a[1];
      TagsAppend(a[2..], b);
    }
  }

  /** A last line without a partner is ignored. */
  lemma OddTrailingLineIgnored(lines: seq<string>, last: string)
    requires |lines| % 2 == 0
    ensures Tags(lines + [last]) == Tags(lines)
  {
    TagsAppend(lines, [last]);
  }

  lemma IntToStringHasNoSpace(n: int)
    ensures forall i :: 0 <= i < |IntToString(n)| ==> !IsSpace(IntToString(n)[i])
  {
    var s := IntToString(n);
    if n < 0 {
      assert s == "-" + NatToString(-n);
    } else {
      assert s == NatToString(n);
    }
  }

  lemma CodeLineReadsBack(n: int)
    ensures ParseInt(Strip(IntToString(n))) == Some(n)
  {
    IntToStringHasNoSpace(n);
    StripKeepsSpaceFree(IntToString(n));
    ParseIntOfIntToString(n);
  }

  /** Reading back what a writer emits gives the tags, provided each value has no surrounding blanks. */
  lemma {:induction false} TagsOfTagLines(tags: seq<Tag>)
    requires forall i :: 0 <= i < |tags| ==> Strip(tags[i].value) == tags[i].value
    ensures Tags(TagLines(tags)) == tags
  {
    if |tags| > 0 {
      var lines := TagLines(tags);
      assert lines[2..] == TagLines(tags[1..]);
      CodeLineReadsBack(tags[0].code);
      TagsOfTagLines(tags[1..]);
    }
  }

  // ---------------------------------------------------------------------------
  // One entity

  /** A polyline vertex being read: its x, and its y once a code-20 tag has supplied it. */
  datatype PartialVertex = PartialVertex(x: real, y: Option<real>)

  /** The keys of `temp_coords`. */
  datatype Coord = X1 | Y1 | Z1 | X2 | Y2 | Z2 | CX | CY | CZ | X | Y | Z

  /** What `_process_entity_tags` accumulates: the entity dictionary, the coordinates, the vertices. */
  datatype Pending = Pending(entity: EntityData, coords: map<Coord, real>, points: seq<PartialVertex>)

  const Start := Pending(NoData, map[], [])

  /** Store a coordinate when the value converted to a float; otherwise the tag is skipped. */
  function SetCoord(acc: Pending, key: Coord, value: Option<real>): Pending {
    match value
    case None => acc
    case Some(f) => acc.(coords := acc.coords[key := f])
  }

  /**
   * One iteration of the tag loop for an entity of class `k`: codes 8 (layer) and 62 (colour)
   * for every class, then the codes each class reads. `asInt` and `asFloat` are `int(value)`
   * and `float(value)` (see `ReadTags`); a branch that needs a conversion that failed leaves
   * everything as it was, as the skipped `ValueError` does.
   */
  function ReadTag(k: Kind, acc: Pending, tag: Tag, asInt: Option<int>, asFloat: Option<real>): Pending {
    var c, v, e := tag.code, tag.value, acc.entity;
    if c == 8 then acc.(entity := e.(layer := Some(v)))
    else if c == 62 then
      if asInt.Some? then acc.(entity := e.(color := Some(asInt.value))) else acc
    else
      match k
      case LineKind =>
        if c == 10 then SetCoord(acc, X1, asFloat)
        else if c == 20 then SetCoord(acc, Y1, asFloat)
        else if c == 30 then SetCoord(acc, Z1, asFloat)
        else if c == 11 then SetCoord(acc, X2, asFloat)
        else if c == 21 then SetCoord(acc, Y2, asFloat)
        else if c == 31 then SetCoord(acc, Z2, asFloat)
        else acc
      case CircleKind => ReadCircleTag(false, acc, c, asFloat)
      case ArcKind => ReadCircleTag(true, acc, c, asFloat)
      case TextKind =>
        if c == 1 then acc.(entity := e.(textString := Some(v)))
        else if c == 10 then SetCoord(acc, X, asFloat)
        else if c == 20 then SetCoord(acc, Y, asFloat)
        else if c == 40 && asFloat.Some? then acc.(entity := e.(height := asFloat))
        else acc
      case LwPolylineKind =>
        if c == 70 then
          // `(int(value) & 1) != 0`: the low bit of the two's-complement value, i.e. oddness
          if asInt.Some? then acc.(entity := e.(closed := Some(asInt.value % 2 != 0))) else acc
        else if c == 10 then
          if asFloat.Some? then acc.(points := acc.points + [PartialVertex(asFloat.value, None)]) else acc
        else if c == 20 && |acc.points| > 0 && acc.points[|acc.points| - 1].y.None? && asFloat.Some? then
          var last := acc.points[|acc.points| - 1];
          acc.(points := acc.points[|acc.points| - 1 := PartialVertex(last.x, asFloat)])
        else acc
  }

  /** The codes a circle reads, and for an arc also the two angles. */
  function ReadCircleTag(isArc: bool, acc: Pending, c: int, asFloat: Option<real>): Pending {
    var e := acc.entity;
    if c == 10 then SetCoord(acc, CX, asFloat)
    else if c == 20 then SetCoord(acc, CY, asFloat)
    else if c == 30 then SetCoord(acc, CZ, asFloat)
    else if asFloat.None? then acc
    else if c == 40 then acc.(entity := e.(radius := asFloat))
    else if isArc && c == 50 then acc.(entity := e.(startAngle := asFloat))
    else if isArc && c == 51 then acc.(entity := e.(endAngle := asFloat))
    else acc
  }

  /** The tag loop over `tags`, in order. */
  function ReadTags(k: Kind, acc: Pending, tags: seq<Tag>): Pending
    decreases |tags|
  {
    if |tags| == 0 then acc
    else
      var last := tags[|tags| - 1];
      ReadTag(k, ReadTags(k, acc, tags[..|tags| - 1]), last, ParseInt(last.value), ParseFloat(last.value))
  }

  /** `temp_coords.get(key, 0)`. */
  function Get(m: map<Coord, real>, key: Coord): real {
    if key in m then m[key] else 0.0
  }

  /** The vertices that received both coordinates, in order, at height `z`. */
  function CompleteVertices(points: seq<PartialVertex>, z: real): (vs: seq<Vec3>)
    ensures |vs| <= |points|
    ensures forall i :: 0 <= i < |vs| ==> vs[i].z == z
  {
    if |points| == 0 then []
    else
      var rest := CompleteVertices(points[1..], z);
      match points[0].y
      case None => rest
      case Some(y) => [Vec3(points[0].x, y, z)] + rest
  }

  /** `_finalize_entity_geometry`: points assembled from the coordinates, missing ones 0. */
  function Finalize(k: Kind, acc: Pending): EntityData {
    var e, m := acc.entity, acc.coords;
    match k
    case LineKind =>
      e.(startPoint := Some(Vec3(Get(m, X1), Get(m, Y1), Get(m, Z1))),
         endPoint := Some(Vec3(Get(m, X2), Get(m, Y2), Get(m, Z2))))
    case CircleKind => e.(center := Some(Vec3(Get(m, CX), Get(m, CY), Get(m, CZ))))
    case ArcKind => e.(center := Some(Vec3(Get(m, CX), Get(m, CY), Get(m, CZ))))
    case TextKind => e.(insertionPoint := Some(Vec3(Get(m, X), Get(m, Y), Get(m, Z))))
    case LwPolylineKind => e.(vertices := Some(CompleteVertices(acc.points, Get(m, Z))))
  }

  /** The class an entity's tags describe: the upper-cased value of its first tag, if a class has that name. */
  function EntityKind(tags: seq<Tag>): Option<Kind> {
    if |tags| == 0 then None else KindOf(Upper(tags[0].value))
  }

  /** The shape an entity of class `k` becomes. */
  function EntityShape(k: Kind, tags: seq<Tag>): Shape {
    Build(k, Finalize(k, ReadTags(k, Start, tags)))
  }

  /**
   * The shapes one entity adds: none when its type names no class (its tags are read to no
   * effect), else the shape of that class.
   */
  function EntityShapes(tags: seq<Tag>): seq<Shape> {
    match EntityKind(tags)
    case None => []
    case Some(k) => [EntityShape(k, tags)]
  }

  /**
   * An entity adds at most one shape, exactly when the upper-cased value of its first tag names
   * a shape class, and that shape reports this type.
   */
  lemma EntityShapesType(tags: seq<Tag>)
    ensures |EntityShapes(tags)| <= 1
    ensures |EntityShapes(tags)| == 1 <==> |tags| > 0 && exists k: Kind :: TypeName(k) == Upper(tags[0].value)
    ensures |EntityShapes(tags)| == 1 ==> EntityShapes(tags)[0].GetType() == Upper(tags[0].value)
  {
    if |tags| > 0 && KindOf(Upper(tags[0].value)).Some? {
      var k := KindOf(Upper(tags[0].value)).value;
      assert TypeName(k) == Upper(tags[0].value);
    }
  }

  /** `_process_entity_tags(tags, geom)`. */
  method ProcessEntityTags(tags: seq<Tag>, geom: Geometry2D)
    modifies geom
    ensures geom.shapes == old(geom.shapes) + EntityShapes(tags)
  {
    if |tags| == 0 {
      return;
    }
    var kind := KindOf(Upper(tags[0].value));
    if kind.None? {
      return;
    }
    var k := kind.value;
    var acc := Start;
    for i := 0 to |tags|
      invariant acc == ReadTags(k, Start, tags[..i])
    {
      assert tags[..i + 1][..i] == tags[..i];
      acc := ReadTag(k, acc, tags[i], ParseInt(tags[i].value), ParseFloat(tags[i].value));
    }
    assert tags[..|tags|] == tags;
    var data := Finalize(k, acc);
    match k {
      case LineKind => geom.AddLine(data);
      case CircleKind => geom.AddCircle(data);
      case ArcKind => geom.AddArc(data);
      case LwPolylineKind => geom.AddLwPolyline(data);
      case TextKind => geom.AddText(data);
    }
  }

  // ---------------------------------------------------------------------------
  // Sections and entities

  /** The tag that opens the entities section. */
  predicate IsEntitiesMarker(tag: Tag) {
    tag.code == 2 && tag.value == "ENTITIES"
  }

  /** The position just after the first ENTITIES marker, if there is one. */
  function EntitiesStart(tags: seq<Tag>): (r: Option<nat>)
    ensures r.Some? ==> 0 < r.value <= |tags| && IsEntitiesMarker(tags[r.value - 1])
    ensures r.Some? ==> forall j :: 0 <= j < r.value - 1 ==> !IsEntitiesMarker(tags[j])
    ensures r.None? ==> forall j :: 0 <= j < |tags| ==> !IsEntitiesMarker(tags[j])
  {
    if |tags| == 0 then None
    else if IsEntitiesMarker(tags[0]) then Some(1)
    else match EntitiesStart(tags[1..])
      case None => None
      case Some(k) => Some(k + 1)
  }

  /**
   * The entities the section loop hands to `_process_entity_tags`, given the tags still to read
   * and the entity being collected: a group-0 tag completes the current entity (if non-empty)
   * and starts the next, ENDSEC ends the section, and an entity still open when the tags run
   * out is never processed.
   */
  function Groups(tags: seq<Tag>, current: seq<Tag>): seq<seq<Tag>>
    decreases |tags|
  {
    if |tags| == 0 then []
    else
      var tag := tags[0];
      if tag.code == 0 then
        (if |current| > 0 then [current] else [])
        + (if tag.value == "ENDSEC" then [] else Groups(tags[1..], [tag]))
      else Groups(tags[1..], current + [tag])
  }

  /** The shapes added for a list of entities, in order. */
  function ShapesOf(groups: seq<seq<Tag>>): seq<Shape> {
    if |groups| == 0 then [] else EntityShapes(groups[0]) + ShapesOf(groups[1..])
  }

  /**
   * The shapes the section loop adds, given the tags still to read and the entity being
   * collected (`_process_entity_tags` adds nothing for an empty list).
   */
  function SectionShapes(tags: seq<Tag>, current: seq<Tag>): seq<Shape>
    decreases |tags|
  {
    if |tags| == 0 then []
    else
      var tag := tags[0];
      if tag.code == 0 then
        EntityShapes(current) + (if tag.value == "ENDSEC" then [] else SectionShapes(tags[1..], [tag]))
      else SectionShapes(tags[1..], current + [tag])
  }

  /** The shapes `_parse` puts in the geometry for a tag stream. */
  function ParseTags(tags: seq<Tag>): seq<Shape> {
    match EntitiesStart(tags)
    case None => []
    case Some(k) => SectionShapes(tags[k..], [])
  }

  /** The shapes `_parse` puts in the geometry for the lines of a file. */
  function ParseLines(lines: seq<string>): seq<Shape> {
    ParseTags(Tags(lines))
  }

  /** `_parse`: a fresh geometry holding the shapes of the file's entities section. */
  method Parse(lines: seq<string>) returns (geom: Geometry2D)
    ensures fresh(geom)
    ensures geom.shapes == ParseLines(lines)
  {
    var tags := TagGenerator(lines);
    geom := ParseTagStream(tags);
  }

  /** The two loops of `_parse` over the tag stream: find the ENTITIES marker, then read the section. */
  method ParseTagStream(tags: seq<Tag>) returns (geom: Geometry2D)
    ensures fresh(geom)
    ensures geom.shapes == ParseTags(tags)
  {
    geom := new Geometry2D();
    var i := 0;
    var found := false;
    while i < |tags| && !found
      invariant 0 <= i <= |tags|
      invariant found ==> EntitiesStart(tags) == Some(i)
      invariant !found ==> forall j :: 0 <= j < i ==> !IsEntitiesMarker(tags[j])
    {
      if IsEntitiesMarker(tags[i]) {
        found := true;
      }
      i := i + 1;
    }
    if !found {
      return;
    }
    ReadSection(tags[i..], geom);
  }

  /**
   * The second loop of `_parse`, over the tags after the ENTITIES marker: entities are collected
   * and handed to `_process_entity_tags` until ENDSEC or the end of the tags.
   */
  method ReadSection(tags: seq<Tag>, geom: Geometry2D)
    modifies geom
    ensures geom.shapes == old(geom.shapes) + SectionShapes(tags, [])
  {
    var i := 0;
    var current: seq<Tag> := [];
    var stop := false;
    while i < |tags| && !stop
      invariant 0 <= i <= |tags|
      invariant stop ==> geom.shapes == old(geom.shapes) + SectionShapes(tags, [])
      invariant !stop ==> geom.shapes + SectionShapes(tags[i..], current) == old(geom.shapes) + SectionShapes(tags, [])
    {
      current, stop := SectionStep(tags, i, current, geom);
      i := i + 1;
    }
  }

  /**
   * One pass of the section loop over the tag at `i`: a group-0 tag hands the collected
   * entity to `_process_entity_tags` and either ends the section (ENDSEC) or starts the next
   * entity; any other tag joins the current entity.
   */
  method SectionStep(tags: seq<Tag>, i: nat, current: seq<Tag>, geom: Geometry2D) returns (next: seq<Tag>, stop: bool)
    requires i < |tags|
    modifies geom
    ensures stop ==> geom.shapes == old(geom.shapes) + SectionShapes(tags[i..], current)
    ensures !stop ==> geom.shapes + SectionShapes(tags[i + 1..], next) == old(geom.shapes) + SectionShapes(tags[i..], current)
  {
    var tag := tags[i];
    if tag.code != 0 {
      SectionShapesExtend(tags, i, current);
      return current + [tag], false;
    }
    if |current| > 0 {
      ProcessEntityTags(current, geom);
    } else {
      NoEntityNoShape(current, geom.shapes);
    }
    if tag.value == "ENDSEC" {
      SectionShapesEnd(tags, i, current, old(geom.shapes));
      return current, true;
    }
    SectionShapesNext(tags, i, current, old(geom.shapes));
    return [tag], false;
  }

  /** A tag other than a group-0 tag joins the current entity. */
  lemma SectionShapesExtend(tags: seq<Tag>, i: nat, current: seq<Tag>)
    requires i < |tags| && tags[i].code != 0
    ensures SectionShapes(tags[i..], current) == SectionShapes(tags[i + 1..], current + [tags[i]])
  {
    assert tags[i..][1..] == tags[i + 1..];
  }

  /** ENDSEC closes the current entity and the section. */
  lemma SectionShapesEnd(tags: seq<Tag>, i: nat, current: seq<Tag>, before: seq<Shape>)
    requires i < |tags| && tags[i] == Tag(0, "ENDSEC")
    ensures before + SectionShapes(tags[i..], current) == before + EntityShapes(current)
  {
  }

  /** Any other group-0 tag closes the current entity and opens the next. */
  lemma SectionShapesNext(tags: seq<Tag>, i: nat, current: seq<Tag>, before: seq<Shape>)
    requires i < |tags| && tags[i].code == 0 && tags[i].value != "ENDSEC"
    ensures before + SectionShapes(tags[i..], current)
            == before + EntityShapes(current) + SectionShapes(tags[i + 1..], [tags[i]])
  {
    assert tags[i..][1..] == tags[i + 1..];
  }

  /** An empty entity adds no shape. */
  lemma NoEntityNoShape(current: seq<Tag>, before: seq<Shape>)
    requires |current| == 0
    ensures before + EntityShapes(current) == before
  {
  }

  lemma {:induction false} ShapesOfAppend(a: seq<seq<Tag>>, b: seq<seq<Tag>>)
    ensures ShapesOf(a + b) == ShapesOf(a) + ShapesOf(b)
  {
    if |a| == 0 {
      assert a + b == b;
    } else {
      calc {
        ShapesOf(a + b);
        EntityShapes((a + b)[0]) + ShapesOf((a + b)[1..]);
        { assert (a + b)[0] == a[0] && (a + b)[1..] == a[1..] + b; }
        EntityShapes(a[0]) + ShapesOf(a[1..] + b);
        { ShapesOfAppend(a[1..], b); }
        EntityShapes(a[0]) + (ShapesOf(a[1..]) + ShapesOf(b));
        ShapesOf(a) + ShapesOf(b);
      }
    }
  }

  // ---------------------------------------------------------------------------
  // Properties of the reader

  /** The value of the last tag with group code `code`, if any. */
  function LastValue(tags: seq<Tag>, code: int): (r: Option<string>)
    ensures r.Some? ==> exists i :: 0 <= i < |tags| && tags[i] == Tag(code, r.value)
    ensures r.None? ==> forall i :: 0 <= i < |tags| ==> tags[i].code != code
  {
    if |tags| == 0 then None
    else if tags[|tags| - 1].code == code then Some(tags[|tags| - 1].value)
    else LastValue(tags[..|tags| - 1], code)
  }

  /** The integer value of the last code-62 tag whose value is an integer, if any. */
  function LastColor(tags: seq<Tag>): Option<int> {
    if |tags| == 0 then None
    else
      var last := tags[|tags| - 1];
      if last.code == 62 && ParseInt(last.value).Some? then ParseInt(last.value)
      else LastColor(tags[..|tags| - 1])
  }

  lemma ReadTagLayerAndColor(k: Kind, acc: Pending, tag: Tag, asInt: Option<int>, asFloat: Option<real>)
    ensures ReadTag(k, acc, tag, asInt, asFloat).entity.layer == if tag.code == 8 then Some(tag.value) else acc.entity.layer
    ensures ReadTag(k, acc, tag, asInt, asFloat).entity.color
            == if tag.code == 62 && asInt.Some? then asInt else acc.entity.color
  {
  }

  lemma {:induction false} ReadTagsLayerAndColor(k: Kind, tags: seq<Tag>)
    ensures ReadTags(k, Start, tags).entity.layer == LastValue(tags, 8)
    ensures ReadTags(k, Start, tags).entity.color == LastColor(tags)
    decreases |tags|
  {
    if |tags| > 0 {
      ReadTagsLayerAndColor(k, tags[..|tags| - 1]);
      var last := tags[|tags| - 1];
      ReadTagLayerAndColor(k, ReadTags(k, Start, tags[..|tags| - 1]), last, ParseInt(last.value), ParseFloat(last.value));
    }
  }

  /**
   * The layer of an entity's shape is the value of its last code-8 tag ("0" without one); its
   * colour is the last code-62 value that is an integer (256 without one), so a malformed
   * colour does not override an earlier good one.
   */
  lemma EntityLayerAndColor(k: Kind, tags: seq<Tag>)
    ensures EntityShape(k, tags).layer == LastValue(tags, 8).GetOr(DefaultLayer)
    ensures EntityShape(k, tags).color == LastColor(tags).GetOr(DefaultColor)
  {
    ReadTagsLayerAndColor(k, tags);
  }

  lemma ReadTagKeepsElevation(k: Kind, acc: Pending, tag: Tag, asInt: Option<int>, asFloat: Option<real>)
    requires Z !in acc.coords
    ensures Z !in ReadTag(k, acc, tag, asInt, asFloat).coords
  {
  }

  lemma {:induction false} ElevationNeverRead(k: Kind, tags: seq<Tag>)
    ensures Z !in ReadTags(k, Start, tags).coords
    decreases |tags|
  {
    if |tags| > 0 {
      ElevationNeverRead(k, tags[..|tags| - 1]);
      var last := tags[|tags| - 1];
      ReadTagKeepsElevation(k, ReadTags(k, Start, tags[..|tags| - 1]), last, ParseInt(last.value), ParseFloat(last.value));
    }
  }

  /**
   * No tag sets the `z` coordinate, so text insertion points and polyline vertices always lie
   * in the plane z = 0.
   */
  lemma TextAndPolylineAreFlat(tags: seq<Tag>)
    ensures EntityShape(TextKind, tags).insertionPoint.z == 0.0
    ensures forall i :: 0 <= i < |EntityShape(LwPolylineKind, tags).vertices| ==>
              EntityShape(LwPolylineKind, tags).vertices[i].z == 0.0
  {
    ElevationNeverRead(TextKind, tags);
    FlatWithoutElevation(TextKind, ReadTags(TextKind, Start, tags));
    ElevationNeverRead(LwPolylineKind, tags);
    FlatWithoutElevation(LwPolylineKind, ReadTags(LwPolylineKind, Start, tags));
  }

  lemma FlatWithoutElevation(k: Kind, acc: Pending)
    requires Z !in acc.coords
    ensures k == TextKind ==> Build(k, Finalize(k, acc)).insertionPoint.z == 0.0
    ensures k == LwPolylineKind ==> forall i :: 0 <= i < |Build(k, Finalize(k, acc)).vertices| ==>
              Build(k, Finalize(k, acc)).vertices[i].z == 0.0
  {
  }

  /**
   * A tag whose value converts neither to an integer nor to a float is skipped: apart from
   * the layer (code 8) and a text's string (code 1), which take the value as it is, it leaves
   * what has been read unchanged, so the entity is built from its other tags.
   */
  lemma UnconvertibleValueSkipped(k: Kind, acc: Pending, tag: Tag)
    requires tag.code != 8 && !(k == TextKind && tag.code == 1)
    ensures ReadTag(k, acc, tag, None, None) == acc
  {
  }

  /**
   * Polyline tags: code 10 opens a new vertex without y; code 20 gives the newest vertex its y
   * only when it has none (otherwise, or with no vertex yet, it is ignored); code 70 sets
   * `closed` from the low bit of its integer.
   */
  lemma PolylineVertexCodes(acc: Pending, v: string, n: int, f: real)
    ensures ReadTag(LwPolylineKind, acc, Tag(10, v), Some(n), Some(f)).points == acc.points + [PartialVertex(f, None)]
    ensures var ps, r := acc.points, ReadTag(LwPolylineKind, acc, Tag(20, v), Some(n), Some(f)).points;
            if |ps| > 0 && ps[|ps| - 1].y.None? then
              |r| == |ps| && r[..|ps| - 1] == ps[..|ps| - 1] && r[|ps| - 1] == PartialVertex(ps[|ps| - 1].x, Some(f))
            else r == ps
    ensures ReadTag(LwPolylineKind, acc, Tag(70, v), Some(n), Some(f)).entity.closed == Some(n % 2 == 1)
  {
  }

  /** The finished polyline vertices are exactly the points that received a y, at height `z`. */
  lemma {:induction false} CompleteVerticesAreTheCompletedPoints(points: seq<PartialVertex>, z: real)
    ensures forall i :: 0 <= i < |points| && points[i].y.Some? ==>
              Vec3(points[i].x, points[i].y.value, z) in CompleteVertices(points, z)
    ensures forall w :: w in CompleteVertices(points, z) ==>
              w.z == z && exists i :: 0 <= i < |points| && points[i].x == w.x && points[i].y == Some(w.y)
    decreases |points|
  {
    if |points| > 0 {
      var rest := CompleteVertices(points[1..], z);
      CompleteVerticesAreTheCompletedPoints(points[1..], z);
      forall i | 0 <= i < |points| && points[i].y.Some?
        ensures Vec3(points[i].x, points[i].y.value, z) in CompleteVertices(points, z)
      {
        if i > 0 {
          assert points[i] == points[1..][i - 1];
        }
      }
      forall w | w in CompleteVertices(points, z)
        ensures w.z == z && exists i :: 0 <= i < |points| && points[i].x == w.x && points[i].y == Some(w.y)
      {
        if w in rest {
          var j :| 0 <= j < |points[1..]| && points[1..][j].x == w.x && points[1..][j].y == Some(w.y);
          assert points[j + 1] == points[1..][j];
        } else {
          assert points[0].x == w.x && points[0].y == Some(w.y);
        }
      }
    }
  }

  /** The group code whose tag stores a coordinate key (`temp_coords` key to DXF code). */
  function KeyCode(key: Coord): int {
    match key
    case X1 => 10 case Y1 => 20 case Z1 => 30
    case X2 => 11 case Y2 => 21 case Z2 => 31
    case CX => 10 case CY => 20 case CZ => 30
    case X => 10 case Y => 20 case Z => 30
  }

  lemma ReadTagKeepsAbsentKey(k: Kind, acc: Pending, tag: Tag, key: Coord, asInt: Option<int>, asFloat: Option<real>)
    requires key !in acc.coords && tag.code != KeyCode(key)
    ensures key !in ReadTag(k, acc, tag, asInt, asFloat).coords
  {
  }

  /** A coordinate whose group code never occurs in an entity's tags is never stored. */
  lemma {:induction false} AbsentCodeNeverStored(k: Kind, tags: seq<Tag>, key: Coord)
    requires forall i :: 0 <= i < |tags| ==> tags[i].code != KeyCode(key)
    ensures key !in ReadTags(k, Start, tags).coords
    decreases |tags|
  {
    if |tags| > 0 {
      AbsentCodeNeverStored(k, tags[..|tags| - 1], key);
      var last := tags[|tags| - 1];
      ReadTagKeepsAbsentKey(k, ReadTags(k, Start, tags[..|tags| - 1]), last, key, ParseInt(last.value), ParseFloat(last.value));
    }
  }

  /** Missing coordinates are 0: a LINE without codes 30 and 31 lies in the plane z = 0. */
  lemma LineWithoutElevationIsFlat(tags: seq<Tag>)
    requires forall i :: 0 <= i < |tags| ==> tags[i].code != 30 && tags[i].code != 31
    ensures EntityShape(LineKind, tags).startPoint.z == 0.0 && EntityShape(LineKind, tags).endPoint.z == 0.0
  {
    LineEndWithoutElevation(tags, Z1);
    LineEndWithoutElevation(tags, Z2);
  }

  lemma LineEndWithoutElevation(tags: seq<Tag>, key: Coord)
    requires key == Z1 || key == Z2
    requires forall i :: 0 <= i < |tags| ==> tags[i].code != KeyCode(key)
    ensures key == Z1 ==> EntityShape(LineKind, tags).startPoint.z == 0.0
    ensures key == Z2 ==> EntityShape(LineKind, tags).endPoint.z == 0.0
  {
    AbsentCodeNeverStored(LineKind, tags, key);
    LineFinalizedWithoutElevation(ReadTags(LineKind, Start, tags), key);
  }

  /** A CIRCLE or ARC without code 30 has its centre in the plane z = 0. */
  lemma CircleWithoutElevationIsFlat(k: Kind, tags: seq<Tag>)
    requires k == CircleKind || k == ArcKind
    requires forall i :: 0 <= i < |tags| ==> tags[i].code != 30
    ensures EntityShape(k, tags).center.z == 0.0
  {
    AbsentCodeNeverStored(k, tags, CZ);
    CentreWithoutElevation(k, ReadTags(k, Start, tags));
  }

  lemma LineFinalizedWithoutElevation(acc: Pending, key: Coord)
    requires key !in acc.coords
    ensures key == Z1 ==> Build(LineKind, Finalize(LineKind, acc)).startPoint.z == 0.0
    ensures key == Z2 ==> Build(LineKind, Finalize(LineKind, acc)).endPoint.z == 0.0
  {
  }

  lemma CentreWithoutElevation(k: Kind, acc: Pending)
    requires (k == CircleKind || k == ArcKind) && CZ !in acc.coords
    ensures Build(k, Finalize(k, acc)).center.z == 0.0
  {
  }

  lemma {:induction false} NoEntityStartNoShapes(tags: seq<Tag>, current: seq<Tag>)
    requires forall i :: 0 <= i < |tags| ==> tags[i].code != 0
    ensures SectionShapes(tags, current) == []
    decreases |tags|
  {
    if |tags| > 0 {
      NoEntityStartNoShapes(tags[1..], current + [tags[0]]);
    }
  }

  /** Tags after a group-0 ENDSEC are never read. */
  lemma {:induction false} SectionStopsAtEndsec(a: seq<Tag>, rest: seq<Tag>, current: seq<Tag>)
    ensures SectionShapes(a + [Tag(0, "ENDSEC")] + rest, current) == SectionShapes(a + [Tag(0, "ENDSEC")], current)
    decreases |a|
  {
    var endsec := Tag(0, "ENDSEC");
    if |a| == 0 {
      assert a + [endsec] + rest == [endsec] + rest;
      assert a + [endsec] == [endsec];
    } else {
      assert (a + [endsec] + rest)[1..] == a[1..] + [endsec] + rest;
      assert (a + [endsec])[1..] == a[1..] + [endsec];
      SectionStopsAtEndsec(a[1..], rest, if a[0].code == 0 then [a[0]] else current + [a[0]]);
    }
  }

  /** Tags with no group-0 tag among them, at the end, add nothing: an open entity is dropped. */
  lemma {:induction false} SectionDropsUnterminated(a: seq<Tag>, b: seq<Tag>, current: seq<Tag>)
    requires forall i :: 0 <= i < |b| ==> b[i].code != 0
    ensures SectionShapes(a + b, current) == SectionShapes(a, current)
    decreases |a|
  {
    if |a| == 0 {
      assert a + b == b;
      NoEntityStartNoShapes(b, current);
    } else {
      assert (a + b)[1..] == a[1..] + b;
      SectionDropsUnterminated(a[1..], b, if a[0].code == 0 then [a[0]] else current + [a[0]]);
    }
  }

  /** The section loop adds, in order, the shapes of the entities `Groups` cuts the tags into. */
  lemma {:induction false} SectionShapesOfGroups(tags: seq<Tag>, current: seq<Tag>)
    ensures SectionShapes(tags, current) == ShapesOf(Groups(tags, current))
    decreases |tags|
  {
    if |tags| > 0 {
      var tag := tags[0];
      if tag.code == 0 {
        var first: seq<seq<Tag>> := if |current| > 0 then [current] else [];
        var next: seq<seq<Tag>> := if tag.value == "ENDSEC" then [] else Groups(tags[1..], [tag]);
        assert Groups(tags, current) == first + next;
        ShapesOfAppend(first, next);
        assert ShapesOf(first) == EntityShapes(current);
        if tag.value != "ENDSEC" {
          SectionShapesOfGroups(tags[1..], [tag]);
        }
      } else {
        SectionShapesOfGroups(tags[1..], current + [tag]);
      }
    }
  }

  /** All the tags of a list of entities, in order. */
  function Concat(groups: seq<seq<Tag>>): seq<Tag> {
    if |groups| == 0 then [] else groups[0] + Concat(groups[1..])
  }

  lemma {:induction false} ConcatAppend(a: seq<seq<Tag>>, b: seq<seq<Tag>>)
    ensures Concat(a + b) == Concat(a) + Concat(b)
  {
    if |a| == 0 {
      assert a + b == b;
    } else {
      assert (a + b)[1..] == a[1..] + b;
      ConcatAppend(a[1..], b);
    }
  }

  /** An entity: non-empty, and only its first tag may have group code 0. */
  predicate IsEntity(g: seq<Tag>) {
    |g| > 0 && forall j :: 1 <= j < |g| ==> g[j].code != 0
  }

  /**
   * The entities handed to `_process_entity_tags` are consecutive runs of the tags read, in
   * order, each an entity, and every one after the first starts at a group-0 tag.
   */
  lemma {:induction false} GroupsPartitionTags(tags: seq<Tag>, current: seq<Tag>)
    requires current == [] || IsEntity(current)
    ensures Concat(Groups(tags, current)) <= current + tags
    ensures forall i :: 0 <= i < |Groups(tags, current)| ==>
              IsEntity(Groups(tags, current)[i]) && (i > 0 ==> Groups(tags, current)[i][0].code == 0)
    decreases |tags|
  {
    if |tags| > 0 {
      var tag := tags[0];
      assert current + tags == (current + [tag]) + tags[1..];
      if tag.code == 0 {
        var first: seq<seq<Tag>> := if |current| > 0 then [current] else [];
        var next: seq<seq<Tag>> := if tag.value == "ENDSEC" then [] else Groups(tags[1..], [tag]);
        assert Groups(tags, current) == first + next;
        ConcatAppend(first, next);
        assert Concat(first) == current;
        if tag.value != "ENDSEC" {
          GroupsPartitionTags(tags[1..], [tag]);
          assert [tag] + tags[1..] == tags;
        }
      } else {
        GroupsPartitionTags(tags[1..], current + [tag]);
      }
    }
  }

  /** Appending tags after the first ENTITIES marker does not move it. */
  lemma EntitiesStartOfExtension(a: seq<Tag>, b: seq<Tag>)
    requires EntitiesStart(a).Some?
    ensures EntitiesStart(a + b) == EntitiesStart(a)
  {
    var k := EntitiesStart(a).value;
    assert (a + b)[k - 1] == a[k - 1];
  }

  /** Tags appended after the ENTITIES marker are read by the section loop. */
  lemma ParseTagsOfExtension(a: seq<Tag>, b: seq<Tag>)
    requires EntitiesStart(a).Some?
    ensures ParseTags(a + b) == SectionShapes(a[EntitiesStart(a).value..] + b, [])
  {
    var k := EntitiesStart(a).value;
    EntitiesStartOfExtension(a, b);
    assert (a + b)[k..] == a[k..] + b;
  }

  /** Once the entities section has been closed by ENDSEC, whatever follows adds no shape. */
  lemma TagsAfterEndsecIgnored(a: seq<Tag>, rest: seq<Tag>)
    requires EntitiesStart(a).Some?
    ensures ParseTags(a + [Tag(0, "ENDSEC")] + rest) == ParseTags(a + [Tag(0, "ENDSEC")])
  {
    var endsec := Tag(0, "ENDSEC");
    var k := EntitiesStart(a).value;
    EntitiesStartOfExtension(a, [endsec]);
    ParseTagsOfExtension(a + [endsec], rest);
    ParseTagsOfExtension(a, [endsec]);
    assert (a + [endsec])[k..] == a[k..] + [endsec];
    SectionStopsAtEndsec(a[k..], rest, []);
  }

  /** Tags after the last group-0 tag of a file without ENDSEC add no shape. */
  lemma UnterminatedEntityDropped(a: seq<Tag>, b: seq<Tag>)
    requires EntitiesStart(a).Some?
    requires forall i :: 0 <= i < |b| ==> b[i].code != 0
    ensures ParseTags(a + b) == ParseTags(a)
  {
    var k := EntitiesStart(a).value;
    ParseTagsOfExtension(a, b);
    assert a[k..] == a[k..] + [];
    SectionDropsUnterminated(a[k..], b, []);
  }

  /** A file without an ENTITIES marker gives no shape, whatever else it holds. */
  lemma NoEntitiesSectionNoShapes(lines: seq<string>)
    requires forall i :: 0 <= i < |Tags(lines)| ==> !IsEntitiesMarker(Tags(lines)[i])
    ensures ParseLines(lines) == []
  {
    assert EntitiesStart(Tags(lines)).None?;
  }

  /** A `DxfReader`: the geometry parsed from the file when the reader is constructed. */
  class DxfReaderObject {
    const geom: Geometry2D

    constructor(lines: seq<string>)
      ensures fresh(geom)
      ensures geom.shapes == ParseLines(lines)
    {
      var g := Parse(lines);
      geom := g;
    }

    /** `get_geometry()`. */
    method GetGeometry() returns (g: Geometry2D)
      ensures g == geom
    {
      g := geom;
    }
  }
}
