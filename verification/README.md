# CFD Studio CAD core in Dafny

This project models the sequential core of CFD Studio, a desktop CAD front end. The core has four parts.

- **The DXF reader.** It pairs the file's lines into group-code/value tags, finds the
  ENTITIES section, cuts it into entities at every code-0 tag, and turns each LINE, CIRCLE,
  ARC, LWPOLYLINE or TEXT entity into a shape of a `Geometry2D` container.
- **The primitive factory.** It builds mesh records (points, cells, topology) for points,
  lines, triangles, circles, squares, cubes and the origin marker. Each is placed on a
  working plane by `transform_to_plane`.
- **The coordinate-system manager.** It maps titles to local frames and keeps the title of
  the active frame.
- **The scene document and its history.** The document is the actor buffer, the plane
  definitions, the active plane id and the actors' visibility. The seven undoable commands
  act on it. The main window keeps the undo/redo stack, the request handlers that guard
  delete, rename and visibility, and the plane-definition flow.

One module per source file:

- `Wrappers`: Option and Result.
- `PyText`: the Python string built-ins the reader relies on.
- `Vectors`: the vector helpers of `coords.py`.
- `PlaneHelpers`, `Shapes`, `Geometry`, `DxfReader`, `Factory`, `Coords`.
- `Commands`: each command is a value holding the fields its object caches.
  `Execute` and `Undo` give the effect on the document.
- `Window`: the history as a pure specification (`Perform`, `UndoLast`, `RedoNext`), and
  a class `MainWindow` whose methods run each step in place. Each method is proved equal to
  that specification.

Some inputs are parameters:

- `math.sqrt`, `math.cos` and `math.sin` are functions passed in. Lemmas that need the
  defining property of the square root require `IsSqrt`.
- The DXF file is its list of lines.
- Each dialog answer is a value.
- `id(obj)` is a number `uid`.
- A VTK actor is an opaque handle `Actor(n)`, numbered by a counter kept beside the
  document.

## Model

| member | source | states |
|---|---|---|
| PyText.Strip | acrilib/readers/dxf_reader.py:69-70 | `strip()` returns the contiguous part of the line running from its first to its last non-blank character; no non-blank character is lost |
| PyText.Upper | acrilib/readers/dxf_reader.py:83 | `upper()` keeps the length, leaves no lower-case letter, and changes a character only into the upper-case form of a lower-case letter |
| PyText.ParseIntOfIntToString | acrilib/readers/dxf_reader.py:71 | `int(str(n)) == n` for every integer |
| PyText.ParseIntOfDigits | acrilib/readers/dxf_reader.py:71 | a digit string, with or without a leading minus, parses to its decimal value, negated for the minus |
| PyText.DecValueOfNatToString | acrilib/readers/dxf_reader.py:71 | the decimal digits written for n denote n |
| PyText.IntToStringInjective | app/GUI/commands.py:268 | distinct integers have distinct decimal strings |
| PyText.UnsignedFloatOfRun | acrilib/readers/dxf_reader.py:93 | a digit run read by `float()` is the same whole number |
| PyText.ParseFloatExtendsParseInt | acrilib/readers/dxf_reader.py:87-117 | every string `int()` accepts is accepted by `float()` with the same value |
| PyText.RStripChar | app/GUI/commands.py:38 | `rstrip(c)` is a prefix without a trailing `c`, and only `c` characters were removed |
| PyText.LeadingSpaces | acrilib/readers/dxf_reader.py:69-70 | counts the blanks before the first non-blank character |
| PyText.TrailingSpaces | acrilib/readers/dxf_reader.py:69-70 | counts the blanks after the last non-blank character |
| PyText.StripKeepsSpaceFree | acrilib/readers/dxf_reader.py:69-70 | `strip()` leaves a string without blanks unchanged |
| PyText.NatToString | app/GUI/commands.py:268 | `str(n)` of a natural number is a non-empty string of digits |
| PyText.RunDigits | acrilib/readers/dxf_reader.py:71 | the digits of a digit run, underscores dropped, are a non-empty digit string |
| PyText.DigitsAreRun | acrilib/readers/dxf_reader.py:71 | a plain digit string is a run whose digits are itself |
| PyText.RunCharacters | acrilib/readers/dxf_reader.py:71 | a digit run holds only digits and underscores |
| PyText.IndexOf | acrilib/readers/dxf_reader.py:93 | finds the first position of the character, or the length when it is absent |
| PyText.ExponentIndex | acrilib/readers/dxf_reader.py:93 | finds the first `e` or `E`, or the length when there is none |
| Vectors.Sub | acrilib/threed/coords.py:10-11 | the difference added to `v2` gives back `v1` |
| Vectors.CrossIsPerpendicular | acrilib/threed/coords.py:12-15 | `a x b` is perpendicular to both `a` and `b` |
| Vectors.CrossOfParallel | acrilib/threed/coords.py:12-13 | the cross product of a vector with a multiple of itself is zero |
| Vectors.Lagrange | acrilib/threed/coords.py:12-15 | \|a x b\|^2 = \|a\|^2 \|b\|^2 - (a . b)^2 |
| Vectors.TripleCross | acrilib/threed/coords.py:12-15 | a x (b x c) = (a . c) b - (a . b) c |
| Vectors.DotSelfNonNegative | acrilib/threed/coords.py:14-17 | v . v is non-negative and zero only for the zero vector |
| Vectors.Normalize | acrilib/threed/coords.py:18-21 | `normalize` fails (the ValueError) exactly when the magnitude is 0; otherwise the result scaled by the magnitude is the input |
| Vectors.NormalizeFailsOnlyOnZero | acrilib/threed/coords.py:16-21 | with a true square root, only the zero vector fails to normalise |
| Vectors.NormalizeIsUnit | acrilib/threed/coords.py:16-21 | with a true square root, a normalised vector has length 1 |
| Vectors.NormalizeKeepsPerpendicular | acrilib/threed/coords.py:18-21 | normalising does not change which vectors are perpendicular to it |
| Vectors.SqrtPositive | acrilib/threed/coords.py:16-17 | the square root of a positive number is positive |
| Vectors.SqrtOfZero | acrilib/threed/coords.py:16-17 | the square root of 0 is 0 |
| PlaneHelpers.TransformOfOrigin | acrilib/geometry/plane_helpers.py:17 | plane coordinates (0, 0) map to the plane origin |
| PlaneHelpers.TransformOnXY | tests/test_primitives.py:12-21 | on the XY plane at the origin, (u, v) maps to (u, v, 0) |
| PlaneHelpers.TransformDifference | acrilib/geometry/plane_helpers.py:17 | the map is affine: image(u1,v1) - image(u2,v2) = (u1-u2) U + (v1-v2) V |
| PlaneHelpers.TransformReadBack | acrilib/geometry/plane_helpers.py:7-18 | on an orthonormal plane, projecting the image on U and V gives back (u, v): the map has an inverse |
| PlaneHelpers.TransformPreservesDistance | acrilib/geometry/plane_helpers.py:7-18 | on an orthonormal plane, distances between images equal distances between plane coordinates |
| Shapes.KindOf | acrilib/readers/dxf_reader.py:124-128 | finds the class whose type name is the given string; none when no class has that name |
| Shapes.ArcFrom | acrilib/geometry/shapes.py:50-55 | an Arc reads its circle attributes exactly as Circle does, then its two angles |
| Shapes.Build | acrilib/geometry/shapes.py:28-78 | the shape built for a class is of that class |
| Shapes.TypeNameIsUpperAndUnique | acrilib/geometry/shapes.py:35-81 | every `get_type` name is upper case and names one class only, so an Arc reports ARC, not CIRCLE |
| Shapes.BuildOfAttributes | acrilib/geometry/shapes.py:13-78 | each constructor reads every attribute: rebuilding a shape from its own attributes gives it back |
| Shapes.BuildOfNoData | acrilib/geometry/shapes.py:13-78 | the defaults are: layer "0" and colour 256; points (0,0,0); radius 0; angles 0 and 360; no vertices and not closed; text "" with height 1 |
| Geometry.Geometry2D.constructor | acrilib/geometry/geometry2d.py:9-11 | a new container holds no shape |
| Geometry.Geometry2D.AddLine | acrilib/geometry/geometry2d.py:13-15 | appends exactly one Line read from the data; earlier shapes are kept in order |
| Geometry.Geometry2D.AddCircle | acrilib/geometry/geometry2d.py:17-19 | appends exactly one Circle; earlier shapes kept |
| Geometry.Geometry2D.AddArc | acrilib/geometry/geometry2d.py:21-23 | appends exactly one Arc; earlier shapes kept |
| Geometry.Geometry2D.AddLwPolyline | acrilib/geometry/geometry2d.py:25-27 | appends exactly one LwPolyline; earlier shapes kept |
| Geometry.Geometry2D.AddText | acrilib/geometry/geometry2d.py:29-31 | appends exactly one Text; earlier shapes kept |
| Geometry.Geometry2D.GetNumberOfShapes | acrilib/geometry/geometry2d.py:33-35 | the count is the length of the shape list |
| DxfReader.Tags | acrilib/readers/dxf_reader.py:64-76 | every tag uses two lines |
| DxfReader.TagGenerator | acrilib/readers/dxf_reader.py:64-76 | the generator loop yields exactly `Tags(lines)` |
| DxfReader.TagsStep | acrilib/readers/dxf_reader.py:69-76 | one pair of lines emits a tag exactly when its code line is an integer; a malformed pair is skipped and reading goes on |
| DxfReader.TagLines | acrilib/readers/dxf_reader.py:64-76 | a writer emits two lines per tag |
| DxfReader.TagsAppend | acrilib/readers/dxf_reader.py:64-76 | lines are read pair by pair: reading an even-length prefix and then the rest gives the tags of both |
| DxfReader.OddTrailingLineIgnored | acrilib/readers/dxf_reader.py:69-73 | a last line without a partner is dropped |
| DxfReader.CodeLineReadsBack | acrilib/readers/dxf_reader.py:69-71 | a code written in decimal reads back after stripping |
| DxfReader.TagsOfTagLines | acrilib/readers/dxf_reader.py:64-76 | reading what a writer emits gives the tags back (values without surrounding blanks) |
| DxfReader.CompleteVertices | acrilib/readers/dxf_reader.py:144-147 | at most one vertex per partial point, all at the given height |
| DxfReader.CompleteVerticesAreTheCompletedPoints | acrilib/readers/dxf_reader.py:144-147 | the polyline vertices are exactly the points that received both x and y |
| DxfReader.UnconvertibleValueSkipped | acrilib/readers/dxf_reader.py:87-119 | a value that converts neither to int nor to float changes nothing, except as a layer or a text string, so only that field is lost |
| DxfReader.PolylineVertexCodes | acrilib/readers/dxf_reader.py:112-117 | code 10 opens a vertex; code 20 sets the y of the newest vertex only when it has none; code 70 sets `closed` from bit 0 |
| DxfReader.AbsentCodeNeverStored | acrilib/readers/dxf_reader.py:92-110 | a coordinate whose group code never occurs is never stored |
| DxfReader.LineWithoutElevationIsFlat | acrilib/readers/dxf_reader.py:133-137 | a LINE without codes 30 and 31 has both end points at z = 0 |
| DxfReader.CircleWithoutElevationIsFlat | acrilib/readers/dxf_reader.py:138-140 | a CIRCLE or ARC without code 30 has its centre at z = 0 |
| DxfReader.EntityShapesType | acrilib/readers/dxf_reader.py:83-128 | an entity adds at most one shape. It adds one exactly when the upper-cased value of its first tag names a shape class, and that shape reports this type |
| DxfReader.ProcessEntityTags | acrilib/readers/dxf_reader.py:78-128 | the geometry gains exactly the entity's shapes, appended after the earlier ones |
| DxfReader.EntitiesStart | acrilib/readers/dxf_reader.py:38-44 | finds the position after the first `(2, "ENTITIES")` tag; no marker occurs before it, and none at all when absent |
| DxfReader.Parse | acrilib/readers/dxf_reader.py:31-62 | a fresh geometry holding exactly the shapes of the file's entities section |
| DxfReader.ParseTagStream | acrilib/readers/dxf_reader.py:36-57 | the marker search then the section loop produce `ParseTags(tags)` |
| DxfReader.ReadSection | acrilib/readers/dxf_reader.py:46-57 | the section loop appends the shapes `SectionShapes` defines |
| DxfReader.SectionStep | acrilib/readers/dxf_reader.py:48-57 | one pass of the section loop: a code-0 tag flushes the buffered entity and either stops (ENDSEC) or opens the next; any other tag joins the buffer |
| DxfReader.SectionShapesExtend | acrilib/readers/dxf_reader.py:56-57 | a non-zero code joins the current entity |
| DxfReader.SectionShapesEnd | acrilib/readers/dxf_reader.py:49-54 | ENDSEC flushes the current entity and ends the section |
| DxfReader.SectionShapesNext | acrilib/readers/dxf_reader.py:49-55 | another code-0 tag flushes the current entity and starts the next |
| DxfReader.NoEntityNoShape | acrilib/readers/dxf_reader.py:50 | an empty buffer adds nothing |
| DxfReader.ShapesOfAppend | acrilib/readers/dxf_reader.py:48-57 | the shapes of consecutive entity lists concatenate |
| DxfReader.LastValue | acrilib/readers/dxf_reader.py:89 | finds the value of some tag with the code, or none when no tag has it |
| DxfReader.ReadTagLayerAndColor | acrilib/readers/dxf_reader.py:89-90 | code 8 sets the layer; code 62 sets the colour only when its value is an integer |
| DxfReader.ReadTagsLayerAndColor | acrilib/readers/dxf_reader.py:87-90 | the layer is the last code-8 value; the colour is the last integer code-62 value |
| DxfReader.EntityLayerAndColor | acrilib/readers/dxf_reader.py:89-90 | a shape's layer is the last code-8 value or "0"; its colour is the last integer code-62 value or 256 |
| DxfReader.ElevationNeverRead | acrilib/readers/dxf_reader.py:107-117 | no tag stores the `z` key of a text or polyline |
| DxfReader.TextAndPolylineAreFlat | acrilib/readers/dxf_reader.py:141-147 | text insertion points and polyline vertices always lie at z = 0 |
| DxfReader.NoEntityStartNoShapes | acrilib/readers/dxf_reader.py:48-57 | tags with no code-0 tag add no shape |
| DxfReader.SectionStopsAtEndsec | acrilib/readers/dxf_reader.py:53-54 | in the section loop, nothing after `(0, "ENDSEC")` is read |
| DxfReader.SectionDropsUnterminated | acrilib/readers/dxf_reader.py:47-57 | trailing tags without a code-0 tag add nothing: an open entity is never processed |
| DxfReader.SectionShapesOfGroups | acrilib/readers/dxf_reader.py:47-57 | the section loop adds, in order, the shapes of the entities the tags are cut into |
| DxfReader.ConcatAppend | acrilib/readers/dxf_reader.py:47-57 | the tags of consecutive entity lists concatenate |
| DxfReader.GroupsPartitionTags | acrilib/readers/dxf_reader.py:47-57 | the entities are consecutive runs of the tags, in order. Each is non-empty with code 0 only at its head, and every entity after the first starts at a code-0 tag |
| DxfReader.EntitiesStartOfExtension | acrilib/readers/dxf_reader.py:38-42 | tags after the marker do not move it |
| DxfReader.ParseTagsOfExtension | acrilib/readers/dxf_reader.py:38-57 | tags appended after the marker are read by the section loop |
| DxfReader.TagsAfterEndsecIgnored | acrilib/readers/dxf_reader.py:53-54 | once ENDSEC closes the section, whatever follows adds no shape |
| DxfReader.UnterminatedEntityDropped | acrilib/readers/dxf_reader.py:47-57 | tags after the last code-0 tag of a file without ENDSEC add no shape |
| DxfReader.NoEntitiesSectionNoShapes | acrilib/readers/dxf_reader.py:38-44 | a file without the ENTITIES marker gives an empty container |
| DxfReader.DxfReaderObject.constructor | acrilib/readers/dxf_reader.py:15-18 | the reader holds a fresh geometry parsed from the lines |
| DxfReader.DxfReaderObject.GetGeometry | acrilib/readers/dxf_reader.py:27-29 | returns that geometry |
| Factory.Range | acrilib/primitives/factory.py:75 | `range(n)` lists 0 .. n-1 |
| Factory.CreatePoint | acrilib/primitives/factory.py:45-48 | one point, cells [[0]], type verts, every index in bounds |
| Factory.CreateLine | acrilib/primitives/factory.py:51-55 | two points, cells [[0, 1]], type lines |
| Factory.CreateTriangle | acrilib/primitives/factory.py:58-63 | three points, cells [[0, 1, 2]], type polys |
| Factory.CircleMesh | acrilib/primitives/factory.py:66-76 | fails exactly when segments is 0 (division by zero). Otherwise: segments+1 points and one line cell visiting 0 .. segments in order |
| Factory.CreateCircle | acrilib/primitives/factory.py:66-76 | the point loop builds exactly `CircleMesh` |
| Factory.CreateCuboid | acrilib/primitives/factory.py:79-86 | four points and the single cell [0, 1, 2, 3, 0], which closes the loop over the four corners; type lines |
| Factory.CreateCubeData | acrilib/primitives/factory.py:117-131 | eight points and six four-index cells, type polys, indices in bounds |
| Factory.CreateOriginMarker | acrilib/primitives/factory.py:89-104 | three two-point line meshes with cells [[0, 1]] |
| Factory.PointReadsBack | acrilib/primitives/factory.py:45-48 | on an orthonormal plane the point reads back as (u, v) |
| Factory.LineLength | acrilib/primitives/factory.py:51-55 | on an orthonormal plane the line is as long as its plane segment |
| Factory.LineOnXY | tests/test_primitives.py:12-21 | the line (1,2)-(3,4) on the XY plane runs from (1,2,0) to (3,4,0) |
| Factory.TriangleReadsBack | acrilib/primitives/factory.py:58-63 | on an orthonormal plane the vertices read back as the inputs, in order |
| Factory.FullTurn | acrilib/primitives/factory.py:70 | the last angle, `2 pi segments / segments`, is a full turn |
| Factory.CircleCloses | acrilib/primitives/factory.py:66-76 | with periodic cos and sin, the last point equals the first: the strip is closed |
| Factory.CirclePointAt | acrilib/primitives/factory.py:69-73 | point i is the image of (cu + r cos a_i, cv + r sin a_i) |
| Factory.PolarDistance | acrilib/primitives/factory.py:71-73 | on an orthonormal plane a point at polar offset r lies at distance r from the centre |
| Factory.CirclePointsOnCircle | acrilib/primitives/factory.py:66-76 | with cos^2 + sin^2 = 1 and an orthonormal plane, every point lies at distance r from the centre's image |
| Factory.CuboidIsSquare | acrilib/primitives/factory.py:79-86 | on an orthonormal plane each of the four sides has length 2 size |
| Factory.CuboidOnXY | acrilib/primitives/factory.py:82-85 | on the XY plane the corners are (+-size, +-size, 0), counter-clockwise |
| Factory.NormalAxisIsUnit | acrilib/primitives/factory.py:126 | on an orthonormal plane U x V is a unit vector perpendicular to U and V |
| Factory.CubeIsCentred | acrilib/primitives/factory.py:117-131 | every corner and its opposite corner average to the plane origin |
| Factory.CubeOnXY | acrilib/primitives/factory.py:119-129 | on the XY plane the corners are the local corners (+-side, +-side, +-side) |
| Factory.FacesContaining | acrilib/primitives/factory.py:130 | counts at most one per face |
| Factory.CubeFacesAreClosed | acrilib/primitives/factory.py:130 | each corner belongs to exactly three faces, and each face has four distinct corners |
| Factory.CornersInThreeFaces | acrilib/primitives/factory.py:130 | each of the eight corner indices occurs in exactly three of the six faces |
| Factory.OriginMarkerAxes | acrilib/primitives/factory.py:89-104 | each line goes from the origin to size along its own axis. The lines are coloured red, green and blue, and are mutually perpendicular |
| Coords.AxesFromVectors | acrilib/threed/coords.py:62-72 | when a frame is built, its x axis is x_dir scaled down by the magnitude of x_dir |
| Coords.MoveEntry | acrilib/threed/coords.py:95-98 | the entry leaves the old key and is stored under the new key with the new title; every other entry is kept |
| Coords.CoordinateSystemManager.constructor | acrilib/threed/coords.py:42-44 | a new manager holds only Global, which is active |
| Coords.CoordinateSystemManager.GetCs | acrilib/threed/coords.py:46-47 | the stored system, or none for an unknown title |
| Coords.CoordinateSystemManager.CreateCsFromVectors | acrilib/threed/coords.py:62-72 | a duplicate title is rejected first, then a degenerate frame, each with no insertion. Otherwise the frame is stored under its title; the active title is kept |
| Coords.CoordinateSystemManager.CreateCsFrom3Points | acrilib/threed/coords.py:49-60 | the same, with directions from the origin to the two points |
| Coords.CoordinateSystemManager.SetActive | acrilib/threed/coords.py:74-77 | an unknown title is rejected with the active title kept; otherwise it becomes active |
| Coords.CoordinateSystemManager.DeleteCs | acrilib/threed/coords.py:81-86 | returns whether the title was present and removes it. Global and the active system are not protected, and the active title never changes |
| Coords.CoordinateSystemManager.RenameCs | acrilib/threed/coords.py:88-101 | an existing new title is rejected first, then a missing old title. Otherwise the entry moves and takes the new title, and the active title follows it |
| Coords.CoordinateSystemManager.Reset | acrilib/threed/coords.py:103-105 | back to only Global, active |
| Coords.MoveEntryRoundTrip | acrilib/threed/coords.py:88-101 | renaming to an unused title and back restores the map |
| Coords.MoveEntryKeepsTitles | acrilib/threed/coords.py:95-98 | a rename keeps every system's title equal to its key |
| Coords.AxesArePerpendicular | acrilib/threed/coords.py:65-72 | whatever sqrt returns, the three axes are pairwise perpendicular |
| Coords.SqrtOfOne | acrilib/threed/coords.py:16-17 | a true square root of 1 is 1 |
| Coords.NormalizeCrossOfUnits | acrilib/threed/coords.py:68-69 | the cross product of perpendicular unit vectors is a unit vector, and normalising leaves it unchanged |
| Coords.AxesAreUnit | acrilib/threed/coords.py:65-72 | with a true square root every axis has length 1 |
| Coords.AxesAreRightHanded | acrilib/threed/coords.py:65-72 | with a true square root x x y = z |
| Coords.CrossScaleLeft | acrilib/threed/coords.py:12-13 | (m a) x b = m (a x b) |
| Coords.ScaleIsZero | acrilib/threed/coords.py:18-21 | a non-zero multiple is zero exactly for the zero vector |
| Coords.AxesFailIffDegenerate | acrilib/threed/coords.py:62-72 | with a true square root a frame is rejected exactly when x_dir is zero or parallel to y_dir |
| Coords.ThreePointsFailIffCollinear | acrilib/threed/coords.py:49-60 | with a true square root three points are rejected exactly when the x point is the origin or the three are collinear |
| Coords.SubIsZero | acrilib/threed/coords.py:10-11 | a difference is zero exactly for equal points |
| Commands.SetVisibility | app/GUI/commands.py:159-165 | only that actor's visibility changes, to 0 or 1; the maps and the active id are kept |
| Commands.Lookup | app/GUI/commands.py:98 | `dict.get` finds the stored value, or none exactly when the key is absent |
| Commands.MoveKey | app/GUI/commands.py:136-139 | the entry under the old key, if any, moves to the new key; others are kept |
| Commands.NewCreateObject | app/GUI/commands.py:30-38 | a new create has no cached actor |
| Commands.ImportEntries | app/GUI/commands.py:228-269 | at most one entry per shape, with fresh actors numbered in order |
| Commands.CreateThenUndo | app/GUI/commands.py:40-90 | a first create registers a fresh actor under the object id and is recorded; undo restores the document |
| Commands.CreateWithoutGeometryFails | app/GUI/commands.py:47-83 | a create without an actor or mesh fails: no change, not recorded |
| Commands.CreateRedoReusesActor | app/GUI/commands.py:40-46 | redo after undo puts back the same actor under the same id and allocates none |
| Commands.DeleteThenUndo | app/GUI/commands.py:103-124 | delete removes the actor and the plane definition and is recorded; undo restores both under the same id |
| Commands.DeleteUnknownIgnored | app/GUI/commands.py:95-104 | deleting an unregistered id changes nothing and is not recorded |
| Commands.MoveKeyBack | app/GUI/commands.py:134-149 | moving a key to an unused key and back restores the map |
| Commands.RenameThenUndo | app/GUI/commands.py:134-149 | rename moves the actor, the definition and the active pointer; to an unused id, undo restores the document |
| Commands.ToggleThenUndo | app/GUI/commands.py:154-165 | toggle sets visibility to 1 - current and is recorded; undo restores the captured value |
| Commands.ToggleTwice | app/GUI/commands.py:159-163 | executing the toggle twice restores the visibility |
| Commands.SetActiveThenUndo | app/GUI/commands.py:175-191 | activation changes the active id exactly when the new id has both an actor and a definition. Undo re-activates a registered previous plane |
| Commands.UndoFirstActivationKeepsPlane | app/GUI/commands.py:188-191 | undoing the first activation (no previous plane) keeps the new plane active |
| Commands.ShapeIdInjective | app/GUI/commands.py:268 | distinct shape indices give distinct ids |
| Commands.ImportEntriesAreDrawn | app/GUI/commands.py:228-269 | every entry is keyed by the index of a LINE, CIRCLE, ARC or LWPOLYLINE shape |
| Commands.ImportEntriesCoverDrawn | app/GUI/commands.py:228-269 | every such shape has an entry keyed by its index |
| Commands.ImportEntriesDistinct | app/GUI/commands.py:228-269 | no two entries share an id |
| Commands.EarlierEntriesDiffer | app/GUI/commands.py:268 | entries of earlier shapes are not keyed by a later index |
| Commands.ImportVizDataExistsIffImported | app/GUI/commands.py:232-246 | drawing data exists exactly for the drawn types; TEXT is skipped |
| Commands.ImportIgnoresElevation | app/GUI/commands.py:234-236 | only x and y of a line's points are drawn |
| Commands.ArcDrawnAsFullCircle | app/GUI/commands.py:237-239 | an arc is drawn as the full circle of its centre and radius |
| Commands.AddAllIsUnion | app/GUI/commands.py:272-274 | adding the entries one by one is a union with the map they build |
| Commands.AddThenRemove | app/GUI/commands.py:272-287 | removing added entries restores a map that held none of them |
| Commands.ImportThenUndo | app/GUI/commands.py:206-287 | import registers one actor per drawn shape and is recorded; undo restores the document |
| Commands.ImportUnreadableFails | app/GUI/commands.py:276-278 | an unreadable file fails the import: no change, not recorded |
| Commands.ImportRedoReusesActors | app/GUI/commands.py:207-215 | redo re-adds the same actors under the same ids and allocates none |
| Commands.CreateCuboidFails | app/GUI/commands.py:298-347 | the solid cuboid command always fails: no change, not recorded |
| Commands.CachedCuboidThenUndo | app/GUI/commands.py:298-304 | a cuboid command holding an actor re-adds it under its id, is recorded and allocates nothing; undo restores the document |
| Window.Perform | app/GUI/main_window.py:170-183 | the redo branch is cut, the command runs, and it is pushed only when recorded. Nothing is left to redo and the applied prefix is kept |
| Window.UndoLast | app/GUI/main_window.py:275-283 | undoes the command under the pointer and steps back; nothing happens at -1 |
| Window.RedoNext | app/GUI/main_window.py:285-294 | steps forward and re-executes that command; nothing happens at the head |
| Window.PerformLeavesNothingToRedo | app/GUI/main_window.py:172-179 | after a command, redo does nothing |
| Window.FailedCommandStillTruncates | app/GUI/main_window.py:172-177 | a failed command still cuts the redo branch and keeps its side effects |
| Window.PerformThenUndo | app/GUI/main_window.py:170-183 | perform then undo restores the document and the pointer when the command's undo reverses it |
| Window.UndoThenRedo | app/GUI/main_window.py:275-294 | undo then redo is the identity when re-execution rebuilds the document |
| Window.RedoThenUndo | app/GUI/main_window.py:275-294 | redo then undo restores the document and the pointer |
| Window.CreateUndoRedo | app/GUI/main_window.py:170-294 | create, undo, redo ends with the same history as the create alone |
| Window.DivideInPlace | app/GUI/main_window.py:380 | `a /= k` succeeds exactly on a float array, and then the result times k is the input |
| Window.PlaneFrame | app/GUI/main_window.py:369-376 | the corrected frame holds the same vectors as written, in float arrays |
| Window.UnitNormal | app/GUI/main_window.py:377-380 | the plane is rejected for a normal shorter than 1e-6 or an integer array; otherwise the normal is divided by its magnitude |
| Window.RegisterPlaneAsWritten | app/GUI/main_window.py:383-389 | the stack pointer stays within the stack; what the step does is stated by `PlaneAsWrittenUndoLeavesActiveDangling` |
| Window.RegisterPlane | app/GUI/main_window.py:383-389 | the stack pointer stays within the stack; what the step does is stated by `RegisterPlaneInEmptyScene`, `RegisterPlaneUndo` and `PlaneUndoKeepsActiveRegistered` |
| Window.ReceivePlaneAsWritten | app/GUI/main_window.py:366-392 | the stack pointer stays within the stack; the reset case is stated by `ResetAsWrittenChangesNothing` |
| Window.ReceivePlane | app/GUI/main_window.py:366-392 | the stack pointer stays within the stack; the reset case is stated by `ResetOfEmptySceneActivatesXyPlane` |
| Window.ResetXyAsWritten | app/GUI/main_window.py:361-364 | the stack pointer stays within the stack; `ResetAsWrittenChangesNothing` states that the step changes nothing |
| Window.ResetXy | app/GUI/main_window.py:361-364 | the stack pointer stays within the stack; `ResetOfEmptySceneActivatesXyPlane` states its effect |
| Window.ClearProject | app/GUI/main_window.py:199-202 | buffers, definitions and history cleared; the active id kept |
| Window.NewProjectAsWritten | app/GUI/main_window.py:193-208 | the stack pointer stays within the stack; `NewProjectAsWrittenLeavesStaleActive` states its effect |
| Window.NewProject | app/GUI/main_window.py:193-208 | the stack pointer stays within the stack; `NewProjectActivatesXyPlane` states its effect |
| Window.ResetAsWrittenChangesNothing | app/GUI/main_window.py:375-380 | as written, the XY reset never creates its plane: `/=` on an integer array raises and is swallowed |
| Window.IntegerPlaneInputAsWrittenChangesNothing | app/GUI/main_window.py:370-391 | as written, a point and normal handed over as integers, such as the Global system's axes, create no plane either |
| Window.NewProjectAsWrittenLeavesStaleActive | app/GUI/main_window.py:193-208 | as written, a new project ends with an empty scene whose active plane id names nothing |
| Window.RegisterPlaneInEmptyScene | app/GUI/main_window.py:385-387 | at start-up a plane registered in an empty scene is the only object and the active plane, with an empty history |
| Window.UnitNormalOfUp | app/GUI/main_window.py:376-380 | the +z normal is already a unit vector |
| Window.ResetOfEmptySceneActivatesXyPlane | app/GUI/main_window.py:361-389 | corrected, the reset of an empty scene registers and activates the XY plane |
| Window.NewProjectActivatesXyPlane | app/GUI/main_window.py:193-208 | corrected, a new project ends with only the XY plane, active, and an empty history |
| Window.PlaneAsWrittenUndoLeavesActiveDangling | app/GUI/main_window.py:383-389 | as written, the first undo after defining a plane removes the plane while it stays the active plane |
| Window.PlaneUndoKeepsActiveRegistered | app/GUI/main_window.py:383-389 | corrected, both commands are recorded. Each undo leaves a registered active plane, and two undos restore the document |
| Window.RegisterPlaneUndo | app/GUI/main_window.py:383-389 | the two recorded commands of a new plane, undone one at a time |
| Window.GuardedRenameUndoes | app/GUI/main_window.py:530-535 | the rename guard suffices for the rename to be undone exactly |
| Window.MainWindow.constructor | app/GUI/main_window.py:41-74 | empty buffers and history and a fresh manager holding only Global, then follows the corrected `ResetXy` (Findings row 2), so the XY plane is created and active |
| Window.MainWindow.RunCreate | app/GUI/commands.py:40-83 | the create's execute, step by step, equals `Execute` |
| Window.MainWindow.RunDelete | app/GUI/commands.py:103-116 | the delete's execute equals `Execute` |
| Window.MainWindow.MoveObject | app/GUI/commands.py:134-149 | the rename's moves of actor, definition and active id |
| Window.MainWindow.SetActorVisibility | app/GUI/commands.py:162 | only that actor's visibility changes |
| Window.MainWindow.ActivatePlane | app/GUI/commands.py:175-187 | the activation equals `Activate` |
| Window.MainWindow.AddEntries | app/GUI/commands.py:272-274 | the buffer gains the entries; nothing else changes |
| Window.MainWindow.ImportShapes | app/GUI/commands.py:228-269 | the shape loop builds exactly `ImportEntries` |
| Window.MainWindow.RunImport | app/GUI/commands.py:206-278 | the import's execute equals `Execute` |
| Window.MainWindow.RunExecute | app/GUI/commands.py:40-347 | any command's execute equals `Execute` |
| Window.MainWindow.RemoveEntries | app/GUI/commands.py:280-287 | the import's undo removes exactly the created ids |
| Window.MainWindow.RunUndo | app/GUI/commands.py:85-354 | any command's undo equals `Undo` |
| Window.MainWindow.ExecuteCommand | app/GUI/main_window.py:170-183 | the history afterwards is `Perform` of the one before |
| Window.MainWindow.OnUndo | app/GUI/main_window.py:275-283 | the history afterwards is `UndoLast` of the one before |
| Window.MainWindow.OnRedo | app/GUI/main_window.py:285-294 | the history afterwards is `RedoNext` of the one before |
| Window.MainWindow.OnPlaneDataReceived | app/GUI/main_window.py:366-392 | follows the corrected `ReceivePlane` |
| Window.MainWindow.RegisterNewPlane | app/GUI/main_window.py:383-389 | follows the corrected `RegisterPlane` |
| Window.MainWindow.OnPlaneResetXy | app/GUI/main_window.py:361-364 | follows the corrected `ResetXy` |
| Window.MainWindow.OnNewProject | app/GUI/main_window.py:193-208 | the manager is reset to Global and the history follows the corrected `NewProject` |
| Window.MainWindow.OnDeleteObjectRequested | app/GUI/main_window.py:501-515 | a coordinate system is deleted from the manager. The active plane is refused. Otherwise a registered object is deleted through the history. The active id never changes |
| Window.MainWindow.OnRenameObjectRequested | app/GUI/main_window.py:517-535 | a coordinate system is renamed in the manager, and the active title follows it, when the name is non-empty, new and unused and the old title exists. Otherwise the manager is unchanged, and the history is never touched. An object is renamed through the history only to a non-empty new name, different from the old, naming no object |
| Window.MainWindow.OnVisibilityToggleRequested | app/GUI/main_window.py:545-550 | only a registered object is toggled, through the history |
| Window.MainWindow.OnSetActiveCsRequested | app/GUI/main_window.py:537-543 | an unknown title leaves the active system unchanged; a known one becomes active |

## Left out

- VTK rendering is not modelled: actors, mappers, colours, opacity, highlighting, cameras and `Render`. An actor is an opaque handle, and its visibility is the only property kept.
- The object browser is not modelled. The delete command's captured category is taken to be "the id was in the actor buffer". In a consistent scene the browser lists every buffered object.
- Logging, message boxes and input dialogs are not modelled. A dialog's answer is a parameter, and a confirmation is the decision to call the method.
- File I/O is not modelled (`_load_file`, the encoding). The DXF file is its list of lines, and an unreadable file is `None`.
- `update_plane_context` and the current-plane fields it sets are not modelled. The reason is that they call `vtkMath.Perpendiculars`.
- `create_plane_geometry_data` is not modelled, because it is built on `vtkPlaneSource`. A plane's mesh is a parameter.
- `create_sphere_data`, `create_cylinder_data`, `create_cone_data` and `_extract_polydata` are not modelled. They wrap VTK sources.
- Floating point is not modelled. Coordinates are real numbers, so inf, nan and rounding are out. The float literals accepted are finite decimal ones; "inf" and "nan" are out. `upper()` covers ASCII letters only; `strip()` removes Python's full whitespace set.
- `id(obj)` values are parameters. Distinct objects get distinct numbers only where a lemma requires it.
- Commands.ImportVizData: the mesh built for each imported shape is not stored. `ImportShapes` computes no drawing data, only the ids and actors; the drawing data appears only in lemmas.
- PyText.ParseInt / PyText.ParseFloat: ASCII digits only. Python's `int()` and `float()` also accept the other Unicode decimal digits, such as full-width digits. A code line written with them is read by dxf_reader.py:71 but dropped by `DxfReader.Tags`.
- Commands.Execute: re-executing a cached Planes create without a `definition` raises KeyError in the source (commands.py:45). The model registers the actor without a definition instead.
- Window.MainWindow.OnRedo: `on_redo` has no exception handler. No modelled execute raises, so nothing is lost.
- The `except ValueError` of `_parse` (dxf_reader.py:58-60) is unreachable: `_process_entity_tags` catches every conversion error itself. It is therefore not modelled.
- DxfReader.TagGenerator: the generator is consumed to the end before the section loop runs. Laziness is not observable, because the loop stops only at ENDSEC and the rest is never read.
- Coords.LocalCoordinateSystem is a value. `rename_cs` mutates the stored object's title, and no other reference to that object exists in the core.
- The test in tests/test_primitives.py:13 calls `create_line` with keyword arguments that do not match its signature. `Factory.LineOnXY` states the values the test expects, using the real signature.
- Window.PlaneFrameAsWritten: the point-and-normal dialog and the three-point dialog are taken to supply floats. The plane-from-LCS action (`on_plane_from_lcs`, which is not part of this model) hands over the stored axes of a coordinate system. For the Global system these are integer tuples (acrilib/threed/coords.py:43), so that input is a `PointVector` with `IntDType`. The caller's choice of system and axis is a parameter.
- The model follows the code on these points:
  - the y axis of a new frame is normalised (acrilib/threed/coords.py:68);
  - a failed command still cuts off the redo branch (app/GUI/main_window.py:172-177);
  - `delete_cs` protects neither Global nor the active system (acrilib/threed/coords.py:81-86);
  - undoing an activation with no previous plane keeps the new plane active (app/GUI/commands.py:188-191).

## Findings

| source | as written | input that shows it | evidently intended | confidence | as-written member | corrected member |
|---|---|---|---|---|---|---|
| app/GUI/main_window.py:383-389 | `SetActivePlaneCommand` is built before the create command runs, so it finds no actor and is not recorded | define a new plane when another plane is active, then undo once | the activation is recorded, and each undo leaves a registered active plane | not executed | Window.PlaneAsWrittenUndoLeavesActiveDangling | Window.PlaneUndoKeepsActiveRegistered |
| app/GUI/main_window.py:375-380 | the XY reset builds integer arrays, as does a plane from the Global system's integer axes, so `normal /= norm` raises and the handler swallows it. The XY plane is never created, and a new project keeps the old active id | start-up, or New Project after a plane was active; also a plane from the Global system's axes | the XY plane is created and active after start-up and after New Project, and any plane is normalised in a float array | not executed | Window.NewProjectAsWrittenLeavesStaleActive | Window.NewProjectActivatesXyPlane |
