/**
 * The scene document and the seven undoable commands, as values.
 *
 * The document is what the commands change on the main window: the actor buffer (object id
 * to actor handle), the plane definitions, the active plane id and the visibility of each
 * actor. A command value holds the fields the command object fills in when it runs (the
 * cached actor, the captured plane definition, the created import actors); `Execute` returns
 * the new document together with the updated command, and `Undo` returns the document after
 * the command's undo. Actor handles are opaque: a new actor is `Actor(next)` for a counter
 * `next` kept beside the document.
 */
module Commands {
  import opened Wrappers
  import opened Vectors
  import PyText
  import opened Shapes
  import opened PlaneHelpers
  import opened Factory
  import DxfReader

  /** An opaque VTK actor handle. */
  datatype Actor = Actor(handle: nat)

  /** A plane definition: `{'origin': ..., 'normal': ...}`. */
  datatype PlaneDef = PlaneDef(origin: Vec3, normal: Vec3)

  /** The document state the commands act on. `hidden` holds the actors whose visibility is 0. */
  datatype Document = Document(
    actors: map<string, Actor>,
    planes: map<string, PlaneDef>,
    activePlane: Option<string>,
    hidden: set<Actor>)

  const EmptyDocument := Document(map[], map[], None, {})

  /** `actor.GetVisibility()`: 1 unless the actor was hidden. */
  function Visibility(d: Document, a: Actor): int {
    if a in d.hidden then 0 else 1
  }

  /** `actor.SetVisibility(v)`: only that actor's visibility changes. */
  function SetVisibility(d: Document, a: Actor, v: int): (r: Document)
    ensures Visibility(r, a) == (if v == 0 then 0 else 1)
    ensures forall b :: b != a ==> Visibility(r, b) == Visibility(d, b)
    ensures r.actors == d.actors && r.planes == d.planes && r.activePlane == d.activePlane
  {
    d.(hidden := if v == 0 then d.hidden + {a} else d.hidden - {a})
  }

  /** `dict.get(k)`. */
  function Lookup<V>(m: map<string, V>, k: string): (r: Option<V>)
    ensures r.Some? <==> k in m
    ensures r.Some? ==> r.value == m[k]
  {
    if k in m then Some(m[k]) else None
  }

  /** `v = m.pop(from, None); if v: m[to] = v`: the entry under `from`, if any, moves to `to`. */
  function MoveKey<V>(m: map<string, V>, from: string, to: string): (r: map<string, V>)
    ensures from !in m ==> r == m
    ensures from in m ==> to in r && r[to] == m[from] && r.Keys == m.Keys - {from} + {to}
    ensures forall t :: t in m && t != from && t != to ==> t in r && r[t] == m[t]
  {
    if from in m then (m - {from})[to := m[from]] else m
  }

  /** Python truthiness of an optional id: present and non-empty. */
  predicate Truthy(id: Option<string>) {
    id.Some? && id.value != ""
  }

  /** The geometry dictionary of a create: a ready actor (`'actor'`), mesh entries, a plane definition. */
  datatype GeomData = GeomData(prebuilt: Option<Actor>, mesh: Option<Mesh>, definition: Option<PlaneDef>)

  /** The seven command classes with the fields their execute reads and writes. */
  datatype Command =
    | CreateObject(geom: GeomData, category: string, objectId: string, actor: Option<Actor>)
    | DeleteObject(objId: string, actorToDelete: Option<Actor>, categoryCaptured: bool, planeDef: Option<PlaneDef>)
    | RenameObject(oldId: string, newId: string, actor: Option<Actor>)
    | ToggleVisibility(objId: string, actor: Option<Actor>, previousVisibility: int)
    | SetActivePlane(oldActiveId: Option<string>, newActiveId: Option<string>, actor: Option<Actor>)
    | ImportDxf(content: Option<seq<string>>, ctx: PlaneContext, groupName: string,
                created: seq<(string, Actor)>, succeeded: bool)
    | CreateCuboid(objectId: string, actor: Option<Actor>)

  /** `getattr(command, 'actor', True)` is truthy: the history records the command. */
  predicate Recorded(c: Command) {
    match c
    case CreateObject(_, _, _, a) => a.Some?
    case DeleteObject(_, a, _, _) => a.Some?
    case RenameObject(_, _, a) => a.Some?
    case ToggleVisibility(_, a, _) => a.Some?
    case SetActivePlane(_, _, a) => a.Some?
    case ImportDxf(_, _, _, _, ok) => ok
    case CreateCuboid(_, a) => a.Some?
  }

  // ---------------------------------------------------------------------------
  // Construction (the `__init__` of each command, reading the document where it does)

  /**
   * `CreateObjectCommand(mw, geom, category=..., object_name=...)`: the category defaults to
   * "Primitives"; the id defaults to the category without trailing 's' characters, "_", and
   * the object's identity `uid`.
   */
  function NewCreateObject(geom: GeomData, category: Option<string>, objectName: Option<string>, uid: nat): (c: Command)
    ensures c.CreateObject? && c.actor.None?
  {
    var cat := category.GetOr("Primitives");
    CreateObject(geom, cat, objectName.GetOr(PyText.RStripChar(cat, 's') + "_" + PyText.IntToString(uid)), None)
  }

  /** `DeleteObjectCommand(mw, id)`: looks the actor up now. */
  function NewDeleteObject(d: Document, id: string): Command {
    DeleteObject(id, Lookup(d.actors, id), false, None)
  }

  /** `RenameObjectCommand(mw, old, new)`: looks the actor up now. */
  function NewRenameObject(d: Document, oldId: string, newId: string): Command {
    RenameObject(oldId, newId, Lookup(d.actors, oldId))
  }

  /** `ToggleVisibilityCommand(mw, id)`: captures the actor and its current visibility (0 without an actor). */
  function NewToggleVisibility(d: Document, id: string): Command {
    var a := Lookup(d.actors, id);
    ToggleVisibility(id, a, if a.Some? then Visibility(d, a.value) else 0)
  }

  /** `SetActivePlaneCommand(mw, new_id)`: captures the current active id and looks the new actor up now. */
  function NewSetActivePlane(d: Document, newId: Option<string>): Command {
    SetActivePlane(d.activePlane, newId, if newId.Some? then Lookup(d.actors, newId.value) else None)
  }

  /** `ImportDxfCommand(mw, path, origin, ctx)`; `content` is the file's lines, None when it cannot be read. */
  function NewImportDxf(content: Option<seq<string>>, ctx: PlaneContext, uid: nat): Command {
    ImportDxf(content, ctx, "DXF_Import_" + PyText.IntToString(uid), [], true)
  }

  /** `CreateCuboidCommand(mw, data)`. */
  function NewCreateCuboid(uid: nat): Command {
    CreateCuboid("Cuboid_" + PyText.IntToString(uid), None)
  }

  // ---------------------------------------------------------------------------
  // DXF import

  /** The shape types the import draws: LINE, CIRCLE, ARC and LWPOLYLINE (TEXT is skipped). */
  predicate IsImported(s: Shape) {
    !s.Text?
  }

  /** `f"{group}_Shape_{i}"`. */
  function ShapeId(group: string, i: nat): string {
    group + "_Shape_" + PyText.IntToString(i)
  }

  /**
   * The `(id, actor)` entries the first import run creates, in order: one per drawn shape,
   * keyed by the shape's index, with fresh actors numbered from `next`.
   */
  function ImportEntries(group: string, shapes: seq<Shape>, next: nat): (es: seq<(string, Actor)>)
    ensures |es| <= |shapes|
    ensures forall j :: 0 <= j < |es| ==> es[j].1 == Actor(next + j)
    decreases |shapes|
  {
    if shapes == [] then []
    else
      var i := |shapes| - 1;
      var prev := ImportEntries(group, shapes[..i], next);
      if IsImported(shapes[i]) then prev + [(ShapeId(group, i), Actor(next + |prev|))] else prev
  }

  /** The ids of a list of entries. */
  function EntryIds(es: seq<(string, Actor)>): set<string> {
    set j | 0 <= j < |es| :: es[j].0
  }

  /** `for obj_id, actor in entries: buffer[obj_id] = actor`. */
  function AddAll(m: map<string, Actor>, es: seq<(string, Actor)>): map<string, Actor>
    decreases |es|
  {
    if es == [] then m else AddAll(m, es[..|es| - 1])[es[|es| - 1].0 := es[|es| - 1].1]
  }

  /** The drawing data of one imported shape: only x and y of its points are used. */
  function ImportVizData(s: Shape, ctx: PlaneContext, cos: real -> real, sin: real -> real): Option<Mesh> {
    match s
    case Line(_, _, p, q) => Some(CreateLine(p.x, p.y, q.x, q.y, ctx))
    case Circle(_, _, c, r) => Some(CircleMesh(c.x, c.y, r, ctx, 100, cos, sin).value)
    case Arc(_, _, c, r, _, _) => Some(CircleMesh(c.x, c.y, r, ctx, 100, cos, sin).value)
    case LwPolyline(_, _, vs, _) =>
      Some(Mesh(seq(|vs|, i requires 0 <= i < |vs| => TransformToPlane(vs[i].x, vs[i].y, ctx)), [Range(|vs|)], Lines))
    case Text(_, _, _, _, _) => None
  }

  // ---------------------------------------------------------------------------
  // Execute and undo

  /** The result of an execute: the new document, the command with its updated fields, the actor counter. */
  datatype Step = Step(doc: Document, cmd: Command, next: nat)

  /** Registering a created object: the actor, and the definition of a plane that has one. */
  function Register(d: Document, category: string, id: string, geom: GeomData, a: Actor): Document {
    d.(actors := d.actors[id := a],
       planes := if category == "Planes" && geom.definition.Some? then d.planes[id := geom.definition.value] else d.planes)
  }

  /** `SetActivePlaneCommand.execute` with the given new id (highlighting left out). */
  function Activate(d: Document, newId: Option<string>): Document {
    if Truthy(newId) && newId.value in d.actors && newId.value in d.planes then d.(activePlane := newId) else d
  }

  /** `command.execute()`. */
  function Execute(d: Document, c: Command, next: nat): Step {
    match c
    case CreateObject(geom, cat, id, cached) =>
      if cached.Some? then Step(Register(d, cat, id, geom, cached.value), c, next)
      else if geom.prebuilt.Some? then Step(Register(d, cat, id, geom, geom.prebuilt.value), CreateObject(geom, cat, id, geom.prebuilt), next)
      else if geom.mesh.Some? then Step(Register(d, cat, id, geom, Actor(next)), CreateObject(geom, cat, id, Some(Actor(next))), next + 1)
      else Step(d, c, next)
    case DeleteObject(id, target, captured, pd) =>
      if target.None? then Step(d, c, next)
      else
        var c' := DeleteObject(id, target, captured || id in d.actors, if id in d.planes then Some(d.planes[id]) else pd);
        Step(d.(actors := d.actors - {id}, planes := d.planes - {id}), c', next)
    case RenameObject(o, n, _) =>
      Step(d.(actors := MoveKey(d.actors, o, n), planes := MoveKey(d.planes, o, n),
              activePlane := if d.activePlane == Some(o) then Some(n) else d.activePlane), c, next)
    case ToggleVisibility(_, a, _) =>
      if a.Some? then Step(SetVisibility(d, a.value, 1 - Visibility(d, a.value)), c, next) else Step(d, c, next)
    case SetActivePlane(_, newId, _) =>
      Step(Activate(d, newId), c, next)
    case ImportDxf(content, ctx, group, created, ok) =>
      if created != [] then Step(d.(actors := AddAll(d.actors, created)), c, next)
      else if content.None? then Step(d, ImportDxf(content, ctx, group, created, false), next)
      else
        var es := ImportEntries(group, DxfReader.ParseLines(content.value), next);
        Step(d.(actors := AddAll(d.actors, es)), ImportDxf(content, ctx, group, es, ok), next + |es|)
    case CreateCuboid(id, a) =>
      if a.Some? then Step(d.(actors := d.actors[id := a.value]), c, next) else Step(d, c, next)
  }

  /** `command.undo()`. */
  function Undo(d: Document, c: Command): Document {
    match c
    case CreateObject(_, _, id, a) =>
      if a.Some? then d.(actors := d.actors - {id}, planes := d.planes - {id}) else d
    case DeleteObject(id, target, captured, pd) =>
      if target.Some? && captured then
        d.(actors := d.actors[id := target.value], planes := if pd.Some? then d.planes[id := pd.value] else d.planes)
      else d
    case RenameObject(o, n, _) =>
      d.(actors := MoveKey(d.actors, n, o), planes := MoveKey(d.planes, n, o),
         activePlane := if d.activePlane == Some(n) then Some(o) else d.activePlane)
    case ToggleVisibility(_, a, previous) =>
      if a.Some? then SetVisibility(d, a.value, previous) else d
    case SetActivePlane(oldId, _, _) =>
      Activate(d, oldId)
    case ImportDxf(_, _, _, created, _) =>
      d.(actors := d.actors - EntryIds(created))
    case CreateCuboid(id, a) =>
      if a.Some? then d.(actors := d.actors - {id}) else d
  }

  // ---------------------------------------------------------------------------
  // Properties

  /**
   * A first create registers a fresh actor under the object id (and the plane definition for
   * a plane) and is recorded; undoing it restores a document in which the id was unused.
   */
  lemma CreateThenUndo(d: Document, geom: GeomData, category: Option<string>, objectName: Option<string>,
                       uid: nat, next: nat)
    requires geom.prebuilt.Some? || geom.mesh.Some?
    requires var id := NewCreateObject(geom, category, objectName, uid).objectId;
             id !in d.actors && id !in d.planes
    ensures var c := NewCreateObject(geom, category, objectName, uid);
            var s := Execute(d, c, next);
            Recorded(s.cmd) && c.objectId in s.doc.actors && Undo(s.doc, s.cmd) == d
  {
    var c := NewCreateObject(geom, category, objectName, uid);
    var s := Execute(d, c, next);
    assert s.doc.actors - {c.objectId} == d.actors;
    assert s.doc.planes - {c.objectId} == d.planes;
  }

  /** A create without an actor or mesh entries fails: nothing changes and it is not recorded. */
  lemma CreateWithoutGeometryFails(d: Document, geom: GeomData, category: Option<string>, objectName: Option<string>,
                                   uid: nat, next: nat)
    requires geom.prebuilt.None? && geom.mesh.None?
    ensures var s := Execute(d, NewCreateObject(geom, category, objectName, uid), next);
            s.doc == d && !Recorded(s.cmd) && Undo(s.doc, s.cmd) == d
  {
  }

  /** Redoing a create after its undo puts back the very same actor, and allocates nothing. */
  lemma CreateRedoReusesActor(d: Document, c: Command, next: nat)
    requires c.CreateObject? && c.actor.Some?
    requires c.objectId !in d.actors && c.objectId !in d.planes
    ensures var s := Execute(d, c, next);
            Undo(s.doc, s.cmd) == d && s.next == next
            && Execute(Undo(s.doc, s.cmd), s.cmd, next) == s
            && s.doc.actors[c.objectId] == c.actor.value
  {
    var s := Execute(d, c, next);
    assert s.doc.actors - {c.objectId} == d.actors;
    assert s.doc.planes - {c.objectId} == d.planes;
  }

  /**
   * Deleting a registered object removes it and its plane definition and is recorded; undo
   * restores exactly the previous document, the same actor and definition under the same id.
   */
  lemma DeleteThenUndo(d: Document, id: string, next: nat)
    requires id in d.actors
    ensures var s := Execute(d, NewDeleteObject(d, id), next);
            Recorded(s.cmd) && id !in s.doc.actors && id !in s.doc.planes
            && Undo(s.doc, s.cmd) == d
  {
    var s := Execute(d, NewDeleteObject(d, id), next);
    assert s.doc.actors[id := d.actors[id]] == d.actors;
    if id in d.planes {
      assert s.doc.planes[id := d.planes[id]] == d.planes;
    } else {
      assert s.doc.planes == d.planes;
    }
  }

  /** Deleting an unregistered id does nothing and is not recorded. */
  lemma DeleteUnknownIgnored(d: Document, id: string, next: nat)
    requires id !in d.actors
    ensures var s := Execute(d, NewDeleteObject(d, id), next);
            s.doc == d && !Recorded(s.cmd)
  {
  }

  lemma MoveKeyBack<V>(m: map<string, V>, o: string, n: string)
    requires n !in m
    ensures MoveKey(MoveKey(m, o, n), n, o) == m
  {
    if o in m && o != n {
      var r := MoveKey(MoveKey(m, o, n), n, o);
      assert r.Keys == m.Keys;
    }
  }

  /**
   * A rename moves the actor, the plane definition and the active plane pointer from the old
   * id to the new one; when the new id is unused, undo restores the document exactly.
   */
  lemma RenameThenUndo(d: Document, o: string, n: string, next: nat)
    requires n !in d.actors && n !in d.planes && d.activePlane != Some(n)
    ensures var s := Execute(d, NewRenameObject(d, o, n), next);
            (Recorded(s.cmd) <==> o in d.actors)
            && (o in d.actors && o != n ==> o !in s.doc.actors && s.doc.actors[n] == d.actors[o])
            && (d.activePlane == Some(o) ==> s.doc.activePlane == Some(n))
            && Undo(s.doc, s.cmd) == d
  {
    MoveKeyBack(d.actors, o, n);
    MoveKeyBack(d.planes, o, n);
  }

  /**
   * Toggling flips the actor's visibility (1 - current) and is recorded; undo restores the
   * value captured when the command was built, so it gives back the document.
   */
  lemma ToggleThenUndo(d: Document, id: string, next: nat)
    requires id in d.actors
    ensures var a := d.actors[id];
            var s := Execute(d, NewToggleVisibility(d, id), next);
            Recorded(s.cmd) && Visibility(s.doc, a) == 1 - Visibility(d, a)
            && Undo(s.doc, s.cmd) == d
  {
    var a := d.actors[id];
    var s := Execute(d, NewToggleVisibility(d, id), next);
    assert Undo(s.doc, s.cmd).hidden == d.hidden;
  }

  /** Executing a toggle twice restores the visibility. */
  lemma ToggleTwice(d: Document, id: string, next: nat)
    requires id in d.actors
    ensures var c := NewToggleVisibility(d, id);
            Execute(Execute(d, c, next).doc, c, next).doc == d
  {
    var a := d.actors[id];
    var c := NewToggleVisibility(d, id);
    var once := Execute(d, c, next).doc;
    assert Execute(once, c, next).doc.hidden == d.hidden;
  }

  /** The active plane id names a registered plane: present and non-empty, with an actor and a definition. */
  predicate ActivePlaneRegistered(d: Document) {
    Truthy(d.activePlane) && d.activePlane.value in d.actors && d.activePlane.value in d.planes
  }

  /**
   * Activation changes the active id exactly when the new id is a registered plane; when the
   * previous active plane was registered, undo re-activates it and restores the document.
   */
  lemma SetActiveThenUndo(d: Document, newId: Option<string>, next: nat)
    requires ActivePlaneRegistered(d)
    ensures var s := Execute(d, NewSetActivePlane(d, newId), next);
            (s.doc.activePlane == newId <==> ActivePlaneRegistered(d.(activePlane := newId)) || newId == d.activePlane)
            && (s.doc != d ==> s.doc == d.(activePlane := newId))
            && Undo(s.doc, s.cmd) == d
  {
  }

  /**
   * Undo of an activation re-runs the activation with the ids swapped, so it cannot clear the
   * pointer: undoing the first activation (no previous active plane) keeps the new one active.
   */
  lemma UndoFirstActivationKeepsPlane(d: Document, newId: string, next: nat)
    requires d.activePlane.None? && ActivePlaneRegistered(d.(activePlane := Some(newId)))
    ensures var s := Execute(d, NewSetActivePlane(d, Some(newId)), next);
            s.doc.activePlane == Some(newId) && Undo(s.doc, s.cmd).activePlane == Some(newId)
  {
  }

  lemma ShapeIdInjective(group: string, i: nat, k: nat)
    requires ShapeId(group, i) == ShapeId(group, k)
    ensures i == k
  {
    var p := group + "_Shape_";
    assert ShapeId(group, i)[|p|..] == PyText.IntToString(i);
    assert ShapeId(group, k)[|p|..] == PyText.IntToString(k);
    PyText.IntToStringInjective(i, k);
  }

  /** Every import entry is keyed by the index of a drawn (LINE, CIRCLE, ARC or LWPOLYLINE) shape. */
  lemma {:induction false} ImportEntriesAreDrawn(group: string, shapes: seq<Shape>, next: nat)
    ensures forall j :: 0 <= j < |ImportEntries(group, shapes, next)| ==>
              exists k :: 0 <= k < |shapes| && IsImported(shapes[k])
                          && ImportEntries(group, shapes, next)[j].0 == ShapeId(group, k)
    decreases |shapes|
  {
    if shapes != [] {
      var i := |shapes| - 1;
      var init := shapes[..i];
      var prev := ImportEntries(group, init, next);
      ImportEntriesAreDrawn(group, init, next);
      assert forall j :: 0 <= j < |prev| ==>
               exists k :: 0 <= k < |init| && IsImported(init[k]) && prev[j].0 == ShapeId(group, k);
      var es := ImportEntries(group, shapes, next);
      forall j | 0 <= j < |es|
        ensures exists k :: 0 <= k < |shapes| && IsImported(shapes[k]) && es[j].0 == ShapeId(group, k)
      {
        if j < |prev| {
          assert es[j] == prev[j];
          var k :| 0 <= k < |init| && IsImported(init[k]) && prev[j].0 == ShapeId(group, k);
          assert init[k] == shapes[k];
        } else {
          assert es[j].0 == ShapeId(group, i) && IsImported(shapes[i]);
        }
      }
      assert forall j :: 0 <= j < |ImportEntries(group, shapes, next)| ==>
              exists k :: 0 <= k < |shapes| && IsImported(shapes[k])
                          && ImportEntries(group, shapes, next)[j].0 == ShapeId(group, k);
    } else {
      assert ImportEntries(group, shapes, next) == [];
    }
  }

  /** Every drawn shape has an import entry keyed by its index. */
  lemma {:induction false} ImportEntriesCoverDrawn(group: string, shapes: seq<Shape>, next: nat)
    ensures forall k :: 0 <= k < |shapes| && IsImported(shapes[k]) ==>
              ShapeId(group, k) in EntryIds(ImportEntries(group, shapes, next))
    decreases |shapes|
  {
    if shapes != [] {
      var i := |shapes| - 1;
      var init := shapes[..i];
      var prev := ImportEntries(group, init, next);
      ImportEntriesCoverDrawn(group, init, next);
      var es := ImportEntries(group, shapes, next);
      assert EntryIds(prev) <= EntryIds(es) by {
        forall j | 0 <= j < |prev| ensures prev[j].0 in EntryIds(es) {
          assert es[j] == prev[j];
        }
      }
      forall k | 0 <= k < |shapes| && IsImported(shapes[k])
        ensures ShapeId(group, k) in EntryIds(es)
      {
        if k < i {
          assert init[k] == shapes[k];
        } else {
          assert es[|prev|].0 == ShapeId(group, k);
        }
      }
    }
  }

  /** No two import entries share an id. */
  lemma {:induction false} ImportEntriesDistinct(group: string, shapes: seq<Shape>, next: nat)
    ensures forall j1, j2 :: 0 <= j1 < j2 < |ImportEntries(group, shapes, next)| ==>
              ImportEntries(group, shapes, next)[j1].0 != ImportEntries(group, shapes, next)[j2].0
    decreases |shapes|
  {
    if shapes != [] {
      var i := |shapes| - 1;
      var init := shapes[..i];
      var prev := ImportEntries(group, init, next);
      ImportEntriesDistinct(group, init, next);
      EarlierEntriesDiffer(group, init, next);
      if IsImported(shapes[i]) {
        assert ImportEntries(group, shapes, next) == prev + [(ShapeId(group, i), Actor(next + |prev|))];
      } else {
        assert ImportEntries(group, shapes, next) == prev;
      }
    } else {
      assert ImportEntries(group, shapes, next) == [];
    }
  }

  /** The entries of the first `i` shapes are not keyed by index `i`. */
  lemma EarlierEntriesDiffer(group: string, init: seq<Shape>, next: nat)
    ensures forall j :: 0 <= j < |ImportEntries(group, init, next)| ==>
              ImportEntries(group, init, next)[j].0 != ShapeId(group, |init|)
  {
    var prev := ImportEntries(group, init, next);
    ImportEntriesAreDrawn(group, init, next);
    forall j | 0 <= j < |prev|
      ensures prev[j].0 != ShapeId(group, |init|)
    {
      var k :| 0 <= k < |init| && IsImported(init[k]) && prev[j].0 == ShapeId(group, k);
      if prev[j].0 == ShapeId(group, |init|) {
        ShapeIdInjective(group, k, |init|);
      }
    }
  }

  /** The drawing data exists exactly for the imported shape types, so the entries follow it. */
  lemma ImportVizDataExistsIffImported(s: Shape, ctx: PlaneContext, cos: real -> real, sin: real -> real)
    ensures ImportVizData(s, ctx, cos, sin).Some? <==> IsImported(s)
  {
  }

  /** The import ignores elevation: changing the z of every point of a line gives the same drawing. */
  lemma ImportIgnoresElevation(l: string, col: int, p: Vec3, q: Vec3, z1: real, z2: real,
                               ctx: PlaneContext, cos: real -> real, sin: real -> real)
    ensures ImportVizData(Line(l, col, p, q), ctx, cos, sin)
            == ImportVizData(Line(l, col, p.(z := z1), q.(z := z2)), ctx, cos, sin)
  {
  }

  /** An arc is drawn as the full circle of its centre and radius; its angles are not used. */
  lemma ArcDrawnAsFullCircle(l: string, col: int, c: Vec3, r: real, a: real, b: real,
                             ctx: PlaneContext, cos: real -> real, sin: real -> real)
    ensures ImportVizData(Arc(l, col, c, r, a, b), ctx, cos, sin) == ImportVizData(Circle(l, col, c, r), ctx, cos, sin)
  {
  }

  /** Adding the entries one by one is a union with the map the entries build on their own. */
  lemma {:induction false} AddAllIsUnion(m: map<string, Actor>, es: seq<(string, Actor)>)
    ensures AddAll(m, es) == m + AddAll(map[], es)
    ensures AddAll(map[], es).Keys == EntryIds(es)
    decreases |es|
  {
    if es != [] {
      var init := es[..|es| - 1];
      var last := es[|es| - 1];
      AddAllIsUnion(m, init);
      AddAllIsUnion(map[], init);
      assert EntryIds(es) == EntryIds(init) + {last.0} by {
        assert forall j :: 0 <= j < |init| ==> init[j] == es[j];
      }
      assert (m + AddAll(map[], init))[last.0 := last.1] == m + AddAll(map[], init)[last.0 := last.1];
    }
  }

  /** Removing the ids of entries added to a map that held none of them gives the map back. */
  lemma AddThenRemove(m: map<string, Actor>, es: seq<(string, Actor)>)
    requires EntryIds(es) !! m.Keys
    ensures AddAll(m, es).Keys == m.Keys + EntryIds(es)
    ensures AddAll(m, es) - EntryIds(es) == m
  {
    AddAllIsUnion(m, es);
  }

  /**
   * Importing registers one actor per drawn shape and is recorded; undo removes them, which
   * restores the document when none of the import ids was in use.
   */
  lemma ImportThenUndo(d: Document, c: Command, next: nat)
    requires c.ImportDxf? && c.created == [] && c.content.Some? && c.succeeded
    requires EntryIds(ImportEntries(c.groupName, DxfReader.ParseLines(c.content.value), next)) !! d.actors.Keys
    ensures var s := Execute(d, c, next);
            Recorded(s.cmd) && s.doc.actors.Keys == d.actors.Keys + EntryIds(s.cmd.created)
            && Undo(s.doc, s.cmd) == d
  {
    var es := ImportEntries(c.groupName, DxfReader.ParseLines(c.content.value), next);
    var s := Execute(d, c, next);
    assert s.doc == d.(actors := AddAll(d.actors, es)) && s.cmd == ImportDxf(c.content, c.ctx, c.groupName, es, true);
    AddThenRemove(d.actors, es);
    assert Undo(s.doc, s.cmd) == d.(actors := AddAll(d.actors, es) - EntryIds(es));
  }

  /** An unreadable file fails the import: nothing changes and the command is not recorded. */
  lemma ImportUnreadableFails(d: Document, ctx: PlaneContext, uid: nat, next: nat)
    ensures var s := Execute(d, NewImportDxf(None, ctx, uid), next);
            s.doc == d && !Recorded(s.cmd)
  {
  }

  /**
   * Redoing an import after its undo re-adds the same actors under the same ids: the document
   * is the one the import first produced, and no new actor is allocated.
   */
  lemma ImportRedoReusesActors(d: Document, c: Command, next: nat)
    requires c.ImportDxf? && c.created != []
    ensures var s := Execute(d, c, next);
            Execute(Undo(s.doc, s.cmd), s.cmd, next) == s
  {
    var es := c.created;
    AddAllIsUnion(d.actors, es);
    var a := AddAll(map[], es);
    AddAllIsUnion(d.actors + a - EntryIds(es), es);
    assert d.actors + a - EntryIds(es) + a == d.actors + a;
  }

  /** The solid cuboid command always fails (its factory functions do not exist): no change, not recorded. */
  lemma CreateCuboidFails(d: Document, uid: nat, next: nat)
    ensures var s := Execute(d, NewCreateCuboid(uid), next);
            s.doc == d && !Recorded(s.cmd)
  {
  }

  /**
   * A cuboid command holding an actor re-adds it on execute and removes it on undo. No
   * cuboid command ever holds one, since its first execute always fails.
   */
  lemma CachedCuboidThenUndo(d: Document, id: string, a: Actor, next: nat)
    requires id !in d.actors
    ensures var s := Execute(d, CreateCuboid(id, Some(a)), next);
            s.doc.actors == d.actors[id := a] && s.next == next && Recorded(s.cmd) && Undo(s.doc, s.cmd) == d
  {
  }
}
