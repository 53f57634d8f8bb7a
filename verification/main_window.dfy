/**
 * The main window's scene state, its undo/redo history and the request handlers that guard
 * deletion, renaming and visibility, plus the plane definition flow.
 *
 * `History` and the functions over it are the specification of the history; the class
 * `MainWindow` holds the same state in fields and runs each command step by step, and each of
 * its methods is proved to follow the specification. VTK rendering, the object browser and the
 * dialogs are not modelled: a dialog's answer is a parameter.
 */
module Window {
  import opened Wrappers
  import opened Vectors
  import PyText
  import opened Shapes
  import opened Factory
  import opened Coords
  import DxfReader
  import opened Commands

  // ---------------------------------------------------------------------------
  // The history

  /** The document, the actor counter, `command_stack` and `stack_pointer`. */
  datatype History = History(doc: Document, next: nat, stack: seq<Command>, pointer: int)

  /** `stack_pointer` indexes the last applied command, or is -1 when none is applied. */
  predicate WellPointed(h: History) {
    -1 <= h.pointer < |h.stack|
  }

  /**
   * `execute_command`: the redo branch is cut off first, then the command runs; it is pushed
   * only when it reports success. Whatever happens, nothing is left to redo and the applied
   * commands before it are kept.
   */
  function Perform(h: History, c: Command): (r: History)
    requires WellPointed(h)
    ensures WellPointed(r) && r.pointer == |r.stack| - 1
    ensures var s := Execute(h.doc, c, h.next);
            r.doc == s.doc && r.next == s.next
            && r.pointer == (if Recorded(s.cmd) then h.pointer + 1 else h.pointer)
            && (Recorded(s.cmd) ==> r.stack[r.pointer] == s.cmd)
    ensures r.stack[..h.pointer + 1] == h.stack[..h.pointer + 1]
  {
    var stack := if h.pointer < |h.stack| - 1 then h.stack[..h.pointer + 1] else h.stack;
    var s := Execute(h.doc, c, h.next);
    if Recorded(s.cmd) then History(s.doc, s.next, stack + [s.cmd], h.pointer + 1)
    else History(s.doc, s.next, stack, h.pointer)
  }

  /** `on_undo`: undoes the command under the pointer and steps back; nothing happens at -1. */
  function UndoLast(h: History): (r: History)
    requires WellPointed(h)
    ensures WellPointed(r) && r.stack == h.stack && r.next == h.next
    ensures r.pointer == (if h.pointer >= 0 then h.pointer - 1 else -1)
    ensures h.pointer >= 0 ==> r.doc == Undo(h.doc, h.stack[h.pointer])
    ensures h.pointer < 0 ==> r == h
  {
    if h.pointer >= 0 then History(Undo(h.doc, h.stack[h.pointer]), h.next, h.stack, h.pointer - 1) else h
  }

  /**
   * `on_redo`: steps forward and executes the command there again (the command object keeps
   * what that execute sets); nothing happens when no command is left to redo.
   */
  function RedoNext(h: History): (r: History)
    requires WellPointed(h)
    ensures WellPointed(r) && |r.stack| == |h.stack|
    ensures r.pointer == (if h.pointer < |h.stack| - 1 then h.pointer + 1 else h.pointer)
    ensures forall k :: 0 <= k < |h.stack| && k != r.pointer ==> r.stack[k] == h.stack[k]
    ensures h.pointer < |h.stack| - 1 ==>
              var s := Execute(h.doc, h.stack[h.pointer + 1], h.next);
              r.doc == s.doc && r.next == s.next && r.stack[r.pointer] == s.cmd
    ensures h.pointer == |h.stack| - 1 ==> r == h
  {
    if h.pointer < |h.stack| - 1 then
      var s := Execute(h.doc, h.stack[h.pointer + 1], h.next);
      History(s.doc, s.next, h.stack[h.pointer + 1 := s.cmd], h.pointer + 1)
    else h
  }

  /** After a command is performed there is nothing to redo. */
  lemma PerformLeavesNothingToRedo(h: History, c: Command)
    requires WellPointed(h)
    ensures RedoNext(Perform(h, c)) == Perform(h, c)
  {
  }

  /**
   * A command that fails still cuts off the redo branch: the stack is the applied prefix and
   * whatever the failed execute changed stays.
   */
  lemma FailedCommandStillTruncates(h: History, c: Command)
    requires WellPointed(h) && !Recorded(Execute(h.doc, c, h.next).cmd)
    ensures Perform(h, c).stack == h.stack[..h.pointer + 1]
    ensures Perform(h, c).doc == Execute(h.doc, c, h.next).doc
  {
  }

  /** When a command's undo reverses its execute, performing then undoing it gives the document back. */
  lemma PerformThenUndo(h: History, c: Command)
    requires WellPointed(h)
    requires var s := Execute(h.doc, c, h.next); Recorded(s.cmd) && Undo(s.doc, s.cmd) == h.doc
    ensures UndoLast(Perform(h, c)).doc == h.doc
    ensures UndoLast(Perform(h, c)).pointer == h.pointer
  {
  }

  /**
   * Undo then redo is the identity when executing the undone command again rebuilds the
   * document it had produced (as a create or an import does, with the actors it cached).
   */
  lemma UndoThenRedo(h: History)
    requires WellPointed(h) && h.pointer >= 0
    requires var c := h.stack[h.pointer];
             Execute(Undo(h.doc, c), c, h.next) == Step(h.doc, c, h.next)
    ensures RedoNext(UndoLast(h)) == h
  {
    var u := UndoLast(h);
    assert u.stack[u.pointer + 1 := h.stack[h.pointer]] == h.stack;
  }

  /** Redo then undo gives the document back when the command's undo reverses its execute. */
  lemma RedoThenUndo(h: History)
    requires WellPointed(h) && h.pointer < |h.stack| - 1
    requires var s := Execute(h.doc, h.stack[h.pointer + 1], h.next); Undo(s.doc, s.cmd) == h.doc
    ensures UndoLast(RedoNext(h)).doc == h.doc && UndoLast(RedoNext(h)).pointer == h.pointer
  {
  }

  /** Creating an object, undoing and redoing it ends with the same history as the create alone. */
  lemma CreateUndoRedo(h: History, c: Command)
    requires WellPointed(h) && c.CreateObject? && c.actor.None?
    requires c.geom.prebuilt.Some? || c.geom.mesh.Some?
    requires c.objectId !in h.doc.actors && c.objectId !in h.doc.planes
    ensures var p := Perform(h, c);
            UndoLast(p).doc == h.doc && RedoNext(UndoLast(p)) == p
  {
    var s := Execute(h.doc, c, h.next);
    var p := Perform(h, c);
    CreateRedoReusesActor(h.doc, s.cmd, h.next);
    assert s.doc.actors - {c.objectId} == h.doc.actors;
    assert s.doc.planes - {c.objectId} == h.doc.planes;
    UndoThenRedo(p);
  }

  // ---------------------------------------------------------------------------
  // Plane definition

  const GlobalPlaneName := "Global_XY_Plane"
  const CsCategory := "Coordinate Systems"

  /** The element type of a numpy array. */
  datatype DType = IntDType | FloatDType

  /**
   * The three ways a plane is defined: a point and a normal, three points, or the XY reset.
   * A point and a normal carry the element type of the values handed over: floats from the
   * dialog, and the stored tuples of a coordinate system from the plane-from-LCS action,
   * which are integers for the Global system (coords.py:43).
   */
  datatype PlaneInput =
    | PointVector(origin: Vec3, normal: Vec3, dtype: DType)
    | ThreePoints(p1: Vec3, p2: Vec3, p3: Vec3)
    | ResetXY

  datatype NdArray = NdArray(v: Vec3, dtype: DType)

  /**
   * `a /= k` on a numpy array: the quotient is a float array, which numpy refuses to cast
   * back into an integer array (an exception); a float array is divided component-wise.
   */
  function DivideInPlace(a: NdArray, k: real): (r: Option<NdArray>)
    requires k != 0.0
    ensures r.Some? <==> a.dtype == FloatDType
    ensures r.Some? ==> r.value.dtype == FloatDType && Scale(k, r.value.v) == a.v
  {
    match a.dtype
    case IntDType => None
    case FloatDType =>
      var q := Vec3(a.v.x / k, a.v.y / k, a.v.z / k);
      assert k * q.x == a.v.x && k * q.y == a.v.y && k * q.z == a.v.z;
      Some(NdArray(q, FloatDType))
  }

  /**
   * The origin and normal `on_plane_data_received` derives from its input, as written: the
   * reset builds `np.array([0,0,0])` and `np.array([0,0,1])`, integer arrays; a point and a
   * normal keep the element type they were handed over with; three points come from the dialog
   * as floats.
   */
  function PlaneFrameAsWritten(input: PlaneInput): (NdArray, NdArray) {
    match input
    case PointVector(o, n, t) => (NdArray(o, t), NdArray(n, t))
    case ThreePoints(p1, p2, p3) => (NdArray(p1, FloatDType), NdArray(Cross(Sub(p2, p1), Sub(p3, p1)), FloatDType))
    case ResetXY => (NdArray(Zero, IntDType), NdArray(Vec3(0.0, 0.0, 1.0), IntDType))
  }

  /** The corrected frame: the same vectors, held in float arrays. */
  function PlaneFrame(input: PlaneInput): (r: (NdArray, NdArray))
    ensures r.0.v == PlaneFrameAsWritten(input).0.v && r.1.v == PlaneFrameAsWritten(input).1.v
    ensures r.0.dtype == FloatDType && r.1.dtype == FloatDType
  {
    var (o, n) := PlaneFrameAsWritten(input);
    (o.(dtype := FloatDType), n.(dtype := FloatDType))
  }

  /**
   * The unit normal: None when the normal is shorter than 1e-6 (the plane is rejected) or
   * when the in-place division raises; otherwise the normal divided by its magnitude.
   */
  function UnitNormal(n: NdArray, sqrt: real -> real): (r: Option<Vec3>)
    ensures r.Some? ==> n.dtype == FloatDType && Magnitude(n.v, sqrt) >= 0.000001
    ensures r.Some? ==> Scale(Magnitude(n.v, sqrt), r.value) == n.v
    ensures n.dtype == FloatDType && Magnitude(n.v, sqrt) >= 0.000001 ==> r.Some?
  {
    var m := Magnitude(n.v, sqrt);
    if m < 0.000001 then None
    else match DivideInPlace(n, m)
      case None => None
      case Some(u) => Some(u.v)
  }

  /** The name of a new plane: the one given, or "Plane_" and the identity of its geometry. */
  function PlaneName(name: Option<string>, uid: nat): string {
    name.GetOr("Plane_" + PyText.IntToString(uid))
  }

  /** The create command for a plane: category "Planes", the plane's mesh and its definition. */
  function CreatePlaneCommand(origin: Vec3, normal: Vec3, mesh: Mesh, id: string): Command {
    CreateObject(GeomData(None, Some(mesh), Some(PlaneDef(origin, normal))), "Planes", id, None)
  }

  /**
   * Registering and activating a plane, as written: the activation command is built BEFORE
   * the create runs, so it finds no actor under a new id. At start-up both commands run
   * directly and the history is cleared.
   */
  function RegisterPlaneAsWritten(h: History, create: Command, id: string, initial: bool): (r: History)
    requires WellPointed(h)
    ensures WellPointed(r)
  {
    var setActive := NewSetActivePlane(h.doc, Some(id));
    if initial then
      var s1 := Execute(h.doc, create, h.next);
      var s2 := Execute(s1.doc, setActive, s1.next);
      History(s2.doc, s2.next, [], -1)
    else Perform(Perform(h, create), setActive)
  }

  /** Registering and activating a plane, corrected: the activation is built after the create ran. */
  function RegisterPlane(h: History, create: Command, id: string, initial: bool): (r: History)
    requires WellPointed(h)
    ensures WellPointed(r)
  {
    if initial then
      var s1 := Execute(h.doc, create, h.next);
      var s2 := Execute(s1.doc, NewSetActivePlane(s1.doc, Some(id)), s1.next);
      History(s2.doc, s2.next, [], -1)
    else
      var h1 := Perform(h, create);
      Perform(h1, NewSetActivePlane(h1.doc, Some(id)))
  }

  /** `on_plane_data_received`, as written. */
  function ReceivePlaneAsWritten(h: History, input: PlaneInput, name: Option<string>, uid: nat, mesh: Mesh,
                                 sqrt: real -> real, initial: bool): (r: History)
    requires WellPointed(h)
    ensures WellPointed(r)
  {
    var (origin, normal) := PlaneFrameAsWritten(input);
    match UnitNormal(normal, sqrt)
    case None => h
    case Some(u) => RegisterPlaneAsWritten(h, CreatePlaneCommand(origin.v, u, mesh, PlaneName(name, uid)), PlaneName(name, uid), initial)
  }

  /** `on_plane_data_received`, corrected: float arrays and the activation built after the create. */
  function ReceivePlane(h: History, input: PlaneInput, name: Option<string>, uid: nat, mesh: Mesh,
                        sqrt: real -> real, initial: bool): (r: History)
    requires WellPointed(h)
    ensures WellPointed(r)
  {
    var (origin, normal) := PlaneFrame(input);
    match UnitNormal(normal, sqrt)
    case None => h
    case Some(u) => RegisterPlane(h, CreatePlaneCommand(origin.v, u, mesh, PlaneName(name, uid)), PlaneName(name, uid), initial)
  }

  /** `on_plane_reset_xy`, as written: at start-up an existing XY plane is kept. */
  function ResetXyAsWritten(h: History, mesh: Mesh, sqrt: real -> real, initial: bool): (r: History)
    requires WellPointed(h)
    ensures WellPointed(r)
  {
    if initial && GlobalPlaneName in h.doc.actors then h
    else ReceivePlaneAsWritten(h, ResetXY, Some(GlobalPlaneName), 0, mesh, sqrt, initial)
  }

  /** `on_plane_reset_xy`, corrected. */
  function ResetXy(h: History, mesh: Mesh, sqrt: real -> real, initial: bool): (r: History)
    requires WellPointed(h)
    ensures WellPointed(r)
  {
    if initial && GlobalPlaneName in h.doc.actors then h
    else ReceivePlane(h, ResetXY, Some(GlobalPlaneName), 0, mesh, sqrt, initial)
  }

  /** The document part of `on_new_project`: buffers, definitions and history cleared; the active id is kept. */
  function ClearProject(h: History): (r: History)
    ensures WellPointed(r) && r.doc.actors == map[] && r.doc.planes == map[]
    ensures r.doc.activePlane == h.doc.activePlane
  {
    History(h.doc.(actors := map[], planes := map[]), h.next, [], -1)
  }

  /** `on_new_project` as written (document part). */
  function NewProjectAsWritten(h: History, mesh: Mesh, sqrt: real -> real): (r: History)
    ensures WellPointed(r)
  {
    ResetXyAsWritten(ClearProject(h), mesh, sqrt, true)
  }

  /** `on_new_project` corrected (document part). */
  function NewProject(h: History, mesh: Mesh, sqrt: real -> real): (r: History)
    ensures WellPointed(r)
  {
    ResetXy(ClearProject(h), mesh, sqrt, true)
  }

  /**
   * As written, the XY reset never creates its plane: the normal is an integer array, so the
   * in-place normalisation raises and the handler swallows the exception.
   */
  lemma ResetAsWrittenChangesNothing(h: History, mesh: Mesh, sqrt: real -> real, initial: bool)
    requires WellPointed(h)
    ensures ResetXyAsWritten(h, mesh, sqrt, initial) == h
  {
    var (origin, normal) := PlaneFrameAsWritten(ResetXY);
    assert normal.dtype == IntDType;
    assert UnitNormal(normal, sqrt).None?;
  }

  /**
   * For the same reason, as written, a plane from the Global system's axes is never created:
   * its normal is an integer array.
   */
  lemma IntegerPlaneInputAsWrittenChangesNothing(h: History, o: Vec3, n: Vec3, name: Option<string>, uid: nat,
                                                 mesh: Mesh, sqrt: real -> real, initial: bool)
    requires WellPointed(h)
    ensures ReceivePlaneAsWritten(h, PointVector(o, n, IntDType), name, uid, mesh, sqrt, initial) == h
  {
    var (origin, normal) := PlaneFrameAsWritten(PointVector(o, n, IntDType));
    assert normal.dtype == IntDType;
    assert UnitNormal(normal, sqrt).None?;
  }

  /**
   * Hence a new project, as written, ends with an empty scene and the previous active plane
   * id still set, naming no plane.
   */
  lemma NewProjectAsWrittenLeavesStaleActive(h: History, mesh: Mesh, sqrt: real -> real)
    requires h.doc.activePlane.Some?
    ensures var r := NewProjectAsWritten(h, mesh, sqrt);
            r.doc.actors == map[] && r.doc.activePlane == h.doc.activePlane && !ActivePlaneRegistered(r.doc)
  {
    ResetAsWrittenChangesNothing(ClearProject(h), mesh, sqrt, true);
  }

  /** At start-up, a plane registered in an empty scene is the only object and the active plane. */
  lemma RegisterPlaneInEmptyScene(h: History, origin: Vec3, normal: Vec3, mesh: Mesh, id: string)
    requires WellPointed(h) && h.doc.actors == map[] && h.doc.planes == map[] && id != ""
    ensures var r := RegisterPlane(h, CreatePlaneCommand(origin, normal, mesh, id), id, true);
            r.doc.actors == map[id := Actor(h.next)] && r.doc.planes == map[id := PlaneDef(origin, normal)]
            && r.doc.activePlane == Some(id) && ActivePlaneRegistered(r.doc)
            && r.stack == [] && r.pointer == -1 && r.next == h.next + 1
  {
    var create := CreatePlaneCommand(origin, normal, mesh, id);
    var s1 := Execute(h.doc, create, h.next);
    assert s1.doc == h.doc.(actors := map[id := Actor(h.next)], planes := map[id := PlaneDef(origin, normal)]);
    var s2 := Execute(s1.doc, NewSetActivePlane(s1.doc, Some(id)), s1.next);
    assert s2.doc == s1.doc.(activePlane := Some(id));
  }

  /** The +z normal of the corrected reset is already a unit vector. */
  lemma UnitNormalOfUp(sqrt: real -> real)
    requires sqrt(1.0) == 1.0
    ensures UnitNormal(NdArray(Vec3(0.0, 0.0, 1.0), FloatDType), sqrt) == Some(Vec3(0.0, 0.0, 1.0))
  {
    var up := Vec3(0.0, 0.0, 1.0);
    assert Dot(up, up) == 1.0;
    assert DivideInPlace(NdArray(up, FloatDType), 1.0) == Some(NdArray(up, FloatDType));
  }

  /**
   * Corrected, the reset of an empty scene registers the XY plane (origin 0, normal +z) under
   * its name and makes it the active plane, with an empty history.
   */
  lemma ResetOfEmptySceneActivatesXyPlane(h: History, mesh: Mesh, sqrt: real -> real)
    requires IsSqrt(sqrt) && WellPointed(h) && h.doc.actors == map[] && h.doc.planes == map[]
    ensures var r := ResetXy(h, mesh, sqrt, true);
            r.doc.actors == map[GlobalPlaneName := Actor(h.next)]
            && r.doc.planes == map[GlobalPlaneName := PlaneDef(Zero, Vec3(0.0, 0.0, 1.0))]
            && r.doc.activePlane == Some(GlobalPlaneName) && ActivePlaneRegistered(r.doc)
            && r.stack == [] && r.pointer == -1 && r.next == h.next + 1
  {
    var up := Vec3(0.0, 0.0, 1.0);
    assert PlaneFrame(ResetXY) == (NdArray(Zero, FloatDType), NdArray(up, FloatDType));
    SqrtOfOne(sqrt);
    UnitNormalOfUp(sqrt);
    assert ResetXy(h, mesh, sqrt, true)
        == RegisterPlane(h, CreatePlaneCommand(Zero, up, mesh, GlobalPlaneName), GlobalPlaneName, true);
    RegisterPlaneInEmptyScene(h, Zero, up, mesh, GlobalPlaneName);
  }

  /** Corrected, a new project ends with only the XY plane, active, and an empty history. */
  lemma NewProjectActivatesXyPlane(h: History, mesh: Mesh, sqrt: real -> real)
    requires IsSqrt(sqrt)
    ensures var r := NewProject(h, mesh, sqrt);
            r.doc.actors.Keys == {GlobalPlaneName} && r.doc.activePlane == Some(GlobalPlaneName)
            && ActivePlaneRegistered(r.doc) && r.stack == [] && r.pointer == -1
  {
    ResetOfEmptySceneActivatesXyPlane(ClearProject(h), mesh, sqrt);
  }

  /**
   * As written, defining a new plane activates it without recording the activation (its
   * command found no actor when it was built), so the next undo removes the plane while it
   * stays the active plane: the active id names nothing.
   */
  lemma PlaneAsWrittenUndoLeavesActiveDangling(h: History, input: PlaneInput, name: Option<string>, uid: nat,
                                               mesh: Mesh, sqrt: real -> real)
    requires WellPointed(h) && UnitNormal(PlaneFrameAsWritten(input).1, sqrt).Some?
    requires var id := PlaneName(name, uid); id != "" && id !in h.doc.actors && id !in h.doc.planes
    ensures var r := ReceivePlaneAsWritten(h, input, name, uid, mesh, sqrt, false);
            r.doc.activePlane == Some(PlaneName(name, uid)) && ActivePlaneRegistered(r.doc)
            && r.pointer == h.pointer + 1
            && UndoLast(r).doc.activePlane == Some(PlaneName(name, uid)) && !ActivePlaneRegistered(UndoLast(r).doc)
  {
    var id := PlaneName(name, uid);
    var (origin, normal) := PlaneFrameAsWritten(input);
    var u := UnitNormal(normal, sqrt).value;
    var create := CreatePlaneCommand(origin.v, u, mesh, id);
    var setActive := NewSetActivePlane(h.doc, Some(id));
    assert setActive.actor.None?;
    var h1 := Perform(h, create);
    assert h1.doc.actors == h.doc.actors[id := Actor(h.next)];
    assert h1.pointer == h.pointer + 1 && h1.stack[h1.pointer] == CreateObject(create.geom, "Planes", id, Some(Actor(h.next)));
    var h2 := Perform(h1, setActive);
    assert h2.pointer == h1.pointer && h2.stack == h1.stack;
    assert ReceivePlaneAsWritten(h, input, name, uid, mesh, sqrt, false) == h2;
  }

  /**
   * Corrected, both commands are recorded: the first undo re-activates the previous active
   * plane and the second removes the new plane, each leaving a registered active plane, and
   * the two undos give back the document.
   */
  lemma PlaneUndoKeepsActiveRegistered(h: History, input: PlaneInput, name: Option<string>, uid: nat,
                                       mesh: Mesh, sqrt: real -> real)
    requires WellPointed(h) && ActivePlaneRegistered(h.doc) && UnitNormal(PlaneFrame(input).1, sqrt).Some?
    requires var id := PlaneName(name, uid); id != "" && id !in h.doc.actors && id !in h.doc.planes
    ensures var r := ReceivePlane(h, input, name, uid, mesh, sqrt, false);
            r.doc.activePlane == Some(PlaneName(name, uid)) && ActivePlaneRegistered(r.doc)
            && r.pointer == h.pointer + 2
            && ActivePlaneRegistered(UndoLast(r).doc) && UndoLast(r).doc.activePlane == h.doc.activePlane
            && UndoLast(UndoLast(r)).doc == h.doc && ActivePlaneRegistered(UndoLast(UndoLast(r)).doc)
  {
    var id := PlaneName(name, uid);
    var (origin, normal) := PlaneFrame(input);
    var u := UnitNormal(normal, sqrt).value;
    assert ReceivePlane(h, input, name, uid, mesh, sqrt, false)
        == RegisterPlane(h, CreatePlaneCommand(origin.v, u, mesh, id), id, false);
    RegisterPlaneUndo(h, origin.v, u, mesh, id);
  }

  /** The two recorded commands of a new plane, undone one at a time. */
  lemma RegisterPlaneUndo(h: History, origin: Vec3, u: Vec3, mesh: Mesh, id: string)
    requires WellPointed(h) && ActivePlaneRegistered(h.doc)
    requires id != "" && id !in h.doc.actors && id !in h.doc.planes
    ensures var r := RegisterPlane(h, CreatePlaneCommand(origin, u, mesh, id), id, false);
            r.doc.activePlane == Some(id) && ActivePlaneRegistered(r.doc)
            && r.pointer == h.pointer + 2
            && ActivePlaneRegistered(UndoLast(r).doc) && UndoLast(r).doc.activePlane == h.doc.activePlane
            && UndoLast(UndoLast(r)).doc == h.doc && ActivePlaneRegistered(UndoLast(UndoLast(r)).doc)
  {
    var create := CreatePlaneCommand(origin, u, mesh, id);
    var h1 := Perform(h, create);
    var created := CreateObject(create.geom, "Planes", id, Some(Actor(h.next)));
    assert h1.doc.actors == h.doc.actors[id := Actor(h.next)];
    assert h1.doc.planes == h.doc.planes[id := PlaneDef(origin, u)];
    assert h1.pointer == h.pointer + 1 && h1.stack[h1.pointer] == created;
    var setActive := NewSetActivePlane(h1.doc, Some(id));
    assert setActive == SetActivePlane(h.doc.activePlane, Some(id), Some(Actor(h.next)));
    var h2 := Perform(h1, setActive);
    assert h2.doc == h1.doc.(activePlane := Some(id));
    assert h2.pointer == h1.pointer + 1 && h2.stack[h2.pointer] == setActive;
    assert h2.stack[h1.pointer] == created;
    var u1 := UndoLast(h2);
    assert u1.doc == h1.doc.(activePlane := h.doc.activePlane);
    var u2 := UndoLast(u1);
    assert u2.doc == Undo(u1.doc, created);
    assert u1.doc.actors - {id} == h.doc.actors;
    assert u1.doc.planes - {id} == h.doc.planes;
  }

  /**
   * The rename handler's guard (a non-empty new name, different from the old, not naming an
   * existing object) is enough for the rename to be undone exactly, in a scene whose plane
   * definitions all have actors and whose active plane, if any, has an actor.
   */
  lemma GuardedRenameUndoes(d: Document, o: string, n: string, next: nat)
    requires n != "" && n != o && n !in d.actors
    requires d.planes.Keys <= d.actors.Keys
    requires d.activePlane.Some? ==> d.activePlane.value in d.actors
    ensures var s := Execute(d, NewRenameObject(d, o, n), next);
            Undo(s.doc, s.cmd) == d && (Recorded(s.cmd) <==> o in d.actors)
  {
    RenameThenUndo(d, o, n, next);
  }

  // ---------------------------------------------------------------------------
  // The main window

  class MainWindow {
    var actorBuffer: map<string, Actor>
    var planeDefinitions: map<string, PlaneDef>
    var activePlaneId: Option<string>
    var hidden: set<Actor>
    var nextHandle: nat
    var commandStack: seq<Command>
    var stackPointer: int
    const csManager: CoordinateSystemManager

    /** The scene state the commands act on. */
    function Doc(): Document
      reads this
    {
      Document(actorBuffer, planeDefinitions, activePlaneId, hidden)
    }

    function Hist(): History
      reads this
    {
      History(Doc(), nextHandle, commandStack, stackPointer)
    }

    ghost predicate Valid()
      reads this, csManager
    {
      WellPointed(Hist()) && csManager.Valid()
    }

    /**
     * `__init__`: empty buffers and history, a fresh coordinate system manager, and the XY
     * plane created and activated by the start-up reset (corrected form).
     */
    constructor(mesh: Mesh, sqrt: real -> real)
      ensures Valid() && fresh(csManager)
      ensures csManager.systems == map["Global" := GlobalCs] && csManager.activeCsTitle == "Global"
      ensures Hist() == ResetXy(History(EmptyDocument, 0, [], -1), mesh, sqrt, true)
    {
      actorBuffer := map[];
      planeDefinitions := map[];
      activePlaneId := None;
      hidden := {};
      nextHandle := 0;
      commandStack := [];
      stackPointer := -1;
      csManager := new CoordinateSystemManager();
      new;
      OnPlaneResetXy(mesh, sqrt, true);
    }

    /** `CreateObjectCommand.execute`. */
    method RunCreate(c: Command) returns (r: Command)
      requires c.CreateObject?
      modifies this
      ensures Step(Doc(), r, nextHandle) == Execute(old(Doc()), c, old(nextHandle))
      ensures commandStack == old(commandStack) && stackPointer == old(stackPointer)
    {
      var a: Actor;
      r := c;
      if c.actor.Some? {
        a := c.actor.value;
      } else if c.geom.prebuilt.Some? {
        a := c.geom.prebuilt.value;
        r := CreateObject(c.geom, c.category, c.objectId, Some(a));
      } else if c.geom.mesh.Some? {
        a := Actor(nextHandle);
        nextHandle := nextHandle + 1;
        r := CreateObject(c.geom, c.category, c.objectId, Some(a));
      } else {
        return;
      }
      actorBuffer := actorBuffer[c.objectId := a];
      if c.category == "Planes" && c.geom.definition.Some? {
        planeDefinitions := planeDefinitions[c.objectId := c.geom.definition.value];
      }
    }

    /** `DeleteObjectCommand.execute`. */
    method RunDelete(c: Command) returns (r: Command)
      requires c.DeleteObject?
      modifies this
      ensures Step(Doc(), r, nextHandle) == Execute(old(Doc()), c, old(nextHandle))
      ensures commandStack == old(commandStack) && stackPointer == old(stackPointer)
    {
      if c.actorToDelete.None? {
        return c;
      }
      var captured := c.categoryCaptured || c.objId in actorBuffer;
      var planeDef := c.planeDef;
      if c.objId in planeDefinitions {
        planeDef := Some(planeDefinitions[c.objId]);
        planeDefinitions := planeDefinitions - {c.objId};
      }
      actorBuffer := actorBuffer - {c.objId};
      r := DeleteObject(c.objId, c.actorToDelete, captured, planeDef);
    }

    /** `RenameObjectCommand.execute` (`undo` with the ids swapped). */
    method MoveObject(from: string, to: string)
      modifies this
      ensures actorBuffer == MoveKey(old(actorBuffer), from, to)
      ensures planeDefinitions == MoveKey(old(planeDefinitions), from, to)
      ensures activePlaneId == (if old(activePlaneId) == Some(from) then Some(to) else old(activePlaneId))
      ensures hidden == old(hidden) && nextHandle == old(nextHandle)
      ensures commandStack == old(commandStack) && stackPointer == old(stackPointer)
    {
      if from in actorBuffer {
        var a := actorBuffer[from];
        actorBuffer := actorBuffer - {from};
        actorBuffer := actorBuffer[to := a];
      }
      if from in planeDefinitions {
        var p := planeDefinitions[from];
        planeDefinitions := planeDefinitions - {from};
        planeDefinitions := planeDefinitions[to := p];
      }
      if activePlaneId == Some(from) {
        activePlaneId := Some(to);
      }
    }

    /** `actor.SetVisibility(v)`. */
    method SetActorVisibility(a: Actor, v: int)
      modifies this
      ensures Doc() == SetVisibility(old(Doc()), a, v) && nextHandle == old(nextHandle)
      ensures commandStack == old(commandStack) && stackPointer == old(stackPointer)
    {
      if v == 0 {
        hidden := hidden + {a};
      } else {
        hidden := hidden - {a};
      }
    }

    /** `SetActivePlaneCommand.execute` for a new id (the undo runs it for the old id). */
    method ActivatePlane(newId: Option<string>)
      modifies this
      ensures Doc() == Activate(old(Doc()), newId) && nextHandle == old(nextHandle)
      ensures commandStack == old(commandStack) && stackPointer == old(stackPointer)
    {
      if newId.Some? && newId.value != "" && newId.value in actorBuffer {
        if newId.value in planeDefinitions {
          activePlaneId := newId;
        }
      }
    }

    /** `for obj_id, actor in entries: actor_buffer[obj_id] = actor`. */
    method AddEntries(es: seq<(string, Actor)>)
      modifies this
      ensures actorBuffer == AddAll(old(actorBuffer), es)
      ensures planeDefinitions == old(planeDefinitions) && activePlaneId == old(activePlaneId)
      ensures hidden == old(hidden) && nextHandle == old(nextHandle)
      ensures commandStack == old(commandStack) && stackPointer == old(stackPointer)
    {
      var k := 0;
      while k < |es|
        invariant 0 <= k <= |es|
        invariant actorBuffer == AddAll(old(actorBuffer), es[..k])
        invariant planeDefinitions == old(planeDefinitions) && activePlaneId == old(activePlaneId)
        invariant hidden == old(hidden) && nextHandle == old(nextHandle)
        invariant commandStack == old(commandStack) && stackPointer == old(stackPointer)
      {
        assert es[..k + 1][..k] == es[..k];
        actorBuffer := actorBuffer[es[k].0 := es[k].1];
        k := k + 1;
      }
      assert es[..k] == es;
    }

    /**
     * The loop over the parsed shapes: one entry per drawn shape, keyed by the shape's index,
     * with a fresh actor numbered from `next`.
     */
    method ImportShapes(group: string, shapes: seq<Shape>, next: nat) returns (entries: seq<(string, Actor)>)
      ensures entries == ImportEntries(group, shapes, next)
    {
      entries := [];
      var i := 0;
      while i < |shapes|
        invariant 0 <= i <= |shapes|
        invariant entries == ImportEntries(group, shapes[..i], next)
      {
        assert shapes[..i + 1][..i] == shapes[..i];
        if IsImported(shapes[i]) {
          entries := entries + [(ShapeId(group, i), Actor(next + |entries|))];
        }
        i := i + 1;
      }
      assert shapes[..i] == shapes;
    }

    /** `ImportDxfCommand.execute`: re-adds the cached actors, or reads the file and draws each shape. */
    method RunImport(c: Command) returns (r: Command)
      requires c.ImportDxf?
      modifies this
      ensures Step(Doc(), r, nextHandle) == Execute(old(Doc()), c, old(nextHandle))
      ensures commandStack == old(commandStack) && stackPointer == old(stackPointer)
    {
      if c.created != [] {
        AddEntries(c.created);
        return c;
      }
      if c.content.None? {
        return ImportDxf(c.content, c.ctx, c.groupName, c.created, false);
      }
      var reader := new DxfReader.DxfReaderObject(c.content.value);
      var geom := reader.GetGeometry();
      var entries := ImportShapes(c.groupName, geom.shapes, nextHandle);
      AddEntries(entries);
      nextHandle := nextHandle + |entries|;
      r := ImportDxf(c.content, c.ctx, c.groupName, entries, c.succeeded);
    }

    /** `command.execute()`: the new state and the command with its updated fields. */
    method RunExecute(c: Command) returns (r: Command)
      modifies this
      ensures Step(Doc(), r, nextHandle) == Execute(old(Doc()), c, old(nextHandle))
      ensures commandStack == old(commandStack) && stackPointer == old(stackPointer)
    {
      match c
      case CreateObject(_, _, _, _) =>
        r := RunCreate(c);
      case DeleteObject(_, _, _, _) =>
        r := RunDelete(c);
      case RenameObject(o, n, _) =>
        MoveObject(o, n);
        r := c;
      case ToggleVisibility(_, a, _) =>
        if a.Some? {
          SetActorVisibility(a.value, 1 - Visibility(Doc(), a.value));
        }
        r := c;
      case SetActivePlane(_, newId, _) =>
        ActivatePlane(newId);
        r := c;
      case ImportDxf(_, _, _, _, _) =>
        r := RunImport(c);
      case CreateCuboid(id, a) =>
        if a.Some? {
          actorBuffer := actorBuffer[id := a.value];
        }
        r := c;
    }

    /** `ImportDxfCommand.undo`: deletes each created id that is still in the buffer. */
    method RemoveEntries(es: seq<(string, Actor)>)
      modifies this
      ensures actorBuffer == old(actorBuffer) - EntryIds(es)
      ensures planeDefinitions == old(planeDefinitions) && activePlaneId == old(activePlaneId)
      ensures hidden == old(hidden) && nextHandle == old(nextHandle)
      ensures commandStack == old(commandStack) && stackPointer == old(stackPointer)
    {
      var k := 0;
      while k < |es|
        invariant 0 <= k <= |es|
        invariant actorBuffer == old(actorBuffer) - EntryIds(es[..k])
        invariant planeDefinitions == old(planeDefinitions) && activePlaneId == old(activePlaneId)
        invariant hidden == old(hidden) && nextHandle == old(nextHandle)
        invariant commandStack == old(commandStack) && stackPointer == old(stackPointer)
      {
        assert EntryIds(es[..k + 1]) == EntryIds(es[..k]) + {es[k].0} by {
          assert forall j :: 0 <= j < k ==> es[..k + 1][j] == es[..k][j];
        }
        if es[k].0 in actorBuffer {
          actorBuffer := actorBuffer - {es[k].0};
        }
        k := k + 1;
      }
      assert es[..k] == es;
    }

    /** `command.undo()`. */
    method RunUndo(c: Command)
      modifies this
      ensures Doc() == Undo(old(Doc()), c) && nextHandle == old(nextHandle)
      ensures commandStack == old(commandStack) && stackPointer == old(stackPointer)
    {
      match c
      case CreateObject(_, _, id, a) =>
        if a.Some? {
          actorBuffer := actorBuffer - {id};
          planeDefinitions := planeDefinitions - {id};
        }
      case DeleteObject(id, target, captured, pd) =>
        if target.Some? && captured {
          actorBuffer := actorBuffer[id := target.value];
          if pd.Some? {
            planeDefinitions := planeDefinitions[id := pd.value];
          }
        }
      case RenameObject(o, n, _) =>
        MoveObject(n, o);
      case ToggleVisibility(_, a, previous) =>
        if a.Some? {
          SetActorVisibility(a.value, previous);
        }
      case SetActivePlane(oldId, _, _) =>
        ActivatePlane(oldId);
      case ImportDxf(_, _, _, created, _) =>
        RemoveEntries(created);
      case CreateCuboid(id, a) =>
        if a.Some? {
          actorBuffer := actorBuffer - {id};
        }
    }

    /** `execute_command`. */
    method ExecuteCommand(c: Command)
      requires Valid()
      modifies this
      ensures Valid()
      ensures Hist() == Perform(old(Hist()), c)
    {
      if stackPointer < |commandStack| - 1 {
        commandStack := commandStack[..stackPointer + 1];
      }
      var done := RunExecute(c);
      if !Recorded(done) {
        return;
      }
      commandStack := commandStack + [done];
      stackPointer := stackPointer + 1;
    }

    /** `on_undo`. */
    method OnUndo()
      requires Valid()
      modifies this
      ensures Valid()
      ensures Hist() == UndoLast(old(Hist()))
    {
      if stackPointer >= 0 {
        RunUndo(commandStack[stackPointer]);
        stackPointer := stackPointer - 1;
      }
    }

    /** `on_redo`. */
    method OnRedo()
      requires Valid()
      modifies this
      ensures Valid()
      ensures Hist() == RedoNext(old(Hist()))
    {
      if stackPointer < |commandStack| - 1 {
        stackPointer := stackPointer + 1;
        var done := RunExecute(commandStack[stackPointer]);
        commandStack := commandStack[stackPointer := done];
      }
    }

    /** `on_plane_data_received` (corrected form). */
    method OnPlaneDataReceived(input: PlaneInput, name: Option<string>, uid: nat, mesh: Mesh,
                               sqrt: real -> real, initial: bool)
      requires Valid()
      modifies this
      ensures Valid()
      ensures Hist() == ReceivePlane(old(Hist()), input, name, uid, mesh, sqrt, initial)
    {
      var (origin, normal) := PlaneFrame(input);
      var u := UnitNormal(normal, sqrt);
      if u.None? {
        return;
      }
      var id := PlaneName(name, uid);
      RegisterNewPlane(CreatePlaneCommand(origin.v, u.value, mesh, id), id, initial);
    }

    /** Running the create and the activation of a new plane: directly at start-up, else through the history. */
    method RegisterNewPlane(create: Command, id: string, initial: bool)
      requires Valid()
      modifies this
      ensures Valid()
      ensures Hist() == RegisterPlane(old(Hist()), create, id, initial)
    {
      if initial {
        var _ := RunExecute(create);
        var _ := RunExecute(NewSetActivePlane(Doc(), Some(id)));
        commandStack := [];
        stackPointer := -1;
      } else {
        ExecuteCommand(create);
        ExecuteCommand(NewSetActivePlane(Doc(), Some(id)));
      }
    }

    /** `on_plane_reset_xy` (corrected form). */
    method OnPlaneResetXy(mesh: Mesh, sqrt: real -> real, initial: bool)
      requires Valid()
      modifies this
      ensures Valid()
      ensures Hist() == ResetXy(old(Hist()), mesh, sqrt, initial)
    {
      if initial && GlobalPlaneName in actorBuffer {
        return;
      }
      OnPlaneDataReceived(ResetXY, Some(GlobalPlaneName), 0, mesh, sqrt, initial);
    }

    /** `on_new_project` after the user confirmed (corrected form). */
    method OnNewProject(mesh: Mesh, sqrt: real -> real)
      requires Valid()
      modifies this, csManager
      ensures Valid()
      ensures csManager.systems == map["Global" := GlobalCs] && csManager.activeCsTitle == "Global"
      ensures Hist() == NewProject(old(Hist()), mesh, sqrt)
    {
      csManager.Reset();
      actorBuffer := map[];
      planeDefinitions := map[];
      commandStack := [];
      stackPointer := -1;
      assert Hist() == ClearProject(old(Hist()));
      OnPlaneResetXy(mesh, sqrt, true);
    }

    /**
     * `on_delete_object_requested`: a coordinate system is deleted from the manager; the
     * active plane is refused; any other registered object is deleted through the history.
     * The active plane id never changes here, so an active plane stays registered.
     */
    method OnDeleteObjectRequested(objId: string, category: string)
      requires Valid()
      modifies this, csManager
      ensures Valid()
      ensures category == CsCategory ==>
                Hist() == old(Hist()) && csManager.systems == old(csManager.systems) - {objId}
                && csManager.activeCsTitle == old(csManager.activeCsTitle)
      ensures category != CsCategory ==>
                csManager.systems == old(csManager.systems) && csManager.activeCsTitle == old(csManager.activeCsTitle)
                && Hist() == (if old(activePlaneId) == Some(objId) || objId !in old(actorBuffer) then old(Hist())
                              else Perform(old(Hist()), NewDeleteObject(old(Doc()), objId)))
      ensures activePlaneId == old(activePlaneId)
      ensures old(ActivePlaneRegistered(Doc())) ==> ActivePlaneRegistered(Doc())
    {
      if category == CsCategory {
        var _ := csManager.DeleteCs(objId);
        return;
      }
      if activePlaneId == Some(objId) {
        return;
      }
      if objId in actorBuffer {
        ExecuteCommand(NewDeleteObject(Doc(), objId));
      }
    }

    /**
     * `on_rename_object_requested`; `input` is the dialog's answer (None when cancelled). A
     * coordinate system is renamed in the manager; an object is renamed through the history
     * only to a non-empty new name that differs from the old one and names no object.
     */
    method OnRenameObjectRequested(objId: string, category: string, input: Option<string>)
      requires Valid()
      modifies this, csManager
      ensures Valid()
      ensures category == CsCategory ==> Hist() == old(Hist())
      ensures category == CsCategory && input.Some? && input.value != "" && input.value != objId
              && input.value !in old(csManager.systems) && objId in old(csManager.systems) ==>
                csManager.systems == MoveEntry(old(csManager.systems), objId, input.value)
                && csManager.activeCsTitle == (if old(csManager.activeCsTitle) == objId then input.value
                                               else old(csManager.activeCsTitle))
      ensures category == CsCategory && !(input.Some? && input.value != "" && input.value != objId
              && input.value !in old(csManager.systems) && objId in old(csManager.systems)) ==>
                csManager.systems == old(csManager.systems) && csManager.activeCsTitle == old(csManager.activeCsTitle)
      ensures category != CsCategory ==>
                csManager.systems == old(csManager.systems) && csManager.activeCsTitle == old(csManager.activeCsTitle)
                && Hist() == (if input.Some? && input.value != "" && input.value != objId && input.value !in old(actorBuffer)
                              then Perform(old(Hist()), NewRenameObject(old(Doc()), objId, input.value))
                              else old(Hist()))
    {
      var ok := input.Some? && input.value != "" && input.value != objId;
      if category == CsCategory {
        if ok {
          var _ := csManager.RenameCs(objId, input.value);
        }
        return;
      }
      if ok {
        if input.value in actorBuffer {
          return;
        }
        ExecuteCommand(NewRenameObject(Doc(), objId, input.value));
      }
    }

    /** `on_visibility_toggle_requested`: only a registered object is toggled, through the history. */
    method OnVisibilityToggleRequested(objId: string)
      requires Valid()
      modifies this
      ensures Valid()
      ensures Hist() == (if objId in old(actorBuffer) then Perform(old(Hist()), NewToggleVisibility(old(Doc()), objId))
                         else old(Hist()))
    {
      if objId in actorBuffer {
        ExecuteCommand(NewToggleVisibility(Doc(), objId));
      }
    }

    /** `on_set_active_cs_requested`: an unknown title leaves the active system unchanged. */
    method OnSetActiveCsRequested(title: string)
      requires Valid()
      modifies csManager
      ensures Valid()
      ensures csManager.systems == old(csManager.systems)
      ensures csManager.activeCsTitle == (if title in old(csManager.systems) then title else old(csManager.activeCsTitle))
    {
      var _ := csManager.SetActive(title);
    }
  }
}
