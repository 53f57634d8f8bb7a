/**
 * The 2D entities read from a DXF file: line, circle, arc (a circle with angles), lightweight
 * polyline and text. Each is built from an entity dictionary in which every attribute is
 * optional; a missing attribute takes the class default.
 */
module Shapes {
  import opened Wrappers
  import opened Vectors
  import PyText

  /** The entity dictionary handed to the shape constructors; `None` is a missing key. */
  datatype EntityData = EntityData(
    layer: Option<string>,
    color: Option<int>,
    startPoint: Option<Vec3>,
    endPoint: Option<Vec3>,
    center: Option<Vec3>,
    radius: Option<real>,
    startAngle: Option<real>,
    endAngle: Option<real>,
    vertices: Option<seq<Vec3>>,
    closed: Option<bool>,
    insertionPoint: Option<Vec3>,
    textString: Option<string>,
    height: Option<real>)

  /** The empty dictionary. */
  const NoData := EntityData(None, None, None, None, None, None, None, None, None, None, None, None, None)

  /** Defaults of the base class and of each shape class. */
  const DefaultLayer := "0"
  const DefaultColor := 256
  const DefaultStartAngle := 0.0
  const DefaultEndAngle := 360.0
  const DefaultHeight := 1.0

  /** The five shape classes. */
  datatype Kind = LineKind | CircleKind | ArcKind | LwPolylineKind | TextKind

  /** The type name each class reports. */
  function TypeName(k: Kind): string {
    match k
    case LineKind => "LINE"
    case CircleKind => "CIRCLE"
    case ArcKind => "ARC"
    case LwPolylineKind => "LWPOLYLINE"
    case TextKind => "TEXT"
  }

  /** The class whose type name is `t`, if any. */
  function KindOf(t: string): (r: Option<Kind>)
    ensures r.Some? ==> TypeName(r.value) == t
    ensures r.None? ==> forall k: Kind :: TypeName(k) != t
  {
    if t == "LINE" then Some(LineKind)
    else if t == "CIRCLE" then Some(CircleKind)
    else if t == "ARC" then Some(ArcKind)
    else if t == "LWPOLYLINE" then Some(LwPolylineKind)
    else if t == "TEXT" then Some(TextKind)
    else None
  }

  datatype Shape =
    | Line(layer: string, color: int, startPoint: Vec3, endPoint: Vec3)
    | Circle(layer: string, color: int, center: Vec3, radius: real)
    | Arc(layer: string, color: int, center: Vec3, radius: real, startAngle: real, endAngle: real)
    | LwPolyline(layer: string, color: int, vertices: seq<Vec3>, isClosed: bool)
    | Text(layer: string, color: int, insertionPoint: Vec3, textString: string, height: real)
  {
    /** The class of the shape. */
    function ShapeKind(): Kind {
      match this
      case Line(_, _, _, _) => LineKind
      case Circle(_, _, _, _) => CircleKind
      case Arc(_, _, _, _, _, _) => ArcKind
      case LwPolyline(_, _, _, _) => LwPolylineKind
      case Text(_, _, _, _, _) => TextKind
    }

    /** `get_type()`: the upper-case type name of the shape's class. */
    function GetType(): string {
      TypeName(ShapeKind())
    }
  }

  /** `Line(entity_data)`. */
  function LineFrom(d: EntityData): Shape {
    Line(d.layer.GetOr(DefaultLayer), d.color.GetOr(DefaultColor),
         d.startPoint.GetOr(Zero), d.endPoint.GetOr(Zero))
  }

  /** `Circle(entity_data)`. */
  function CircleFrom(d: EntityData): Shape {
    Circle(d.layer.GetOr(DefaultLayer), d.color.GetOr(DefaultColor), d.center.GetOr(Zero), d.radius.GetOr(0.0))
  }

  /** `Arc(entity_data)`: the circle attributes, read as `Circle` reads them, plus the two angles. */
  function ArcFrom(d: EntityData): (s: Shape)
    ensures s.Arc? && Circle(s.layer, s.color, s.center, s.radius) == CircleFrom(d)
  {
    var c := CircleFrom(d);
    Arc(c.layer, c.color, c.center, c.radius,
        d.startAngle.GetOr(DefaultStartAngle), d.endAngle.GetOr(DefaultEndAngle))
  }

  /** `LwPolyline(entity_data)`. */
  function LwPolylineFrom(d: EntityData): Shape {
    LwPolyline(d.layer.GetOr(DefaultLayer), d.color.GetOr(DefaultColor), d.vertices.GetOr([]), d.closed.GetOr(false))
  }

  /** `Text(entity_data)`. */
  function TextFrom(d: EntityData): Shape {
    Text(d.layer.GetOr(DefaultLayer), d.color.GetOr(DefaultColor), d.insertionPoint.GetOr(Zero),
         d.textString.GetOr(""), d.height.GetOr(DefaultHeight))
  }

  /** The shape of class `k` built from a dictionary. */
  function Build(k: Kind, d: EntityData): (s: Shape)
    ensures s.ShapeKind() == k
  {
    match k
    case LineKind => LineFrom(d)
    case CircleKind => CircleFrom(d)
    case ArcKind => ArcFrom(d)
    case LwPolylineKind => LwPolylineFrom(d)
    case TextKind => TextFrom(d)
  }

  /** The dictionary holding exactly the attributes of a shape. */
  function Attributes(s: Shape): EntityData {
    match s
    case Line(l, c, p, q) => NoData.(layer := Some(l), color := Some(c), startPoint := Some(p), endPoint := Some(q))
    case Circle(l, c, m, r) => NoData.(layer := Some(l), color := Some(c), center := Some(m), radius := Some(r))
    case Arc(l, c, m, r, a, b) =>
      NoData.(layer := Some(l), color := Some(c), center := Some(m), radius := Some(r),
              startAngle := Some(a), endAngle := Some(b))
    case LwPolyline(l, c, vs, cl) => NoData.(layer := Some(l), color := Some(c), vertices := Some(vs), closed := Some(cl))
    case Text(l, c, p, t, h) =>
      NoData.(layer := Some(l), color := Some(c), insertionPoint := Some(p), textString := Some(t), height := Some(h))
  }

  // ---------------------------------------------------------------------------
  // Properties

  /** Every type name is upper case, and names one class only. */
  lemma TypeNameIsUpperAndUnique(k: Kind)
    ensures TypeName(k) == PyText.Upper(TypeName(k))
    ensures KindOf(TypeName(k)) == Some(k)
  {
    var t := TypeName(k);
    assert forall i :: 0 <= i < |t| ==> !PyText.IsLowerAscii(t[i]);
    assert PyText.Upper(t) == t;
  }

  /** Each constructor reads every attribute it has: rebuilding a shape from its attributes gives it back. */
  lemma BuildOfAttributes(s: Shape)
    ensures Build(s.ShapeKind(), Attributes(s)) == s
  {
  }

  /** An empty dictionary gives every attribute its default. */
  lemma BuildOfNoData()
    ensures Build(LineKind, NoData) == Line(DefaultLayer, DefaultColor, Zero, Zero)
    ensures Build(CircleKind, NoData) == Circle(DefaultLayer, DefaultColor, Zero, 0.0)
    ensures Build(ArcKind, NoData) == Arc(DefaultLayer, DefaultColor, Zero, 0.0, 0.0, 360.0)
    ensures Build(LwPolylineKind, NoData) == LwPolyline(DefaultLayer, DefaultColor, [], false)
    ensures Build(TextKind, NoData) == Text(DefaultLayer, DefaultColor, Zero, "", 1.0)
  {
  }
}
