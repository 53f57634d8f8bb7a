/** The container of 2D shapes filled by the DXF reader. */
module Geometry {
  import opened Shapes

  class Geometry2D {
    /** The shapes in the order they were added. */
    var shapes: seq<Shape>

    constructor()
      ensures shapes == []
    {
      shapes := [];
    }

    method AddLine(data: EntityData)
      modifies this
      ensures shapes == old(shapes) + [LineFrom(data)]
    {
      shapes := shapes + [LineFrom(data)];
    }

    method AddCircle(data: EntityData)
      modifies this
      ensures shapes == old(shapes) + [CircleFrom(data)]
    {
      shapes := shapes + [CircleFrom(data)];
    }

    method AddArc(data: EntityData)
      modifies this
      ensures shapes == old(shapes) + [ArcFrom(data)]
    {
      shapes := shapes + [ArcFrom(data)];
    }

    method AddLwPolyline(data: EntityData)
      modifies this
      ensures shapes == old(shapes) + [LwPolylineFrom(data)]
    {
      shapes := shapes + [LwPolylineFrom(data)];
    }

    method AddText(data: EntityData)
      modifies this
      ensures shapes == old(shapes) + [TextFrom(data)]
    {
      shapes := shapes + [TextFrom(data)];
    }

    /** `get_number_of_shapes()`: one per `add_*` call since construction. */
    method GetNumberOfShapes() returns (n: nat)
      ensures n == |shapes|
    {
      n := |shapes|;
    }
  }
}
