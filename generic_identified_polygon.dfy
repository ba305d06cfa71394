/** The older generation's `IdentifiedPolygon` (f64 coordinates, no type tag). */
module GenericIdentifiedPolygons {
  import opened Geometry

  datatype IdentifiedPolygon = IdentifiedPolygon(id: string, priority: bool, polygon: Polygon)
  {
    function Envelope(): (e: Rect)
      requires |polygon.exterior| > 0
      ensures e.min.x <= e.max.x && e.min.y <= e.max.y
      ensures forall i :: 0 <= i < |polygon.exterior| ==>
                e.min.x <= polygon.exterior[i].x <= e.max.x && e.min.y <= polygon.exterior[i].y <= e.max.y
      ensures exists i :: 0 <= i < |polygon.exterior| && polygon.exterior[i].x == e.min.x
      ensures exists i :: 0 <= i < |polygon.exterior| && polygon.exterior[i].y == e.min.y
      ensures exists i :: 0 <= i < |polygon.exterior| && polygon.exterior[i].x == e.max.x
      ensures exists i :: 0 <= i < |polygon.exterior| && polygon.exterior[i].y == e.max.y
    {
      var bounds := BoundingRect(polygon.exterior);
      FromCorners(bounds.min, bounds.max)
    }

    predicate ContainsPoint(point: Coord, contains: (Polygon, Coord) -> bool) {
      contains(polygon, point)
    }
  }
}
