/** `IdentifiedPolygon` as the R-tree stores it in the newer generation: a
    polygon tagged with the id of the country (or capital) it belongs to, the
    priority flag that wins overlapping hits, and whether it is a country or a
    capital. */
module IdentifiedPolygons {
  import opened Geometry

  datatype IdentifiedPolygonType = Country | Capital

  datatype IdentifiedPolygon = IdentifiedPolygon(
    id: string, priority: bool, polygon: Polygon, polygonType: IdentifiedPolygonType)
  {
    /** `RTreeObject::envelope`: the bounding box of the exterior ring. The
        source unwraps `bounding_rect()`, which is None for an empty ring. */
    function Envelope(): (e: Rect)
      requires |polygon.exterior| > 0
      ensures e.min.x <= e.max.x && e.min.y <= e.max.y
      ensures forall i :: 0 <= i < |polygon.exterior| ==>
                e.min.x <= polygon.exterior[i].x <= e.max.x && e.min.y <= polygon.exterior[i].y <= e.max.y
      ensures exists i :: 0 <= i < |polygon.exterior| && polygon.exterior[i].x == e.min.x
      ensures exists i :: 0 <= i < |polygon.exterior| && polygon.exterior[i].y == e.min.y
      ensures exists i :: 0 <= i < |polygon.exterior| && polygon.exterior[i].x == e.max.x
      ensures exists i :: 0 <= i < |polygon.exterior| && polygon.exterior[i].y == e.max.y
    {
      var bounds := BoundingRect(polygon.exterior);
      FromCorners(bounds.min, bounds.max)
    }

    /** `PointDistance::contains_point`: the polygon containment test of `geo`,
        passed in as `contains`. */
    predicate ContainsPoint(point: Coord, contains: (Polygon, Coord) -> bool) {
      contains(polygon, point)
    }
  }
}
