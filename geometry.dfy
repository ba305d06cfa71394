/** The plane geometry the map data is made of: coordinates, `geo` polygons
    (one exterior ring and any number of interior rings), and axis-aligned
    bounding boxes. Only copying, y-negation and min/max are computed here;
    area, containment, scaling and simplification belong to libraries and enter
    the model as function parameters. */
module Geometry {

  datatype Coord = Coord(x: real, y: real)

  /** `geo::Polygon`: the exterior ring and the holes, each a coordinate list. */
  datatype Polygon = Polygon(exterior: seq<Coord>, interiors: seq<seq<Coord>>)

  /** `geo::Rect` and `rstar::AABB` alike: a lower and an upper corner. */
  datatype Rect = Rect(min: Coord, max: Coord)

  function Min(a: real, b: real): real { if a <= b then a else b }
  function Max(a: real, b: real): real { if a <= b then b else a }

  /** The bounding rectangle of a non-empty coordinate list: the smallest box
      holding every coordinate, each of its four sides touched by one. */
  function BoundingRect(cs: seq<Coord>): (r: Rect)
    requires |cs| > 0
    ensures forall i :: 0 <= i < |cs| ==>
              r.min.x <= cs[i].x <= r.max.x && r.min.y <= cs[i].y <= r.max.y
    ensures exists i :: 0 <= i < |cs| && cs[i].x == r.min.x
    ensures exists i :: 0 <= i < |cs| && cs[i].y == r.min.y
    ensures exists i :: 0 <= i < |cs| && cs[i].x == r.max.x
    ensures exists i :: 0 <= i < |cs| && cs[i].y == r.max.y
  {
    if |cs| == 1 then Rect(cs[0], cs[0])
    else
      var rest := BoundingRect(cs[1..]);
      assert forall i :: 1 <= i < |cs| ==> cs[i] == cs[1..][i - 1];
      Rect(Coord(Min(cs[0].x, rest.min.x), Min(cs[0].y, rest.min.y)),
           Coord(Max(cs[0].x, rest.max.x), Max(cs[0].y, rest.max.y)))
  }

  /** `AABB::from_corners`: the box spanned by two arbitrary corners. */
  function FromCorners(a: Coord, b: Coord): (r: Rect)
    ensures r.min.x <= r.max.x && r.min.y <= r.max.y
    ensures {r.min.x, r.max.x} == {a.x, b.x} && {r.min.y, r.max.y} == {a.y, b.y}
  {
    Rect(Coord(Min(a.x, b.x), Min(a.y, b.y)), Coord(Max(a.x, b.x), Max(a.y, b.y)))
  }

  /** The y-negation the renderer applies (screen y grows downwards). */
  function Flip(c: Coord): Coord { Coord(c.x, -c.y) }

  function FlipAll(cs: seq<Coord>): (r: seq<Coord>)
    ensures |r| == |cs| && forall i :: 0 <= i < |cs| ==> r[i] == Flip(cs[i])
  {
    seq(|cs|, i requires 0 <= i < |cs| => Flip(cs[i]))
  }
}
