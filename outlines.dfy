/** The newer generation's outline cache: for every country one line strip
    per polygon, drawn along the exterior ring with y negated, all in one
    stroke. */
module CountryOutlines {
  import opened Geometry
  import opened Paint
  import opened CountryRecord

  const OUTLINE_STROKE := Stroke(0.05, OUTLINE_COLOR)

  /** The shapes of a polygon list, built polygon by polygon as the loop does. */
  function OutlinesFor(polygons: seq<Polygon>): seq<Shape> {
    if |polygons| == 0 then []
    else OutlinesFor(polygons[..|polygons| - 1]) + [LineShape(Negated(polygons[|polygons| - 1].exterior), OUTLINE_STROKE)]
  }

  /** One shape per polygon; shape `i` runs along polygon `i`'s exterior in
      order with y negated, and every shape uses the same stroke. */
  lemma {:induction false} OutlinesFollowExteriors(polygons: seq<Polygon>)
    ensures |OutlinesFor(polygons)| == |polygons|
    ensures forall i :: 0 <= i < |polygons| ==>
              OutlinesFor(polygons)[i] == LineShape(Negated(polygons[i].exterior), OUTLINE_STROKE)
  {
    if |polygons| > 0 {
      var n := |polygons| - 1;
      OutlinesFollowExteriors(polygons[..n]);
    }
  }

  /** Interior rings never reach the outlines: polygons that agree on their
      exteriors have the same outlines whatever their holes. */
  lemma OutlinesIgnoreHoles(polygons: seq<Polygon>, others: seq<Polygon>)
    requires |polygons| == |others|
    requires forall i :: 0 <= i < |polygons| ==> polygons[i].exterior == others[i].exterior
    ensures OutlinesFor(polygons) == OutlinesFor(others)
  {
    OutlinesFollowExteriors(polygons);
    OutlinesFollowExteriors(others);
  }

  /** The inner loop: one `Pos2` per exterior coordinate. */
  method OutlinePoints(ring: seq<Coord>) returns (points: seq<Pos2>)
    ensures points == Negated(ring)
  {
    points := [];
    for k := 0 to |ring|
      invariant points == Negated(ring[..k])
    {
      points := points + [Pos2(ring[k].x, -ring[k].y)];
    }
    assert ring[..|ring|] == ring;
  }

  method CountryShapes(country: Country) returns (shapes: seq<Shape>)
    ensures shapes == OutlinesFor(country.polygons)
  {
    shapes := [];
    for i := 0 to |country.polygons|
      invariant shapes == OutlinesFor(country.polygons[..i])
    {
      var points := OutlinePoints(country.polygons[i].exterior);
      shapes := shapes + [LineShape(points, OUTLINE_STROKE)];
      assert country.polygons[..i + 1][..i] == country.polygons[..i];
    }
    assert country.polygons[..|country.polygons|] == country.polygons;
  }

  /** `build_country_outlines`: the same key set as the input, each key mapped
      to its country's outlines. */
  method BuildCountryOutlines(countries: map<string, Country>) returns (outlines: map<string, seq<Shape>>)
    ensures outlines.Keys == countries.Keys
    ensures forall code :: code in countries ==> outlines[code] == OutlinesFor(countries[code].polygons)
  {
    outlines := map[];
    var todo := countries.Keys;
    while todo != {}
      invariant todo <= countries.Keys
      invariant outlines.Keys == countries.Keys - todo
      invariant forall code :: code in outlines ==> outlines[code] == OutlinesFor(countries[code].polygons)
      decreases todo
    {
      var code :| code in todo;
      var shapes := CountryShapes(countries[code]);
      outlines := outlines[code := shapes];
      todo := todo - {code};
    }
  }
}
