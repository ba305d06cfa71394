/** The newer generation's mesh builder: for every country, every polygon is
    flattened into the ear-cutting triangulator's input (exterior first, then
    each hole, all y-negated, with the start index of every hole), and a
    successful triangulation yields one mesh in each of the three fills. */
module CountryMeshBuilder {
  import opened Common
  import opened Geometry
  import opened Paint
  import opened CountryRecord

  /** `earcutr::earcut(data, hole_indices, 2)`, `None` standing for `Err`. */
  type Triangulator = (seq<real>, seq<nat>) -> Option<seq<nat>>

  datatype CountryMeshesMap = CountryMeshesMap(meshes: map<string, CountryMeshes>)
  {
    /** `CountryMeshesMap::get`: an exact-key lookup (no case folding). */
    function Get(code: string): (r: Option<CountryMeshes>)
      ensures r.Some? <==> code in meshes
      ensures r.Some? ==> r.value == meshes[code]
    {
      if code in meshes then Some(meshes[code]) else None
    }
  }

  /** The exterior ring followed by the holes. */
  function Rings(p: Polygon): seq<seq<Coord>> { [p.exterior] + p.interiors }

  function NegatedRings(rings: seq<seq<Coord>>): (r: seq<seq<Pos2>>)
    ensures |r| == |rings| && forall i :: 0 <= i < |rings| ==> r[i] == Negated(rings[i])
  {
    seq(|rings|, i requires 0 <= i < |rings| => Negated(rings[i]))
  }

  /** `all_points`: every ring of the polygon in order, y negated. */
  function AllPoints(p: Polygon): seq<Pos2> { Concat(NegatedRings(Rings(p))) }

  /** `flat_points`: x and y of each point, interleaved, as the loop pushes them. */
  function Flatten(points: seq<Pos2>): seq<real> {
    if |points| == 0 then []
    else Flatten(points[..|points| - 1]) + [points[|points| - 1].x, points[|points| - 1].y]
  }

  /** `hole_indices`: the `current_index` counter when each hole starts. */
  function HoleIndices(p: Polygon): seq<nat> {
    seq(|p.interiors|, i requires 0 <= i < |p.interiors| => |p.exterior| + SumLengths(p.interiors[..i]))
  }

  lemma {:induction false} FlattenAt(points: seq<Pos2>, k: nat)
    requires k < |points|
    ensures |Flatten(points)| == 2 * |points|
    ensures Flatten(points)[2 * k] == points[k].x && Flatten(points)[2 * k + 1] == points[k].y
  {
    var n := |points| - 1;
    FlattenLength(points[..n]);
    if k < n {
      FlattenAt(points[..n], k);
    }
  }

  lemma {:induction false} FlattenLength(points: seq<Pos2>)
    ensures |Flatten(points)| == 2 * |points|
  {
    if |points| > 0 {
      FlattenLength(points[..|points| - 1]);
    }
  }

  lemma {:induction false} SumLengthsNegated(rings: seq<seq<Coord>>)
    ensures SumLengths(NegatedRings(rings)) == SumLengths(rings)
  {
    if |rings| > 0 {
      var n := |rings| - 1;
      assert NegatedRings(rings)[..n] == NegatedRings(rings[..n]);
      SumLengthsNegated(rings[..n]);
    }
  }

  /** The triangulator's input is laid out as it requires: `flat_points` holds
      the coordinates of `all_points[k]` at `2k` and `2k+1`, and hole `i`'s
      points start in `all_points` exactly at `hole_indices[i]`, which is the
      exterior's length plus the lengths of holes `0..i-1`. */
  lemma HoleIndicesLocateHoles(p: Polygon, i: nat, j: nat)
    requires i < |p.interiors| && j < |p.interiors[i]|
    ensures |HoleIndices(p)| == |p.interiors|
    ensures HoleIndices(p)[i] + j < |AllPoints(p)|
    ensures AllPoints(p)[HoleIndices(p)[i] + j] == Pos2(p.interiors[i][j].x, -p.interiors[i][j].y)
  {
    var rings := Rings(p);
    var neg := NegatedRings(rings);
    ConcatAt(neg, i + 1, j);
    assert neg[..i + 1] == NegatedRings(rings[..i + 1]);
    SumLengthsNegated(rings[..i + 1]);
    assert rings[..i + 1][1..] == p.interiors[..i];
    SumLengthsFirst(rings[..i + 1]);
  }

  lemma {:induction false} SumLengthsFirst<T>(ss: seq<seq<T>>)
    requires |ss| > 0
    ensures SumLengths(ss) == |ss[0]| + SumLengths(ss[1..])
  {
    var n := |ss| - 1;
    if n > 0 {
      SumLengthsFirst(ss[..n]);
      assert ss[..n][1..] == ss[1..][..n - 1];
    }
  }

  /** The inner loop over one hole: push its points, y negated, onto both
      buffers and advance `current_index` once per point. */
  method PushHole(allPoints: seq<Pos2>, flatPoints: seq<real>, current: nat, hole: seq<Coord>)
    returns (allPoints': seq<Pos2>, flatPoints': seq<real>, current': nat)
    requires flatPoints == Flatten(allPoints)
    ensures allPoints' == allPoints + Negated(hole)
    ensures flatPoints' == Flatten(allPoints')
    ensures current' == current + |hole|
  {
    allPoints', flatPoints', current' := allPoints, flatPoints, current;
    for k := 0 to |hole|
      invariant allPoints' == allPoints + Negated(hole[..k])
      invariant flatPoints' == Flatten(allPoints')
      invariant current' == current + k
    {
      var x, y := hole[k].x, -hole[k].y;
      allPoints' := allPoints' + [Pos2(x, y)];
      flatPoints' := flatPoints' + [x, y];
      current' := current' + 1;
    }
    assert hole[..|hole|] == hole;
  }

  /** The loop over the exterior: its points, y negated, on both buffers. */
  method ExteriorPoints(exterior: seq<Coord>) returns (allPoints: seq<Pos2>, flatPoints: seq<real>)
    ensures allPoints == Negated(exterior[..|exterior|])
    ensures flatPoints == Flatten(allPoints)
  {
    allPoints, flatPoints := [], [];
    for k := 0 to |exterior|
      invariant allPoints == Negated(exterior[..k])
      invariant flatPoints == Flatten(allPoints)
    {
      var x, y := exterior[k].x, -exterior[k].y;
      allPoints := allPoints + [Pos2(x, y)];
      flatPoints := flatPoints + [x, y];
    }
  }

  /** Builds `all_points`, `flat_points` and `hole_indices` for one polygon
      with the source's nested loops and running `current_index`. */
  method TriangulationInput(p: Polygon) returns (allPoints: seq<Pos2>, flatPoints: seq<real>, holeIndices: seq<nat>)
    ensures allPoints == AllPoints(p)
    ensures flatPoints == Flatten(allPoints)
    ensures holeIndices == HoleIndices(p)
  {
    allPoints, flatPoints := ExteriorPoints(p.exterior);
    ExteriorFirst(p);
    allPoints, flatPoints, holeIndices := HolePoints(p, allPoints, flatPoints);
  }

  /** The loop over the holes, after the exterior's points are in place. */
  method HolePoints(p: Polygon, exteriorPoints: seq<Pos2>, exteriorFlat: seq<real>)
    returns (allPoints: seq<Pos2>, flatPoints: seq<real>, holeIndices: seq<nat>)
    requires exteriorPoints == Concat(NegatedRings(Rings(p)[..1]))
    requires exteriorFlat == Flatten(exteriorPoints)
    requires |exteriorPoints| == |p.exterior|
    ensures allPoints == AllPoints(p)
    ensures flatPoints == Flatten(allPoints)
    ensures holeIndices == HoleIndices(p)
  {
    ghost var rings := Rings(p);
    allPoints, flatPoints, holeIndices := exteriorPoints, exteriorFlat, [];
    var current := |p.exterior|;
    for h := 0 to |p.interiors|
      invariant allPoints == Concat(NegatedRings(rings[..h + 1]))
      invariant flatPoints == Flatten(allPoints)
      invariant current == |p.exterior| + SumLengths(p.interiors[..h])
      invariant holeIndices == HoleIndices(p)[..h]
    {
      allPoints, flatPoints, current, holeIndices := HoleStep(p, h, allPoints, flatPoints, current, holeIndices);
    }
    assert rings[..|p.interiors| + 1] == rings;
    assert HoleIndices(p)[..|p.interiors|] == HoleIndices(p);
  }

  /** One turn of the hole loop: record where hole `h` starts, then push it. */
  method HoleStep(p: Polygon, h: nat, allPoints: seq<Pos2>, flatPoints: seq<real>, current: nat, holeIndices: seq<nat>)
    returns (allPoints': seq<Pos2>, flatPoints': seq<real>, current': nat, holeIndices': seq<nat>)
    requires h < |p.interiors|
    requires allPoints == Concat(NegatedRings(Rings(p)[..h + 1]))
    requires flatPoints == Flatten(allPoints)
    requires current == |p.exterior| + SumLengths(p.interiors[..h])
    requires holeIndices == HoleIndices(p)[..h]
    ensures allPoints' == Concat(NegatedRings(Rings(p)[..h + 2]))
    ensures flatPoints' == Flatten(allPoints')
    ensures current' == |p.exterior| + SumLengths(p.interiors[..h + 1])
    ensures holeIndices' == HoleIndices(p)[..h + 1]
  {
    HoleIndicesStep(p, h);
    holeIndices' := holeIndices + [current];
    allPoints', flatPoints', current' := PushHole(allPoints, flatPoints, current, p.interiors[h]);
    NextRing(p, h);
  }

  lemma ExteriorFirst(p: Polygon)
    ensures Negated(p.exterior[..|p.exterior|]) == Concat(NegatedRings(Rings(p)[..1]))
  {
    assert p.exterior[..|p.exterior|] == p.exterior;
    assert NegatedRings(Rings(p)[..1]) == [Negated(p.exterior)];
    assert Concat(NegatedRings(Rings(p)[..1])) == Concat([] + [Negated(p.exterior)]);
  }

  lemma HoleIndicesStep(p: Polygon, h: nat)
    requires h < |p.interiors|
    ensures HoleIndices(p)[..h + 1] == HoleIndices(p)[..h] + [|p.exterior| + SumLengths(p.interiors[..h])]
  {
    assert HoleIndices(p)[h] == |p.exterior| + SumLengths(p.interiors[..h]);
  }

  lemma NextRing(p: Polygon, h: nat)
    requires h < |p.interiors|
    ensures Concat(NegatedRings(Rings(p)[..h + 2])) == Concat(NegatedRings(Rings(p)[..h + 1])) + Negated(p.interiors[h])
    ensures SumLengths(p.interiors[..h + 1]) == SumLengths(p.interiors[..h]) + |p.interiors[h]|
  {
    var rings := Rings(p);
    assert NegatedRings(rings[..h + 2])[..h + 1] == NegatedRings(rings[..h + 1]);
    assert p.interiors[..h + 1][..h] == p.interiors[..h];
  }

  /** What one polygon's triangulation returns. */
  function Triangulate(p: Polygon, earcut: Triangulator): Option<seq<nat>> {
    earcut(Flatten(AllPoints(p)), HoleIndices(p))
  }

  /** The three mesh lists of a polygon list, polygon by polygon. */
  function MeshesFor(polygons: seq<Polygon>, earcut: Triangulator): CountryMeshes {
    if |polygons| == 0 then CountryMeshes([], [], [])
    else
      var p := polygons[|polygons| - 1];
      WithPolygon(MeshesFor(polygons[..|polygons| - 1], earcut), AllPoints(p), Triangulate(p, earcut))
  }

  /** The polygons whose triangulation succeeded, in order. */
  function Triangulated(polygons: seq<Polygon>, earcut: Triangulator): seq<Polygon> {
    if |polygons| == 0 then []
    else
      var p := polygons[|polygons| - 1];
      Triangulated(polygons[..|polygons| - 1], earcut) + (if Triangulate(p, earcut).Some? then [p] else [])
  }

  /** The i-th mesh of each list belongs to the i-th polygon that triangulated:
      its vertices are that polygon's `all_points` (so it has as many vertices
      as the polygon has points), in the list's fill, and its index buffer is
      that polygon's triangulation cut to whole triples. Failed polygons add to
      none of the lists, and the three lists stay in lockstep. */
  lemma MeshesMatchTriangulatedPolygons(polygons: seq<Polygon>, earcut: Triangulator)
    ensures var cm := MeshesFor(polygons, earcut);
            var ok := Triangulated(polygons, earcut);
            && Lockstep(cm)
            && |cm.default| == |ok|
            && forall i :: 0 <= i < |ok| ==>
                 Triangulate(ok[i], earcut).Some? &&
                 cm.default[i] == MeshShape(MeshOf(AllPoints(ok[i]), Triangulate(ok[i], earcut).value, DEFAULT_FILL)) &&
                 cm.hovered[i] == MeshShape(MeshOf(AllPoints(ok[i]), Triangulate(ok[i], earcut).value, HOVERED_FILL)) &&
                 cm.selected[i] == MeshShape(MeshOf(AllPoints(ok[i]), Triangulate(ok[i], earcut).value, SELECTED_FILL))
  {
    MeshesLockstep(polygons, earcut);
    forall i | 0 <= i < |Triangulated(polygons, earcut)|
      ensures var ok := Triangulated(polygons, earcut);
              var cm := MeshesFor(polygons, earcut);
              Triangulate(ok[i], earcut).Some? &&
              cm.default[i] == MeshShape(MeshOf(AllPoints(ok[i]), Triangulate(ok[i], earcut).value, DEFAULT_FILL)) &&
              cm.hovered[i] == MeshShape(MeshOf(AllPoints(ok[i]), Triangulate(ok[i], earcut).value, HOVERED_FILL)) &&
              cm.selected[i] == MeshShape(MeshOf(AllPoints(ok[i]), Triangulate(ok[i], earcut).value, SELECTED_FILL))
    {
      MeshAt(polygons, earcut, i);
    }
  }

  /** The three lists stay in lockstep and have one entry per triangulated
      polygon. */
  lemma {:induction false} MeshesLockstep(polygons: seq<Polygon>, earcut: Triangulator)
    ensures Lockstep(MeshesFor(polygons, earcut))
    ensures |MeshesFor(polygons, earcut).default| == |Triangulated(polygons, earcut)|
  {
    if |polygons| > 0 {
      var n := |polygons| - 1;
      var p := polygons[n];
      MeshesLockstep(polygons[..n], earcut);
      WithPolygonLockstep(MeshesFor(polygons[..n], earcut), AllPoints(p), Triangulate(p, earcut));
    }
  }

  /** Entry `i` of each list is the mesh of the `i`-th triangulated polygon. */
  lemma {:induction false} MeshAt(polygons: seq<Polygon>, earcut: Triangulator, i: nat)
    requires i < |Triangulated(polygons, earcut)|
    ensures var cm := MeshesFor(polygons, earcut);
            var ok := Triangulated(polygons, earcut);
            && i < |cm.default| && i < |cm.hovered| && i < |cm.selected|
            && Triangulate(ok[i], earcut).Some?
            && cm.default[i] == MeshShape(MeshOf(AllPoints(ok[i]), Triangulate(ok[i], earcut).value, DEFAULT_FILL))
            && cm.hovered[i] == MeshShape(MeshOf(AllPoints(ok[i]), Triangulate(ok[i], earcut).value, HOVERED_FILL))
            && cm.selected[i] == MeshShape(MeshOf(AllPoints(ok[i]), Triangulate(ok[i], earcut).value, SELECTED_FILL))
  {
    var n := |polygons| - 1;
    var p := polygons[n];
    var prev := MeshesFor(polygons[..n], earcut);
    var okPrev := Triangulated(polygons[..n], earcut);
    MeshesLockstep(polygons[..n], earcut);
    MeshesLockstep(polygons, earcut);
    if i < |okPrev| {
      MeshAt(polygons[..n], earcut, i);
      WithPolygonLockstep(prev, AllPoints(p), Triangulate(p, earcut));
      var cm := MeshesFor(polygons, earcut);
      assert cm.default[..|prev.default|] == prev.default;
      assert cm.default[i] == prev.default[i];
      assert cm.hovered[i] == prev.hovered[i];
      assert cm.selected[i] == prev.selected[i];
      assert Triangulated(polygons, earcut)[i] == okPrev[i];
    } else {
      assert Triangulated(polygons, earcut) == okPrev + [p];
    }
  }

  /** One country's `CountryMeshes`, with the source's per-polygon loop. */
  method BuildCountry(country: Country, earcut: Triangulator) returns (cm: CountryMeshes)
    ensures cm == MeshesFor(country.polygons, earcut)
  {
    var defaults, hovered, selected := [], [], [];
    for i := 0 to |country.polygons|
      invariant CountryMeshes(defaults, hovered, selected) == MeshesFor(country.polygons[..i], earcut)
    {
      var polygon := country.polygons[i];
      var allPoints, flatPoints, holeIndices := TriangulationInput(polygon);
      var triangulation := earcut(flatPoints, holeIndices);
      if triangulation.Some? {
        var d := CreateMesh(allPoints, triangulation.value, DEFAULT_FILL);
        var h := CreateMesh(allPoints, triangulation.value, HOVERED_FILL);
        var s := CreateMesh(allPoints, triangulation.value, SELECTED_FILL);
        defaults, hovered, selected := defaults + [d], hovered + [h], selected + [s];
      }
      assert country.polygons[..i + 1][..i] == country.polygons[..i];
    }
    assert country.polygons[..|country.polygons|] == country.polygons;
    cm := CountryMeshes(defaults, hovered, selected);
  }

  /** `CountryMeshes::build`: one entry per input key, each the meshes of that
      key's country. */
  method Build(countries: map<string, Country>, earcut: Triangulator) returns (result: CountryMeshesMap)
    ensures result.meshes.Keys == countries.Keys
    ensures forall code :: code in countries ==> result.meshes[code] == MeshesFor(countries[code].polygons, earcut)
  {
    var meshes: map<string, CountryMeshes> := map[];
    var todo := countries.Keys;
    while todo != {}
      invariant todo <= countries.Keys
      invariant meshes.Keys == countries.Keys - todo
      invariant forall code :: code in meshes ==> meshes[code] == MeshesFor(countries[code].polygons, earcut)
      decreases todo
    {
      var code :| code in todo;
      var cm := BuildCountry(countries[code], earcut);
      meshes := meshes[code := cm];
      todo := todo - {code};
    }
    result := CountryMeshesMap(meshes);
  }
}
