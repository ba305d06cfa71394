/** The data crate's mesh cache (`initialize_country_meshes`): the hole-less
    variant of the mesh builder. Each outline's points are copied unchanged
    (no y negation), flattened to `[x0, y0, x1, y1, ...]`, and triangulated
    with an empty hole list; a success adds one mesh to each of the three fill
    lists. */
module WorldDataMeshes {
  import opened Common
  import opened Geometry
  import opened Paint
  import opened WorldDataRecord
  import CountryMeshBuilder

  /** What one outline's triangulation returns: always without holes. */
  function Triangulate(line: seq<Coord>, earcut: CountryMeshBuilder.Triangulator): Option<seq<nat>> {
    earcut(CountryMeshBuilder.Flatten(Plain(line)), [])
  }

  function MeshesFor(outlines: seq<seq<Coord>>, earcut: CountryMeshBuilder.Triangulator): CountryMeshes {
    if |outlines| == 0 then CountryMeshes([], [], [])
    else
      var line := outlines[|outlines| - 1];
      WithPolygon(MeshesFor(outlines[..|outlines| - 1], earcut), Plain(line), Triangulate(line, earcut))
  }

  /** The number of outlines whose triangulation succeeded. */
  function TriangulatedCount(outlines: seq<seq<Coord>>, earcut: CountryMeshBuilder.Triangulator): nat {
    if |outlines| == 0 then 0
    else TriangulatedCount(outlines[..|outlines| - 1], earcut) + (if Triangulate(outlines[|outlines| - 1], earcut).Some? then 1 else 0)
  }

  /** The three lists grow together, by one entry per outline that
      triangulated; every mesh has one vertex per outline point in a single
      fill and an index buffer of whole triples. An outline that fails adds to
      none of the lists, and what earlier outlines added is kept. */
  lemma {:induction false} MeshesInLockstep(outlines: seq<seq<Coord>>, earcut: CountryMeshBuilder.Triangulator)
    ensures Lockstep(MeshesFor(outlines, earcut))
    ensures |MeshesFor(outlines, earcut).default| == TriangulatedCount(outlines, earcut)
    ensures |outlines| > 0 ==>
              var n := |outlines| - 1;
              var line := outlines[n];
              var before := MeshesFor(outlines[..n], earcut);
              match Triangulate(line, earcut)
              case None => MeshesFor(outlines, earcut) == before
              case Some(indices) =>
                MeshesFor(outlines, earcut).default == before.default + [MeshShape(MeshOf(Plain(line), indices, DEFAULT_FILL))]
  {
    if |outlines| > 0 {
      var n := |outlines| - 1;
      MeshesInLockstep(outlines[..n], earcut);
      WithPolygonLockstep(MeshesFor(outlines[..n], earcut), Plain(outlines[n]), Triangulate(outlines[n], earcut));
    }
  }

  /** The inner loop over one outline: the points unchanged and, in step, the
      flat coordinate list, two entries per point. */
  method OutlineInput(line: seq<Coord>) returns (outlinePoints: seq<Pos2>, flatPoints: seq<real>)
    ensures outlinePoints == Plain(line)
    ensures flatPoints == CountryMeshBuilder.Flatten(outlinePoints)
    ensures |flatPoints| == 2 * |outlinePoints|
  {
    outlinePoints, flatPoints := [], [];
    for k := 0 to |line|
      invariant outlinePoints == Plain(line[..k])
      invariant flatPoints == CountryMeshBuilder.Flatten(outlinePoints)
    {
      assert Plain(line[..k + 1]) == Plain(line[..k]) + [Pos2(line[k].x, line[k].y)];
      outlinePoints := outlinePoints + [Pos2(line[k].x, line[k].y)];
      flatPoints := flatPoints + [line[k].x, line[k].y];
      assert outlinePoints[..|outlinePoints| - 1] == Plain(line[..k]);
    }
    assert line[..|line|] == line;
    CountryMeshBuilder.FlattenLength(outlinePoints);
  }

  method BuildCountry(country: Country, earcut: CountryMeshBuilder.Triangulator) returns (cm: CountryMeshes)
    ensures cm == MeshesFor(country.outlines, earcut)
  {
    var defaults, hovered, selected := [], [], [];
    for i := 0 to |country.outlines|
      invariant CountryMeshes(defaults, hovered, selected) == MeshesFor(country.outlines[..i], earcut)
    {
      var outlinePoints, flatPoints := OutlineInput(country.outlines[i]);
      var triangulation := earcut(flatPoints, []);
      if triangulation.Some? {
        var d := CreateMesh(outlinePoints, triangulation.value, DEFAULT_FILL);
        var h := CreateMesh(outlinePoints, triangulation.value, HOVERED_FILL);
        var s := CreateMesh(outlinePoints, triangulation.value, SELECTED_FILL);
        defaults, hovered, selected := defaults + [d], hovered + [h], selected + [s];
      }
      assert country.outlines[..i + 1][..i] == country.outlines[..i];
    }
    assert country.outlines[..|country.outlines|] == country.outlines;
    cm := CountryMeshes(defaults, hovered, selected);
  }

  function MeshesOf(earcut: CountryMeshBuilder.Triangulator): Country -> CountryMeshes {
    (c: Country) => MeshesFor(c.outlines, earcut)
  }

  /** `initialize_country_meshes` over `countries.iter()`: one insert per
      country, keyed by its code. */
  method InitializeCountryMeshes(countries: seq<Country>, earcut: CountryMeshBuilder.Triangulator)
    returns (meshes: map<string, CountryMeshes>)
    ensures meshes == IndexByCode(countries, MeshesOf(earcut))
  {
    meshes := map[];
    for i := 0 to |countries|
      invariant meshes == IndexByCode(countries[..i], MeshesOf(earcut))
    {
      var cm := BuildCountry(countries[i], earcut);
      meshes := meshes[countries[i].code := cm];
      assert countries[..i + 1][..i] == countries[..i];
    }
    assert countries[..|countries|] == countries;
  }
}
