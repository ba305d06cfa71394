/** The newer generation's country registry (`WorldStudyData`): loading scales
    and simplifies every country's polygons, drops excluded codes, orders the
    codes so enclaves come last and builds the three derived caches; afterwards
    it answers lookups by code and point queries. */
module StudyData {
  import opened Common
  import opened Geometry
  import opened Paint
  import opened CountryRecord
  import opened IdentifiedPolygons
  import MaxByKey
  import CountryMeshBuilder
  import CountryOutlines
  import CountryPolygonTree

  const EXCLUDED_COUNTRY_CODES: seq<string> := ["AQ"]
  const SCALED_COUNTRIES: seq<(string, real)> := [("VA", 115.0), ("SM", 2.0), ("MC", 3.0), ("TV", 5.0), ("NR", 2.0)]

  /** `geo`'s `Scale::scale(factor)` and `SimplifyVw::simplify_vw(&0.0025)`. */
  type Scaler = (Polygon, real) -> Polygon
  type Simplifier = Polygon -> Polygon

  /** `.iter().cloned().collect()` into a HashMap: a later pair overwrites an
      earlier one with the same key. */
  function Collect(pairs: seq<(string, real)>): map<string, real> {
    if |pairs| == 0 then map[]
    else Collect(pairs[..|pairs| - 1])[pairs[|pairs| - 1].0 := pairs[|pairs| - 1].1]
  }

  /** The per-country scale factor: its entry in the override table, 1.0 for
      every other code. */
  function ScaleFactor(code: string): real {
    var table := Collect(SCALED_COUNTRIES);
    if code in table then table[code] else 1.0
  }

  lemma ScaleFactorTable(code: string)
    ensures ScaleFactor(code) ==
      if code == "VA" then 115.0
      else if code == "SM" then 2.0
      else if code == "MC" then 3.0
      else if code == "TV" then 5.0
      else if code == "NR" then 2.0
      else 1.0
  {
    var s := SCALED_COUNTRIES;
    assert Collect(s[..1]) == map["VA" := 115.0] by { assert s[..1][..0] == []; }
    assert Collect(s[..2]) == map["VA" := 115.0, "SM" := 2.0] by { assert s[..2][..1] == s[..1]; }
    assert Collect(s[..3]) == map["VA" := 115.0, "SM" := 2.0, "MC" := 3.0] by { assert s[..3][..2] == s[..2]; }
    assert Collect(s[..4]) == map["VA" := 115.0, "SM" := 2.0, "MC" := 3.0, "TV" := 5.0] by { assert s[..4][..3] == s[..3]; }
    assert Collect(s) == map["VA" := 115.0, "SM" := 2.0, "MC" := 3.0, "TV" := 5.0, "NR" := 2.0] by { assert s[..4] == s[..|s| - 1]; }
  }

  /** The `map` inside `values_mut().for_each`: every polygon is scaled by the
      country's factor and then simplified, one output polygon per input. */
  function Simplified(country: Country, scale: Scaler, simplify: Simplifier): (c: Country)
    ensures c.isoA2 == country.isoA2 && c.name == country.name && c.isEnclave == country.isEnclave
    ensures |c.polygons| == |country.polygons|
    ensures forall i :: 0 <= i < |c.polygons| ==>
              c.polygons[i] == simplify(scale(country.polygons[i], ScaleFactor(country.isoA2)))
  {
    var factor := ScaleFactor(country.isoA2);
    country.(polygons := seq(|country.polygons|, i requires 0 <= i < |country.polygons| =>
      simplify(scale(country.polygons[i], factor))))
  }

  /** `world_data.countries.values_mut().for_each(...)`: the pass rewrites every
      value of the map in place and keeps its key set. */
  method ScaleAndSimplify(world: map<string, Country>, scale: Scaler, simplify: Simplifier)
    returns (result: map<string, Country>)
    ensures result.Keys == world.Keys
    ensures forall code :: code in world ==> result[code] == Simplified(world[code], scale, simplify)
  {
    result := world;
    var todo := world.Keys;
    while todo != {}
      invariant todo <= world.Keys && result.Keys == world.Keys
      invariant forall code :: code in world ==>
                  result[code] == if code in todo then world[code] else Simplified(world[code], scale, simplify)
      decreases todo
    {
      var code :| code in todo;
      result := result[code := Simplified(result[code], scale, simplify)];
      todo := todo - {code};
    }
  }

  /** The `filter_map` that drops excluded codes: every other key is kept with
      its country. */
  function KeepIncluded(world: map<string, Country>): (r: map<string, Country>)
    ensures r.Keys == world.Keys - {"AQ"}
    ensures forall code :: code in r ==> r[code] == world[code]
  {
    map code | code in world && code !in EXCLUDED_COUNTRY_CODES :: world[code]
  }

  function IsEnclave(c: Country): bool { c.isEnclave }

  /** `sort_by_key(|c| c.is_enclave)`: the stable sort that moves enclaves to
      the end. */
  function SortByEnclave(cs: seq<Country>): seq<Country> {
    SortByFlag(cs, IsEnclave)
  }

  function Codes(cs: seq<Country>): (r: seq<string>)
    ensures |r| == |cs| && forall i :: 0 <= i < |cs| ==> r[i] == cs[i].isoA2
  {
    seq(|cs|, i requires 0 <= i < |cs| => cs[i].isoA2)
  }

  /** The filter of the point query: the polygon contains the point. */
  function Keep(point: Coord, contains: (Polygon, Coord) -> bool): IdentifiedPolygon -> bool {
    (p: IdentifiedPolygon) => p.ContainsPoint(point, contains)
  }

  /** The key of `max_by_key`: the priority flag. */
  function Priority(p: IdentifiedPolygon): bool {
    p.priority
  }

  class WorldStudyData {
    const countries: map<string, Country>
    /** The countries behind `countryCodes`, in the same order. */
    const countriesSorted: seq<Country>
    const countryCodes: seq<string>
    const countryMeshes: CountryMeshBuilder.CountryMeshesMap
    const countryOutlines: map<string, seq<Shape>>
    /** The entries handed to `RTree::bulk_load`. */
    const countryPolygonTree: seq<IdentifiedPolygon>
    /** The order in which the `countries` HashMap yields its keys. */
    const order: seq<string>

    ghost predicate Valid() {
      && IsEnumeration(order, countries.Keys)
      && countriesSorted == SortByEnclave(ValuesInOrder(countries, order))
      && countryCodes == Codes(countriesSorted)
      && countryPolygonTree == CountryPolygonTree.TreeEntries(countries, order)
    }

    /** `WorldStudyData::load`, from the loaded world data. `order` is the
        iteration order of the filtered `countries` map. */
    constructor Load(world: map<string, Country>, order: seq<string>, scale: Scaler, simplify: Simplifier,
                     earcut: CountryMeshBuilder.Triangulator)
      requires IsEnumeration(order, world.Keys - {"AQ"})
      ensures Valid()
      ensures this.order == order
      ensures countries.Keys == world.Keys - {"AQ"}
      ensures forall code :: code in countries ==> countries[code] == Simplified(world[code], scale, simplify)
      ensures countryMeshes.meshes.Keys == countries.Keys
      ensures forall code :: code in countries ==>
                countryMeshes.meshes[code] == CountryMeshBuilder.MeshesFor(countries[code].polygons, earcut)
      ensures countryOutlines.Keys == countries.Keys
      ensures forall code :: code in countries ==>
                countryOutlines[code] == CountryOutlines.OutlinesFor(countries[code].polygons)
    {
      var simplified := ScaleAndSimplify(world, scale, simplify);
      var kept := KeepIncluded(simplified);
      var sorted := SortByEnclave(ValuesInOrder(kept, order));
      countries := kept;
      countriesSorted := sorted;
      countryCodes := Codes(sorted);
      var meshes := CountryMeshBuilder.Build(kept, earcut);
      var outlines := CountryOutlines.BuildCountryOutlines(kept);
      var tree := CountryPolygonTree.BuildCountryPolygonTree(kept, order);
      countryMeshes := meshes;
      countryOutlines := outlines;
      countryPolygonTree := tree;
      this.order := order;
    }

    /** `get_country`: the lookup of the upper-cased code. */
    function GetCountry(code: string): (r: Option<Country>) {
      if ToUpper(code) in countries then Some(countries[ToUpper(code)]) else None
    }

    /** `get_countries`: `filter_map(get_country)`. */
    function GetCountries(codes: seq<string>): seq<Country> {
      FilterMap(codes, (code: string) => GetCountry(code))
    }

    function GetCountryOutlines(code: string): (r: Option<seq<Shape>>)
      ensures r.Some? <==> code in countryOutlines
      ensures r.Some? ==> r.value == countryOutlines[code]
    {
      if code in countryOutlines then Some(countryOutlines[code]) else None
    }

    /** `get_country_meshes`: an exact-key lookup of the mesh cache. */
    function GetCountryMeshes(code: string): (r: Option<CountryMeshes>)
      ensures r.Some? <==> code in countryMeshes.meshes
      ensures r.Some? ==> r.value == countryMeshes.meshes[code]
    {
      countryMeshes.Get(code)
    }

    /** `get_country_code_at_point`: among the R-tree's `candidates` for the
        point (those whose envelope intersects it), keep the ones whose polygon
        contains it and return the id of the last one with maximal priority. */
    function GetCountryCodeAtPoint(candidates: seq<IdentifiedPolygon>, x: real, y: real,
                                   contains: (Polygon, Coord) -> bool): (r: Option<string>)
      ensures r.None? <==> forall j :: 0 <= j < |candidates| ==> !candidates[j].ContainsPoint(Coord(x, y), contains)
      ensures r.Some? ==> exists k: nat :: MaxByKey.IsLastMaximum(candidates, Keep(Coord(x, y), contains), Priority, k)
                                 && r.value == candidates[k].id
    {
      match MaxByKey.FilterMaxByKey(candidates, Keep(Coord(x, y), contains), Priority)
      case None => None
      case Some(k) => Some(candidates[k].id)
    }
  }

  /** Lookups ignore the case of the code. */
  lemma GetCountryIgnoresCase(data: WorldStudyData, code: string)
    ensures data.GetCountry(ToLower(code)) == data.GetCountry(code)
    ensures data.GetCountry(ToUpper(code)) == data.GetCountry(code)
  {
    ToUpperIdempotent(code);
    ToUpperIgnoresCase(code);
  }

  /** `get_countries` keeps the order of the requested codes, returns the
      country of every known code and silently skips the unknown ones. */
  lemma GetCountriesSkipsUnknown(data: WorldStudyData, codes: seq<string>)
    ensures |data.GetCountries(codes)| <= |codes|
    ensures forall c :: c in data.GetCountries(codes) ==> exists i :: 0 <= i < |codes| && data.GetCountry(codes[i]) == Some(c)
    ensures (forall i :: 0 <= i < |codes| ==> data.GetCountry(codes[i]).Some?) ==>
              |data.GetCountries(codes)| == |codes| &&
              forall i :: 0 <= i < |codes| ==> Some(data.GetCountries(codes)[i]) == data.GetCountry(codes[i])
  {
    FilterMapSkipsMissing(codes, (code: string) => data.GetCountry(code));
  }

  /** The codes list has one entry per kept country; the countries behind it
      are a permutation of the kept ones with every non-enclave before every
      enclave, and within each group the map's iteration order is kept. */
  lemma CountryCodesEnclavesLast(data: WorldStudyData)
    requires data.Valid()
    ensures |data.countryCodes| == |data.countries|
    ensures multiset(data.countriesSorted) == multiset(ValuesInOrder(data.countries, data.order))
    ensures forall i :: 0 <= i < |data.countryCodes| ==> data.countryCodes[i] == data.countriesSorted[i].isoA2
    ensures forall i, j :: 0 <= i < j < |data.countriesSorted| ==>
              !(data.countriesSorted[i].isEnclave && !data.countriesSorted[j].isEnclave)
    ensures forall b :: FilterBy(data.countriesSorted, IsEnclave, b) == FilterBy(ValuesInOrder(data.countries, data.order), IsEnclave, b)
  {
    var vs := ValuesInOrder(data.countries, data.order);
    SortByFlagSorts(vs, IsEnclave);
    EnumerationLength(data.order, data.countries.Keys);
    assert |multiset(data.countriesSorted)| == |vs|;
  }

  /** The quizzes look their solution up with `get_country`, which goes by
      the upper-cased map key, while the codes they draw from are the
      countries' `iso_a2` values. When every country is stored under its own
      upper-case `iso_a2`, every drawn code is found, and as that country. */
  lemma CodesFoundWhenKeyedByIso(data: WorldStudyData)
    requires data.Valid()
    requires forall k :: k in data.countries ==> data.countries[k].isoA2 == k && ToUpper(k) == k
    ensures forall c :: c in data.countryCodes ==> data.GetCountry(c).Some? && data.GetCountry(c).value.isoA2 == c
  {
    CountryCodesEnclavesLast(data);
    var vs := ValuesInOrder(data.countries, data.order);
    forall c | c in data.countryCodes
      ensures data.GetCountry(c).Some? && data.GetCountry(c).value.isoA2 == c
    {
      var i :| 0 <= i < |data.countryCodes| && data.countryCodes[i] == c;
      var x := data.countriesSorted[i];
      assert x in multiset(data.countriesSorted);
      assert x in vs;
      var j :| 0 <= j < |vs| && vs[j] == x;
      assert data.order[j] in data.countries;
    }
  }

  /** A point query over candidates drawn from the index names a loaded
      country, and a prioritised (enclave) candidate that contains the point
      beats every other. */
  lemma PointQueryNamesLoadedCountry(data: WorldStudyData, candidates: seq<IdentifiedPolygon>, x: real, y: real,
                                     contains: (Polygon, Coord) -> bool)
    requires data.Valid()
    requires forall j :: 0 <= j < |candidates| ==> candidates[j] in data.countryPolygonTree
    ensures var r := data.GetCountryCodeAtPoint(candidates, x, y, contains);
            r.Some? ==> r.value in data.countries
    ensures (exists j :: 0 <= j < |candidates| && candidates[j].ContainsPoint(Coord(x, y), contains) && candidates[j].priority) ==>
              exists k :: 0 <= k < |candidates| && candidates[k].priority
                && data.GetCountryCodeAtPoint(candidates, x, y, contains) == Some(candidates[k].id)
  {
    CountryPolygonTree.TreeEntriesSound(data.countries, data.order);
    var keep := Keep(Coord(x, y), contains);
    var key := Priority;
    var r := MaxByKey.FilterMaxByKey(candidates, keep, key);
    if r.Some? {
      assert candidates[r.value] in data.countryPolygonTree;
    }
    if j :| 0 <= j < |candidates| && candidates[j].ContainsPoint(Coord(x, y), contains) && candidates[j].priority {
      MaxByKey.PriorityWins(candidates, keep, key, j);
    }
  }
  /** The query's answer depends on the order in which the R-tree yields its
      candidates: two unprioritised polygons that both contain the point are
      resolved in favour of whichever comes last. */
  lemma PointQueryDependsOnCandidateOrder(data: WorldStudyData, a: IdentifiedPolygon, b: IdentifiedPolygon,
                                          x: real, y: real, contains: (Polygon, Coord) -> bool)
    requires a.ContainsPoint(Coord(x, y), contains) && b.ContainsPoint(Coord(x, y), contains)
    requires !a.priority && !b.priority
    ensures data.GetCountryCodeAtPoint([a, b], x, y, contains) == Some(b.id)
    ensures data.GetCountryCodeAtPoint([b, a], x, y, contains) == Some(a.id)
  {
    var keep := Keep(Coord(x, y), contains);
    var ab := MaxByKey.FilterMaxByKey([a, b], keep, Priority);
    MaxByKey.LastMaximumIsUnique([a, b], keep, Priority, ab.value, 1);
    var ba := MaxByKey.FilterMaxByKey([b, a], keep, Priority);
    MaxByKey.LastMaximumIsUnique([b, a], keep, Priority, ba.value, 1);
  }
}
