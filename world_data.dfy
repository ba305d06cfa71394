/** The data crate's registry (`WorldStudyData` in `data/src/lib.rs`): built
    around the stored countries, then `initialize` fills the region grouping,
    the code list with enclaves last, the region set and the three caches;
    afterwards it answers lookups, existence checks and point queries. */
module WorldData {
  import opened Common
  import opened Geometry
  import opened Paint
  import opened WorldDataRecord
  import opened GenericIdentifiedPolygons
  import DataMaps
  import MaxByKey
  import CountryMeshBuilder
  import WorldDataMeshes

  const OUTLINE_STROKE := Stroke(0.1, OUTLINE_COLOR)

  // ---------------------------------------------------------------------------
  // Region grouping.
  // ---------------------------------------------------------------------------

  /** `entry(region).or_default().insert(code)` for every country in turn. */
  function ByRegion(cs: seq<Country>): map<string, set<string>> {
    if |cs| == 0 then map[]
    else
      var m := ByRegion(cs[..|cs| - 1]);
      var c := cs[|cs| - 1];
      m[c.region := (if c.region in m then m[c.region] else {}) + {c.code}]
  }

  /** The groups are keyed by exactly the regions that occur, and a code is in
      a region's group exactly when some country has that code and region. */
  lemma {:induction false} ByRegionMembers(cs: seq<Country>)
    ensures forall r :: r in ByRegion(cs) <==> exists i :: 0 <= i < |cs| && cs[i].region == r
    ensures forall r, c :: r in ByRegion(cs) && c in ByRegion(cs)[r] <==>
              exists i :: 0 <= i < |cs| && cs[i].region == r && cs[i].code == c
  {
    if |cs| > 0 {
      var n := |cs| - 1;
      var prefix := cs[..n];
      ByRegionMembers(prefix);
      assert forall i :: 0 <= i < n ==> prefix[i] == cs[i];
      forall r, c | r in ByRegion(cs) && c in ByRegion(cs)[r]
        ensures exists i :: 0 <= i < |cs| && cs[i].region == r && cs[i].code == c
      {
        if !(r == cs[n].region && c == cs[n].code) {
          assert r in ByRegion(prefix) && c in ByRegion(prefix)[r];
        }
      }
    }
  }

  method GroupByRegion(cs: seq<Country>) returns (byRegion: map<string, set<string>>)
    ensures byRegion == ByRegion(cs)
  {
    byRegion := map[];
    for i := 0 to |cs|
      invariant byRegion == ByRegion(cs[..i])
    {
      var country := cs[i];
      var group := if country.region in byRegion then byRegion[country.region] else {};
      byRegion := byRegion[country.region := group + {country.code}];
      assert cs[..i + 1][..i] == cs[..i];
    }
    assert cs[..|cs|] == cs;
  }

  function Codes(cs: seq<Country>): (r: seq<string>)
    ensures |r| == |cs| && forall i :: 0 <= i < |cs| ==> r[i] == cs[i].code
  {
    seq(|cs|, i requires 0 <= i < |cs| => cs[i].code)
  }

  /** The `map(|country| country.code.clone())` over the sorted list. */
  method CodesOf(sorted: seq<Country>) returns (codes: seq<string>)
    ensures codes == Codes(sorted)
  {
    codes := [];
    for i := 0 to |sorted|
      invariant codes == Codes(sorted[..i])
    {
      codes := codes + [sorted[i].code];
    }
    assert sorted[..|sorted|] == sorted;
  }

  // ---------------------------------------------------------------------------
  // Outlines.
  // ---------------------------------------------------------------------------

  function LinesFor(outlines: seq<seq<Coord>>): seq<Shape> {
    if |outlines| == 0 then []
    else LinesFor(outlines[..|outlines| - 1]) + [LineShape(Plain(outlines[|outlines| - 1]), OUTLINE_STROKE)]
  }

  function OutlinesOf(c: Country): seq<Shape> { LinesFor(c.outlines) }

  /** One shape per outline, its points the outline's points unchanged and in
      order, all in one stroke. */
  lemma {:induction false} LinesCopyPoints(outlines: seq<seq<Coord>>)
    ensures |LinesFor(outlines)| == |outlines|
    ensures forall i :: 0 <= i < |outlines| ==>
              && LinesFor(outlines)[i] == LineShape(Plain(outlines[i]), OUTLINE_STROKE)
              && |LinesFor(outlines)[i].points| == |outlines[i]|
              && forall k :: 0 <= k < |outlines[i]| ==>
                   LinesFor(outlines)[i].points[k] == Pos2(outlines[i][k].x, outlines[i][k].y)
  {
    if |outlines| > 0 {
      LinesCopyPoints(outlines[..|outlines| - 1]);
    }
  }

  method PlainPoints(line: seq<Coord>) returns (points: seq<Pos2>)
    ensures points == Plain(line)
  {
    points := [];
    for k := 0 to |line|
      invariant points == Plain(line[..k])
    {
      points := points + [Pos2(line[k].x, line[k].y)];
    }
    assert line[..|line|] == line;
  }

  method CountryOutlineShapes(country: Country) returns (shapes: seq<Shape>)
    ensures shapes == OutlinesOf(country)
  {
    shapes := [];
    for i := 0 to |country.outlines|
      invariant shapes == LinesFor(country.outlines[..i])
    {
      var points := PlainPoints(country.outlines[i]);
      shapes := shapes + [LineShape(points, OUTLINE_STROKE)];
      assert country.outlines[..i + 1][..i] == country.outlines[..i];
    }
    assert country.outlines[..|country.outlines|] == country.outlines;
  }

  /** `initialize_country_outlines`: one insert per country, keyed by its
      code. */
  method InitializeCountryOutlines(countries: seq<Country>) returns (outlines: map<string, seq<Shape>>)
    ensures outlines == IndexByCode(countries, OutlinesOf)
  {
    outlines := map[];
    for i := 0 to |countries|
      invariant outlines == IndexByCode(countries[..i], OutlinesOf)
    {
      var shapes := CountryOutlineShapes(countries[i]);
      outlines := outlines[countries[i].code := shapes];
      assert countries[..i + 1][..i] == countries[..i];
    }
    assert countries[..|countries|] == countries;
  }

  // ---------------------------------------------------------------------------
  // Polygon tree entries.
  // ---------------------------------------------------------------------------

  /** One entry per outline: the outline as a hole-less polygon, the country's
      code as id and its enclave flag as priority. */
  function EntriesFor(c: Country): (r: seq<IdentifiedPolygon>)
    ensures |r| == |c.outlines|
    ensures forall j :: 0 <= j < |r| ==> r[j] == IdentifiedPolygon(c.code, c.isEnclave, Polygon(c.outlines[j], []))
  {
    seq(|c.outlines|, j requires 0 <= j < |c.outlines| => IdentifiedPolygon(c.code, c.isEnclave, Polygon(c.outlines[j], [])))
  }

  function TreeEntries(cs: seq<Country>): seq<IdentifiedPolygon> {
    if |cs| == 0 then [] else TreeEntries(cs[..|cs| - 1]) + EntriesFor(cs[|cs| - 1])
  }

  function OutlineCount(cs: seq<Country>): nat {
    if |cs| == 0 then 0 else OutlineCount(cs[..|cs| - 1]) + |cs[|cs| - 1].outlines|
  }

  /** There is one entry per outline, and every entry is an outline of some
      country, without holes, tagged with that country's code and enclave
      flag. */
  lemma {:induction false} TreeEntriesSound(cs: seq<Country>)
    ensures |TreeEntries(cs)| == OutlineCount(cs)
    ensures forall e :: e in TreeEntries(cs) ==>
              && e.polygon.interiors == []
              && exists i :: 0 <= i < |cs| && e.id == cs[i].code && e.priority == cs[i].isEnclave
                             && e.polygon.exterior in cs[i].outlines
  {
    if |cs| > 0 {
      var n := |cs| - 1;
      TreeEntriesSound(cs[..n]);
      forall e | e in TreeEntries(cs)
        ensures exists i :: 0 <= i < |cs| && e.id == cs[i].code && e.priority == cs[i].isEnclave
                            && e.polygon.exterior in cs[i].outlines
      {
        if e in TreeEntries(cs[..n]) {
          var i :| 0 <= i < n && e.id == cs[..n][i].code && e.priority == cs[..n][i].isEnclave
                   && e.polygon.exterior in cs[..n][i].outlines;
          assert cs[..n][i] == cs[i];
        } else {
          var es := EntriesFor(cs[n]);
          var j :| 0 <= j < |es| && es[j] == e;
          assert e.polygon.exterior == cs[n].outlines[j];
        }
      }
    }
  }

  method CopyRing(line: seq<Coord>) returns (points: seq<Coord>)
    ensures points == line
  {
    points := [];
    for k := 0 to |line|
      invariant points == line[..k]
    {
      points := points + [Coord(line[k].x, line[k].y)];
    }
  }

  /** `initialize_country_polygon_tree` up to `bulk_load`. */
  method InitializeCountryPolygonTree(countries: seq<Country>) returns (polygons: seq<IdentifiedPolygon>)
    ensures polygons == TreeEntries(countries)
  {
    polygons := [];
    for i := 0 to |countries|
      invariant polygons == TreeEntries(countries[..i])
    {
      var country := countries[i];
      ghost var before := polygons;
      for j := 0 to |country.outlines|
        invariant polygons == before + EntriesFor(country)[..j]
      {
        var exterior := CopyRing(country.outlines[j]);
        polygons := polygons + [IdentifiedPolygon(country.code, country.isEnclave, Polygon(exterior, []))];
        assert EntriesFor(country)[..j + 1] == EntriesFor(country)[..j] + [EntriesFor(country)[j]];
      }
      assert EntriesFor(country)[..|country.outlines|] == EntriesFor(country);
      assert countries[..i + 1][..i] == countries[..i];
    }
    assert countries[..|countries|] == countries;
  }

  // ---------------------------------------------------------------------------
  // The registry.
  // ---------------------------------------------------------------------------

  function Keep(point: Coord, contains: (Polygon, Coord) -> bool): IdentifiedPolygon -> bool {
    (p: IdentifiedPolygon) => p.ContainsPoint(point, contains)
  }

  function Priority(p: IdentifiedPolygon): bool { p.priority }

  /** The caches `initialize` derives from the country list. */
  method Derive(cs: seq<Country>, earcut: CountryMeshBuilder.Triangulator)
    returns (byRegion: map<string, set<string>>, sorted: seq<Country>, codes: seq<string>,
             outlines: map<string, seq<Shape>>, meshes: map<string, CountryMeshes>, tree: seq<IdentifiedPolygon>)
    ensures byRegion == ByRegion(cs)
    ensures sorted == SortByFlag(cs, IsEnclave) && codes == Codes(sorted)
    ensures outlines == IndexByCode(cs, OutlinesOf)
    ensures meshes == IndexByCode(cs, WorldDataMeshes.MeshesOf(earcut))
    ensures tree == TreeEntries(cs)
  {
    byRegion := GroupByRegion(cs);
    sorted := SortByFlag(cs, IsEnclave);
    codes := CodesOf(sorted);
    outlines := InitializeCountryOutlines(cs);
    meshes := WorldDataMeshes.InitializeCountryMeshes(cs, earcut);
    tree := InitializeCountryPolygonTree(cs);
  }

  class WorldStudyData {
    /** The entities of the `countries` DataMap; `initialize` only reads it. */
    const countries: map<string, Country>
    /** The order in which `countries.iter()` yields them. */
    const order: seq<string>

    var countriesByRegion: map<string, set<string>>
    var countryCodes: seq<string>
    /** The sorted country list the codes are read from. */
    ghost var countriesSorted: seq<Country>
    var regions: set<string>
    var countryOutlines: map<string, seq<Shape>>
    var countryMeshes: map<string, CountryMeshes>
    var countryPolygonTree: seq<IdentifiedPolygon>

    ghost predicate Valid() {
      IsEnumeration(order, countries.Keys)
    }

    /** The countries as `iter()` produces them. */
    function Countries(): (r: seq<Country>)
      requires Valid()
      ensures |r| == |order| && forall i :: 0 <= i < |order| ==> r[i] == countries[order[i]]
    {
      ValuesInOrder(countries, order)
    }

    /** Every country is stored under its own code, as `DataMap::add` keeps
        it; a deserialised store need not satisfy this. */
    ghost predicate StoredUnderCode() {
      DataMaps.KeysAgree(Code, countries)
    }

    /** What `initialize` leaves behind, for a given triangulator. */
    ghost predicate Initialized(earcut: CountryMeshBuilder.Triangulator)
      reads this
    {
      && Valid()
      && countriesByRegion == ByRegion(Countries())
      && countriesSorted == SortByFlag(Countries(), IsEnclave)
      && countryCodes == Codes(countriesSorted)
      && regions == countriesByRegion.Keys
      && countryOutlines == IndexByCode(Countries(), OutlinesOf)
      && countryMeshes == IndexByCode(Countries(), WorldDataMeshes.MeshesOf(earcut))
      && countryPolygonTree == TreeEntries(Countries())
    }

    /** `build`, from the parsed store: every derived field empty. */
    constructor Build(countries: map<string, Country>, order: seq<string>)
      requires IsEnumeration(order, countries.Keys)
      ensures this.countries == countries && this.order == order && Valid()
      ensures countriesByRegion == map[] && countryCodes == [] && regions == {}
      ensures countryOutlines == map[] && countryMeshes == map[] && countryPolygonTree == []
    {
      this.countries := countries;
      this.order := order;
      countriesByRegion := map[];
      countryCodes := [];
      countriesSorted := [];
      regions := {};
      countryOutlines := map[];
      countryMeshes := map[];
      countryPolygonTree := [];
    }

    method Initialize(earcut: CountryMeshBuilder.Triangulator)
      requires Valid()
      modifies this
      ensures Initialized(earcut)
    {
      var cs := Countries();
      var byRegion, sorted, codes, outlines, meshes, tree := Derive(cs, earcut);
      countriesByRegion, countriesSorted, countryCodes := byRegion, sorted, codes;
      regions := byRegion.Keys;
      countryOutlines, countryMeshes, countryPolygonTree := outlines, meshes, tree;
    }

    /** `get_country`: the lookup of the upper-cased code. */
    function GetCountry(code: string): (r: Option<Country>) {
      if ToUpper(code) in countries then Some(countries[ToUpper(code)]) else None
    }

    /** `get_countries`: `filter_map(get_country)`. */
    function GetCountries(codes: seq<string>): seq<Country> {
      FilterMap(codes, (code: string) => GetCountry(code))
    }

    function GetCountryOutlines(code: string): (r: Option<seq<Shape>>)
      reads this
      ensures r.Some? <==> code in countryOutlines
      ensures r.Some? ==> r.value == countryOutlines[code]
    {
      if code in countryOutlines then Some(countryOutlines[code]) else None
    }

    function GetCountryMeshes(code: string): (r: Option<CountryMeshes>)
      reads this
      ensures r.Some? <==> code in countryMeshes
      ensures r.Some? ==> r.value == countryMeshes[code]
    {
      if code in countryMeshes then Some(countryMeshes[code]) else None
    }

    /** `country_exists`: the upper-cased code is in the code list. */
    function CountryExists(code: string): bool
      reads this
    {
      ToUpper(code) in countryCodes
    }

    /** `region_exists` as written: the upper-cased name against the stored
        names, which are not upper-cased. */
    function RegionExists(region: string): bool
      reads this
    {
      ToUpper(region) in regions
    }

    /** The lookup `region_exists` evidently means: case-insensitive on both
        sides. */
    function RegionExistsIgnoringCase(region: string): bool
      reads this
    {
      exists stored :: stored in regions && ToUpper(stored) == ToUpper(region)
    }

    function GetCountryCodeAtPoint(candidates: seq<IdentifiedPolygon>, x: real, y: real,
                                   contains: (Polygon, Coord) -> bool): (r: Option<string>)
      ensures r.None? <==> forall j :: 0 <= j < |candidates| ==> !candidates[j].ContainsPoint(Coord(x, y), contains)
      ensures r.Some? ==> exists k: nat :: MaxByKey.IsLastMaximum(candidates, Keep(Coord(x, y), contains), Priority, k)
                                           && r.value == candidates[k].id
    {
      match MaxByKey.FilterMaxByKey(candidates, Keep(Coord(x, y), contains), Priority)
      case None => None
      case Some(k) => Some(candidates[k].id)
    }
  }

  /** After `initialize`, the groups are keyed by exactly the regions of the
      stored countries, and a code is in a region's group exactly when a stored
      country has that code and region; with every country stored under its
      code, each code is in its own region's group and in no other. */
  lemma RegionGroupsAfterInitialize(data: WorldStudyData, earcut: CountryMeshBuilder.Triangulator)
    requires data.Initialized(earcut)
    ensures data.regions == data.countriesByRegion.Keys
    ensures forall r :: r in data.regions <==> exists k :: k in data.countries && data.countries[k].region == r
    ensures forall r, c :: r in data.countriesByRegion && c in data.countriesByRegion[r] <==>
              exists k :: k in data.countries && data.countries[k].region == r && data.countries[k].code == c
    ensures data.StoredUnderCode() ==>
              forall k, r :: k in data.countries && r in data.countriesByRegion ==>
                (k in data.countriesByRegion[r] <==> r == data.countries[k].region)
  {
    var cs := data.Countries();
    ByRegionMembers(cs);
    forall r | exists k :: k in data.countries && data.countries[k].region == r
      ensures r in data.regions
    {
      var k :| k in data.countries && data.countries[k].region == r;
      var i :| 0 <= i < |data.order| && data.order[i] == k;
      assert cs[i].region == r;
    }
    forall r, c | exists k :: k in data.countries && data.countries[k].region == r && data.countries[k].code == c
      ensures r in data.countriesByRegion && c in data.countriesByRegion[r]
    {
      var k :| k in data.countries && data.countries[k].region == r && data.countries[k].code == c;
      var i :| 0 <= i < |data.order| && data.order[i] == k;
      assert cs[i].region == r && cs[i].code == c;
    }
  }

  /** After `initialize`, the code list comes from a permutation of the stored
      countries in which every non-enclave precedes every enclave and each
      group keeps the iteration order. */
  lemma CountryCodesEnclavesLast(data: WorldStudyData, earcut: CountryMeshBuilder.Triangulator)
    requires data.Initialized(earcut)
    ensures |data.countryCodes| == |data.countries|
    ensures multiset(data.countriesSorted) == multiset(data.Countries())
    ensures forall i :: 0 <= i < |data.countryCodes| ==> data.countryCodes[i] == data.countriesSorted[i].code
    ensures forall i, j :: 0 <= i < j < |data.countriesSorted| ==>
              !(data.countriesSorted[i].isEnclave && !data.countriesSorted[j].isEnclave)
    ensures forall b :: FilterBy(data.countriesSorted, IsEnclave, b) == FilterBy(data.Countries(), IsEnclave, b)
  {
    SortByFlagSorts(data.Countries(), IsEnclave);
    EnumerationLength(data.order, data.countries.Keys);
    assert |multiset(data.countriesSorted)| == |data.Countries()|;
  }

  /** `get_country` ignores the letter case of the requested code. */
  lemma GetCountryIgnoresCase(data: WorldStudyData, code: string)
    ensures data.GetCountry(ToLower(code)) == data.GetCountry(code)
    ensures data.GetCountry(ToUpper(code)) == data.GetCountry(code)
  {
    ToUpperIdempotent(code);
    ToUpperIgnoresCase(code);
  }

  /** `get_countries` keeps the order of the requested codes, returns the
      country of every known code and silently skips the unknown ones. */
  lemma GetCountriesSkipsUnknown(data: WorldStudyData, codes: seq<string>)
    ensures |data.GetCountries(codes)| <= |codes|
    ensures forall c :: c in data.GetCountries(codes) ==> exists i :: 0 <= i < |codes| && data.GetCountry(codes[i]) == Some(c)
    ensures (forall i :: 0 <= i < |codes| ==> data.GetCountry(codes[i]).Some?) ==>
              |data.GetCountries(codes)| == |codes| &&
              forall i :: 0 <= i < |codes| ==> Some(data.GetCountries(codes)[i]) == data.GetCountry(codes[i])
  {
    FilterMapSkipsMissing(codes, (code: string) => data.GetCountry(code));
  }

  /** After `initialize`, `country_exists` holds exactly for the codes of the
      stored countries, in any letter case. */
  lemma CountryExistsAfterInitialize(data: WorldStudyData, earcut: CountryMeshBuilder.Triangulator, code: string)
    requires data.Initialized(earcut)
    ensures data.CountryExists(code) <==> exists k :: k in data.countries && data.countries[k].code == ToUpper(code)
    ensures data.CountryExists(ToLower(code)) == data.CountryExists(code)
  {
    ToUpperIgnoresCase(code);
    var cs := data.Countries();
    var u := ToUpper(code);
    SortByFlagSorts(cs, IsEnclave);
    PermutedCodes(cs, data.countriesSorted, u);
    if exists k :: k in data.countries && data.countries[k].code == u {
      var k :| k in data.countries && data.countries[k].code == u;
      var j :| 0 <= j < |data.order| && data.order[j] == k;
      assert cs[j].code == u;
    }
    if exists j :: 0 <= j < |cs| && cs[j].code == u {
      var j :| 0 <= j < |cs| && cs[j].code == u;
      assert data.order[j] in data.countries;
    }
  }

  /** A code is among the codes of a permutation of `cs` exactly when some
      element of `cs` carries it. */
  lemma PermutedCodes(cs: seq<Country>, sorted: seq<Country>, u: string)
    requires multiset(sorted) == multiset(cs)
    ensures u in Codes(sorted) <==> exists j :: 0 <= j < |cs| && cs[j].code == u
  {
    var codes := Codes(sorted);
    if u in codes {
      var i :| 0 <= i < |codes| && codes[i] == u;
      assert sorted[i] in multiset(cs);
      var j :| 0 <= j < |cs| && cs[j] == sorted[i];
    }
    if exists j :: 0 <= j < |cs| && cs[j].code == u {
      var j :| 0 <= j < |cs| && cs[j].code == u;
      assert cs[j] in multiset(sorted);
      var i :| 0 <= i < |sorted| && sorted[i] == cs[j];
      assert codes[i] == u;
    }
  }

  /** `region_exists` as written misses a stored region whose name is not
      already upper case: the country's region is in `regions`, yet asking for
      that very name answers false when no country stores the upper-cased
      spelling. */
  lemma RegionExistsMissesStoredName(data: WorldStudyData, earcut: CountryMeshBuilder.Triangulator, k: string)
    requires data.Initialized(earcut)
    requires k in data.countries
    requires forall other :: other in data.countries ==> data.countries[other].region != ToUpper(data.countries[k].region)
    ensures data.countries[k].region in data.regions
    ensures !data.RegionExists(data.countries[k].region)
  {
    RegionGroupsAfterInitialize(data, earcut);
  }

  /** The case-insensitive lookup finds a region exactly when some stored
      country's region matches it up to case, so every stored region is
      found under its own name and under any other spelling. */
  lemma RegionExistsIgnoringCaseAfterInitialize(data: WorldStudyData, earcut: CountryMeshBuilder.Triangulator, region: string)
    requires data.Initialized(earcut)
    ensures data.RegionExistsIgnoringCase(region) <==>
              exists k :: k in data.countries && ToUpper(data.countries[k].region) == ToUpper(region)
    ensures data.RegionExistsIgnoringCase(ToLower(region)) == data.RegionExistsIgnoringCase(region)
  {
    RegionGroupsAfterInitialize(data, earcut);
    ToUpperIgnoresCase(region);
    if data.RegionExistsIgnoringCase(region) {
      var stored :| stored in data.regions && ToUpper(stored) == ToUpper(region);
      var k :| k in data.countries && data.countries[k].region == stored;
    }
    if exists k :: k in data.countries && ToUpper(data.countries[k].region) == ToUpper(region) {
      var k :| k in data.countries && ToUpper(data.countries[k].region) == ToUpper(region);
      assert data.countries[k].region in data.regions;
    }
  }

  lemma {:induction false} StoredCodesDistinct(data: WorldStudyData, i: nat)
    requires data.Valid() && data.StoredUnderCode() && i < |data.order|
    ensures forall j :: i < j < |data.order| ==> data.Countries()[j].code != data.Countries()[i].code
  {
    var cs := data.Countries();
    forall j | i < j < |data.order| ensures cs[j].code != cs[i].code {
      assert cs[i].code == data.order[i] && cs[j].code == data.order[j];
    }
  }

  /** When every country is stored under its code, a cache keyed by
      `country.code` has exactly the store's keys, each with its own
      country's value. */
  lemma IndexedByStoreKey<V>(data: WorldStudyData, f: Country -> V)
    requires data.Valid() && data.StoredUnderCode()
    ensures IndexByCode(data.Countries(), f).Keys == data.countries.Keys
    ensures forall k :: k in data.countries ==> IndexByCode(data.Countries(), f)[k] == f(data.countries[k])
  {
    var cs := data.Countries();
    IndexByCodeKeys(cs, f);
    forall k | k in data.countries ensures k in IndexByCode(cs, f) && IndexByCode(cs, f)[k] == f(data.countries[k]) {
      var i :| 0 <= i < |data.order| && data.order[i] == k;
      StoredCodesDistinct(data, i);
      IndexByCodeLast(cs, f, i);
    }
    forall c | c in IndexByCode(cs, f) ensures c in data.countries {
      var i :| 0 <= i < |cs| && cs[i].code == c;
    }
  }

  /** After `initialize`, with every country stored under its code, the
      outline and mesh caches have one entry per country: one line per
      outline and the hole-less meshes of the outlines that triangulated. */
  lemma CachesAfterInitialize(data: WorldStudyData, earcut: CountryMeshBuilder.Triangulator)
    requires data.Initialized(earcut) && data.StoredUnderCode()
    ensures data.countryOutlines.Keys == data.countries.Keys
    ensures forall k :: k in data.countries ==> data.countryOutlines[k] == LinesFor(data.countries[k].outlines)
    ensures data.countryMeshes.Keys == data.countries.Keys
    ensures forall k :: k in data.countries ==>
              data.countryMeshes[k] == WorldDataMeshes.MeshesFor(data.countries[k].outlines, earcut)
  {
    IndexedByStoreKey(data, OutlinesOf);
    IndexedByStoreKey(data, WorldDataMeshes.MeshesOf(earcut));
  }

  /** A point query over candidates drawn from the index, with every country
      stored under its code, names a stored country; a containing enclave
      beats every other candidate. */
  lemma PointQueryNamesStoredCountry(data: WorldStudyData, earcut: CountryMeshBuilder.Triangulator,
                                     candidates: seq<IdentifiedPolygon>, x: real, y: real,
                                     contains: (Polygon, Coord) -> bool)
    requires data.Initialized(earcut) && data.StoredUnderCode()
    requires forall j :: 0 <= j < |candidates| ==> candidates[j] in data.countryPolygonTree
    ensures var r := data.GetCountryCodeAtPoint(candidates, x, y, contains);
            r.Some? ==> r.value in data.countries
    ensures (exists j :: 0 <= j < |candidates| && candidates[j].ContainsPoint(Coord(x, y), contains) && candidates[j].priority) ==>
              exists k :: 0 <= k < |candidates| && candidates[k].priority
                && data.GetCountryCodeAtPoint(candidates, x, y, contains) == Some(candidates[k].id)
  {
    var cs := data.Countries();
    TreeEntriesSound(cs);
    var keep := Keep(Coord(x, y), contains);
    var r := MaxByKey.FilterMaxByKey(candidates, keep, Priority);
    if r.Some? {
      var e := candidates[r.value];
      assert e in TreeEntries(cs);
      var i :| 0 <= i < |cs| && e.id == cs[i].code && e.priority == cs[i].isEnclave && e.polygon.exterior in cs[i].outlines;
      assert cs[i].code == data.order[i];
    }
    if j :| 0 <= j < |candidates| && candidates[j].ContainsPoint(Coord(x, y), contains) && candidates[j].priority {
      MaxByKey.PriorityWins(candidates, keep, Priority, j);
    }
  }
}
