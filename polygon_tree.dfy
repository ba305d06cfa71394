/** The newer generation's spatial index input: one `IdentifiedPolygon` per
    polygon of every country, tagged with the country's map key and its enclave
    flag. The R-tree's layout after `bulk_load` is the library's and is not
    modelled; the index is represented by this entry list. */
module CountryPolygonTree {
  import opened Common
  import opened Geometry
  import opened CountryRecord
  import opened IdentifiedPolygons

  /** The entries of one country, in polygon order. */
  function EntriesFor(code: string, country: Country): (r: seq<IdentifiedPolygon>)
    ensures |r| == |country.polygons|
    ensures forall j :: 0 <= j < |r| ==>
              r[j] == IdentifiedPolygon(code, country.isEnclave, country.polygons[j], IdentifiedPolygonType.Country)
  {
    seq(|country.polygons|, j requires 0 <= j < |country.polygons| =>
      IdentifiedPolygon(code, country.isEnclave, country.polygons[j], IdentifiedPolygonType.Country))
  }

  /** The entry list for the countries visited in `order`. */
  function TreeEntries(countries: map<string, Country>, order: seq<string>): seq<IdentifiedPolygon>
    requires forall i :: 0 <= i < |order| ==> order[i] in countries
  {
    if |order| == 0 then []
    else TreeEntries(countries, order[..|order| - 1]) + EntriesFor(order[|order| - 1], countries[order[|order| - 1]])
  }

  /** The total number of polygons of the countries in `order`. */
  function PolygonCount(countries: map<string, Country>, order: seq<string>): nat
    requires forall i :: 0 <= i < |order| ==> order[i] in countries
  {
    if |order| == 0 then 0
    else PolygonCount(countries, order[..|order| - 1]) + |countries[order[|order| - 1]].polygons|
  }

  /** Every entry belongs to a country: its id is that country's key, its
      priority the country's enclave flag and its polygon one of the
      country's polygons, unchanged; and there are exactly as many entries as
      polygons, so a country without polygons contributes none. */
  lemma {:induction false} TreeEntriesSound(countries: map<string, Country>, order: seq<string>)
    requires forall i :: 0 <= i < |order| ==> order[i] in countries
    ensures |TreeEntries(countries, order)| == PolygonCount(countries, order)
    ensures forall e :: e in TreeEntries(countries, order) ==>
              && e.id in order
              && e.priority == countries[e.id].isEnclave
              && e.polygon in countries[e.id].polygons
              && e.polygonType == IdentifiedPolygonType.Country
  {
    if |order| > 0 {
      var n := |order| - 1;
      TreeEntriesSound(countries, order[..n]);
      forall e | e in TreeEntries(countries, order)
        ensures e.id in order && e.priority == countries[e.id].isEnclave && e.polygon in countries[e.id].polygons
      {
        if e in TreeEntries(countries, order[..n]) {
          assert e.id in order[..n];
        } else {
          var es := EntriesFor(order[n], countries[order[n]]);
          assert e in es;
          var j :| 0 <= j < |es| && es[j] == e;
          assert e.polygon == countries[order[n]].polygons[j];
        }
      }
    }
  }

  /** Every polygon of every visited country has its entry. */
  lemma {:induction false} TreeEntriesComplete(countries: map<string, Country>, order: seq<string>, i: nat, j: nat)
    requires forall k :: 0 <= k < |order| ==> order[k] in countries
    requires i < |order| && j < |countries[order[i]].polygons|
    ensures IdentifiedPolygon(order[i], countries[order[i]].isEnclave, countries[order[i]].polygons[j], IdentifiedPolygonType.Country)
            in TreeEntries(countries, order)
  {
    var n := |order| - 1;
    if i < n {
      TreeEntriesComplete(countries, order[..n], i, j);
    } else {
      assert EntriesFor(order[n], countries[order[n]])[j] ==
        IdentifiedPolygon(order[i], countries[order[i]].isEnclave, countries[order[i]].polygons[j], IdentifiedPolygonType.Country);
    }
  }

  /** `build_country_polygon_tree` up to `bulk_load`: the nested loop over the
      countries, in the map's iteration order, and their polygons. */
  method BuildCountryPolygonTree(countries: map<string, Country>, order: seq<string>)
    returns (polygons: seq<IdentifiedPolygon>)
    requires IsEnumeration(order, countries.Keys)
    ensures polygons == TreeEntries(countries, order)
  {
    polygons := [];
    for i := 0 to |order|
      invariant polygons == TreeEntries(countries, order[..i])
    {
      var code := order[i];
      var country := countries[code];
      ghost var before := polygons;
      for j := 0 to |country.polygons|
        invariant polygons == before + EntriesFor(code, country)[..j]
      {
        polygons := polygons + [IdentifiedPolygon(code, country.isEnclave, country.polygons[j], IdentifiedPolygonType.Country)];
        assert EntriesFor(code, country)[..j + 1] == EntriesFor(code, country)[..j] + [EntriesFor(code, country)[j]];
      }
      assert EntriesFor(code, country)[..|country.polygons|] == EntriesFor(code, country);
      assert order[..i + 1][..i] == order[..i];
    }
    assert order[..|order|] == order;
  }
}
