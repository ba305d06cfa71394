/** The country data generator's merge step: every entry of the country list
    becomes a `JsonCountry` under its two-letter code, completed with the
    enclave flag and the capitals of the extra data; a later entry with the
    same code replaces an earlier one. Reading and writing the JSON files is
    not modelled. */
module CountryDataTool {
  import opened Common

  datatype Position = Position(x: real, y: real)

  datatype AllCountriesEntryName = AllCountriesEntryName(common: string, official: string)

  /** The fields of an `AllCountriesEntry` that the merge reads. */
  datatype AllCountriesEntry = AllCountriesEntry(
    name: AllCountriesEntryName, tld: seq<string>, cca2: string,
    region: string, area: real, population: nat)

  datatype CountriesExtra = CountriesExtra(enclaves: seq<string>, capitals: map<string, map<string, Position>>)

  datatype JsonCountry = JsonCountry(
    name: string, officialName: string, region: string, population: nat, area: nat,
    tlds: seq<string>, capitals: map<string, Position>, isEnclave: bool)

  const U32_MAX: nat := 0xFFFF_FFFF

  /** `area as u32` on a finite float: rounded toward zero, negative values
      saturate at 0 and values past the range at `u32::MAX`. */
  function AreaAsU32(area: real): (r: nat)
    ensures r <= U32_MAX
    ensures area < 1.0 ==> r == 0
    ensures 0.0 <= area < (U32_MAX + 1) as real ==> r as real <= area < r as real + 1.0
    ensures area >= U32_MAX as real ==> r == U32_MAX
  {
    if area < 1.0 then 0 else if area.Floor >= U32_MAX then U32_MAX else area.Floor
  }

  /** The record written for one entry. */
  function ToJson(entry: AllCountriesEntry, extra: CountriesExtra): (c: JsonCountry)
    ensures c.isEnclave <==> entry.cca2 in extra.enclaves
    ensures entry.cca2 in extra.capitals ==> c.capitals == extra.capitals[entry.cca2]
    ensures entry.cca2 !in extra.capitals ==> c.capitals == map[]
    ensures c.name == entry.name.common && c.officialName == entry.name.official
    ensures c.region == entry.region && c.population == entry.population && c.tlds == entry.tld
    ensures c.area == AreaAsU32(entry.area)
  {
    JsonCountry(entry.name.common, entry.name.official, entry.region, entry.population,
                AreaAsU32(entry.area), entry.tld,
                if entry.cca2 in extra.capitals then extra.capitals[entry.cca2] else map[],
                entry.cca2 in extra.enclaves)
  }

  /** The result after the entries in order, each inserted under its code. */
  function Merged(entries: seq<AllCountriesEntry>, extra: CountriesExtra): map<string, JsonCountry> {
    if |entries| == 0 then map[]
    else Merged(entries[..|entries| - 1], extra)[entries[|entries| - 1].cca2 := ToJson(entries[|entries| - 1], extra)]
  }

  /** One output entry per distinct input code and no other. */
  lemma {:induction false} MergedKeys(entries: seq<AllCountriesEntry>, extra: CountriesExtra)
    ensures forall code :: code in Merged(entries, extra) <==> exists i :: 0 <= i < |entries| && entries[i].cca2 == code
  {
    if |entries| > 0 {
      var n := |entries| - 1;
      MergedKeys(entries[..n], extra);
      forall code | exists i :: 0 <= i < |entries| && entries[i].cca2 == code
        ensures code in Merged(entries, extra)
      {
        var i :| 0 <= i < |entries| && entries[i].cca2 == code;
        if i < n {
          assert entries[..n][i] == entries[i];
        }
      }
    }
  }

  /** The entry stored under a code is built from the last input entry with
      that code. */
  lemma {:induction false} MergedLastWins(entries: seq<AllCountriesEntry>, extra: CountriesExtra, code: string)
    requires code in Merged(entries, extra)
    ensures exists i :: 0 <= i < |entries| && entries[i].cca2 == code
              && Merged(entries, extra)[code] == ToJson(entries[i], extra)
              && forall j :: i < j < |entries| ==> entries[j].cca2 != code
  {
    var n := |entries| - 1;
    var prefix := entries[..n];
    if entries[n].cca2 == code {
      assert Merged(entries, extra)[code] == ToJson(entries[n], extra);
    } else {
      assert Merged(entries, extra)[code] == Merged(prefix, extra)[code];
      MergedLastWins(prefix, extra, code);
      var i :| 0 <= i < n && prefix[i].cca2 == code
                && Merged(prefix, extra)[code] == ToJson(prefix[i], extra)
                && forall j :: i < j < n ==> prefix[j].cca2 != code;
      assert entries[i] == prefix[i];
      forall j | i < j < |entries|
        ensures entries[j].cca2 != code
      {
        if j < n {
          assert entries[j] == prefix[j];
        }
      }
    }
  }

  /** The merge loop of `generate_country_data`. */
  method MergeCountries(allData: seq<AllCountriesEntry>, extra: CountriesExtra) returns (result: map<string, JsonCountry>)
    ensures result == Merged(allData, extra)
  {
    result := map[];
    for k := 0 to |allData|
      invariant result == Merged(allData[..k], extra)
    {
      var entry := allData[k];
      var code := entry.cca2;
      var isEnclave := code in extra.enclaves;
      var capitals := if code in extra.capitals then extra.capitals[code] else map[];
      var country := JsonCountry(entry.name.common, entry.name.official, entry.region, entry.population,
                                 AreaAsU32(entry.area), entry.tld, capitals, isEnclave);
      result := result[code := country];
      assert allData[..k + 1][..k] == allData[..k];
    }
    assert allData[..|allData|] == allData;
  }
}
