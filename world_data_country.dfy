/** The data crate's own `Country` record (code, display names, region), its
    `HasId` implementation and the loop of `parse_countries` that turns the
    JSON map into a `DataMap`. */
module WorldDataCountry {
  import opened Common
  import opened DataMaps

  datatype Country = Country(code: string, name: string, longName: string, region: string)

  /** The JSON value type; the code is the map key. */
  datatype JsonCountry = JsonCountry(name: string, longname: string, region: string)

  /** `HasId::id`. */
  function Id(c: Country): string { c.code }

  /** `HasId::with_id`: only the code changes. */
  function WithId(c: Country, id: string): (r: Country)
    ensures Id(r) == id
    ensures r.name == c.name && r.longName == c.longName && r.region == c.region
  {
    c.(code := id)
  }

  /** `id` reads exactly the field `with_id` replaces: re-stamping a country
      with its own id gives it back, and two countries with the same id and
      the same other fields are equal. */
  lemma IdRoundTrip(c: Country, d: Country)
    ensures WithId(c, Id(c)) == c
    ensures Id(c) == Id(d) && WithId(c, "") == WithId(d, "") ==> c == d
  {
  }

  /** The record `parse_countries` builds for one JSON entry. */
  function FromJson(code: string, data: JsonCountry): Country {
    Country(code, data.name, data.longname, data.region)
  }

  /** `parse_countries` after the file is read: every JSON key becomes the
      code of its country and hence its key in the store, one entry per key,
      with the names and the region copied. */
  method ParseCountries(json: map<string, JsonCountry>) returns (store: DataMap<Country>)
    ensures fresh(store) && store.id == Id
    ensures store.entities.Keys == json.Keys
    ensures forall code :: code in json ==>
              && store.entities[code].code == code
              && store.entities[code].name == json[code].name
              && store.entities[code].longName == json[code].longname
              && store.entities[code].region == json[code].region
    ensures KeysAgree(Id, store.entities)
  {
    store := new DataMap.New(Id);
    var todo := json.Keys;
    while todo != {}
      invariant todo <= json.Keys && store.id == Id
      invariant store.entities.Keys == json.Keys - todo
      invariant forall code :: code in store.entities ==> store.entities[code] == FromJson(code, json[code])
      invariant KeysAgree(Id, store.entities)
      decreases todo
    {
      var code :| code in todo;
      store.Add(FromJson(code, json[code]));
      todo := todo - {code};
    }
  }
}
