/** The country record that `data/src/lib.rs` and `data/src/country/meshes.rs`
    read: the code, the region, the enclave flag and the outlines as point
    lists. The data crate's `Country` in `data/src/country.rs` declares only
    code, names and region, so these two files get a record of their own with
    the fields they use. The flag image and the capitals are not inspected
    here and are left out. */
module WorldDataRecord {
  import opened Geometry

  datatype Country = Country(code: string, region: string, isEnclave: bool, outlines: seq<seq<Coord>>)

  function IsEnclave(c: Country): bool { c.isEnclave }

  /** The record's id: its code. */
  function Code(c: Country): string { c.code }

  /** A loop over the countries that does `insert(country.code, f(country))`:
      a later country with the same code overwrites an earlier one. */
  function IndexByCode<V>(cs: seq<Country>, f: Country -> V): map<string, V> {
    if |cs| == 0 then map[]
    else IndexByCode(cs[..|cs| - 1], f)[cs[|cs| - 1].code := f(cs[|cs| - 1])]
  }

  /** The keys are exactly the codes of the countries visited. */
  lemma {:induction false} IndexByCodeKeys<V>(cs: seq<Country>, f: Country -> V)
    ensures forall c :: c in IndexByCode(cs, f) <==> exists i :: 0 <= i < |cs| && cs[i].code == c
  {
    if |cs| > 0 {
      var n := |cs| - 1;
      IndexByCodeKeys(cs[..n], f);
      forall c | c in IndexByCode(cs, f) ensures exists i :: 0 <= i < |cs| && cs[i].code == c {
        if c != cs[n].code {
          assert c in IndexByCode(cs[..n], f);
          var i :| 0 <= i < n && cs[..n][i].code == c;
          assert cs[i].code == c;
        }
      }
      forall c | exists i :: 0 <= i < |cs| && cs[i].code == c ensures c in IndexByCode(cs, f) {
        var i :| 0 <= i < |cs| && cs[i].code == c;
        if i < n {
          assert cs[..n][i].code == c;
        }
      }
    }
  }

  /** A code maps to the value of the last country that carries it. */
  lemma {:induction false} IndexByCodeLast<V>(cs: seq<Country>, f: Country -> V, i: nat)
    requires i < |cs|
    requires forall j :: i < j < |cs| ==> cs[j].code != cs[i].code
    ensures cs[i].code in IndexByCode(cs, f) && IndexByCode(cs, f)[cs[i].code] == f(cs[i])
  {
    var n := |cs| - 1;
    if i < n {
      IndexByCodeLast(cs[..n], f, i);
    }
  }
}
