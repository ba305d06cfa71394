/** Small helpers shared by every module of the model: the Option type Rust
    code returns, the ASCII stand-in for `to_uppercase`/`to_lowercase`, and the
    description of the order in which a `HashMap` hands out its keys. */
module Common {

  datatype Option<+T> = None | Some(value: T)

  /** Rust's `u8`: the quiz counters are declared with this width. */
  newtype u8 = x: int | 0 <= x < 256

  // ---------------------------------------------------------------------------
  // Case mapping. Rust maps the whole of Unicode; the model maps ASCII letters
  // only, which is what every country code and region name uses.
  // ---------------------------------------------------------------------------

  function UpperChar(c: char): char {
    if 'a' <= c <= 'z' then (c as int - 'a' as int + 'A' as int) as char else c
  }

  function LowerChar(c: char): char {
    if 'A' <= c <= 'Z' then (c as int - 'A' as int + 'a' as int) as char else c
  }

  function ToUpper(s: string): (r: string)
    ensures |r| == |s|
    ensures forall i :: 0 <= i < |s| ==> r[i] == UpperChar(s[i])
  {
    seq(|s|, i requires 0 <= i < |s| => UpperChar(s[i]))
  }

  function ToLower(s: string): (r: string)
    ensures |r| == |s|
    ensures forall i :: 0 <= i < |s| ==> r[i] == LowerChar(s[i])
  {
    seq(|s|, i requires 0 <= i < |s| => LowerChar(s[i]))
  }

  /** Upper-casing twice is upper-casing once: a code that the registry has
      already normalised is found again under itself. */
  lemma ToUpperIdempotent(s: string)
    ensures ToUpper(ToUpper(s)) == ToUpper(s)
  {
    var u := ToUpper(s);
    forall i | 0 <= i < |s| ensures ToUpper(u)[i] == u[i] {
      assert UpperChar(UpperChar(s[i])) == UpperChar(s[i]);
    }
  }

  /** Upper-casing ignores the case of ASCII letters. */
  lemma ToUpperIgnoresCase(s: string)
    ensures ToUpper(ToLower(s)) == ToUpper(s)
  {
    var l := ToLower(s);
    forall i | 0 <= i < |s| ensures ToUpper(l)[i] == ToUpper(s)[i] {
      assert UpperChar(LowerChar(s[i])) == UpperChar(s[i]);
    }
  }

  /** Comparing lower-cased strings ignores the case of ASCII letters. */
  lemma ToLowerIgnoresCase(s: string)
    ensures ToLower(ToUpper(s)) == ToLower(s)
  {
    var u := ToUpper(s);
    forall i | 0 <= i < |s| ensures ToLower(u)[i] == ToLower(s)[i] {
      assert LowerChar(UpperChar(s[i])) == LowerChar(s[i]);
    }
  }

  // ---------------------------------------------------------------------------
  // Iteration order of a HashMap: some order of its keys, each exactly once.
  // ---------------------------------------------------------------------------

  ghost predicate Distinct<K>(order: seq<K>) {
    forall i, j :: 0 <= i < j < |order| ==> order[i] != order[j]
  }

  ghost predicate IsEnumeration<K>(order: seq<K>, keys: set<K>) {
    && Distinct(order)
    && (forall i :: 0 <= i < |order| ==> order[i] in keys)
    && (forall k :: k in keys ==> k in order)
  }

  /** The map's values in its iteration order. */
  function ValuesInOrder<K, V>(m: map<K, V>, order: seq<K>): (r: seq<V>)
    requires forall i :: 0 <= i < |order| ==> order[i] in m
    ensures |r| == |order| && forall i :: 0 <= i < |order| ==> r[i] == m[order[i]]
  {
    seq(|order|, i requires 0 <= i < |order| => m[order[i]])
  }

  /** An enumeration visits as many keys as the map has. */
  lemma {:induction false} EnumerationLength<K>(order: seq<K>, keys: set<K>)
    requires IsEnumeration(order, keys)
    ensures |order| == |keys|
  {
    if |order| > 0 {
      var k := order[0];
      var rest := order[1..];
      assert forall x :: x in keys - {k} ==> x in rest by {
        forall x | x in keys - {k} ensures x in rest {
          var j :| 0 <= j < |order| && order[j] == x;
          assert j != 0;
          assert rest[j - 1] == x;
        }
      }
      assert forall i :: 0 <= i < |rest| ==> rest[i] in keys - {k} by {
        forall i | 0 <= i < |rest| ensures rest[i] in keys - {k} {
          assert rest[i] == order[i + 1];
        }
      }
      EnumerationLength(rest, keys - {k});
    } else {
      assert keys == {};
    }
  }

  /** Concatenation of a sequence of sequences, in order. */
  function Concat<T>(ss: seq<seq<T>>): seq<T> {
    if |ss| == 0 then [] else Concat(ss[..|ss| - 1]) + ss[|ss| - 1]
  }

  /** The total length of the pieces. */
  function SumLengths<T>(ss: seq<seq<T>>): nat {
    if |ss| == 0 then 0 else SumLengths(ss[..|ss| - 1]) + |ss[|ss| - 1]|
  }

  lemma {:induction false} ConcatLength<T>(ss: seq<seq<T>>)
    ensures |Concat(ss)| == SumLengths(ss)
  {
    if |ss| > 0 {
      ConcatLength(ss[..|ss| - 1]);
    }
  }

  /** Position `SumLengths(ss[..i]) + j` of the concatenation is element `j`
      of piece `i`: each piece starts where the earlier ones end. */
  lemma {:induction false} ConcatAt<T>(ss: seq<seq<T>>, i: nat, j: nat)
    requires i < |ss| && j < |ss[i]|
    ensures SumLengths(ss[..i]) + j < |Concat(ss)|
    ensures Concat(ss)[SumLengths(ss[..i]) + j] == ss[i][j]
  {
    var n := |ss| - 1;
    assert ss[..n + 1] == ss;
    ConcatLength(ss);
    ConcatLength(ss[..n]);
    if i == n {
      assert ss[..n][..i] == ss[..i];
    } else {
      assert ss[..n][..i] == ss[..i];
      ConcatAt(ss[..n], i, j);
      SumLengthsPrefix(ss[..n], i);
    }
  }

  /** Piece `i` sits in the concatenation as one run, starting where the
      earlier pieces end. */
  lemma ConcatSlice<T>(ss: seq<seq<T>>, i: nat)
    requires i < |ss|
    ensures SumLengths(ss[..i]) + |ss[i]| <= |Concat(ss)|
    ensures Concat(ss)[SumLengths(ss[..i])..SumLengths(ss[..i]) + |ss[i]|] == ss[i]
  {
    var o := SumLengths(ss[..i]);
    ConcatLength(ss);
    SumLengthsPrefix(ss, i);
    forall j | 0 <= j < |ss[i]|
      ensures Concat(ss)[o + j] == ss[i][j]
    {
      ConcatAt(ss, i, j);
    }
  }

  /** The first `k` elements of piece `i` sit in the concatenation as one
      run, starting where the earlier pieces end. */
  lemma ConcatPrefixSlice<T>(ss: seq<seq<T>>, i: nat, k: nat)
    requires i < |ss| && k <= |ss[i]|
    ensures SumLengths(ss[..i]) + k <= |Concat(ss)|
    ensures Concat(ss)[SumLengths(ss[..i])..SumLengths(ss[..i]) + k] == ss[i][..k]
  {
    var o := SumLengths(ss[..i]);
    ConcatSlice(ss, i);
    assert Concat(ss)[o..o + k] == Concat(ss)[o..o + |ss[i]|][..k];
  }

  lemma {:induction false} SumLengthsPrefix<T>(ss: seq<seq<T>>, i: nat)
    requires i < |ss|
    ensures SumLengths(ss[..i]) + |ss[i]| <= SumLengths(ss)
  {
    var n := |ss| - 1;
    if i < n {
      assert ss[..n][..i] == ss[..i];
      SumLengthsPrefix(ss[..n], i);
    } else {
      assert ss[..n] == ss[..i];
    }
  }
  // ---------------------------------------------------------------------------
  // Iterator adaptors used by several modules.
  // ---------------------------------------------------------------------------

  /** The elements whose flag is `b`, in their original order. */
  function FilterBy<T>(xs: seq<T>, flag: T -> bool, b: bool): seq<T> {
    if |xs| == 0 then []
    else FilterBy(xs[..|xs| - 1], flag, b) + (if flag(xs[|xs| - 1]) == b then [xs[|xs| - 1]] else [])
  }

  /** Every kept element has the flag asked for. */
  lemma {:induction false} FilterByFlags<T>(xs: seq<T>, flag: T -> bool, b: bool)
    ensures forall i :: 0 <= i < |FilterBy(xs, flag, b)| ==> flag(FilterBy(xs, flag, b)[i]) == b
  {
    if |xs| > 0 {
      FilterByFlags(xs[..|xs| - 1], flag, b);
    }
  }

  /** `sort_by_key(flag)` on a boolean key. Rust's `sort_by_key` is stable, so
      the elements with `false` keep their order and are followed by the
      elements with `true`, in their order. */
  function SortByFlag<T>(xs: seq<T>, flag: T -> bool): seq<T> {
    FilterBy(xs, flag, false) + FilterBy(xs, flag, true)
  }

  lemma {:induction false} FilterBySplits<T>(xs: seq<T>, flag: T -> bool)
    ensures multiset(FilterBy(xs, flag, false)) + multiset(FilterBy(xs, flag, true)) == multiset(xs)
  {
    if |xs| > 0 {
      var n := |xs| - 1;
      var last := xs[n];
      var init := xs[..n];
      FilterBySplits(init, flag);
      var fs, ts := FilterBy(init, flag, false), FilterBy(init, flag, true);
      assert init + [last] == xs;
      assert multiset(xs) == multiset(init) + multiset{last};
      var tail := [last];
      if flag(last) {
        assert FilterBy(xs, flag, true) == ts + tail;
        assert multiset(ts + tail) == multiset(ts) + multiset{last};
      } else {
        assert FilterBy(xs, flag, false) == fs + tail;
        assert multiset(fs + tail) == multiset(fs) + multiset{last};
      }
    }
  }

  lemma {:induction false} FilterByConcat<T>(a: seq<T>, b: seq<T>, flag: T -> bool, v: bool)
    ensures FilterBy(a + b, flag, v) == FilterBy(a, flag, v) + FilterBy(b, flag, v)
  {
    if |b| > 0 {
      var n := |b| - 1;
      assert (a + b)[..|a + b| - 1] == a + b[..n];
      FilterByConcat(a, b[..n], flag, v);
    } else {
      assert a + b == a;
    }
  }

  lemma {:induction false} FilterByFiltered<T>(xs: seq<T>, flag: T -> bool, b: bool, c: bool)
    ensures FilterBy(FilterBy(xs, flag, b), flag, c) == if b == c then FilterBy(xs, flag, b) else []
  {
    if |xs| > 0 {
      var n := |xs| - 1;
      FilterByFiltered(xs[..n], flag, b, c);
      var tail := if flag(xs[n]) == b then [xs[n]] else [];
      FilterByConcat(FilterBy(xs[..n], flag, b), tail, flag, c);
      if flag(xs[n]) == b {
        assert tail[..0] == [];
      }
    }
  }

  /** The sorted sequence is a permutation of the input in which no `true`
      element precedes a `false` one, and the sort is stable: the elements of
      each key appear in their original relative order. */
  lemma SortByFlagSorts<T>(xs: seq<T>, flag: T -> bool)
    ensures multiset(SortByFlag(xs, flag)) == multiset(xs)
    ensures forall i, j :: 0 <= i < j < |SortByFlag(xs, flag)| ==>
              !(flag(SortByFlag(xs, flag)[i]) && !flag(SortByFlag(xs, flag)[j]))
    ensures forall b :: FilterBy(SortByFlag(xs, flag), flag, b) == FilterBy(xs, flag, b)
  {
    FilterBySplits(xs, flag);
    FilterByFlags(xs, flag, false);
    FilterByFlags(xs, flag, true);
    var s := SortByFlag(xs, flag);
    var n := |FilterBy(xs, flag, false)|;
    forall i, j | 0 <= i < j < |s| ensures !(flag(s[i]) && !flag(s[j])) {
      if i < n {
        assert s[i] == FilterBy(xs, flag, false)[i];
      } else {
        assert s[j] == FilterBy(xs, flag, true)[j - n];
      }
    }
    forall b ensures FilterBy(s, flag, b) == FilterBy(xs, flag, b) {
      FilterByConcat(FilterBy(xs, flag, false), FilterBy(xs, flag, true), flag, b);
      FilterByFiltered(xs, flag, false, b);
      FilterByFiltered(xs, flag, true, b);
    }
  }

  /** `iter().filter_map(lookup).collect()`: the found values in input order. */
  function FilterMap<K, V>(keys: seq<K>, lookup: K -> Option<V>): seq<V> {
    if |keys| == 0 then []
    else
      var found := lookup(keys[|keys| - 1]);
      FilterMap(keys[..|keys| - 1], lookup) + (if found.Some? then [found.value] else [])
  }

  /** `filter_map` keeps the input order, returns the value of every key the
      lookup finds and silently skips the others: each result comes from some
      key, and when every key is found the result lines up with the keys. */
  lemma FilterMapSkipsMissing<K, V>(keys: seq<K>, lookup: K -> Option<V>)
    ensures |FilterMap(keys, lookup)| <= |keys|
    ensures forall v :: v in FilterMap(keys, lookup) ==> exists i :: 0 <= i < |keys| && lookup(keys[i]) == Some(v)
    ensures (forall i :: 0 <= i < |keys| ==> lookup(keys[i]).Some?) ==>
              |FilterMap(keys, lookup)| == |keys| &&
              forall i :: 0 <= i < |keys| ==> Some(FilterMap(keys, lookup)[i]) == lookup(keys[i])
    ensures (forall i :: 0 <= i < |keys| ==> lookup(keys[i]).None?) ==> FilterMap(keys, lookup) == []
  {
    FilterMapSound(keys, lookup);
    if forall i :: 0 <= i < |keys| ==> lookup(keys[i]).Some? {
      FilterMapAllFound(keys, lookup);
    }
    if forall i :: 0 <= i < |keys| ==> lookup(keys[i]).None? {
      FilterMapNoneFound(keys, lookup);
    }
  }

  /** At most one value per key, and each value is what some key looks up. */
  lemma {:induction false} FilterMapSound<K, V>(keys: seq<K>, lookup: K -> Option<V>)
    ensures |FilterMap(keys, lookup)| <= |keys|
    ensures forall v :: v in FilterMap(keys, lookup) ==> exists i :: 0 <= i < |keys| && lookup(keys[i]) == Some(v)
  {
    if |keys| > 0 {
      var n := |keys| - 1;
      FilterMapSound(keys[..n], lookup);
      forall v | v in FilterMap(keys, lookup)
        ensures exists i :: 0 <= i < |keys| && lookup(keys[i]) == Some(v)
      {
        if v in FilterMap(keys[..n], lookup) {
          var i :| 0 <= i < n && lookup(keys[..n][i]) == Some(v);
          assert keys[..n][i] == keys[i];
        } else {
          assert lookup(keys[n]) == Some(v);
        }
      }
    }
  }

  lemma {:induction false} FilterMapAllFound<K, V>(keys: seq<K>, lookup: K -> Option<V>)
    requires forall i :: 0 <= i < |keys| ==> lookup(keys[i]).Some?
    ensures |FilterMap(keys, lookup)| == |keys|
    ensures forall i :: 0 <= i < |keys| ==> Some(FilterMap(keys, lookup)[i]) == lookup(keys[i])
  {
    if |keys| > 0 {
      var n := |keys| - 1;
      assert forall i :: 0 <= i < n ==> keys[..n][i] == keys[i];
      FilterMapAllFound(keys[..n], lookup);
      assert FilterMap(keys, lookup) == FilterMap(keys[..n], lookup) + [lookup(keys[n]).value];
    }
  }

  lemma {:induction false} FilterMapNoneFound<K, V>(keys: seq<K>, lookup: K -> Option<V>)
    requires forall i :: 0 <= i < |keys| ==> lookup(keys[i]).None?
    ensures FilterMap(keys, lookup) == []
  {
    if |keys| > 0 {
      var n := |keys| - 1;
      assert forall i :: 0 <= i < n ==> keys[..n][i] == keys[i];
      FilterMapNoneFound(keys[..n], lookup);
    }
  }
}
