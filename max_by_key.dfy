/** The selection step of the point query shared by both data generations:
    `candidates.filter(keep).max_by_key(key)` with a boolean key. Rust's
    `max_by_key` folds from the left and, on equal keys, keeps the element that
    comes later (`cmp::max_by` returns its second argument when the two compare
    equal), so the result is the LAST element with the largest key. */
module MaxByKey {
  import opened Common

  /** `a <= b` on `bool`, where `false < true`. */
  predicate KeyLe(a: bool, b: bool) { !a || b }

  /** Index `k` is a kept element whose key is maximal among the kept ones, and
      every kept element after it has a strictly smaller key. */
  ghost predicate IsLastMaximum<T>(xs: seq<T>, keep: T -> bool, key: T -> bool, k: nat) {
    && k < |xs|
    && keep(xs[k])
    && (forall j :: 0 <= j < |xs| && keep(xs[j]) ==> KeyLe(key(xs[j]), key(xs[k])))
    && (forall j :: k < j < |xs| && keep(xs[j]) ==> key(xs[k]) && !key(xs[j]))
  }

  /** The lazy `filter` followed by the `max_by_key` fold, fused into one pass
      over the candidates; the result is the index of the chosen element. */
  function FilterMaxByKey<T>(xs: seq<T>, keep: T -> bool, key: T -> bool): (r: Option<nat>)
    ensures r.None? <==> forall j :: 0 <= j < |xs| ==> !keep(xs[j])
    ensures r.Some? ==> IsLastMaximum(xs, keep, key, r.value)
  {
    if |xs| == 0 then None
    else
      var n := |xs| - 1;
      var prefix := FilterMaxByKey(xs[..n], keep, key);
      assert forall j :: 0 <= j < n ==> xs[..n][j] == xs[j];
      if !keep(xs[n]) then prefix
      else match prefix
        case None => Some(n)
        case Some(k) => if KeyLe(key(xs[k]), key(xs[n])) then Some(n) else Some(k)
  }

  /** The contract above pins the result down: at most one index is the last
      maximum, so any implementation meeting it returns the same element. */
  lemma LastMaximumIsUnique<T>(xs: seq<T>, keep: T -> bool, key: T -> bool, k1: nat, k2: nat)
    requires IsLastMaximum(xs, keep, key, k1)
    requires IsLastMaximum(xs, keep, key, k2)
    ensures k1 == k2
  {
    assert KeyLe(key(xs[k1]), key(xs[k2])) && KeyLe(key(xs[k2]), key(xs[k1]));
  }

  /** Priority tie-break: when any kept element has the key set, the chosen one
      has it too, so a prioritised match always beats an unprioritised one. */
  lemma PriorityWins<T>(xs: seq<T>, keep: T -> bool, key: T -> bool, j: nat)
    requires j < |xs| && keep(xs[j]) && key(xs[j])
    ensures FilterMaxByKey(xs, keep, key).Some?
    ensures key(xs[FilterMaxByKey(xs, keep, key).value])
  {
    var r := FilterMaxByKey(xs, keep, key);
    assert KeyLe(key(xs[j]), key(xs[r.value]));
  }
}
