/**
  Sums and counts over the per-key count maps that the frequency tables hold:
  the total of all counts, the keys seen exactly once, and the part of the
  counts that belongs to capitalised words.
 */
module Counts {

  /** `str.isupper` on one character, restricted to ASCII letters. */
  predicate IsUpper(c: char) {
    'A' <= c <= 'Z'
  }

  /** The first character of `w` is an upper-case letter. */
  predicate StartsUpper(w: string) {
    |w| > 0 && IsUpper(w[0])
  }

  /** The sum of all counts in `m`. */
  ghost function MapSum(m: map<string, nat>): nat
    decreases m.Keys
  {
    if m.Keys == {} then 0
    else
      var k :| k in m;
      m[k] + MapSum(m - {k})
  }

  /** The keys whose count is exactly one. */
  function SingletonKeys(m: map<string, nat>): set<string> {
    set k | k in m && m[k] == 1
  }

  /** The counts of the keys that start with an upper-case letter. */
  function CapitalisedCounts(m: map<string, nat>): map<string, nat> {
    map k | k in m && StartsUpper(k) :: m[k]
  }

  /** Any key can be taken out of the sum first. */
  lemma {:induction false} MapSumRemove(m: map<string, nat>, k: string)
    requires k in m
    ensures MapSum(m) == m[k] + MapSum(m - {k})
    decreases m.Keys
  {
    var j :| j in m && MapSum(m) == m[j] + MapSum(m - {j});
    if j != k {
      MapSumRemove(m - {j}, k);
      MapSumRemove(m - {k}, j);
      assert (m - {j}) - {k} == (m - {k}) - {j};
    }
  }

  /** Setting one count changes the sum by the difference. */
  lemma MapSumUpdate(m: map<string, nat>, k: string, v: nat)
    ensures MapSum(m[k := v]) == MapSum(m) - (if k in m then m[k] else 0) + v
  {
    MapSumRemove(m[k := v], k);
    if k in m {
      MapSumRemove(m, k);
      assert m[k := v] - {k} == m - {k};
    } else {
      assert m[k := v] - {k} == m;
    }
  }

  /** No single count exceeds the sum. */
  lemma EntryBelowSum(m: map<string, nat>, k: string)
    requires k in m
    ensures m[k] <= MapSum(m)
  {
    MapSumRemove(m, k);
  }

  /** When every count is at least one, the sum is at least the number of keys. */
  lemma {:induction false} KeysBelowSum(m: map<string, nat>)
    requires forall k :: k in m ==> m[k] >= 1
    ensures |m.Keys| <= MapSum(m)
    decreases m.Keys
  {
    if m.Keys != {} {
      var k :| k in m;
      MapSumRemove(m, k);
      KeysBelowSum(m - {k});
      assert (m - {k}).Keys == m.Keys - {k};
    }
  }

  /** Dropping keys from a map never raises its sum. */
  lemma {:induction false} SubMapBelowSum(sub: map<string, nat>, m: map<string, nat>)
    requires forall k :: k in sub ==> k in m && sub[k] == m[k]
    ensures MapSum(sub) <= MapSum(m)
    decreases m.Keys
  {
    if m.Keys != {} {
      var k :| k in m;
      MapSumRemove(m, k);
      if k in sub {
        MapSumRemove(sub, k);
        SubMapBelowSum(sub - {k}, m - {k});
      } else {
        SubMapBelowSum(sub, m - {k});
      }
    } else {
      assert sub.Keys == {};
    }
  }

  /** The singleton keys after setting the count of `k` to `v`. */
  lemma SingletonKeysUpdate(m: map<string, nat>, k: string, v: nat)
    ensures SingletonKeys(m[k := v]) == (SingletonKeys(m) - {k}) + (if v == 1 then {k} else {})
  {
  }

  /** The capitalised part after setting the count of `k` to `v`. */
  lemma CapitalisedCountsUpdate(m: map<string, nat>, k: string, v: nat)
    ensures CapitalisedCounts(m[k := v]) ==
      if StartsUpper(k) then CapitalisedCounts(m)[k := v] else CapitalisedCounts(m)
  {
  }
}
