/**
  The two frequency tables of the tagger. A table maps an outer key (a tag, or
  the previous tag) to a record of counts; `Observe` is one call of
  `add_to_dict`, and `FrequencyTable` performs that call in place.
 */
module Tables {
  import opened Counts

  /** Which of the two tables a record belongs to (the `attr` argument of `add_to_dict`). */
  datatype TableKind = TransitionKind | EmissionKind

  /**
    One per-key record. The source keeps the three aggregates under reserved
    string keys inside the count dictionary; here they are separate fields.
    `capitalised` is only kept by emission records; transition records hold 0.
    `singletons` is an `int` because the source decrements it unguarded.
   */
  datatype Record = Record(counts: map<string, nat>, total: nat, singletons: int, capitalised: nat)

  /** A dictionary of records whose keys keep their insertion order, as Python dictionaries do. */
  datatype Table = Table(keys: seq<string>, records: map<string, Record>)

  const EmptyTable: Table := Table([], map[])

  /** The source reads `key2[0]` when it updates an emission record, so an empty word raises. */
  predicate Observable(kind: TableKind, key2: string) {
    kind == TransitionKind || |key2| > 0
  }

  /** 1 when the observed emission word is capitalised, else 0. */
  function CapitalisedIncrement(kind: TableKind, key2: string): nat
    requires Observable(kind, key2)
  {
    if kind == EmissionKind && IsUpper(key2[0]) then 1 else 0
  }

  /** The record created on the first observation under a new outer key. */
  function FreshRecord(kind: TableKind, key2: string): Record
    requires Observable(kind, key2)
  {
    Record(map[key2 := 1], 1, 1, CapitalisedIncrement(kind, key2))
  }

  /** The update of an existing record when `key2` is observed under it. */
  function Bump(r: Record, kind: TableKind, key2: string): Record
    requires Observable(kind, key2)
  {
    var singletons :=
      if key2 in r.counts then (if r.counts[key2] == 1 then r.singletons - 1 else r.singletons)
      else r.singletons + 1;
    var count := if key2 in r.counts then r.counts[key2] + 1 else 1;
    Record(r.counts[key2 := count], r.total + 1, singletons, r.capitalised + CapitalisedIncrement(kind, key2))
  }

  /** One call of `add_to_dict(key1, key2, table, kind)`. */
  function Observe(t: Table, kind: TableKind, key1: string, key2: string): Table
    requires Observable(kind, key2)
  {
    if key1 in t.records then Table(t.keys, t.records[key1 := Bump(t.records[key1], kind, key2)])
    else Table(t.keys + [key1], t.records[key1 := FreshRecord(kind, key2)])
  }

  /** The count of `key2` under `key1`, 0 when either is absent. */
  function Count(t: Table, key1: string, key2: string): nat {
    if key1 in t.records && key2 in t.records[key1].counts then t.records[key1].counts[key2] else 0
  }

  /** The running total of `key1`, 0 when it is absent. */
  function TotalOf(t: Table, key1: string): nat {
    if key1 in t.records then t.records[key1].total else 0
  }

  /** The ordered keys are distinct and are exactly the keys of the records. */
  predicate TableShape(t: Table) {
    && (forall i, j :: 0 <= i < j < |t.keys| ==> t.keys[i] != t.keys[j])
    && (forall k :: k in t.keys ==> k in t.records)
    && (forall k :: k in t.records ==> k in t.keys)
  }

  /**
    The record invariant: the total is the sum of the counts, `singletons` is
    the number of keys seen once, and an emission record's `capitalised` is the
    part of the total contributed by capitalised words.
   */
  ghost predicate ValidRecord(kind: TableKind, r: Record) {
    && r.counts.Keys != {}
    && (forall k :: k in r.counts ==> r.counts[k] >= 1)
    && r.total == MapSum(r.counts)
    && r.singletons == |SingletonKeys(r.counts)|
    && r.capitalised == (if kind == EmissionKind then MapSum(CapitalisedCounts(r.counts)) else 0)
  }

  ghost predicate ValidTable(kind: TableKind, t: Table) {
    && TableShape(t)
    && (forall k :: k in t.records ==> ValidRecord(kind, t.records[k]))
  }

  /** The sum of `f` over `keys`, in order. */
  function SumOver(keys: seq<string>, f: string -> int): int {
    if keys == [] then 0 else SumOver(keys[..|keys| - 1], f) + f(keys[|keys| - 1])
  }

  /** The sum of the running totals of all records of a table. */
  function SumTotals(t: Table): int {
    SumOver(t.keys, k => TotalOf(t, k))
  }

  /** The sum over all outer keys of the count of `key2`. */
  function SumCounts(t: Table, key2: string): int {
    SumOver(t.keys, k => Count(t, k, key2))
  }

  /**
    `add_to_dict` raises the count of `key2` under `key1` by exactly one
    (creating it at one), appends a new outer key at the end of the key
    order, and leaves every other count and every other record untouched.
   */
  lemma ObserveEffect(t: Table, kind: TableKind, key1: string, key2: string)
    requires Observable(kind, key2)
    ensures var t' := Observe(t, kind, key1, key2);
      && key1 in t'.records
      && t'.keys == (if key1 in t.records then t.keys else t.keys + [key1])
      && Count(t', key1, key2) == Count(t, key1, key2) + 1
      && TotalOf(t', key1) == TotalOf(t, key1) + 1
      && (forall a, b :: (a, b) != (key1, key2) ==> Count(t', a, b) == Count(t, a, b))
      && (forall a :: a != key1 ==> (a in t'.records <==> a in t.records))
      && (forall a :: a != key1 && a in t.records ==> t'.records[a] == t.records[a])
  {
  }

  /** `add_to_dict` adds `key1` to the outer keys and removes none. */
  lemma ObserveKeys(t: Table, kind: TableKind, key1: string, key2: string)
    requires Observable(kind, key2)
    ensures forall a :: a in Observe(t, kind, key1, key2).records <==> a in t.records || a == key1
  {
  }

  /** `add_to_dict` adds one to the total of `key1` and to no other. */
  lemma ObserveTotals(t: Table, kind: TableKind, key1: string, key2: string)
    requires Observable(kind, key2)
    ensures forall a :: TotalOf(Observe(t, kind, key1, key2), a) == TotalOf(t, a) + (if a == key1 then 1 else 0)
  {
  }

  /** `add_to_dict` keeps the outer keys distinct and in step with the records. */
  lemma ObserveShape(t: Table, kind: TableKind, key1: string, key2: string)
    requires Observable(kind, key2) && TableShape(t)
    ensures TableShape(Observe(t, kind, key1, key2))
  {
    ObserveEffect(t, kind, key1, key2);
  }

  /** The record invariant survives every `add_to_dict`. */
  lemma BumpValid(r: Record, kind: TableKind, key2: string)
    requires Observable(kind, key2) && ValidRecord(kind, r)
    ensures ValidRecord(kind, Bump(r, kind, key2))
  {
    var r' := Bump(r, kind, key2);
    var count := if key2 in r.counts then r.counts[key2] + 1 else 1;
    assert r'.counts == r.counts[key2 := count];
    MapSumUpdate(r.counts, key2, count);
    BumpSingletons(r, kind, key2);
    if kind == EmissionKind {
      BumpCapitalised(r, key2);
    }
  }

  lemma BumpSingletons(r: Record, kind: TableKind, key2: string)
    requires Observable(kind, key2) && ValidRecord(kind, r)
    ensures Bump(r, kind, key2).singletons == |SingletonKeys(Bump(r, kind, key2).counts)|
  {
    var count := if key2 in r.counts then r.counts[key2] + 1 else 1;
    var old1 := SingletonKeys(r.counts);
    var rest := old1 - {key2};
    SingletonKeysUpdate(r.counts, key2, count);
    assert key2 in old1 <==> key2 in r.counts && r.counts[key2] == 1;
    assert |old1| == |rest| + (if key2 in old1 then 1 else 0) by {
      if key2 in old1 {
        assert old1 == rest + {key2};
      } else {
        assert old1 == rest;
      }
    }
  }

  lemma BumpCapitalised(r: Record, key2: string)
    requires Observable(EmissionKind, key2) && ValidRecord(EmissionKind, r)
    ensures Bump(r, EmissionKind, key2).capitalised == MapSum(CapitalisedCounts(Bump(r, EmissionKind, key2).counts))
  {
    var count := if key2 in r.counts then r.counts[key2] + 1 else 1;
    var caps := CapitalisedCounts(r.counts);
    CapitalisedCountsUpdate(r.counts, key2, count);
    assert StartsUpper(key2) <==> IsUpper(key2[0]);
    if StartsUpper(key2) {
      MapSumUpdate(caps, key2, count);
      assert key2 in caps <==> key2 in r.counts;
      assert key2 in caps ==> caps[key2] == r.counts[key2];
    }
  }

  lemma FreshRecordValid(kind: TableKind, key2: string)
    requires Observable(kind, key2)
    ensures ValidRecord(kind, FreshRecord(kind, key2))
  {
    var m: map<string, nat> := map[key2 := 1];
    MapSumRemove(m, key2);
    assert m - {key2} == map[];
    assert SingletonKeys(m) == {key2};
    if kind == EmissionKind {
      if StartsUpper(key2) {
        assert CapitalisedCounts(m) == m;
      } else {
        assert CapitalisedCounts(m) == map[];
      }
    }
  }

  lemma ObserveValid(t: Table, kind: TableKind, key1: string, key2: string)
    requires Observable(kind, key2) && ValidTable(kind, t)
    ensures ValidTable(kind, Observe(t, kind, key1, key2))
  {
    if key1 in t.records {
      BumpValid(t.records[key1], kind, key2);
    } else {
      FreshRecordValid(kind, key2);
    }
  }

  /** A count, the singleton number and the capitalised number never exceed the total. */
  lemma RecordBounds(kind: TableKind, r: Record, key2: string)
    requires ValidRecord(kind, r)
    ensures r.total >= 1
    ensures 0 <= r.singletons <= r.total
    ensures r.capitalised <= r.total
    ensures key2 in r.counts ==> 1 <= r.counts[key2] <= r.total
  {
    KeysBelowSum(r.counts);
    var k :| k in r.counts;
    EntryBelowSum(r.counts, k);
    assert SingletonKeys(r.counts) <= r.counts.Keys;
    assert |SingletonKeys(r.counts)| <= |r.counts.Keys| by {
      SubsetCard(SingletonKeys(r.counts), r.counts.Keys);
    }
    SubMapBelowSum(CapitalisedCounts(r.counts), r.counts);
    if key2 in r.counts {
      EntryBelowSum(r.counts, key2);
    }
  }

  lemma SubsetCard(a: set<string>, b: set<string>)
    requires a <= b
    ensures |a| <= |b|
  {
    assert b == a + (b - a);
  }

  /** Changing `f` at one key of a duplicate-free key list changes the sum by the difference. */
  lemma {:induction false} SumOverChange(keys: seq<string>, f: string -> int, g: string -> int, k: string)
    requires forall i, j :: 0 <= i < j < |keys| ==> keys[i] != keys[j]
    requires forall a :: a != k ==> f(a) == g(a)
    ensures SumOver(keys, g) == SumOver(keys, f) + (if k in keys then g(k) - f(k) else 0)
  {
    if keys != [] {
      var init := keys[..|keys| - 1];
      SumOverChange(init, f, g, k);
      assert k in keys <==> k in init || k == keys[|keys| - 1];
      assert k == keys[|keys| - 1] ==> k !in init;
    }
  }

  /** No term of a sum of non-negative terms exceeds the sum. */
  lemma {:induction false} SumOverTerm(keys: seq<string>, f: string -> int, k: string)
    requires forall a :: a in keys ==> f(a) >= 0
    requires k in keys
    ensures f(k) <= SumOver(keys, f)
  {
    var init := keys[..|keys| - 1];
    assert forall a :: a in init ==> a in keys;
    SumOverNonNegative(init, f);
    if k != keys[|keys| - 1] {
      SumOverTerm(init, f, k);
    }
  }

  lemma {:induction false} SumOverNonNegative(keys: seq<string>, f: string -> int)
    requires forall a :: a in keys ==> f(a) >= 0
    ensures SumOver(keys, f) >= 0
  {
    if keys != [] {
      var init := keys[..|keys| - 1];
      assert forall a :: a in init ==> a in keys;
      SumOverNonNegative(init, f);
    }
  }

  /**
    Each `add_to_dict` adds exactly one to the sum of all totals of the table,
    and exactly one to the count of `key2` summed over all outer keys.
   */
  lemma ObserveSums(t: Table, kind: TableKind, key1: string, key2: string)
    requires Observable(kind, key2) && TableShape(t)
    ensures var t' := Observe(t, kind, key1, key2);
      && TableShape(t')
      && SumTotals(t') == SumTotals(t) + 1
      && (forall x :: SumCounts(t', x) == SumCounts(t, x) + (if x == key2 then 1 else 0))
  {
    ObserveShape(t, kind, key1, key2);
    ObserveTotalsSum(t, kind, key1, key2);
    forall x ensures SumCounts(Observe(t, kind, key1, key2), x) == SumCounts(t, x) + (if x == key2 then 1 else 0) {
      ObserveCountsSum(t, kind, key1, key2, x);
    }
  }

  lemma ObserveTotalsSum(t: Table, kind: TableKind, key1: string, key2: string)
    requires Observable(kind, key2) && TableShape(t)
    ensures SumTotals(Observe(t, kind, key1, key2)) == SumTotals(t) + 1
  {
    var t' := Observe(t, kind, key1, key2);
    ObserveEffect(t, kind, key1, key2);
    if key1 !in t.records {
      assert t'.keys[..|t'.keys| - 1] == t.keys;
    }
    SumOverChange(t.keys, k => TotalOf(t, k), k => TotalOf(t', k), key1);
  }

  lemma ObserveCountsSum(t: Table, kind: TableKind, key1: string, key2: string, x: string)
    requires Observable(kind, key2) && TableShape(t)
    ensures SumCounts(Observe(t, kind, key1, key2), x) == SumCounts(t, x) + (if x == key2 then 1 else 0)
  {
    var t' := Observe(t, kind, key1, key2);
    ObserveEffect(t, kind, key1, key2);
    if key1 !in t.records {
      assert t'.keys[..|t'.keys| - 1] == t.keys;
    }
    SumOverChange(t.keys, k => Count(t, k, x), k => Count(t', k, x), key1);
  }

  /**
    The table of one kind as an object updated in place, as `train_model`
    holds `transition_frequency` and `emission_frequency`.
   */
  class FrequencyTable {
    const kind: TableKind
    var keys: seq<string>
    var records: map<string, Record>

    function Contents(): Table
      reads this
    {
      Table(keys, records)
    }

    ghost predicate Valid()
      reads this
    {
      ValidTable(kind, Contents())
    }

    constructor (kind: TableKind)
      ensures this.kind == kind && Contents() == EmptyTable && Valid()
    {
      this.kind := kind;
      keys := [];
      records := map[];
    }

    /**
      `add_to_dict(key1, key2, self, kind)`: `ok` is false exactly when the
      source raises on `key2[0]`, and then nothing changes.
     */
    method Add(key1: string, key2: string) returns (ok: bool)
      modifies this
      ensures ok == Observable(kind, key2)
      ensures Contents() == if ok then Observe(old(Contents()), kind, key1, key2) else old(Contents())
      ensures old(Valid()) ==> Valid()
    {
      ok := Observable(kind, key2);
      if !ok {
        return;
      }
      ghost var before := Contents();
      var capitalised := if kind == EmissionKind && IsUpper(key2[0]) then 1 else 0;
      if key1 in records {
        var data := records[key1];
        var counts := data.counts;
        var singletons := data.singletons;
        if key2 in counts {
          singletons := singletons - (if counts[key2] == 1 then 1 else 0);
          counts := counts[key2 := counts[key2] + 1];
        } else {
          counts := counts[key2 := 1];
          singletons := singletons + 1;
        }
        var updated := Record(counts, data.total + 1, singletons, data.capitalised + capitalised);
        assert updated == Bump(data, kind, key2);
        records := records[key1 := updated];
      } else {
        keys := keys + [key1];
        records := records[key1 := Record(map[key2 := 1], 1, 1, capitalised)];
      }
      assert Contents() == Observe(before, kind, key1, key2);
      if old(Valid()) {
        ObserveValid(before, kind, key1, key2);
      }
    }
  }
}
