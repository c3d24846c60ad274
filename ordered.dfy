/**
 * The ordered-map store (`BTreeMap` as a `KWriter`), with keys kept in
 * ascending order as a sorted association list, and the proof that it
 * ends up with the same contents as the hash-map store for every
 * sequence of changes.
 */
module OrderedMap {
  import opened Wrappers
  import opened ChangeLog

  /** Entries in strictly ascending key order; in particular no key occurs twice. */
  ghost predicate Sorted<V>(entries: seq<(int, V)>)
  {
    forall i, j :: 0 <= i < j < |entries| ==> entries[i].0 < entries[j].0
  }

  /** Every key of `entries` lies above `lo`. */
  ghost predicate Above<V>(entries: seq<(int, V)>, lo: int)
  {
    forall j :: 0 <= j < |entries| ==> lo < entries[j].0
  }

  /** The key-value contents the entries stand for. */
  function ToMap<V>(entries: seq<(int, V)>): map<int, V>
    decreases |entries|
  {
    if entries == [] then map[] else ToMap(entries[1..])[entries[0].0 := entries[0].1]
  }

  /** `BTreeMap::insert`: replaces the entry for `k` or adds one in key order. */
  function Insert<V>(entries: seq<(int, V)>, k: int, v: V): seq<(int, V)>
    decreases |entries|
  {
    if entries == [] then [(k, v)]
    else if k < entries[0].0 then [(k, v)] + entries
    else if k == entries[0].0 then [(k, v)] + entries[1..]
    else [entries[0]] + Insert(entries[1..], k, v)
  }

  /** `BTreeMap::remove`: drops the entry for `k`, if there is one. */
  function Remove<V>(entries: seq<(int, V)>, k: int): seq<(int, V)>
    decreases |entries|
  {
    if entries == [] then []
    else if k == entries[0].0 then entries[1..]
    else if k < entries[0].0 then entries
    else [entries[0]] + Remove(entries[1..], k)
  }

  /** The ordered store after one write. */
  function OrderedApply<V>(entries: seq<(int, V)>, kc: KChange<int, V>): seq<(int, V)>
  {
    match kc.change
    case Upsert(v) => Insert(entries, kc.key, v)
    case Discard => Remove(entries, kc.key)
  }

  /** The ordered store after writing a batch in order. */
  function OrderedApplyAll<V>(entries: seq<(int, V)>, batch: seq<KChange<int, V>>): seq<(int, V)>
    decreases |batch|
  {
    if batch == [] then entries
    else OrderedApply(OrderedApplyAll(entries, batch[..|batch| - 1]), batch[|batch| - 1])
  }

  lemma {:induction false} ToMapAbove<V>(entries: seq<(int, V)>, lo: int)
    requires Above(entries, lo)
    ensures forall k | k in ToMap(entries) :: lo < k
    decreases |entries|
  {
    if entries != [] {
      ToMapAbove(entries[1..], lo);
    }
  }

  lemma SortedTail<V>(entries: seq<(int, V)>)
    requires Sorted(entries) && entries != []
    ensures Sorted(entries[1..]) && Above(entries[1..], entries[0].0)
  {
  }

  lemma {:induction false} InsertAbove<V>(entries: seq<(int, V)>, k: int, v: V, lo: int)
    requires Above(entries, lo) && lo < k
    ensures Above(Insert(entries, k, v), lo)
    decreases |entries|
  {
    if entries != [] && k > entries[0].0 {
      InsertAbove(entries[1..], k, v, lo);
    }
  }

  lemma {:induction false} RemoveAbove<V>(entries: seq<(int, V)>, k: int, lo: int)
    requires Above(entries, lo)
    ensures Above(Remove(entries, k), lo)
    decreases |entries|
  {
    if entries != [] && k > entries[0].0 {
      RemoveAbove(entries[1..], k, lo);
    }
  }

  lemma {:induction false} InsertCorrect<V>(entries: seq<(int, V)>, k: int, v: V)
    requires Sorted(entries)
    ensures Sorted(Insert(entries, k, v))
    ensures ToMap(Insert(entries, k, v)) == ToMap(entries)[k := v]
    decreases |entries|
  {
    if entries == [] {
      assert [(k, v)][1..] == [];
    } else {
      var head, tail := entries[0], entries[1..];
      SortedTail(entries);
      var r := Insert(entries, k, v);
      if k < head.0 {
        assert r[1..] == entries;
      } else if k == head.0 {
        assert r[1..] == tail;
        assert ToMap(entries) == ToMap(tail)[head.0 := head.1];
      } else {
        InsertCorrect(tail, k, v);
        InsertAbove(tail, k, v, head.0);
        assert r[1..] == Insert(tail, k, v);
        assert ToMap(r) == ToMap(tail)[k := v][head.0 := head.1];
      }
    }
  }

  lemma {:induction false} RemoveCorrect<V>(entries: seq<(int, V)>, k: int)
    requires Sorted(entries)
    ensures Sorted(Remove(entries, k))
    ensures ToMap(Remove(entries, k)) == ToMap(entries) - {k}
    decreases |entries|
  {
    if entries != [] {
      var head, tail := entries[0], entries[1..];
      SortedTail(entries);
      if k == head.0 {
        ToMapAbove(tail, head.0);
      } else if k < head.0 {
        assert Above(entries, k);
        ToMapAbove(entries, k);
      } else {
        var r := Remove(entries, k);
        RemoveCorrect(tail, k);
        RemoveAbove(tail, k, head.0);
        assert r[1..] == Remove(tail, k);
        assert ToMap(r) == (ToMap(tail) - {k})[head.0 := head.1];
      }
    }
  }

  lemma OrderedApplyCorrect<V>(entries: seq<(int, V)>, kc: KChange<int, V>)
    requires Sorted(entries)
    ensures Sorted(OrderedApply(entries, kc))
    ensures ToMap(OrderedApply(entries, kc)) == Apply(ToMap(entries), kc)
  {
    match kc.change
    case Upsert(v) => InsertCorrect(entries, kc.key, v);
    case Discard => RemoveCorrect(entries, kc.key);
  }

  /** The ordered store and the hash-map store hold the same contents after any batch. */
  lemma {:induction false} WritersAgree<V>(entries: seq<(int, V)>, batch: seq<KChange<int, V>>)
    requires Sorted(entries)
    ensures Sorted(OrderedApplyAll(entries, batch))
    ensures ToMap(OrderedApplyAll(entries, batch)) == ApplyAll(ToMap(entries), batch)
    decreases |batch|
  {
    if batch != [] {
      var n := |batch| - 1;
      WritersAgree(entries, batch[..n]);
      OrderedApplyCorrect(OrderedApplyAll(entries, batch[..n]), batch[n]);
    }
  }

  /** A `BTreeMap` store: writes change its entries in place, keeping them in key order. */
  class OrderedStore<V> {
    var entries: seq<(int, V)>

    ghost predicate Valid()
      reads this
    {
      Sorted(entries)
    }

    function Contents(): map<int, V>
      reads this
    {
      ToMap(entries)
    }

    constructor ()
      ensures Valid() && entries == [] && Contents() == map[]
    {
      entries := [];
    }

    method Write(kc: KChange<int, V>)
      requires Valid()
      modifies this
      ensures Valid()
      ensures entries == OrderedApply(old(entries), kc)
      ensures Contents() == Apply(old(Contents()), kc)
    {
      OrderedApplyCorrect(entries, kc);
      match kc.change
      case Upsert(v) =>
        entries := Insert(entries, kc.key, v);
      case Discard =>
        entries := Remove(entries, kc.key);
    }

    /** The trait's default `write_many`: one `write` per change, in batch order. */
    method WriteMany(batch: seq<KChange<int, V>>)
      requires Valid()
      modifies this
      ensures Valid()
      ensures entries == OrderedApplyAll(old(entries), batch)
      ensures Contents() == ApplyAll(old(Contents()), batch)
    {
      for i := 0 to |batch|
        invariant Valid()
        invariant entries == OrderedApplyAll(old(entries), batch[..i])
      {
        assert batch[..i + 1][..i] == batch[..i];
        Write(batch[i]);
      }
      assert batch[..|batch|] == batch;
      WritersAgree(old(entries), batch);
    }
  }

  /** Given the same changes, a `HashMap` store and a `BTreeMap` store that agreed still agree. */
  method WriteBothStores<V>(h: MapStore<int, V>, b: OrderedStore<V>, batch: seq<KChange<int, V>>)
    requires b.Valid() && h.contents == b.Contents()
    modifies h, b
    ensures b.Valid() && h.contents == b.Contents()
    ensures h.contents == ApplyAll(old(h.contents), batch)
  {
    h.WriteMany(batch);
    b.WriteMany(batch);
  }
}
