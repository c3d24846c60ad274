/**
 * The per-key step functions behind the stateful operators (`reduce`,
 * `reduce_epoch`, `reduce_epoch_local`, `stateful_map`) and the
 * stateless shims (`map`, `filter`, `flat_map`) lifted to streams, which
 * are modelled as sequences of items. Python objects are values of a
 * type parameter `A`; the Python callbacks are opaque total functions.
 */
module Operators {
  import opened Wrappers

  /** The aggregator after one more value: the value itself when there was none, otherwise `reducer(aggregator, value)`. */
  function Reduced<A>(reducer: (A, A) -> A, aggregator: Option<A>, value: A): A
  {
    match aggregator
    case None => value
    case Some(a) => reducer(a, value)
  }

  /**
   * `reduce`: folds `value` into the key's aggregator slot. The slot
   * always holds the updated aggregator afterwards; once `isComplete`
   * holds of it, the operator emits `(key, aggregator)` and signals
   * that the state may be discarded.
   */
  method Reduce<A>(reducer: (A, A) -> A, isComplete: A -> bool, aggregator: Option<A>, key: A, value: A)
    returns (updatedAggregator: Option<A>, discard: bool, emit: seq<(A, A)>)
    ensures aggregator.None? ==> updatedAggregator == Some(value)
    ensures aggregator.Some? ==> updatedAggregator == Some(reducer(aggregator.value, value))
    ensures discard == isComplete(updatedAggregator.value)
    ensures discard ==> emit == [(key, updatedAggregator.value)]
    ensures !discard ==> emit == []
  {
    var updated := Reduced(reducer, aggregator, value);
    discard := isComplete(updated);
    updatedAggregator := Some(updated);
    if discard {
      emit := [(key, updated)];
    } else {
      emit := [];
    }
  }

  /** `reduce_epoch`: the aggregator update of `reduce`, with no completeness check and nothing emitted. */
  method ReduceEpoch<A>(reducer: (A, A) -> A, aggregator: Option<A>, key: A, value: A)
    returns (updatedAggregator: Option<A>)
    ensures aggregator.None? ==> updatedAggregator == Some(value)
    ensures aggregator.Some? ==> updatedAggregator == Some(reducer(aggregator.value, value))
  {
    updatedAggregator := Some(Reduced(reducer, aggregator, value));
  }

  /** The aggregator after `reduce_epoch` has seen `values` in order, starting from `aggregator`. */
  function Aggregate<A>(reducer: (A, A) -> A, aggregator: Option<A>, values: seq<A>): Option<A>
    decreases |values|
  {
    if values == [] then aggregator
    else Some(Reduced(reducer, Aggregate(reducer, aggregator, values[..|values| - 1]), values[|values| - 1]))
  }

  /**
   * Aggregating in two runs, the second seeded with the aggregator the
   * first one left (as after a checkpoint), equals aggregating in one run.
   */
  lemma {:induction false} AggregateSplit<A>(reducer: (A, A) -> A, aggregator: Option<A>, a: seq<A>, b: seq<A>)
    ensures Aggregate(reducer, aggregator, a + b) == Aggregate(reducer, Aggregate(reducer, aggregator, a), b)
    decreases |b|
  {
    if b == [] {
      assert a + b == a;
    } else {
      var n := |b| - 1;
      assert (a + b)[..|a + b| - 1] == a + b[..n];
      assert (a + b)[|a + b| - 1] == b[n];
      AggregateSplit(reducer, aggregator, a, b[..n]);
    }
  }

  /** With no aggregator yet, the first value becomes the aggregator and the reducer only sees the rest. */
  lemma AggregateFirstValueSeeds<A>(reducer: (A, A) -> A, values: seq<A>)
    requires values != []
    ensures Aggregate(reducer, None, values) == Aggregate(reducer, Some(values[0]), values[1..])
  {
    assert values == [values[0]] + values[1..];
    AggregateSplit(reducer, None, [values[0]], values[1..]);
    assert [values[0]][..0] == [];
  }

  /** The values `batch` carries for `k`, in batch order. */
  function ValuesFor<A(==)>(batch: seq<(A, A)>, k: A): seq<A>
    decreases |batch|
  {
    if batch == [] then []
    else
      var last := batch[|batch| - 1];
      ValuesFor(batch[..|batch| - 1], k) + (if last.0 == k then [last.1] else [])
  }

  lemma {:induction false} ValuesForAbsentKey<A>(batch: seq<(A, A)>, k: A)
    ensures ValuesFor(batch, k) == [] <==> forall i :: 0 <= i < |batch| ==> batch[i].0 != k
    decreases |batch|
  {
    if batch != [] {
      var n := |batch| - 1;
      ValuesForAbsentKey(batch[..n], k);
      assert forall i :: 0 <= i < n ==> batch[..n][i] == batch[i];
    }
  }

  /**
   * `reduce_epoch_local`: folds a whole epoch's `(key, value)` batch into
   * the aggregator map in batch order. A key's first value is inserted as
   * is, later ones are combined with `reducer`; so every key ends with
   * `reduce_epoch` run over its own values, and keys the batch does not
   * mention keep their aggregator.
   */
  method ReduceEpochLocal<A(==)>(reducer: (A, A) -> A, aggregators: map<A, A>, batch: seq<(A, A)>)
    returns (r: map<A, A>)
    ensures forall k :: Lookup(r, k) == Aggregate(reducer, Lookup(aggregators, k), ValuesFor(batch, k))
  {
    r := aggregators;
    for i := 0 to |batch|
      invariant forall k :: Lookup(r, k) == Aggregate(reducer, Lookup(aggregators, k), ValuesFor(batch[..i], k))
    {
      var (key, value) := batch[i];
      assert batch[..i + 1][..i] == batch[..i];
      ghost var before := r;
      if key in r {
        r := r[key := reducer(r[key], value)];
      } else {
        r := r[key := value];
      }
      forall k
        ensures Lookup(r, k) == Aggregate(reducer, Lookup(aggregators, k), ValuesFor(batch[..i + 1], k))
      {
        var vs := ValuesFor(batch[..i], k);
        if k == key {
          assert ValuesFor(batch[..i + 1], k) == vs + [value];
          assert (vs + [value])[..|vs|] == vs;
          assert Lookup(r, k) == Some(Reduced(reducer, Lookup(before, k), value));
        } else {
          assert ValuesFor(batch[..i + 1], k) == vs;
        }
      }
    }
    assert batch[..|batch|] == batch;
  }

  /**
   * `stateful_map`: the mapper returns the new state and a value to emit;
   * exactly one `(key, value)` is emitted, and the state is to be
   * discarded exactly when the new state is Python's `None`.
   */
  method StatefulMap<A>(mapper: (A, A) -> (A, A), isNone: A -> bool, state: A, key: A, value: A)
    returns (updatedState: A, discard: bool, emit: seq<(A, A)>)
    ensures updatedState == mapper(state, value).0
    ensures discard <==> isNone(updatedState)
    ensures |emit| == 1 && emit[0] == (key, mapper(state, value).1)
  {
    var (newState, emitValue) := mapper(state, value);
    updatedState := newState;
    discard := isNone(updatedState);
    emit := [(key, emitValue)];
  }

  /** A `Map` step on a stream: `map(mapper, item)` for every item, in order. */
  function MapStream<A, B>(mapper: A -> B, items: seq<A>): (r: seq<B>)
    ensures |r| == |items|
    ensures forall i :: 0 <= i < |items| ==> r[i] == mapper(items[i])
    decreases |items|
  {
    if items == [] then [] else [mapper(items[0])] + MapStream(mapper, items[1..])
  }

  /** A `Filter` step on a stream: the items for which `filter(pred, item)` is true, in order. */
  function FilterStream<A>(pred: A -> bool, items: seq<A>): (r: seq<A>)
    ensures |r| <= |items|
    ensures forall x :: x in r ==> x in items && pred(x)
    ensures forall i :: 0 <= i < |items| && pred(items[i]) ==> items[i] in r
    decreases |items|
  {
    if items == [] then []
    else (if pred(items[0]) then [items[0]] else []) + FilterStream(pred, items[1..])
  }

  /** A `FlatMap` step on a stream: the iterables `flat_map(mapper, item)` returns, concatenated in order. */
  function FlatMapStream<A, B>(mapper: A -> seq<B>, items: seq<A>): seq<B>
    decreases |items|
  {
    if items == [] then [] else mapper(items[0]) + FlatMapStream(mapper, items[1..])
  }

  /** A `FilterMap` step on a stream: the mapper's results that are not `None`, in order. */
  function FilterMapStream<A, B>(mapper: A -> B, isNone: B -> bool, items: seq<A>): seq<B>
    decreases |items|
  {
    if items == [] then []
    else (if isNone(mapper(items[0])) then [] else [mapper(items[0])]) + FilterMapStream(mapper, isNone, items[1..])
  }

  lemma {:induction false} FilterSplit<A>(pred: A -> bool, a: seq<A>, b: seq<A>)
    ensures FilterStream(pred, a + b) == FilterStream(pred, a) + FilterStream(pred, b)
    decreases |a|
  {
    if a == [] {
      assert a + b == b;
    } else {
      assert (a + b)[1..] == a[1..] + b;
      FilterSplit(pred, a[1..], b);
    }
  }

  lemma {:induction false} FlatMapSplit<A, B>(mapper: A -> seq<B>, a: seq<A>, b: seq<A>)
    ensures FlatMapStream(mapper, a + b) == FlatMapStream(mapper, a) + FlatMapStream(mapper, b)
    decreases |a|
  {
    if a == [] {
      assert a + b == b;
    } else {
      assert (a + b)[1..] == a[1..] + b;
      FlatMapSplit(mapper, a[1..], b);
    }
  }

  /** A flat map whose mapper always returns one item is a map. */
  lemma {:induction false} FlatMapOfSingletons<A, B>(mapper: A -> seq<B>, f: A -> B, items: seq<A>)
    requires forall x :: mapper(x) == [f(x)]
    ensures FlatMapStream(mapper, items) == MapStream(f, items)
    decreases |items|
  {
    if items != [] {
      FlatMapOfSingletons(mapper, f, items[1..]);
    }
  }

  /** A filter is the flat map that returns the item alone when the predicate holds and nothing otherwise. */
  lemma {:induction false} FilterIsFlatMap<A>(pred: A -> bool, items: seq<A>)
    ensures FilterStream(pred, items) == FlatMapStream(x => if pred(x) then [x] else [], items)
    decreases |items|
  {
    if items != [] {
      FilterIsFlatMap(pred, items[1..]);
    }
  }

  /** `FilterMap` is `map(mapper)` followed by dropping the items that are `None`. */
  lemma {:induction false} FilterMapIsMapThenFilter<A, B>(mapper: A -> B, isNone: B -> bool, items: seq<A>)
    ensures FilterMapStream(mapper, isNone, items) == FilterStream(x => !isNone(x), MapStream(mapper, items))
    decreases |items|
  {
    if items != [] {
      var mapped := MapStream(mapper, items);
      assert mapped[1..] == MapStream(mapper, items[1..]);
      FilterMapIsMapThenFilter(mapper, isNone, items[1..]);
    }
  }
}
