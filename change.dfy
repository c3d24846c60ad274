/**
 * The change-data-capture model of the recovery layer: a keyed change
 * is either an upsert or a discard, and a store applies a stream of
 * keyed changes in order, keeping only the latest value per key.
 */
module ChangeLog {
  import opened Wrappers

  /** A change to the value stored under one key. */
  datatype Change<V> = Upsert(value: V) | Discard
  {
    /** Transforms the payload of an upsert; a discard stays a discard. */
    function Map<U>(f: V -> U): Change<U>
    {
      match this
      case Upsert(v) => Upsert(f(v))
      case Discard => Discard
    }

    /** The kind of change, with the payload erased. */
    function Typ(): ChangeType
    {
      match this
      case Upsert(_) => Upsert(())
      case Discard => Discard
    }
  }

  /** A "type of change" without the change data itself. */
  type ChangeType = Change<()>

  /** A change to the value stored under `key`. */
  datatype KChange<K, V> = KChange(key: K, change: Change<V>)

  lemma MapKeepsType<V, U>(c: Change<V>, f: V -> U)
    ensures c.Map(f).Typ() == c.Typ()
    ensures c.Upsert? ==> c.Map(f) == Upsert(f(c.value))
    ensures c.Discard? ==> c.Map(f) == Discard
  {
  }

  lemma MapComposes<V, U, W>(c: Change<V>, f: V -> U, g: U -> W)
    ensures c.Map(f).Map(g) == c.Map(x => g(f(x)))
  {
  }

  lemma TypErasesPayload<V, U>(a: Change<V>, b: Change<U>)
    ensures a.Typ() == b.Typ() <==> (a.Upsert? <==> b.Upsert?)
    ensures a.Typ().Typ() == a.Typ()
  {
  }

  /**
   * The store after one write: an upsert inserts or replaces the value
   * for its key, a discard removes the key.
   */
  function Apply<K, V>(store: map<K, V>, kc: KChange<K, V>): (r: map<K, V>)
    ensures kc.change.Upsert? ==> kc.key in r && r[kc.key] == kc.change.value
    ensures kc.change.Discard? ==> kc.key !in r
    ensures r - {kc.key} == store - {kc.key}
  {
    match kc.change
    case Upsert(v) => store[kc.key := v]
    case Discard => store - {kc.key}
  }

  lemma DiscardAbsentKey<K, V>(store: map<K, V>, k: K)
    requires k !in store
    ensures Apply(store, KChange(k, Discard)) == store
  {
  }

  /** The store after writing a batch in order: the left fold of `Apply`. */
  function ApplyAll<K, V>(store: map<K, V>, batch: seq<KChange<K, V>>): map<K, V>
    decreases |batch|
  {
    if batch == [] then store
    else Apply(ApplyAll(store, batch[..|batch| - 1]), batch[|batch| - 1])
  }

  /** The last change that `batch` makes to `k`, if any. */
  function LastChange<K(==), V>(batch: seq<KChange<K, V>>, k: K): Option<Change<V>>
    decreases |batch|
  {
    if batch == [] then None
    else if batch[|batch| - 1].key == k then Some(batch[|batch| - 1].change)
    else LastChange(batch[..|batch| - 1], k)
  }

  /** What a key holds after its last change `last`, having held `prior` before the batch. */
  function Resolve<V>(prior: Option<V>, last: Option<Change<V>>): Option<V>
  {
    match last
    case None => prior
    case Some(Upsert(v)) => Some(v)
    case Some(Discard) => None
  }

  lemma {:induction false} ApplyAppend<K, V>(store: map<K, V>, a: seq<KChange<K, V>>, b: seq<KChange<K, V>>)
    ensures ApplyAll(store, a + b) == ApplyAll(ApplyAll(store, a), b)
    decreases |b|
  {
    if b != [] {
      var n := |b| - 1;
      assert (a + b)[..|a + b| - 1] == a + b[..n];
      assert (a + b)[|a + b| - 1] == b[n];
      ApplyAppend(store, a, b[..n]);
    } else {
      assert a + b == a;
    }
  }

  lemma {:induction false} LastChangeWins<K, V>(store: map<K, V>, batch: seq<KChange<K, V>>, k: K)
    ensures Lookup(ApplyAll(store, batch), k) == Resolve(Lookup(store, k), LastChange(batch, k))
    decreases |batch|
  {
    if batch != [] {
      var n := |batch| - 1;
      if batch[n].key != k {
        LastChangeWins(store, batch[..n], k);
      }
    }
  }

  /** Two batches that end with the same change for every key leave the same store. */
  lemma LatestChangesDetermineStore<K, V>(store: map<K, V>, a: seq<KChange<K, V>>, b: seq<KChange<K, V>>)
    requires forall k :: LastChange(a, k) == LastChange(b, k)
    ensures ApplyAll(store, a) == ApplyAll(store, b)
  {
    var ra, rb := ApplyAll(store, a), ApplyAll(store, b);
    forall k | k in ra
      ensures k in rb && ra[k] == rb[k]
    {
      LastChangeWins(store, a, k);
      LastChangeWins(store, b, k);
      assert LastChange(a, k) == LastChange(b, k);
      assert Lookup(ra, k) == Lookup(rb, k);
    }
    forall k | k in rb
      ensures k in ra
    {
      LastChangeWins(store, a, k);
      LastChangeWins(store, b, k);
      assert LastChange(a, k) == LastChange(b, k);
      assert Lookup(ra, k) == Lookup(rb, k);
    }
  }

  /** A map-backed store (`HashMap` as a `KWriter`): writes change its contents in place. */
  class MapStore<K(==), V> {
    var contents: map<K, V>

    constructor (initial: map<K, V>)
      ensures contents == initial
    {
      contents := initial;
    }

    method Write(kc: KChange<K, V>)
      modifies this
      ensures contents == Apply(old(contents), kc)
    {
      match kc.change
      case Upsert(v) =>
        contents := contents[kc.key := v];
      case Discard =>
        contents := contents - {kc.key};
    }

    /** The trait's default `write_many`: one `write` per change, in batch order. */
    method WriteMany(batch: seq<KChange<K, V>>)
      modifies this
      ensures contents == ApplyAll(old(contents), batch)
    {
      for i := 0 to |batch|
        invariant contents == ApplyAll(old(contents), batch[..i])
      {
        assert batch[..i + 1][..i] == batch[..i];
        Write(batch[i]);
      }
      assert batch[..|batch|] == batch;
    }
  }

  /** A writer that keeps every change in the order written: the durable log behind a progress or state writer. */
  class LogWriter<K, V> {
    var log: seq<KChange<K, V>>

    constructor ()
      ensures log == []
    {
      log := [];
    }

    method Write(kc: KChange<K, V>)
      modifies this
      ensures log == old(log) + [kc]
    {
      log := log + [kc];
    }

    method WriteMany(batch: seq<KChange<K, V>>)
      modifies this
      ensures log == old(log) + batch
    {
      for i := 0 to |batch|
        invariant log == old(log) + batch[..i]
      {
        assert batch[..i + 1] == batch[..i] + [batch[i]];
        Write(batch[i]);
      }
      assert batch[..|batch|] == batch;
    }
  }

  /** A reader over the changes not yet read, oldest first. */
  class LogReader<K, V> {
    var pending: seq<KChange<K, V>>

    constructor (log: seq<KChange<K, V>>)
      ensures pending == log
    {
      pending := log;
    }

    method Read() returns (r: Option<KChange<K, V>>)
      modifies this
      ensures old(pending) == [] ==> r == None && pending == []
      ensures old(pending) != [] ==> r == Some(old(pending)[0]) && pending == old(pending)[1..]
    {
      if pending == [] {
        r := None;
      } else {
        r := Some(pending[0]);
        pending := pending[1..];
      }
    }

    /** The trait's default `read_many`: one `read`, wrapped as a one-change batch. */
    method ReadMany() returns (r: Option<seq<KChange<K, V>>>)
      modifies this
      ensures r.None? <==> old(pending) == []
      ensures r.Some? ==> r.value == [old(pending)[0]]
      ensures old(pending) == (if r.Some? then r.value else []) + pending
    {
      var c := Read();
      match c
      case None =>
        r := None;
      case Some(kc) =>
        r := Some([kc]);
    }
  }

  /** `Box<P>` around a store: owns it and forwards every write. */
  class BoxedWriter<K(==), V> {
    const inner: MapStore<K, V>

    constructor (inner: MapStore<K, V>)
      ensures this.inner == inner
    {
      this.inner := inner;
    }

    method Write(kc: KChange<K, V>)
      modifies inner
      ensures inner.contents == Apply(old(inner.contents), kc)
    {
      inner.Write(kc);
    }

    method WriteMany(batch: seq<KChange<K, V>>)
      modifies inner
      ensures inner.contents == ApplyAll(old(inner.contents), batch)
    {
      inner.WriteMany(batch);
    }
  }

  /** `Rc<RefCell<P>>` around a store: every handle writes to the one shared cell. */
  class SharedWriter<K(==), V> {
    const cell: MapStore<K, V>

    constructor (cell: MapStore<K, V>)
      ensures this.cell == cell
    {
      this.cell := cell;
    }

    /** `Rc::clone`: a second handle on the same cell. */
    method Clone() returns (h: SharedWriter<K, V>)
      ensures fresh(h) && h.cell == cell
    {
      h := new SharedWriter(cell);
    }

    method Write(kc: KChange<K, V>)
      modifies cell
      ensures cell.contents == Apply(old(cell.contents), kc)
    {
      cell.Write(kc);
    }

    method WriteMany(batch: seq<KChange<K, V>>)
      modifies cell
      ensures cell.contents == ApplyAll(old(cell.contents), batch)
    {
      cell.WriteMany(batch);
    }
  }

  /** Writes through two handles on one cell land in the cell in the order they were made. */
  method WriteThroughBothHandles<K(==), V>(a: SharedWriter<K, V>, x: KChange<K, V>, y: KChange<K, V>)
    modifies a.cell
    ensures a.cell.contents == ApplyAll(old(a.cell.contents), [x, y])
  {
    ghost var before := a.cell.contents;
    var b := a.Clone();
    a.Write(x);
    assert a.cell.contents == ApplyAll(before, [x]) by {
      assert [x][..0] == [];
    }
    b.Write(y);
    assert [x, y][..1] == [x];
  }

  /** `Box<P>` around a reader: forwards `read` and `read_many`. */
  class BoxedReader<K, V> {
    const inner: LogReader<K, V>

    constructor (inner: LogReader<K, V>)
      ensures this.inner == inner
    {
      this.inner := inner;
    }

    method Read() returns (r: Option<KChange<K, V>>)
      modifies inner
      ensures old(inner.pending) == [] ==> r == None && inner.pending == []
      ensures old(inner.pending) != [] ==> r == Some(old(inner.pending)[0]) && inner.pending == old(inner.pending)[1..]
    {
      r := inner.Read();
    }

    method ReadMany() returns (r: Option<seq<KChange<K, V>>>)
      modifies inner
      ensures r.None? <==> old(inner.pending) == []
      ensures r.Some? ==> r.value == [old(inner.pending)[0]]
      ensures old(inner.pending) == (if r.Some? then r.value else []) + inner.pending
    {
      r := inner.ReadMany();
    }
  }
}
