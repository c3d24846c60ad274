# Bytewax recovery, operator and execution core in Dafny

This project models three pieces of the Rust core of Bytewax, a Python
stream-processing framework built on Timely Dataflow.

- **The change-data-capture model of recovery** (`src/recovery/model/change.rs`).
  A `Change` is an `Upsert` of a value or a `Discard`, and a `KChange` is a
  change for one key. Writers apply keyed changes in order to a store:
  - the `HashMap` writer is `ChangeLog.MapStore`;
  - the `BTreeMap` writer is `OrderedMap.OrderedStore`, a sorted association list;
  - `ChangeLog.LogWriter` and `ChangeLog.LogReader` stand for the durable
    progress and state writers and readers, which implement `KWriter` and
    `KReader` in code outside this model: the writer keeps every change in
    order, and the reader hands them back oldest first;
  - the `Box` and `Rc<RefCell<_>>` forwarding impls are `BoxedWriter` and `SharedWriter`.

  The meaning of a batch is the
  left fold `ChangeLog.ApplyAll`. From it the project proves that the last
  change to a key wins, and that both map writers end with the same contents.
- **The per-key operator step functions** (`src/operators/mod.rs`):
  - `reduce`, `reduce_epoch`, `reduce_epoch_local` and `stateful_map`, with the
    Python callbacks as opaque function parameters;
  - the stateless `map`, `filter` and `flat_map` shims, lifted to streams
    modelled as sequences.
- **The dataflow builder and the worker skeleton** (`src/execution/mod.rs`):
  - `WorkerCount::iter`;
  - the progress-init change a worker writes before building;
  - the step loop of `build_production_dataflow`, which claims resume state,
    collects inputs, outputs and change streams, and validates the result;
  - `run_until_done`;
  - the phases of `worker_main` and the context each failure is re-raised with;
  - the panic-to-exception mapping of `run_main`;
  - the wait-and-join of `cluster_main`;
  - the launch dispatch and address list of `run`.

Python objects are values of a type parameter. A Python callback is a total
function parameter. Python's `is None` test is a predicate parameter. A
`&mut` slot that an operator overwrites is an input parameter plus an output
parameter holding the new contents. A Python exception is the `PyErr`
datatype, and `Reraised(context, cause)` stands for an error re-raised with a
line of context in front of its cause.

## Model

| member | source | states |
|---|---|---|
| ChangeLog.MapKeepsType | src/recovery/model/change.rs:30-42 | `map` keeps the variant: an upsert maps to the upsert of `f(v)`, a discard stays a discard, and the change type is unchanged |
| ChangeLog.MapComposes | src/recovery/model/change.rs:30-35 | mapping with `f` then `g` equals mapping with their composition |
| ChangeLog.TypErasesPayload | src/recovery/model/change.rs:37-42 | two changes have the same type exactly when both are upserts or both are discards; taking the type twice changes nothing |
| ChangeLog.Apply | src/recovery/model/change.rs:102-113 | after one write an upsert's key maps to its value and a discard's key is absent; every other key is unchanged |
| ChangeLog.DiscardAbsentKey | src/recovery/model/change.rs:110 | discarding a key the store does not hold leaves the store unchanged |
| ChangeLog.ApplyAppend | src/recovery/model/change.rs:57-61 | writing `a + b` equals writing `a` and then `b`, so a batch may be split anywhere |
| ChangeLog.LastChangeWins | src/recovery/model/change.rs:1-9 | after a batch, a key holds the value of its last upsert, is absent after a last discard, and keeps its old value if the batch never mentions it |
| ChangeLog.LatestChangesDetermineStore | src/recovery/model/change.rs:1-9 | two batches whose last change agrees for every key leave the same store, so a store may coalesce changes to one key |
| ChangeLog.MapStore.Write | src/recovery/model/change.rs:102-113 | the `HashMap` writer's contents become the store after the one write |
| ChangeLog.MapStore.WriteMany | src/recovery/model/change.rs:57-61 | `write_many` on the `HashMap` writer applies the whole batch in order, one write per change |
| ChangeLog.LogWriter.Write | src/recovery/model/change.rs:54-55 | a logging writer appends the change to its log |
| ChangeLog.LogWriter.WriteMany | src/recovery/model/change.rs:57-61 | a logging writer appends the batch in order |
| ChangeLog.LogReader.Read | src/recovery/model/change.rs:68-69 | `read` returns `None` on an empty reader, and otherwise the oldest pending change, which it removes |
| ChangeLog.LogReader.ReadMany | src/recovery/model/change.rs:71-73 | `read_many` returns `None` exactly when nothing is pending, otherwise a one-change batch holding the change `read` would return; it consumes exactly that change |
| ChangeLog.BoxedWriter.Write | src/recovery/model/change.rs:80-82 | a boxed writer leaves its store exactly as a direct write would |
| ChangeLog.BoxedWriter.WriteMany | src/recovery/model/change.rs:84-86 | a boxed writer's `write_many` leaves its store exactly as a direct `write_many` would |
| ChangeLog.SharedWriter.Clone | src/recovery/model/change.rs:89-100 | a cloned handle is a new handle on the same cell |
| ChangeLog.SharedWriter.Write | src/recovery/model/change.rs:93-95 | a write through a shared handle lands in the shared store as a direct write would |
| ChangeLog.SharedWriter.WriteMany | src/recovery/model/change.rs:97-99 | a batch through a shared handle lands in the shared store as a direct `write_many` would |
| ChangeLog.WriteThroughBothHandles | src/recovery/model/change.rs:89-100 | writes through two handles on one cell reach the store in the order they were made |
| ChangeLog.BoxedReader.Read | src/recovery/model/change.rs:132-134 | a boxed reader's `read` behaves as the inner reader's |
| ChangeLog.BoxedReader.ReadMany | src/recovery/model/change.rs:136-138 | a boxed reader's `read_many` behaves as the inner reader's |
| OrderedMap.InsertCorrect | src/recovery/model/change.rs:122 | `BTreeMap::insert` keeps the keys ascending and maps the key to the new value, leaving other keys alone |
| OrderedMap.RemoveCorrect | src/recovery/model/change.rs:123 | `BTreeMap::remove` keeps the keys ascending and removes exactly that key |
| OrderedMap.OrderedApplyCorrect | src/recovery/model/change.rs:115-126 | one `BTreeMap` write keeps the order and has the contents of one `HashMap` write |
| OrderedMap.WritersAgree | src/recovery/model/change.rs:102-126 | for every batch, the `BTreeMap` writer ends with the same contents as the `HashMap` writer, and its keys stay ascending |
| OrderedMap.OrderedStore.Write | src/recovery/model/change.rs:119-125 | a `BTreeMap` write keeps the store ordered and its contents become the store after the write |
| OrderedMap.OrderedStore.WriteMany | src/recovery/model/change.rs:57-61 | `write_many` on the `BTreeMap` writer keeps it ordered and applies the batch in order |
| OrderedMap.WriteBothStores | src/recovery/model/change.rs:102-126 | a `HashMap` writer and a `BTreeMap` writer that agree still agree after the same batch |
| Operators.Reduce | src/operators/mod.rs:43-75 | the first value becomes the aggregator and later ones are folded with `reducer`; the slot always holds the updated aggregator; it emits `(key, aggregator)` and signals discard exactly when `is_complete` holds, and emits nothing otherwise |
| Operators.ReduceEpoch | src/operators/mod.rs:77-93 | the aggregator is updated by the same rule as `reduce`, and nothing is emitted or discarded |
| Operators.AggregateSplit | src/operators/mod.rs:77-93 | aggregating values in two runs, the second seeded with the first run's aggregator, equals aggregating them in one run |
| Operators.AggregateFirstValueSeeds | src/operators/mod.rs:85-90 | with no aggregator yet, the first value is the seed and the reducer only sees the values after it |
| Operators.ValuesForAbsentKey | src/operators/mod.rs:95-113 | a key gets no values from an epoch batch exactly when no pair in the batch has that key |
| Operators.ReduceEpochLocal | src/operators/mod.rs:95-113 | every key ends with `reduce_epoch` run over its own values from the batch, in batch order, starting from its old aggregator; keys the batch does not mention keep their aggregator |
| Operators.StatefulMap | src/operators/mod.rs:115-135 | the state becomes the mapper's first result; exactly one `(key, second result)` is emitted; discard holds exactly when the new state is `None` |
| Operators.MapStream | src/operators/mod.rs:14-17 | a map step yields one item per input, namely `mapper(item)`, in order |
| Operators.FilterStream | src/operators/mod.rs:24-27 | a filter step yields no more items than it gets, only items satisfying the predicate, and every satisfying input item |
| Operators.FilterSplit | src/operators/mod.rs:24-27 | filtering a concatenation is the concatenation of the filtered parts |
| Operators.FlatMapSplit | src/operators/mod.rs:19-22 | flat-mapping a concatenation is the concatenation of the flat-mapped parts |
| Operators.FlatMapOfSingletons | src/operators/mod.rs:19-22 | a flat map whose mapper returns one item equals a map |
| Operators.FilterIsFlatMap | src/operators/mod.rs:24-27 | a filter equals the flat map that returns the item alone when it passes and nothing otherwise |
| Operators.FilterMapIsMapThenFilter | src/execution/mod.rs:240-243 | a `FilterMap` step equals mapping every item and then dropping the results that are `None` |
| Decimal.Format | src/execution/mod.rs:976 | formatting yields at least one decimal digit, with no leading zero |
| Decimal.ValueOfFormat | src/execution/mod.rs:976 | the digits formatting produces denote the formatted number |
| Decimal.ParseOfFormat | src/execution/mod.rs:984 | a process id formatted by `to_string` parses back to itself |
| Decimal.FormatInjective | src/execution/mod.rs:976 | different numbers format to different strings |
| Execution.WorkerCount.Iter | src/execution/mod.rs:72-75 | `iter` yields exactly `count` worker indices, `WorkerIndex(i)` at position `i`, in ascending order |
| Execution.IterOfThree | src/execution/mod.rs:84-90 | a count of 3 yields workers 0, 1 and 2 |
| Execution.IdsOfEmpty | src/execution/mod.rs:391-400 | no ids are collected for a role exactly when no step plays it |
| Execution.FirstKindErrorIsFirst | src/execution/mod.rs:227-228 | there is no kind error exactly when every input and output has a known kind; otherwise the error is that of the first step of unknown kind |
| Execution.FailureIsFinal | src/execution/mod.rs:227-228 | once a step fails the build, the later steps change nothing |
| Execution.WalkFails | src/execution/mod.rs:147-389 | the step loop fails exactly when some input or output has an unknown kind, with the first such step's error |
| Execution.WalkCollects | src/execution/mod.rs:147-389 | a loop that does not fail collects the input ids, the output ids and the change-stream ids of the claiming steps, in step order; the resume state left is the original minus every claimed id |
| Execution.WalkPlan | src/execution/mod.rs:147-389 | a loop that does not fail builds one operator per step in order, each with the resume state it claimed; it collects the input ids, the output ids and the change streams of the claiming steps; the resume state left is the original minus every claimed id |
| Execution.BuildValidation | src/execution/mod.rs:391-400 | the build succeeds exactly when all kinds are known and there is an input and an output; otherwise a kind error wins, then the missing input, then the missing output |
| Execution.BuildLeftover | src/execution/mod.rs:401-408 | a successful build keeps the unclaimed resume state, which is only warned about, and hands each claiming step its own entry |
| Execution.SameShapeOnEveryWorker | src/execution/mod.rs:131-134 | whatever resume state a worker holds, it builds the same outcome and the same chain of operators, inputs, outputs and change streams |
| Execution.BuildOperators | src/execution/mod.rs:147-408 | the step loop with its early returns and validation yields exactly the specified build; it warns about exactly the leftover resume-state keys |
| Execution.BuildProductionDataflow | src/execution/mod.rs:117-129 | before building, this worker's progress-init upsert is written to both the in-memory progress store and the progress writer; if the store was the replay of the writer's log, it still is |
| Cluster.InterruptFlag.Raise | src/execution/mod.rs:834-835 | the panic hook sets the shared shutdown flag |
| Cluster.RunUntilDone | src/execution/mod.rs:458-476 | the loop ends at once if the flag is set, otherwise it steps until the probe is done or a signal arrives; a signal after a step sets the flag and fails with "interrupt signal received" over the signal's error, also when the probe never reports done |
| Cluster.SignalStopsUnboundedRun | src/execution/mod.rs:464-473 | a dataflow whose probe never reports done stops at the first signal, with the flag set and the signal's error re-raised |
| Cluster.PanicStopsPeers | src/execution/mod.rs:834-835 | after a peer's panic sets the flag, a worker's `run_until_done` returns without stepping |
| Cluster.RunPhasesFirstFailure | src/execution/mod.rs:596-654 | the worker's phases succeed together exactly when each does; otherwise the first failing phase's error comes back under that phase's context |
| Cluster.RunMainOutcome | src/execution/mod.rs:693-743 | `run_main` succeeds exactly when every worker phase does; a failure reaches the caller as "worker error" over the failing phase's context over its cause |
| Cluster.PanicMessagesBecomeRuntimeErrors | src/execution/mod.rs:723-741 | a panic carrying an exception raises it unchanged; a `String` or `&str` message becomes a `RuntimeError` with that text; anything else becomes "unknown error" |
| Cluster.FirstJoinErrorIsFirst | src/execution/mod.rs:890-902 | there is no join error exactly when every worker returned `Ok`; otherwise the error is that of the first failed worker in join order |
| Cluster.JoinWorkers | src/execution/mod.rs:890-902 | joining succeeds exactly when every worker returned `Ok`, else it fails with the first failure in join order; a worker error is re-raised as "error executing worker" and a dead thread becomes "Worker thread died; look for errors above" |
| Cluster.AwaitWorkers | src/execution/mod.rs:879-889 | polling ends when all threads have finished or a signal arrives, whether or not they would ever finish; a signal sets the shutdown flag and is raised as it is |
| Cluster.ClusterMainJoin | src/execution/mod.rs:879-904 | after the workers are launched, `cluster_main` succeeds exactly when no signal arrives before the threads finish and every worker returned `Ok`; without such a signal it fails with the first failure in join order and leaves the shutdown flag alone; with one it sets the flag and raises the signal's error as it is |
| Cluster.CommunicationFor | src/execution/mod.rs:813-826 | `cluster_main` uses single-process communication with the given thread count exactly when the addresses are absent or empty, and otherwise cluster communication over those addresses under this process id |
| Cluster.AddressesDistinct | src/execution/mod.rs:975-977 | the cluster has one address per process; process `i` is at `localhost:{2101 + i}`, and no two processes share an address |
| Cluster.LaunchModeCases | src/execution/mod.rs:955-991 | `run` runs one worker when nothing is set and spawns when only the counts are set; when the id and both counts are set it joins the cluster under the parsed id and the shared address list, or panics if the id does not parse; it panics without a process count, and with a process count but no worker count |
| Cluster.SpawnedProcessJoinsCluster | src/execution/mod.rs:979-1000 | the parent with only the counts spawns the cluster; spawned process `i` joins it under id `i` with the same address list and cluster communication, and its own address is at index `i` |

## Left out

- Timely plumbing is not modelled: `worker.dataflow`, `to_stream`, `ProbeHandle`, `stateful_unary`, `stateful_window_unary`, `concatenate` and `attach_recovery_to_dataflow`. The builder keeps the step and its claimed resume state for each operator. It keeps step ids for the input, output and change streams. The probe becomes a parameter of `RunUntilDone`.
- The PyO3 and GIL layer is not modelled: `with_gil`, `with_traceback!`, `extract` and `get_flow`. An exception raised inside a Python callback (reducer, mapper, predicate, `is_complete`) is not modelled, because callbacks are total functions.
- `inspect` and `inspect_epoch` only call the inspector for its side effect and pass items on unchanged. That side effect is I/O and is not modelled; the steps appear in the builder only.
- `capture` is not modelled: it is an output callback with no state.
- Concurrency is not modelled. There is one flag object and no other thread setting it during a loop. The sleep in the wait loop is not modelled either.
- The panic hook's message printing and thread-name prefix are not modelled, because they are stderr output.
- Spawning and killing child processes in `run`, and its wait loop over them, are not modelled.
- `PeriodicSpan` tracing and the tokio webserver start-up are not modelled.
- `Rc::try_unwrap(...).expect(...)` after the loading dataflows is not modelled.
- Computing the resume point and loading state are not modelled: `InMemProgress::resume_from` and the progress- and state-loading dataflows. Each is one phase outcome in `Cluster.WorkerMain`, and `src/recovery/store/in_mem.rs` is not part of this model.
- Failures to build a window clock, a windower, an input or an output connector, and the communication pipeline, are not modelled. Those are calls into code outside this model.
- `errors.rs` is not part of this model. `reraise` is modelled as the `Reraised` constructor and `tracked_err` as a plain `PyErr`.
- The `Box<P>` and `Rc<RefCell<P>>` wrappers are modelled over the `HashMap` store and a log reader only, since Dafny classes here have no trait objects.
- OrderedMap.OrderedStore.Write: keys are integers, not any `Ord` type.
- OrderedMap.OrderedStore.WriteMany: keys are integers, not any `Ord` type.
- Cluster.RunUntilDone: it requires a step count at which the flag is set, the probe is done or a signal arrives, so that the loop terminates. A dataflow that never completes and is never interrupted is not modelled.
- Cluster.AwaitWorkers: it requires a poll count at which every thread has finished or a signal arrives, for the same reason.
- Cluster.ClusterMainJoin: it requires the same poll count as `AwaitWorkers`. It also starts after the workers are launched, so the `RuntimeError`s "error building timely communication pipeline" and "error during execution" raised before that are not modelled.
- Cluster.SpawnedProcessJoinsCluster: a spawned process gets its counts from the parent's command line. The model assumes the Python CLI parses `-p` and `-w` back into the same counts, since that CLI is not part of this model.
- The spawn command in `run` (src/execution/mod.rs:993-1007) passes neither `dataflow_args` nor `recovery_config` to the spawned processes, and `Launch` carries neither. So, as written, a spawned cluster runs the flow without its arguments and without recovery. This is read from the code and not modelled.
- `InMemProgress` is modelled as a `ChangeLog.MapStore` keyed by `WorkerKey`, so its `write` is taken to be the `HashMap` write. Its own code lives in `src/recovery/store/in_mem.rs`, which is not part of this model.
- The epoch interval's float-to-duration conversion in `run` is not modelled: it is floating point.
