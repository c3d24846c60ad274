/**
 * How a worker runs and how its end reaches the caller: the stepping
 * loop that stops on completion, on the shared interrupt flag or on a
 * signal; the phases of a worker's life and the context each failure is
 * re-raised with; the single-worker entry point that turns a worker's
 * panic back into an exception; the cluster entry point that waits for
 * and joins its worker threads; and the launcher that picks between them
 * and lays out the cluster's addresses.
 */
module Cluster {
  import opened Wrappers
  import opened Decimal
  import opened Execution

  /** The `AtomicBool` every worker of a process polls and any of them may set to stop them all. */
  class InterruptFlag {
    var isSet: bool

    constructor ()
      ensures !isSet
    {
      isSet := false;
    }

    /** The panic hook's first action: tell every other worker to shut down. */
    method Raise()
      modifies this
      ensures isSet
    {
      isSet := true;
    }
  }

  const InterruptContext := "interrupt signal received"

  /**
   * `run_until_done`: steps the worker until the probe reports the
   * dataflow done or the interrupt flag is set. After each step it checks
   * for a pending signal; a signal sets the flag and fails with the
   * signal's error re-raised. `probeDone(n)` is the probe after `n`
   * steps, `signal(n)` the signal check after step `n + 1`; the ghost
   * `horizon` is a step count at which the loop must end: the flag is
   * already set, the probe is done, or the signal check after the next
   * step fails. A dataflow over unbounded input that only a signal stops
   * is the last case.
   */
  method RunUntilDone(flag: InterruptFlag, probeDone: nat -> bool, signal: nat -> Option<PyErr>, ghost horizon: nat)
    returns (r: Result<(), PyErr>, steps: nat)
    requires flag.isSet || probeDone(horizon) || signal(horizon).Some?
    modifies flag
    ensures steps <= horizon + 1
    ensures forall n :: 0 <= n < steps ==> !probeDone(n)
    ensures old(flag.isSet) ==> r == Ok(()) && steps == 0
    ensures r.Ok? ==> (old(flag.isSet) || probeDone(steps)) && flag.isSet == old(flag.isSet)
    ensures r.Ok? ==> forall n :: 0 <= n < steps ==> signal(n).None?
    ensures r.Err? ==>
      && steps >= 1
      && (forall n :: 0 <= n < steps - 1 ==> signal(n).None?)
      && signal(steps - 1).Some?
      && r.error == Reraised(InterruptContext, signal(steps - 1).value)
      && flag.isSet
  {
    steps := 0;
    while !flag.isSet && !probeDone(steps)
      invariant steps <= horizon
      invariant flag.isSet == old(flag.isSet)
      invariant old(flag.isSet) ==> steps == 0
      invariant forall n :: 0 <= n < steps ==> !probeDone(n) && signal(n).None?
      decreases horizon - steps
    {
      // worker.step()
      steps := steps + 1;
      var check := signal(steps - 1);
      if check.Some? {
        flag.isSet := true;
        return Err(Reraised(InterruptContext, check.value)), steps;
      }
    }
    r := Ok(());
  }

  /** A dataflow whose probe never reports done ends when a signal arrives, with the signal's error re-raised. */
  method SignalStopsUnboundedRun(flag: InterruptFlag, e: PyErr, k: nat)
    returns (r: Result<(), PyErr>, steps: nat)
    requires !flag.isSet
    modifies flag
    ensures r == Err(Reraised(InterruptContext, e)) && steps == k + 1 && flag.isSet
  {
    r, steps := RunUntilDone(flag, n => false, n => if n == k then Some(e) else None, k);
  }

  /** A worker whose peer panicked returns at once: the hook set the flag before its next check. */
  method PanicStopsPeers(flag: InterruptFlag, probeDone: nat -> bool, signal: nat -> Option<PyErr>)
    returns (r: Result<(), PyErr>, steps: nat)
    modifies flag
    ensures r == Ok(()) && steps == 0 && flag.isSet
  {
    flag.Raise();
    r, steps := RunUntilDone(flag, probeDone, signal, 0);
  }

  /** The contexts `worker_main` re-raises each phase's failure with, in the order the phases run. */
  const WorkerPhases: seq<string> := [
    "error building recovery readers",
    "error building recovery writers",
    "error while loading recovery progress",
    "error loading recovery state",
    "error building Dataflow",
    "error running Dataflow"
  ]

  /** Runs phases in order: the first failing one ends the run, its error re-raised with its context. */
  function RunPhases(contexts: seq<string>, outcomes: seq<Option<PyErr>>): Result<(), PyErr>
    requires |contexts| == |outcomes|
    decreases |outcomes|
  {
    if outcomes == [] then Ok(())
    else if outcomes[0].Some? then Err(Reraised(contexts[0], outcomes[0].value))
    else RunPhases(contexts[1..], outcomes[1..])
  }

  /** `worker_main`: readers, writers, progress loading, state loading, then build and run the production dataflow. */
  function WorkerMain(outcomes: seq<Option<PyErr>>): Result<(), PyErr>
    requires |outcomes| == |WorkerPhases|
  {
    RunPhases(WorkerPhases, outcomes)
  }

  /**
   * The phases succeed together exactly when each does; otherwise the
   * error is the first failing phase's, under that phase's context.
   */
  lemma {:induction false} RunPhasesFirstFailure(contexts: seq<string>, outcomes: seq<Option<PyErr>>)
    requires |contexts| == |outcomes|
    ensures RunPhases(contexts, outcomes).Ok? <==> forall i :: 0 <= i < |outcomes| ==> outcomes[i].None?
    ensures RunPhases(contexts, outcomes).Err? ==>
      exists i :: 0 <= i < |outcomes| && outcomes[i].Some?
        && (forall j :: 0 <= j < i ==> outcomes[j].None?)
        && RunPhases(contexts, outcomes).error == Reraised(contexts[i], outcomes[i].value)
    decreases |outcomes|
  {
    if outcomes != [] && outcomes[0].None? {
      RunPhasesFirstFailure(contexts[1..], outcomes[1..]);
      var r := RunPhases(contexts, outcomes);
      if r.Err? {
        var k :| 0 <= k < |outcomes| - 1 && outcomes[1..][k].Some?
          && (forall j :: 0 <= j < k ==> outcomes[1..][j].None?)
          && r.error == Reraised(contexts[1..][k], outcomes[1..][k].value);
        assert forall j :: 0 <= j < k + 1 ==> outcomes[j].None? by {
          forall j | 0 <= j < k + 1
            ensures outcomes[j].None?
          {
            if j > 0 {
              assert outcomes[j] == outcomes[1..][j - 1];
            }
          }
        }
      }
    }
  }

  /** What a panic carries: a Python exception, an owned or a borrowed message, or anything else. */
  datatype PanicPayload = PyErrPayload(err: PyErr) | StringPayload(text: string) | StrPayload(text: string) | OtherPayload

  const UnknownError := PyErr(RuntimeError, "unknown error")

  /** How `run_main` turns a caught panic into the exception it raises. */
  function PanicToError(payload: PanicPayload): PyErr
  {
    match payload
    case PyErrPayload(e) => e
    case StringPayload(text) => PyErr(RuntimeError, text)
    case StrPayload(text) => PyErr(RuntimeError, text)
    case OtherPayload => UnknownError
  }

  /** How the single worker of `run_main` ended: it returned, or it panicked with a payload. */
  datatype WorkerExit = Returned(result: Result<(), PyErr>) | Panicked(payload: PanicPayload)

  /**
   * `run_main`: a worker error is re-raised as "worker error" and thrown
   * as a panic whose payload is that exception; the caught panic becomes
   * the exception `run_main` raises.
   */
  function RunMain(exit: WorkerExit): Result<(), PyErr>
  {
    var payload :=
      match exit
      case Returned(Ok(_)) => None
      case Returned(Err(e)) => Some(PyErrPayload(Reraised("worker error", e)))
      case Panicked(p) => Some(p);
    if payload.None? then Ok(()) else Err(PanicToError(payload.value))
  }

  /**
   * `run_main` succeeds exactly when the worker does; a worker error
   * reaches the caller intact under "worker error", and a panic with a
   * text message becomes a `RuntimeError` carrying that text.
   */
  lemma RunMainOutcome(outcomes: seq<Option<PyErr>>)
    requires |outcomes| == |WorkerPhases|
    ensures RunMain(Returned(WorkerMain(outcomes))).Ok? <==> forall i :: 0 <= i < |outcomes| ==> outcomes[i].None?
    ensures forall i :: 0 <= i < |outcomes| && outcomes[i].Some? && (forall j :: 0 <= j < i ==> outcomes[j].None?) ==>
      RunMain(Returned(WorkerMain(outcomes))) == Err(Reraised("worker error", Reraised(WorkerPhases[i], outcomes[i].value)))
  {
    RunPhasesFirstFailure(WorkerPhases, outcomes);
    forall i | 0 <= i < |outcomes| && outcomes[i].Some? && (forall j :: 0 <= j < i ==> outcomes[j].None?)
      ensures RunMain(Returned(WorkerMain(outcomes))) == Err(Reraised("worker error", Reraised(WorkerPhases[i], outcomes[i].value)))
    {
      var r := WorkerMain(outcomes);
      var k :| 0 <= k < |outcomes| && outcomes[k].Some?
        && (forall j :: 0 <= j < k ==> outcomes[j].None?)
        && r.error == Reraised(WorkerPhases[k], outcomes[k].value);
      if k < i {
        assert false;
      } else if i < k {
        assert false;
      }
    }
  }

  lemma PanicMessagesBecomeRuntimeErrors(text: string)
    ensures RunMain(Panicked(StringPayload(text))) == Err(PyErr(RuntimeError, text))
    ensures RunMain(Panicked(StrPayload(text))) == Err(PyErr(RuntimeError, text))
    ensures RunMain(Panicked(OtherPayload)) == Err(UnknownError)
    ensures forall e :: RunMain(Panicked(PyErrPayload(e))) == Err(e)
  {
  }

  /** How a joined worker thread ended: it returned a result, or it died of a panic. */
  datatype Joined = Finished(result: Result<(), PyErr>) | Died

  const WorkerDied := PyErr(RuntimeError, "Worker thread died; look for errors above")

  /** The error one joined worker contributes, if any. */
  function JoinError(j: Joined): Option<PyErr>
  {
    match j
    case Finished(Ok(_)) => None
    case Finished(Err(e)) => Some(Reraised("error executing worker", e))
    case Died => Some(WorkerDied)
  }

  /** The first error in join order, if any. */
  function FirstJoinError(joined: seq<Joined>): Option<PyErr>
    decreases |joined|
  {
    if joined == [] then None
    else if JoinError(joined[0]).Some? then JoinError(joined[0])
    else FirstJoinError(joined[1..])
  }

  lemma {:induction false} FirstJoinErrorIsFirst(joined: seq<Joined>)
    ensures FirstJoinError(joined).None? <==> forall i :: 0 <= i < |joined| ==> JoinError(joined[i]).None?
    ensures FirstJoinError(joined).Some? ==>
      exists i :: 0 <= i < |joined| && JoinError(joined[i]) == FirstJoinError(joined)
        && forall j :: 0 <= j < i ==> JoinError(joined[j]).None?
    decreases |joined|
  {
    if joined != [] && JoinError(joined[0]).None? {
      FirstJoinErrorIsFirst(joined[1..]);
      if FirstJoinError(joined).Some? {
        var k :| 0 <= k < |joined| - 1 && JoinError(joined[1..][k]) == FirstJoinError(joined[1..])
          && forall j :: 0 <= j < k ==> JoinError(joined[1..][j]).None?;
        assert JoinError(joined[k + 1]) == FirstJoinError(joined);
        forall j | 0 <= j < k + 1
          ensures JoinError(joined[j]).None?
        {
          if j > 0 {
            assert joined[j] == joined[1..][j - 1];
          }
        }
      }
    }
  }

  /** The join loop of `cluster_main`: joins the workers in order and fails with the first failure. */
  method JoinWorkers(joined: seq<Joined>) returns (r: Result<(), PyErr>)
    ensures r.Ok? <==> forall i :: 0 <= i < |joined| ==> JoinError(joined[i]).None?
    ensures r.Err? ==> Some(r.error) == FirstJoinError(joined)
  {
    for i := 0 to |joined|
      invariant FirstJoinError(joined) == FirstJoinError(joined[i..])
      invariant forall j :: 0 <= j < i ==> JoinError(joined[j]).None?
    {
      assert joined[i..][1..] == joined[i + 1..];
      var failure := JoinError(joined[i]);
      if failure.Some? {
        FirstJoinErrorIsFirst(joined);
        return Err(failure.value);
      }
    }
    FirstJoinErrorIsFirst(joined);
    assert joined[|joined|..] == [];
    r := Ok(());
  }

  /**
   * The wait loop of `cluster_main`: polls until every worker thread has
   * finished, checking for a signal after each pause; a signal sets the
   * shared flag and its error is raised as it is. `allFinished(n)` is the
   * threads' state at poll `n`, `signal(n)` the check after that poll;
   * the ghost `horizon` is a poll at which the threads have finished or
   * the check fails.
   */
  method AwaitWorkers(flag: InterruptFlag, allFinished: nat -> bool, signal: nat -> Option<PyErr>, ghost horizon: nat)
    returns (r: Result<(), PyErr>, polls: nat)
    requires allFinished(horizon) || signal(horizon).Some?
    modifies flag
    ensures polls <= horizon + 1
    ensures forall n :: 0 <= n < polls ==> !allFinished(n)
    ensures r.Ok? ==> allFinished(polls) && flag.isSet == old(flag.isSet)
    ensures r.Ok? ==> forall n :: 0 <= n < polls ==> signal(n).None?
    ensures r.Err? ==>
      && polls >= 1
      && (forall n :: 0 <= n < polls - 1 ==> signal(n).None?)
      && Some(r.error) == signal(polls - 1)
      && flag.isSet
  {
    polls := 0;
    while !allFinished(polls)
      invariant polls <= horizon
      invariant flag.isSet == old(flag.isSet)
      invariant forall n :: 0 <= n < polls ==> !allFinished(n) && signal(n).None?
      decreases horizon - polls
    {
      // thread::sleep(1 ms)
      polls := polls + 1;
      var check := signal(polls - 1);
      if check.Some? {
        flag.isSet := true;
        return Err(check.value), polls;
      }
    }
    r := Ok(());
  }

  /**
   * No signal check fails before the worker threads have all finished:
   * at every poll up to `horizon` that the wait loop reaches, the threads
   * are done or the check comes back clean.
   */
  predicate QuietUntilFinished(allFinished: nat -> bool, signal: nat -> Option<PyErr>, horizon: nat)
  {
    forall n :: 0 <= n <= horizon && (forall m :: 0 <= m < n ==> !allFinished(m)) ==> signal(n).None? || allFinished(n)
  }

  /**
   * `cluster_main` after the workers are launched: wait for them, then
   * join them. Without a signal it returns the first join failure and
   * leaves the flag alone; a signal sets the flag and is raised as it is.
   */
  method ClusterMainJoin(flag: InterruptFlag, allFinished: nat -> bool, signal: nat -> Option<PyErr>, ghost horizon: nat, joined: seq<Joined>)
    returns (r: Result<(), PyErr>, polls: nat)
    requires allFinished(horizon) || signal(horizon).Some?
    modifies flag
    ensures polls <= horizon + 1
    ensures forall n :: 0 <= n < polls ==> !allFinished(n)
    ensures r.Ok? <==>
      QuietUntilFinished(allFinished, signal, horizon)
      && (forall i :: 0 <= i < |joined| ==> JoinError(joined[i]).None?)
    ensures QuietUntilFinished(allFinished, signal, horizon) ==>
      && allFinished(polls)
      && (r.Err? ==> Some(r.error) == FirstJoinError(joined))
      && flag.isSet == old(flag.isSet)
    ensures !QuietUntilFinished(allFinished, signal, horizon) ==>
      && r.Err?
      && polls >= 1
      && (forall n :: 0 <= n < polls - 1 ==> signal(n).None?)
      && Some(r.error) == signal(polls - 1)
      && flag.isSet
  {
    var waited;
    waited, polls := AwaitWorkers(flag, allFinished, signal, horizon);
    if waited.Err? {
      r := waited;
      assert !allFinished(polls - 1);
      return;
    }
    r := JoinWorkers(joined);
    forall n | 0 <= n <= horizon && (forall m :: 0 <= m < n ==> !allFinished(m))
      ensures signal(n).None? || allFinished(n)
    {
      if n > polls {
        assert false;
      }
    }
  }

  /** How `cluster_main` sets up communication: one process when no addresses are given, a cluster otherwise. */
  datatype Communication =
    | Process(threads: nat)
    | ClusterComm(threads: nat, process: nat, addresses: seq<string>)

  function CommunicationFor(addresses: Option<seq<string>>, procId: nat, threads: nat): (r: Communication)
    ensures r.Process? <==> addresses.None? || addresses.value == []
    ensures r.threads == threads
    ensures r.ClusterComm? ==> r.process == procId && r.addresses == addresses.value
  {
    var addrs := if addresses.Some? then addresses.value else [];
    if addrs == [] then Process(threads) else ClusterComm(threads, procId, addrs)
  }

  /** An unsigned byte, as `run` takes the process and worker counts. */
  type U8 = x: nat | x < 256

  /** The port of process 0; process `i` listens on `BASE_PORT + i`. */
  const BASE_PORT: nat := 2101

  /** The address `run` gives process `i` of a cluster on this machine. */
  function Address(i: nat): string
  {
    "localhost:" + Format(BASE_PORT + i)
  }

  /** The addresses `run` hands to a cluster of `processes` processes, in process order. */
  function Addresses(processes: U8): seq<string>
  {
    seq(processes, i requires 0 <= i => Address(i))
  }

  /** Every process of the cluster is at its own address, and each sits at its own index. */
  lemma AddressesDistinct(processes: U8)
    ensures |Addresses(processes)| == processes
    ensures forall i :: 0 <= i < processes ==> Addresses(processes)[i] == Address(i)
    ensures forall i, j :: 0 <= i < j < processes ==> Addresses(processes)[i] != Addresses(processes)[j]
  {
    forall i, j | 0 <= i < j < processes
      ensures Address(i) != Address(j)
    {
      var prefix := "localhost:";
      if Address(i) == Address(j) {
        assert Address(i)[|prefix|..] == Format(BASE_PORT + i);
        assert Address(j)[|prefix|..] == Format(BASE_PORT + j);
        FormatInjective(BASE_PORT + i, BASE_PORT + j);
      }
    }
  }

  /** Where `run` panics instead of raising: a missing count, or a process id that does not parse. */
  datatype LaunchPanic = MissingProcesses | MissingWorkersPerProcess | BadProcId

  /** What `run` does. */
  datatype Launch =
    | SingleWorker
    | JoinCluster(addresses: seq<string>, procId: nat, workersPerProcess: U8)
    | SpawnCluster(addresses: seq<string>, processes: U8, workersPerProcess: U8)
    | Panic(reason: LaunchPanic)

  /**
   * `run`'s dispatch on the process-id environment variable and the two
   * counts, in the order `run` checks and unwraps them.
   */
  function LaunchMode(procIdVar: Option<string>, processes: Option<U8>, workersPerProcess: Option<U8>): Launch
  {
    if procIdVar.None? && processes.None? && workersPerProcess.None? then SingleWorker
    else if processes.None? then Panic(MissingProcesses)
    else
      var addresses := Addresses(processes.value);
      if workersPerProcess.None? then Panic(MissingWorkersPerProcess)
      else if procIdVar.Some? then
        match ParseUsize(procIdVar.value)
        case None => Panic(BadProcId)
        case Some(id) => JoinCluster(addresses, id, workersPerProcess.value)
      else SpawnCluster(addresses, processes.value, workersPerProcess.value)
  }

  /**
   * `run` starts one worker with nothing set, spawns the cluster when
   * only the counts are set, joins the cluster under the parsed id when
   * the id and both counts are set, and otherwise panics: without a
   * process count, without a worker count, or on an id that does not parse.
   */
  lemma LaunchModeCases(procIdVar: Option<string>, processes: Option<U8>, workersPerProcess: Option<U8>)
    ensures LaunchMode(procIdVar, processes, workersPerProcess).SingleWorker? <==>
      procIdVar.None? && processes.None? && workersPerProcess.None?
    ensures LaunchMode(procIdVar, processes, workersPerProcess).SpawnCluster? <==>
      procIdVar.None? && processes.Some? && workersPerProcess.Some?
    ensures LaunchMode(procIdVar, processes, workersPerProcess).JoinCluster? ==>
      && processes.Some? && workersPerProcess.Some?
      && ParseUsize(procIdVar.value) == Some(LaunchMode(procIdVar, processes, workersPerProcess).procId)
      && LaunchMode(procIdVar, processes, workersPerProcess).addresses == Addresses(processes.value)
    ensures (procIdVar.Some? || workersPerProcess.Some?) && processes.None? ==>
      LaunchMode(procIdVar, processes, workersPerProcess) == Panic(MissingProcesses)
    ensures processes.Some? && workersPerProcess.None? ==>
      LaunchMode(procIdVar, processes, workersPerProcess) == Panic(MissingWorkersPerProcess)
    ensures procIdVar.Some? && processes.Some? && workersPerProcess.Some? ==>
      LaunchMode(procIdVar, processes, workersPerProcess) ==
        if ParseUsize(procIdVar.value).Some?
        then JoinCluster(Addresses(processes.value), ParseUsize(procIdVar.value).value, workersPerProcess.value)
        else Panic(BadProcId)
  {
  }

  /**
   * A process `run` spawns (its id in the environment, the parent's counts
   * on its command line) joins the same cluster as process `i`: same
   * address list, its own id, cluster communication over that list.
   */
  lemma SpawnedProcessJoinsCluster(processes: U8, workersPerProcess: U8, i: nat)
    requires i < processes
    ensures LaunchMode(None, Some(processes), Some(workersPerProcess)) ==
      SpawnCluster(Addresses(processes), processes, workersPerProcess)
    ensures LaunchMode(Some(Format(i)), Some(processes), Some(workersPerProcess)) ==
      JoinCluster(Addresses(processes), i, workersPerProcess)
    ensures CommunicationFor(Some(Addresses(processes)), i, workersPerProcess) ==
      ClusterComm(workersPerProcess, i, Addresses(processes))
    ensures Addresses(processes)[i] == Address(i)
  {
    ParseOfFormat(i);
    AddressesDistinct(processes);
  }
}
