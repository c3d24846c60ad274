/**
 * Worker identities, the progress record a worker writes before it
 * builds, and the production-dataflow builder: the walk over the
 * dataflow's steps that claims each stateful step's resume state,
 * collects inputs, outputs and change streams, and validates the result.
 */
module Execution {
  import opened Wrappers
  import opened ChangeLog

  /** The index of a worker in a cluster. */
  datatype WorkerIndex = WorkerIndex(index: nat)

  /** The number of workers in a cluster. */
  datatype WorkerCount = WorkerCount(count: nat)
  {
    /** All workers of the cluster, in ascending index order. */
    function Iter(): (r: seq<WorkerIndex>)
      ensures |r| == count
      ensures forall i :: 0 <= i < count ==> r[i] == WorkerIndex(i)
      decreases count
    {
      if count == 0 then [] else WorkerCount(count - 1).Iter() + [WorkerIndex(count - 1)]
    }
  }

  lemma IterOfThree()
    ensures WorkerCount(3).Iter() == [WorkerIndex(0), WorkerIndex(1), WorkerIndex(2)]
  {
  }

  /** Identifies one run of a dataflow. */
  type ExecutionId = nat

  type Epoch = nat

  /** One worker's progress record in one execution. */
  datatype WorkerKey = WorkerKey(ex: ExecutionId, worker: WorkerIndex)

  /** The cluster size and the epoch a worker starts from. */
  datatype ProgressMsg = Init(count: WorkerCount, epoch: Epoch)

  /** The execution and epoch to resume from. */
  datatype ResumeFrom = ResumeFrom(ex: ExecutionId, epoch: Epoch)

  /** A Python exception, optionally re-raised with a line of context in front of its cause. */
  datatype ErrorKind = TypeError | ValueError | RuntimeError | SignalError
  datatype PyErr = PyErr(kind: ErrorKind, msg: string) | Reraised(context: string, cause: PyErr)

  const UnknownInputType := PyErr(TypeError, "unknown input type")
  const UnknownOutputType := PyErr(TypeError, "unknown output type")
  const NoInput := PyErr(ValueError, "Dataflow needs to contain at least one input")
  const NoOutput := PyErr(ValueError, "Dataflow needs to contain at least one output")

  /** The progress change a worker records before building: this worker starts `resume`'s execution at its epoch. */
  function ProgressInit(resume: ResumeFrom, index: WorkerIndex, count: WorkerCount): KChange<WorkerKey, ProgressMsg>
  {
    KChange(WorkerKey(resume.ex, index), Upsert(Init(count, resume.epoch)))
  }

  type StepId = string

  datatype InputKind = PartitionedInput | DynamicInput | OtherInput
  datatype OutputKind = PartitionedOutput | DynamicOutput | OtherOutput

  /** One step of a dataflow blueprint; the callbacks of the stateless steps live in `Operators`. */
  datatype Step =
    | CollectWindow(stepId: StepId)
    | Input(stepId: StepId, input: InputKind)
    | Map
    | FlatMap
    | Filter
    | FilterMap
    | FoldWindow(stepId: StepId)
    | Inspect
    | InspectEpoch
    | Reduce(stepId: StepId)
    | ReduceWindow(stepId: StepId)
    | StatefulMap(stepId: StepId)
    | Output(stepId: StepId, output: OutputKind)

  /** Whether building `step` takes its entry out of the resume state and adds a change stream. */
  predicate ClaimsState(step: Step)
  {
    || step.CollectWindow?
    || step.FoldWindow?
    || step.Reduce?
    || step.ReduceWindow?
    || step.StatefulMap?
    || (step.Input? && step.input == PartitionedInput)
    || (step.Output? && step.output == PartitionedOutput)
  }

  /** The build error an input or output of unknown kind raises. */
  function KindError(step: Step): Option<PyErr>
  {
    if step.Input? && step.input == OtherInput then Some(UnknownInputType)
    else if step.Output? && step.output == OtherOutput then Some(UnknownOutputType)
    else None
  }

  /** An operator in the built chain: the step it came from and the resume state handed to it. */
  datatype Operator<S> = Operator(step: Step, resume: Option<S>)

  /**
   * The dataflow under construction: the operator chain, the ids of the
   * input and output steps, the steps whose change streams go to the
   * recovery writer, and the resume state not yet claimed.
   */
  datatype Plan<S> = Plan(
    operators: seq<Operator<S>>,
    inputs: seq<StepId>,
    outputs: seq<StepId>,
    stepChanges: seq<StepId>,
    resumeState: map<StepId, S>)

  datatype Walk<S> = Building(plan: Plan<S>) | Failed(err: PyErr)

  /** Adds one step to the dataflow under construction. */
  function BuildStep<S>(w: Walk<S>, step: Step): Walk<S>
  {
    match w
    case Failed(_) => w
    case Building(p) =>
      if KindError(step).Some? then Failed(KindError(step).value)
      else
        var claims := ClaimsState(step);
        Building(Plan(
          p.operators + [Operator(step, if claims then Lookup(p.resumeState, step.stepId) else None)],
          p.inputs + (if step.Input? then [step.stepId] else []),
          p.outputs + (if step.Output? then [step.stepId] else []),
          p.stepChanges + (if claims then [step.stepId] else []),
          if claims then p.resumeState - {step.stepId} else p.resumeState))
  }

  /** The dataflow after adding `steps` in order. */
  function WalkSteps<S>(steps: seq<Step>, resumeState: map<StepId, S>): Walk<S>
    decreases |steps|
  {
    if steps == [] then Building(Plan([], [], [], [], resumeState))
    else BuildStep(WalkSteps(steps[..|steps| - 1], resumeState), steps[|steps| - 1])
  }

  /** What building `steps` with `resumeState` yields: the first build error, or the plan if it has an input and an output. */
  function Build<S>(steps: seq<Step>, resumeState: map<StepId, S>): Result<Plan<S>, PyErr>
  {
    match WalkSteps(steps, resumeState)
    case Failed(e) => Err(e)
    case Building(p) =>
      if p.inputs == [] then Err(NoInput)
      else if p.outputs == [] then Err(NoOutput)
      else Ok(p)
  }

  /** The error of the first step of unknown kind, if any. */
  function FirstKindError(steps: seq<Step>): Option<PyErr>
    decreases |steps|
  {
    if steps == [] then None
    else
      var earlier := FirstKindError(steps[..|steps| - 1]);
      if earlier.Some? then earlier else KindError(steps[|steps| - 1])
  }

  datatype Role = InputRole | OutputRole | ChangeRole

  predicate Plays(step: Step, role: Role)
  {
    match role
    case InputRole => step.Input?
    case OutputRole => step.Output?
    case ChangeRole => ClaimsState(step)
  }

  /** The ids of the steps playing `role`, in step order. */
  function IdsOf(steps: seq<Step>, role: Role): seq<StepId>
    decreases |steps|
  {
    if steps == [] then []
    else
      var last := steps[|steps| - 1];
      IdsOf(steps[..|steps| - 1], role) + (if Plays(last, role) then [last.stepId] else [])
  }

  /** The step ids whose resume state the steps claim. */
  function ClaimedIds(steps: seq<Step>): set<StepId>
    decreases |steps|
  {
    if steps == [] then {}
    else
      var last := steps[|steps| - 1];
      ClaimedIds(steps[..|steps| - 1]) + (if ClaimsState(last) then {last.stepId} else {})
  }

  /** The resume state the operator for step `i` receives: its entry, unless an earlier step already took it. */
  function ClaimedAt<S>(steps: seq<Step>, resumeState: map<StepId, S>, i: nat): Option<S>
    requires i < |steps|
  {
    if ClaimsState(steps[i]) && steps[i].stepId !in ClaimedIds(steps[..i])
    then Lookup(resumeState, steps[i].stepId)
    else None
  }

  lemma {:induction false} IdsOfEmpty(steps: seq<Step>, role: Role)
    ensures IdsOf(steps, role) == [] <==> forall i :: 0 <= i < |steps| ==> !Plays(steps[i], role)
    decreases |steps|
  {
    if steps != [] {
      var n := |steps| - 1;
      IdsOfEmpty(steps[..n], role);
      assert forall i :: 0 <= i < n ==> steps[..n][i] == steps[i];
    }
  }

  lemma {:induction false} FirstKindErrorIsFirst(steps: seq<Step>)
    ensures FirstKindError(steps).None? <==> forall i :: 0 <= i < |steps| ==> KindError(steps[i]).None?
    ensures FirstKindError(steps).Some? ==>
      exists i :: 0 <= i < |steps| && KindError(steps[i]) == FirstKindError(steps)
        && forall j :: 0 <= j < i ==> KindError(steps[j]).None?
    decreases |steps|
  {
    if steps != [] {
      var n := |steps| - 1;
      FirstKindErrorIsFirst(steps[..n]);
      assert forall i :: 0 <= i < n ==> steps[..n][i] == steps[i];
      if FirstKindError(steps[..n]).None? && FirstKindError(steps).Some? {
        assert KindError(steps[n]) == FirstKindError(steps);
      }
    }
  }

  /** Once a step fails the build, the later steps change nothing. */
  lemma {:induction false} FailureIsFinal<S>(steps: seq<Step>, j: nat, resumeState: map<StepId, S>)
    requires j <= |steps|
    requires WalkSteps(steps[..j], resumeState).Failed?
    ensures WalkSteps(steps, resumeState) == WalkSteps(steps[..j], resumeState)
    decreases |steps|
  {
    if j == |steps| {
      assert steps[..j] == steps;
    } else {
      var n := |steps| - 1;
      assert steps[..n][..j] == steps[..j];
      FailureIsFinal(steps[..n], j, resumeState);
    }
  }

  lemma {:induction false} WalkFails<S>(steps: seq<Step>, resumeState: map<StepId, S>)
    ensures WalkSteps(steps, resumeState).Failed? <==> FirstKindError(steps).Some?
    ensures WalkSteps(steps, resumeState).Failed? ==> WalkSteps(steps, resumeState).err == FirstKindError(steps).value
    decreases |steps|
  {
    if steps != [] {
      WalkFails(steps[..|steps| - 1], resumeState);
    }
  }

  /** Adding a step of known kind to a plan extends each collection by what that step contributes. */
  lemma BuildStepPlan<S>(p: Plan<S>, step: Step)
    requires KindError(step).None?
    ensures BuildStep(Building(p), step).Building?
    ensures var q := BuildStep(Building(p), step).plan;
      && q.operators == p.operators + [Operator(step, if ClaimsState(step) then Lookup(p.resumeState, step.stepId) else None)]
      && q.inputs == p.inputs + (if Plays(step, InputRole) then [step.stepId] else [])
      && q.outputs == p.outputs + (if Plays(step, OutputRole) then [step.stepId] else [])
      && q.stepChanges == p.stepChanges + (if Plays(step, ChangeRole) then [step.stepId] else [])
      && q.resumeState == p.resumeState - (if ClaimsState(step) then {step.stepId} else {})
  {
  }

  /**
   * A walk that has not failed collects the input, output and
   * change-stream ids of the steps, and leaves the resume state minus
   * every claimed id.
   */
  lemma {:induction false} WalkCollects<S>(steps: seq<Step>, resumeState: map<StepId, S>)
    requires WalkSteps(steps, resumeState).Building?
    ensures var p := WalkSteps(steps, resumeState).plan;
      && |p.operators| == |steps|
      && p.inputs == IdsOf(steps, InputRole)
      && p.outputs == IdsOf(steps, OutputRole)
      && p.stepChanges == IdsOf(steps, ChangeRole)
      && p.resumeState == resumeState - ClaimedIds(steps)
    decreases |steps|
  {
    if steps != [] {
      var n := |steps| - 1;
      var prefix := steps[..n];
      assert WalkSteps(prefix, resumeState).Building?;
      WalkCollects(prefix, resumeState);
      var p := WalkSteps(prefix, resumeState).plan;
      BuildStepPlan(p, steps[n]);
    }
  }

  /**
   * A walk that has not failed holds one operator per step, carrying that
   * step and the state it claimed, together with everything
   * `WalkCollects` states.
   */
  lemma {:induction false} WalkPlan<S>(steps: seq<Step>, resumeState: map<StepId, S>)
    requires WalkSteps(steps, resumeState).Building?
    ensures var p := WalkSteps(steps, resumeState).plan;
      && |p.operators| == |steps|
      && (forall i :: 0 <= i < |steps| ==> p.operators[i] == Operator(steps[i], ClaimedAt(steps, resumeState, i)))
      && p.inputs == IdsOf(steps, InputRole)
      && p.outputs == IdsOf(steps, OutputRole)
      && p.stepChanges == IdsOf(steps, ChangeRole)
      && p.resumeState == resumeState - ClaimedIds(steps)
    decreases |steps|
  {
    WalkCollects(steps, resumeState);
    if steps != [] {
      var n := |steps| - 1;
      var prefix := steps[..n];
      assert WalkSteps(prefix, resumeState).Building?;
      WalkPlan(prefix, resumeState);
      var p := WalkSteps(prefix, resumeState).plan;
      BuildStepPlan(p, steps[n]);
      var q := WalkSteps(steps, resumeState).plan;
      forall i | 0 <= i < |steps|
        ensures q.operators[i] == Operator(steps[i], ClaimedAt(steps, resumeState, i))
      {
        if i < n {
          assert prefix[..i] == steps[..i];
          assert prefix[i] == steps[i];
          assert q.operators[i] == p.operators[i];
        } else {
          assert steps[..n] == prefix;
          assert p.resumeState == resumeState - ClaimedIds(prefix);
        }
      }
    }
  }

  /**
   * The build succeeds exactly when every input and output is of a known
   * kind and there is at least one of each. Otherwise it reports the
   * first unknown kind, else the missing input, else the missing output.
   */
  lemma BuildValidation<S>(steps: seq<Step>, resumeState: map<StepId, S>)
    ensures Build(steps, resumeState).Ok? <==>
      && (forall i :: 0 <= i < |steps| ==> KindError(steps[i]).None?)
      && (exists i :: 0 <= i < |steps| && steps[i].Input?)
      && (exists i :: 0 <= i < |steps| && steps[i].Output?)
    ensures FirstKindError(steps).Some? ==> Build(steps, resumeState) == Err(FirstKindError(steps).value)
    ensures FirstKindError(steps).None? && (forall i :: 0 <= i < |steps| ==> !steps[i].Input?) ==>
      Build(steps, resumeState) == Err(NoInput)
    ensures (&& FirstKindError(steps).None?
             && (exists i :: 0 <= i < |steps| && steps[i].Input?)
             && (forall i :: 0 <= i < |steps| ==> !steps[i].Output?)) ==>
      Build(steps, resumeState) == Err(NoOutput)
  {
    WalkFails(steps, resumeState);
    FirstKindErrorIsFirst(steps);
    IdsOfEmpty(steps, InputRole);
    IdsOfEmpty(steps, OutputRole);
    if WalkSteps(steps, resumeState).Building? {
      WalkPlan(steps, resumeState);
    }
  }

  /**
   * A successful build leaves exactly the resume state no step claimed
   * (it is only warned about), and hands each claiming operator its own
   * entry unless an earlier step with the same id took it first.
   */
  lemma BuildLeftover<S>(steps: seq<Step>, resumeState: map<StepId, S>)
    requires Build(steps, resumeState).Ok?
    ensures Build(steps, resumeState).value.resumeState == resumeState - ClaimedIds(steps)
    ensures |Build(steps, resumeState).value.operators| == |steps|
    ensures forall i :: 0 <= i < |steps| ==>
      Build(steps, resumeState).value.operators[i] == Operator(steps[i], ClaimedAt(steps, resumeState, i))
  {
    WalkPlan(steps, resumeState);
  }

  /**
   * Every worker builds the same operators from the same steps whatever
   * resume state it holds: the same outcome, the same chain of steps,
   * the same inputs, outputs and change streams.
   */
  lemma SameShapeOnEveryWorker<S>(steps: seq<Step>, rs1: map<StepId, S>, rs2: map<StepId, S>)
    ensures Build(steps, rs1).Ok? <==> Build(steps, rs2).Ok?
    ensures Build(steps, rs1).Err? ==> Build(steps, rs1).error == Build(steps, rs2).error
    ensures Build(steps, rs1).Ok? ==>
      var p1, p2 := Build(steps, rs1).value, Build(steps, rs2).value;
      && |p1.operators| == |p2.operators| == |steps|
      && (forall i :: 0 <= i < |steps| ==> p1.operators[i].step == p2.operators[i].step == steps[i])
      && p1.inputs == p2.inputs && p1.outputs == p2.outputs && p1.stepChanges == p2.stepChanges
  {
    WalkFails(steps, rs1);
    WalkFails(steps, rs2);
    if WalkSteps(steps, rs1).Building? {
      WalkPlan(steps, rs1);
      WalkPlan(steps, rs2);
    }
  }

  /**
   * The step loop and validation of `build_production_dataflow`: takes
   * each claiming step's entry out of the resume state, collects inputs,
   * outputs and change streams, fails on an unknown input or output
   * kind, then on a missing input, then on a missing output, and reports
   * the leftover resume-state keys as a warning.
   */
  method BuildOperators<S>(steps: seq<Step>, resumeState: map<StepId, S>)
    returns (r: Result<Plan<S>, PyErr>, warnedAbout: set<StepId>)
    ensures r == Build(steps, resumeState)
    ensures warnedAbout == if r.Ok? then r.value.resumeState.Keys else {}
  {
    var resume := resumeState;
    var operators: seq<Operator<S>> := [];
    var inputs: seq<StepId> := [];
    var outputs: seq<StepId> := [];
    var stepChanges: seq<StepId> := [];
    for i := 0 to |steps|
      invariant WalkSteps(steps[..i], resumeState) == Building(Plan(operators, inputs, outputs, stepChanges, resume))
    {
      var step := steps[i];
      assert steps[..i + 1][..i] == steps[..i];
      match step {
        case Input(id, kind) =>
          if kind == PartitionedInput {
            var claimed := Lookup(resume, id);
            resume := resume - {id};
            operators := operators + [Operator(step, claimed)];
            inputs := inputs + [id];
            stepChanges := stepChanges + [id];
          } else if kind == DynamicInput {
            operators := operators + [Operator(step, None)];
            inputs := inputs + [id];
          } else {
            FailureIsFinal(steps, i + 1, resumeState);
            return Err(UnknownInputType), {};
          }
        case Output(id, kind) =>
          if kind == PartitionedOutput {
            var claimed := Lookup(resume, id);
            resume := resume - {id};
            operators := operators + [Operator(step, claimed)];
            outputs := outputs + [id];
            stepChanges := stepChanges + [id];
          } else if kind == DynamicOutput {
            operators := operators + [Operator(step, None)];
            outputs := outputs + [id];
          } else {
            FailureIsFinal(steps, i + 1, resumeState);
            return Err(UnknownOutputType), {};
          }
        case Map =>
          operators := operators + [Operator(step, None)];
        case FlatMap =>
          operators := operators + [Operator(step, None)];
        case Filter =>
          operators := operators + [Operator(step, None)];
        case FilterMap =>
          operators := operators + [Operator(step, None)];
        case Inspect =>
          operators := operators + [Operator(step, None)];
        case InspectEpoch =>
          operators := operators + [Operator(step, None)];
        case _ =>
          // CollectWindow, FoldWindow, Reduce, ReduceWindow and StatefulMap
          var claimed := Lookup(resume, step.stepId);
          resume := resume - {step.stepId};
          operators := operators + [Operator(step, claimed)];
          stepChanges := stepChanges + [step.stepId];
      }
    }
    assert steps[..|steps|] == steps;
    if inputs == [] {
      return Err(NoInput), {};
    }
    if outputs == [] {
      return Err(NoOutput), {};
    }
    r := Ok(Plan(operators, inputs, outputs, stepChanges, resume));
    warnedAbout := resume.Keys;
  }

  /**
   * `build_production_dataflow`: records this worker's progress-init
   * change in the in-memory progress store and in the progress writer,
   * then builds the operators.
   */
  method BuildProductionDataflow<S>(
    resume: ResumeFrom, index: WorkerIndex, count: WorkerCount,
    steps: seq<Step>, resumeState: map<StepId, S>,
    resumeProgress: MapStore<WorkerKey, ProgressMsg>, progressWriter: LogWriter<WorkerKey, ProgressMsg>)
    returns (r: Result<Plan<S>, PyErr>, warnedAbout: set<StepId>)
    modifies resumeProgress, progressWriter
    ensures resumeProgress.contents ==
      old(resumeProgress.contents)[WorkerKey(resume.ex, index) := Init(count, resume.epoch)]
    ensures progressWriter.log == old(progressWriter.log) + [ProgressInit(resume, index, count)]
    ensures ApplyAll(map[], old(progressWriter.log)) == old(resumeProgress.contents) ==>
      ApplyAll(map[], progressWriter.log) == resumeProgress.contents
    ensures r == Build(steps, resumeState)
    ensures warnedAbout == if r.Ok? then r.value.resumeState.Keys else {}
  {
    var progressInit := ProgressInit(resume, index, count);
    resumeProgress.Write(progressInit);
    progressWriter.Write(progressInit);
    assert (old(progressWriter.log) + [progressInit])[..|old(progressWriter.log)|] == old(progressWriter.log);
    r, warnedAbout := BuildOperators(steps, resumeState);
  }
}
