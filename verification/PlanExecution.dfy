/** Persisted plans: creation, preparation, and the executor loop over the planned steps. */
module PlanExecution {
  import opened Ordering
  import opened Wrappers
  import opened Capabilities
  import opened Orchestration

  type Artifact = string

  datatype RunError =
    | NotApproved
    | NoSteps
    | MissingInputs
    | MissingArtifact(capability: string)
    | StepRaised(capability: string)
    | NotProduced(capability: string)

  datatype PlanStatus = Draft | WaitingForApproval | Approved | Running | Completed | Failed | Rejected | Cancelled

  /** A step's consumed artifacts by provider input: its bindings, else each need under its own name. */
  function Consumes(step: Step): map<string, string> {
    if step.consumes != map[] then step.consumes else Identity(step.needs)
  }

  predicate Resolvable(step: Step, available: map<string, Artifact>) {
    forall input :: input in Consumes(step) ==> Consumes(step)[input] in available
  }

  /** `resolve_artifact_inputs`, once every name is available. */
  function ResolveInputs(step: Step, available: map<string, Artifact>): map<string, Artifact>
    requires Resolvable(step, available)
  {
    map input | input in Consumes(step) :: available[Consumes(step)[input]]
  }

  /** What the injected executor did for one step: raised, or returned artifacts by name. */
  datatype StepOutcome = Raised | Returned(artifacts: map<string, Artifact>)

  /** Any executor: it may answer anything for any step index and any resolved inputs. */
  type Executor = (nat, map<string, Artifact>) -> StepOutcome

  predicate MakesAll(step: Step, produced: map<string, Artifact>) {
    forall a :: a in step.makes ==> a in produced
  }

  datatype RunResult = Done(artifacts: map<string, Artifact>) | Stopped(index: nat, error: RunError)

  /** The run of steps `i..`, given the artifacts produced so far and everything available. */
  function Run(steps: seq<Step>, i: nat, artifacts: map<string, Artifact>, available: map<string, Artifact>, executor: Executor): RunResult
    requires i <= |steps|
    decreases |steps| - i
  {
    if i == |steps| then Done(artifacts)
    else if !Resolvable(steps[i], available) then Stopped(i, MissingArtifact(steps[i].capability))
    else
      match executor(i, ResolveInputs(steps[i], available))
      case Raised => Stopped(i, StepRaised(steps[i].capability))
      case Returned(produced) =>
        if !MakesAll(steps[i], produced) then Stopped(i, NotProduced(steps[i].capability))
        else Run(steps, i + 1, artifacts + produced, available + produced, executor)
  }

  class ExecutionPlan {
    const steps: seq<Step>
    const missingInputs: seq<string>
    const inputs: map<string, Artifact>
    var status: PlanStatus
    var artifacts: map<string, Artifact>
    var error: Option<RunError>

    /** A new plan: the preview, with the missing inputs the caller did not supply. */
    constructor (preview: Preview, inputs: map<string, Artifact>)
      ensures steps == preview.steps && this.inputs == inputs
      ensures forall name :: name in missingInputs <==> name in preview.missingInputs && name !in inputs
      ensures status == PlanStatus.Draft && artifacts == map[] && error == None
    {
      steps := preview.steps;
      missingInputs := Without(preview.missingInputs, inputs);
      this.inputs := inputs;
      status, artifacts, error := PlanStatus.Draft, map[], None;
    }

    /** What both entry points demand of the plan besides its status. */
    predicate Ready() {
      steps != [] && missingInputs == []
    }

    method PrepareExecution() returns (r: Outcome<RunError>)
      modifies this`status
      ensures r.Pass? <==> old(status) == Approved && Ready()
      ensures status == if r.Pass? then Running else old(status)
    {
      if status != Approved {
        return Fail(NotApproved);
      }
      if steps == [] {
        return Fail(NoSteps);
      }
      if missingInputs != [] {
        return Fail(MissingInputs);
      }
      status := Running;
      return Pass;
    }

    method Execute(executor: Executor) returns (r: Outcome<RunError>)
      modifies this
      ensures old(status) !in {Approved, Running} || !Ready() ==>
                r.Fail? && status == old(status) && artifacts == old(artifacts) && error == old(error)
      ensures old(status) in {Approved, Running} && Ready() ==>
                match Run(steps, 0, map[], inputs, executor)
                case Done(made) => r == Pass && status == Completed && artifacts == made && error == old(error)
                case Stopped(_, e) => r == Fail(e) && status == Failed && artifacts == old(artifacts) && error == Some(e)
    {
      if status !in {Approved, Running} {
        return Fail(NotApproved);
      }
      if steps == [] {
        return Fail(NoSteps);
      }
      if missingInputs != [] {
        return Fail(MissingInputs);
      }
      var made: map<string, Artifact>, available: map<string, Artifact> := map[], inputs;
      r := Pass;
      var i := 0;
      while i < |steps|
        invariant 0 <= i <= |steps| && r == Pass
        invariant status == old(status) && artifacts == old(artifacts) && error == old(error)
        invariant Run(steps, 0, map[], inputs, executor) == Run(steps, i, made, available, executor)
      {
        var step := steps[i];
        if !Resolvable(step, available) {
          r := Fail(MissingArtifact(step.capability));
          break;
        }
        var outcome := executor(i, ResolveInputs(step, available));
        if outcome.Raised? {
          r := Fail(StepRaised(step.capability));
          break;
        }
        if !MakesAll(step, outcome.artifacts) {
          r := Fail(NotProduced(step.capability));
          break;
        }
        made := made + outcome.artifacts;
        available := available + outcome.artifacts;
        i := i + 1;
      }
      if r.Fail? {
        status, error := Failed, Some(r.error);
      } else {
        status, artifacts := Completed, made;
      }
    }
  }

  datatype CreateError = NothingToApprove | NotOneVersion(capability: string) | NotExecutable(capability: string)

  function Count(names: seq<string>, name: string): nat {
    if names == [] then 0 else (if names[0] == name then 1 else 0) + Count(names[1..], name)
  }

  /** What `create_plan` objects to a step, given the names of all installed versions. */
  function Objection(installed: seq<string>, step: Step): Option<CreateError> {
    if Count(installed, step.capability) != 1 then Some(NotOneVersion(step.capability))
    else if step.skill == "" || step.provider == "" then Some(NotExecutable(step.capability))
    else None
  }

  /** The first of the steps that is objected to, and the objection. */
  ghost predicate FirstObjection(installed: seq<string>, steps: seq<Step>, i: nat, error: CreateError) {
    && i < |steps| && Objection(installed, steps[i]) == Some(error)
    && forall k :: 0 <= k < i ==> Objection(installed, steps[k]).None?
  }

  /** `create_plan`, up to the requests for approval. */
  method CreatePlan(installed: seq<string>, preview: Preview, approve: bool, inputs: map<string, Artifact>)
    returns (r: Result<ExecutionPlan, CreateError>)
    ensures r.Success? <==>
              (approve ==> preview.steps != [])
              && forall k :: 0 <= k < |preview.steps| ==> Objection(installed, preview.steps[k]).None?
    ensures r.Failure? ==>
              if approve && preview.steps == [] then r.error == NothingToApprove
              else exists i :: FirstObjection(installed, preview.steps, i, r.error)
    ensures r.Success? ==>
              && fresh(r.value) && r.value.steps == preview.steps && r.value.inputs == inputs && r.value.status == PlanStatus.Draft
              && forall name :: name in r.value.missingInputs <==> name in preview.missingInputs && name !in inputs
  {
    if approve && preview.steps == [] {
      return Failure(NothingToApprove);
    }
    for i := 0 to |preview.steps|
      invariant forall k :: 0 <= k < i ==> Objection(installed, preview.steps[k]).None?
    {
      var step := preview.steps[i];
      if Count(installed, step.capability) != 1 {
        assert FirstObjection(installed, preview.steps, i, NotOneVersion(step.capability));
        return Failure(NotOneVersion(step.capability));
      }
      if step.skill == "" || step.provider == "" {
        assert FirstObjection(installed, preview.steps, i, NotExecutable(step.capability));
        return Failure(NotExecutable(step.capability));
      }
    }
    var plan := new ExecutionPlan(preview, inputs);
    r := Success(plan);
  }

  function Without(names: seq<string>, inputs: map<string, Artifact>): (q: seq<string>)
    ensures forall name :: name in q <==> name in names && name !in inputs
  {
    if names == [] then []
    else (if names[0] in inputs then [] else [names[0]]) + Without(names[1..], inputs)
  }

  /** Steps 0..i-1 produced what they declare, and all plan inputs are still there. */
  ghost predicate Supplied(steps: seq<Step>, i: nat, inputs: map<string, Artifact>, available: map<string, Artifact>)
    requires i <= |steps|
  {
    && inputs.Keys <= available.Keys
    && forall j, a :: 0 <= j < i && a in steps[j].makes ==> a in available
  }

  /** A planned step consumes exactly the artifacts it is listed as needing. */
  lemma ConsumesItsNeeds(reg: Registry, name: string, input: string)
    requires name in reg.installed && input in Consumes(StepFor(reg, name))
    ensures Consumes(StepFor(reg, name))[input] in reg.Meta(name).needs
  {
    var step := StepFor(reg, name);
    var meta := reg.Meta(name);
    if step.consumes != map[] {
      assert meta.binding.Some? && step.consumes == meta.binding.value.consumes;
      assert step.consumes[input] in step.consumes.Values;
    }
  }

  /** In an exact plan whose gaps are all supplied, whatever ran before step `i` leaves it resolvable. */
  lemma StepIsResolvable(reg: Registry, target: string, p: Preview, inputs: map<string, Artifact>, i: nat, available: map<string, Artifact>)
    requires ExactPlan(reg, target, p) && i < |p.steps|
    requires forall need :: need in p.missingInputs ==> need in inputs
    requires Supplied(p.steps, i, inputs, available)
    ensures Resolvable(p.steps[i], available)
  {
    var name := p.steps[i].capability;
    assert Names(p.steps)[i] == name;
    forall input | input in Consumes(p.steps[i]) ensures Consumes(p.steps[i])[input] in available {
      ConsumesItsNeeds(reg, name, input);
      var need := Consumes(p.steps[i])[input];
      match reg.Producer(name, need)
      case None =>
        assert reg.Unmet(name, need);
      case Some(q) =>
        assert reg.Edge(name, q);
        var j :| 0 <= j < i && Names(p.steps)[j] == q;
        assert q in reg.Producers(name, need);
        assert need in p.steps[j].makes;
    }
  }

  lemma SuppliedNext(steps: seq<Step>, i: nat, inputs: map<string, Artifact>, available: map<string, Artifact>, produced: map<string, Artifact>)
    requires i < |steps| && Supplied(steps, i, inputs, available) && MakesAll(steps[i], produced)
    ensures Supplied(steps, i + 1, inputs, available + produced)
  {
    forall j, a | 0 <= j < i + 1 && a in steps[j].makes ensures a in available + produced {
      assert j == i ==> a in produced;
    }
  }

  lemma {:induction false} NeverStarvesFrom(
    reg: Registry, target: string, p: Preview, inputs: map<string, Artifact>, executor: Executor,
    i: nat, artifacts: map<string, Artifact>, available: map<string, Artifact>)
    requires ExactPlan(reg, target, p) && i <= |p.steps|
    requires forall need :: need in p.missingInputs ==> need in inputs
    requires Supplied(p.steps, i, inputs, available)
    ensures
      var r := Run(p.steps, i, artifacts, available, executor);
      r.Stopped? ==> !r.error.MissingArtifact?
    decreases |p.steps| - i
  {
    if i < |p.steps| {
      StepIsResolvable(reg, target, p, inputs, i, available);
      var outcome := executor(i, ResolveInputs(p.steps[i], available));
      if outcome.Returned? && MakesAll(p.steps[i], outcome.artifacts) {
        SuppliedNext(p.steps, i, inputs, available, outcome.artifacts);
        NeverStarvesFrom(reg, target, p, inputs, executor, i + 1, artifacts + outcome.artifacts, available + outcome.artifacts);
      }
    }
  }

  /** A completed run returns every artifact its steps declare. */
  lemma {:induction false} DoneMeansMade(
    steps: seq<Step>, i: nat, artifacts: map<string, Artifact>, available: map<string, Artifact>, executor: Executor, a: string)
    requires i <= |steps| && Run(steps, i, artifacts, available, executor).Done?
    requires a in artifacts || exists j :: i <= j < |steps| && a in steps[j].makes
    ensures a in Run(steps, i, artifacts, available, executor).artifacts
    decreases |steps| - i
  {
    if i < |steps| {
      var made := executor(i, ResolveInputs(steps[i], available)).artifacts;
      DoneMeansMade(steps, i + 1, artifacts + made, available + made, executor, a);
    }
  }

  /**
   * A planned goal that passes preparation never fails for want of an artifact, whatever its jobs answer;
   * and if it completes, every artifact the preview announced was produced.
   */
  lemma PreparedPlanNeverStarves(entries: seq<Entry>, p: Preview, inputs: map<string, Artifact>, executor: Executor)
    requires BestMatch(entries).Some? && PlansFor(Load(entries), BestMatch(entries).value.manifest.name, Success(p))
    requires forall name :: name in p.missingInputs ==> name in inputs
    ensures
      var r := Run(p.steps, 0, map[], inputs, executor);
      && (r.Stopped? ==> !r.error.MissingArtifact?)
      && (r.Done? ==> forall a :: a in p.producedArtifacts ==> a in r.artifacts)
  {
    NeverStarvesFrom(Load(entries), BestMatch(entries).value.manifest.name, p, inputs, executor, 0, map[], inputs);
    forall a | a in p.producedArtifacts && Run(p.steps, 0, map[], inputs, executor).Done?
      ensures a in Run(p.steps, 0, map[], inputs, executor).artifacts
    {
      DoneMeansMade(p.steps, 0, map[], inputs, executor, a);
    }
  }

  /** No step returns the artifact without declaring it. */
  ghost predicate Withholds(steps: seq<Step>, executor: Executor, need: string) {
    forall k, resolved :: 0 <= k < |steps| && executor(k, resolved).Returned? && need in executor(k, resolved).artifacts ==>
      need in steps[k].makes
  }

  /** Every step returns what it declares. */
  ghost predicate Delivers(steps: seq<Step>, executor: Executor) {
    forall k, resolved :: 0 <= k < |steps| ==>
      executor(k, resolved).Returned? && MakesAll(steps[k], executor(k, resolved).artifacts)
  }

  /** The step consumes the artifact. */
  ghost predicate Needs(step: Step, need: string) {
    exists input :: input in Consumes(step) && Consumes(step)[input] == need
  }

  lemma NeedIsConsumed(reg: Registry, name: string, need: string)
    requires name in reg.installed && need in reg.Meta(name).needs
    ensures Needs(StepFor(reg, name), need)
  {
    var step := StepFor(reg, name);
    if step.consumes == map[] {
      assert Consumes(step)[need] == need;
    } else {
      assert need in step.consumes.Values;
      var input :| input in step.consumes && step.consumes[input] == need;
      assert input in Consumes(step);
    }
  }

  lemma OthersDoNotMake(reg: Registry, target: string, p: Preview, need: string, i: nat, j: nat)
    requires ExactPlan(reg, target, p) && i < j < |p.steps| && reg.Unmet(p.steps[j].capability, need)
    ensures need !in p.steps[i].makes
  {
    assert Names(p.steps)[i] != Names(p.steps)[j];
    assert p.steps[i].capability !in reg.Producers(p.steps[j].capability, need);
  }

  /** Step `j` needs what nobody before it makes. */
  lemma {:induction false} StarvesFrom(
    steps: seq<Step>, executor: Executor, need: string, j: nat, i: nat, artifacts: map<string, Artifact>, available: map<string, Artifact>)
    requires i <= j < |steps| && Needs(steps[j], need) && need !in available
    requires Withholds(steps, executor, need) && forall k :: 0 <= k < j ==> need !in steps[k].makes
    ensures
      var r := Run(steps, i, artifacts, available, executor);
      r.Stopped? && r.index <= j && (Delivers(steps, executor) ==> r.error.MissingArtifact?)
    decreases j - i
  {
    if i < j && Resolvable(steps[i], available) {
      var outcome := executor(i, ResolveInputs(steps[i], available));
      if outcome.Returned? && MakesAll(steps[i], outcome.artifacts) {
        StarvesFrom(steps, executor, need, j, i + 1, artifacts + outcome.artifacts, available + outcome.artifacts);
      }
    }
  }

  /**
   * Conversely, one missing input left unsupplied stops every run in which no step returns it undeclared; if the steps
   * return all they declare, for want of an artifact.
   */
  lemma UnsuppliedPlanStarves(reg: Registry, target: string, p: Preview, inputs: map<string, Artifact>, executor: Executor, need: string)
    requires ExactPlan(reg, target, p) && Withholds(p.steps, executor, need)
    requires need in p.missingInputs && need !in inputs
    ensures
      var r := Run(p.steps, 0, map[], inputs, executor);
      r.Stopped? && (Delivers(p.steps, executor) ==> r.error.MissingArtifact?)
  {
    var n :| n in Names(p.steps) && reg.Unmet(n, need);
    var j :| 0 <= j < |p.steps| && Names(p.steps)[j] == n;
    NeedIsConsumed(reg, n, need);
    forall k | 0 <= k < j ensures need !in p.steps[k].makes {
      OthersDoNotMake(reg, target, p, need, k, j);
    }
    StarvesFrom(p.steps, executor, need, j, 0, map[], inputs);
  }
}
