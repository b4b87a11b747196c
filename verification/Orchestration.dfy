/** The workflow planner's depth-first search and the executor that replays its plan. */
module Orchestration {
  import opened Ordering
  import opened Wrappers
  import opened Capabilities

  datatype Step = Step(
    capability: string, version: string, skill: string, provider: string,
    consumes: map<string, string>, artifactOutputs: map<string, string>,
    needs: seq<string>, makes: seq<string>)

  datatype PlanError = AmbiguousBinding | DependencyCycle(name: string)

  function StepFor(reg: Registry, name: string): Step
    requires name in reg.installed
  {
    var meta := reg.Meta(name);
    match meta.binding
    case Some(b) =>
      Step(name, reg.installed[name].version, b.skill, b.provider, b.consumes, b.produces, meta.needs, meta.makes)
    case None =>
      Step(name, reg.installed[name].version, "", "", map[], map[], meta.needs, meta.makes)
  }

  function Names(steps: seq<Step>): (q: seq<string>)
    ensures |q| == |steps| && forall i :: 0 <= i < |q| ==> q[i] == steps[i].capability
  {
    seq(|steps|, i requires 0 <= i < |steps| => steps[i].capability)
  }

  /** What planning has built so far, with the capabilities still being resolved. */
  datatype Draft = Draft(steps: seq<Step>, added: set<string>, visiting: set<string>, missing: set<string>)

  ghost predicate WellFormed(reg: Registry, d: Draft) {
    && (forall i :: 0 <= i < |d.steps| ==>
          d.steps[i].capability in reg.installed && d.steps[i] == StepFor(reg, d.steps[i].capability))
    && (forall n :: n in d.added <==> n in Names(d.steps))
    && reg.Topological(Names(d.steps))
    && d.visiting !! d.added
    && d.visiting <= reg.installed.Keys
    && (forall n, need :: n in d.added && reg.Unmet(n, need) ==> need in d.missing)
    && (forall need :: need in d.missing ==> exists n :: n in d.added + d.visiting && reg.Unmet(n, need))
  }

  /** From `d0` to `d1` only capabilities reached from `name` were added, and nothing was taken back. */
  ghost predicate Progress(reg: Registry, name: string, d0: Draft, d1: Draft) {
    && d0.steps <= d1.steps
    && d0.added <= d1.added
    && d0.missing <= d1.missing
    && (forall n :: n in d1.added && n !in d0.added ==> reg.Reaches(name, n))
  }

  /** `need` of `name` is on the missing list, or its producer is already a step. */
  ghost predicate Handled(reg: Registry, name: string, need: string, d: Draft) {
    match reg.Producer(name, need)
    case None => need in d.missing
    case Some(p) => p in d.added
  }

  /** The first `i` needs of `name` are handled. */
  ghost predicate AllHandled(reg: Registry, name: string, needs: seq<string>, i: nat, d: Draft)
    requires i <= |needs|
  {
    forall k :: 0 <= k < i ==> Handled(reg, name, needs[k], d)
  }

  lemma HandleNext(reg: Registry, name: string, needs: seq<string>, i: nat, d0: Draft, d1: Draft)
    requires i < |needs| && AllHandled(reg, name, needs, i, d0) && Handled(reg, name, needs[i], d1)
    requires d0.added <= d1.added && d0.missing <= d1.missing
    ensures AllHandled(reg, name, needs, i + 1, d1)
  {
    forall k | 0 <= k < i + 1 ensures Handled(reg, name, needs[k], d1) {
      assert k < i ==> Handled(reg, name, needs[k], d0);
    }
  }

  lemma Enter(reg: Registry, name: string, d0: Draft, d1: Draft)
    requires WellFormed(reg, d0) && name in reg.installed && name !in d0.added
    requires d1 == d0.(visiting := d0.visiting + {name})
    ensures WellFormed(reg, d1) && Progress(reg, name, d0, d1)
  {
  }

  lemma Missing(reg: Registry, name: string, need: string, start: Draft, d0: Draft, d1: Draft)
    requires WellFormed(reg, d0) && Progress(reg, name, start, d0) && name in d0.visiting && reg.Unmet(name, need)
    requires d1 == d0.(missing := d0.missing + {need})
    ensures WellFormed(reg, d1) && Progress(reg, name, start, d1)
  {
  }

  lemma ProgressCall(reg: Registry, name: string, p: string, d0: Draft, d1: Draft, d2: Draft)
    requires Progress(reg, name, d0, d1) && Progress(reg, p, d1, d2) && reg.Edge(name, p)
    ensures Progress(reg, name, d0, d2)
  {
    forall n | n in d2.added && n !in d0.added ensures reg.Reaches(name, n) {
      if n !in d1.added {
        reg.ReachesStep(name, p, n);
      }
    }
  }

  lemma Finish(reg: Registry, name: string, d0: Draft, d1: Draft, d2: Draft)
    requires WellFormed(reg, d1) && Progress(reg, name, d0, d1)
    requires name in d1.visiting
    requires AllHandled(reg, name, reg.Meta(name).needs, |reg.Meta(name).needs|, d1)
    requires d2 == Draft(d1.steps + [StepFor(reg, name)], d1.added + {name}, d1.visiting - {name}, d1.missing)
    ensures WellFormed(reg, d2) && Progress(reg, name, d0, d2)
  {
    forall need | need in reg.Meta(name).needs ensures Handled(reg, name, need, d1) {
      var k :| 0 <= k < |reg.Meta(name).needs| && reg.Meta(name).needs[k] == need;
    }
    assert Names(d2.steps) == Names(d1.steps) + [name];
    AppendTopological(reg, Names(d1.steps), name);
    reg.ReachesSelf(name);
    assert d2.added + d2.visiting == d1.added + d1.visiting;
  }

  lemma AppendTopological(reg: Registry, order: seq<string>, name: string)
    requires reg.Topological(order) && name !in order
    requires forall p :: reg.Edge(name, p) ==> p in order
    ensures reg.Topological(order + [name])
  {
    var order' := order + [name];
    forall i, p | 0 <= i < |order'| && reg.Edge(order'[i], p) ensures p in order'[..i] {
      assert order'[..i] == order[..i];
      if i == |order| {
        assert order[..i] == order;
      } else {
        assert reg.Edge(order[i], p);
      }
    }
  }

  /** The recursion stack followed by the node being resolved. */
  ghost predicate OnStack(reg: Registry, stack: seq<string>, name: string, visiting: set<string>) {
    && reg.IsPath(stack + [name])
    && visiting == (set n | n in stack)
  }

  lemma PushStack(reg: Registry, stack: seq<string>, name: string, visiting: set<string>, p: string)
    requires OnStack(reg, stack, name, visiting) && reg.Edge(name, p)
    ensures OnStack(reg, stack + [name], p, visiting + {name})
    ensures (stack + [name] + [p])[0] == (stack + [name])[0]
  {
    reg.PathAppends(stack + [name], p);
  }

  /** `from` runs into a cycle that ends at `name`. */
  ghost predicate LoopsAt(reg: Registry, from: string, name: string) {
    exists p :: reg.Loops(from, p) && p[|p| - 1] == name
  }

  lemma StackLoops(reg: Registry, stack: seq<string>, name: string, visiting: set<string>)
    requires OnStack(reg, stack, name, visiting) && name in visiting
    ensures LoopsAt(reg, (stack + [name])[0], name) && name in stack
  {
    var p := stack + [name];
    assert p[..|p| - 1] == stack;
    assert reg.Loops(p[0], p);
  }

  class WorkflowPlanner {
    const reg: Registry
    var steps: seq<Step>
    var added: set<string>
    var visiting: set<string>
    var missingInputs: set<string>

    constructor (reg: Registry)
      ensures this.reg == reg && WellFormed(reg, Contents())
      ensures Contents() == Draft([], {}, {}, {})
    {
      this.reg := reg;
      steps, added, visiting, missingInputs := [], {}, {}, {};
    }

    ghost function Contents(): Draft
      reads this
    {
      Draft(steps, added, visiting, missingInputs)
    }

    /** `stack` is the chain of calls being resolved, from the plan's target down to the caller. */
    method AddStep(name: string, ghost stack: seq<string>) returns (r: Outcome<PlanError>)
      requires WellFormed(reg, Contents()) && name in reg.installed && OnStack(reg, stack, name, visiting)
      modifies this
      decreases reg.installed.Keys - visiting, 1
      ensures r.Pass? ==>
                && WellFormed(reg, Contents()) && visiting == old(visiting) && name in added
                && Progress(reg, name, old(Contents()), Contents())
      ensures r.Pass? && name !in old(added) ==>
                && steps != [] && steps[|steps| - 1].capability == name
                && !reg.Ambiguous(name) && (reg.Meta(name).needs != [] ==> reg.Resolvable())
      ensures r == Fail(AmbiguousBinding) ==>
                reg.Ambiguous(name) || (reg.Meta(name).needs != [] && !reg.Resolvable())
      ensures r.Fail? && r.error.DependencyCycle? ==>
                LoopsAt(reg, (stack + [name])[0], r.error.name) && (name !in stack ==> reg.Resolvable())
    {
      if name in added {
        return Pass;
      }
      if name in visiting {
        StackLoops(reg, stack, name, visiting);
        return Fail(DependencyCycle(name));
      }
      if reg.Ambiguous(name) {
        return Fail(AmbiguousBinding);
      }
      visiting := visiting + {name};
      Enter(reg, name, old(Contents()), Contents());
      var r' := AddNeeds(name, stack, old(Contents()));
      if r'.Fail? {
        return r';
      }
      visiting := visiting - {name};
      ghost var d := Contents().(visiting := visiting + {name});
      steps := steps + [StepFor(reg, name)];
      added := added + {name};
      Finish(reg, name, old(Contents()), d, Contents());
      return Pass;
    }

    /** One turn of the requirement loop of `AddStep`. */
    /** The loop over what the capability needs. */
    method AddNeeds(name: string, ghost stack: seq<string>, ghost start: Draft) returns (r: Outcome<PlanError>)
      requires WellFormed(reg, Contents()) && name in reg.installed && !reg.Ambiguous(name)
      requires name in visiting && name !in stack && OnStack(reg, stack, name, visiting - {name}) && Progress(reg, name, start, Contents())
      modifies this
      decreases reg.installed.Keys - visiting, 3
      ensures r.Pass? ==>
                && WellFormed(reg, Contents()) && visiting == old(visiting) && Progress(reg, name, start, Contents())
                && AllHandled(reg, name, reg.Meta(name).needs, |reg.Meta(name).needs|, Contents())
                && (reg.Meta(name).needs != [] ==> reg.Resolvable())
      ensures r == Fail(AmbiguousBinding) ==> reg.Meta(name).needs != [] && !reg.Resolvable()
      ensures r.Fail? && r.error.DependencyCycle? ==>
                LoopsAt(reg, (stack + [name])[0], r.error.name) && reg.Resolvable()
    {
      var needs := reg.Meta(name).needs;
      r := Pass;
      var i := 0;
      while i < |needs|
        invariant 0 <= i <= |needs|
        invariant WellFormed(reg, Contents()) && visiting == old(visiting)
        invariant Progress(reg, name, start, Contents())
        invariant AllHandled(reg, name, needs, i, Contents())
        invariant i > 0 ==> reg.Resolvable()
      {
        ghost var before := Contents();
        r := AddProducer(name, needs[i], stack, start);
        if r.Fail? {
          return;
        }
        HandleNext(reg, name, needs, i, before, Contents());
        i := i + 1;
      }
      r := Pass;
    }

    method AddProducer(name: string, need: string, ghost stack: seq<string>, ghost start: Draft)
      returns (r: Outcome<PlanError>)
      requires WellFormed(reg, Contents()) && name in reg.installed && !reg.Ambiguous(name)
      requires need in reg.Meta(name).needs && Progress(reg, name, start, Contents())
      requires name in visiting && name !in stack && OnStack(reg, stack, name, visiting - {name})
      modifies this
      decreases reg.installed.Keys - visiting, 2
      ensures r.Pass? ==>
                && WellFormed(reg, Contents()) && visiting == old(visiting) && reg.Resolvable()
                && Handled(reg, name, need, Contents())
                && Progress(reg, name, start, Contents())
                && old(added) <= added && old(missingInputs) <= missingInputs
      ensures r == Fail(AmbiguousBinding) ==> !reg.Resolvable()
      ensures r.Fail? && r.error.DependencyCycle? ==>
                LoopsAt(reg, (stack + [name])[0], r.error.name) && reg.Resolvable()
    {
      if exists n :: n in reg.installed && n != name && reg.Ambiguous(n) {
        return Fail(AmbiguousBinding);
      }
      var producer := reg.Producer(name, need);
      match producer {
        case None =>
          assert reg.Unmet(name, need);
          ghost var before := Contents();
          missingInputs := missingInputs + {need};
          Missing(reg, name, need, start, before, Contents());
          return Pass;
        case Some(p) =>
          assert reg.Edge(name, p);
          PushStack(reg, stack, name, visiting - {name}, p);
          assert visiting - {name} + {name} == visiting;
          ghost var before := Contents();
          r := AddStep(p, stack + [name]);
          if r.Pass? {
            ProgressCall(reg, name, p, start, before, Contents());
          }
      }
    }
  }

  /** An installed capability with the goal's score for it. */
  datatype Entry = Entry(manifest: Manifest, score: int)

  /** The sort key (-score, name, version) of discovery. */
  predicate EntryLess(a: Entry, b: Entry) {
    || a.score > b.score
    || (a.score == b.score &&
        (Less(a.manifest.name, b.manifest.name)
         || (a.manifest.name == b.manifest.name && Less(a.manifest.version, b.manifest.version))))
  }

  /** First of the positively scored entries in discovery order. */
  function BestMatch(entries: seq<Entry>): Option<Entry> {
    if entries == [] then None
    else
      var rest := BestMatch(entries[1..]);
      if entries[0].score <= 0 || (rest.Some? && EntryLess(rest.value, entries[0])) then rest else Some(entries[0])
  }

  /** A later entry replaces an earlier one of the same name. */
  function Load(entries: seq<Entry>): Registry {
    if entries == [] then Registry(map[], map[])
    else
      var reg := Load(entries[..|entries| - 1]);
      var entry := entries[|entries| - 1];
      Registry(reg.installed[entry.manifest.name := entry.manifest], reg.scores[entry.manifest.name := entry.score])
  }

  lemma {:induction false} LoadHolds(entries: seq<Entry>, e: Entry)
    requires e in entries
    ensures e.manifest.name in Load(entries).installed
  {
    var n := |entries| - 1;
    if e != entries[n] {
      assert entries == entries[..n] + [entries[n]];
      LoadHolds(entries[..n], e);
    }
  }

  lemma {:induction false} BestMatchIsBest(entries: seq<Entry>)
    ensures BestMatch(entries).None? <==> forall e :: e in entries ==> e.score <= 0
    ensures BestMatch(entries).Some? ==>
              && BestMatch(entries).value in entries && BestMatch(entries).value.score > 0
              && forall e :: e in entries && e.score > 0 ==> !EntryLess(e, BestMatch(entries).value)
  {
    if entries != [] {
      BestMatchIsBest(entries[1..]);
      assert entries == [entries[0]] + entries[1..];
      LessIsStrictTotal();
    }
  }

  datatype Preview = Preview(steps: seq<Step>, missingInputs: seq<string>, producedArtifacts: seq<string>)

  /** Planning stops on an ambiguous binding as soon as it looks at one: at the target, or for any producer. */
  ghost predicate BindingClash(reg: Registry, target: string) {
    reg.Ambiguous(target) || (reg.Meta(target).needs != [] && !reg.Resolvable())
  }

  /** The capabilities reachable from the target, once each, producers first, target last; its gaps and outputs. */
  ghost predicate ExactPlan(reg: Registry, target: string, p: Preview) {
    && p.steps != [] && p.steps[|p.steps| - 1].capability == target
    && (forall i :: 0 <= i < |p.steps| ==>
          p.steps[i].capability in reg.installed && p.steps[i] == StepFor(reg, p.steps[i].capability))
    && reg.Topological(Names(p.steps))
    && (forall n :: n in Names(p.steps) <==> reg.Reaches(target, n))
    && (forall need :: need in p.missingInputs <==> exists n :: n in Names(p.steps) && reg.Unmet(n, need))
    && (forall a :: a in p.producedArtifacts <==> exists i :: 0 <= i < |p.steps| && a in p.steps[i].makes)
    && Ascending(Less, p.missingInputs) && Ascending(Less, p.producedArtifacts)
  }

  /** The three outcomes, each exactly when it is due. */
  ghost predicate PlansFor(reg: Registry, target: string, r: Result<Preview, PlanError>) {
    match r
    case Success(p) => !BindingClash(reg, target) && !reg.CycleFrom(target) && ExactPlan(reg, target, p)
    case Failure(AmbiguousBinding) => BindingClash(reg, target)
    case Failure(DependencyCycle(n)) => !BindingClash(reg, target) && LoopsAt(reg, target, n)
  }

  method LoadManifests(entries: seq<Entry>) returns (reg: Registry)
    ensures reg == Load(entries)
  {
    var installed: map<string, Manifest>, scores: map<string, int> := map[], map[];
    for i := 0 to |entries|
      invariant Registry(installed, scores) == Load(entries[..i])
    {
      installed := installed[entries[i].manifest.name := entries[i].manifest];
      scores := scores[entries[i].manifest.name := entries[i].score];
      assert entries[..i + 1][..i] == entries[..i];
    }
    assert entries[..|entries|] == entries;
    reg := Registry(installed, scores);
  }

  /** The steps for a target, its missing inputs and what they make, or the error that stopped the search. */
  method PlanTarget(reg: Registry, target: string) returns (r: Result<Preview, PlanError>)
    requires target in reg.installed
    ensures PlansFor(reg, target, r)
  {
    var planner := new WorkflowPlanner(reg);
    assert reg.IsPath([] + [target]);
    var outcome := planner.AddStep(target, []);
    match outcome {
      case Fail(e) =>
        assert ([] + [target])[0] == target;
        return Failure(e);
      case Pass =>
        var made := set i, a | 0 <= i < |planner.steps| && a in planner.steps[i].makes :: a;
        r := Success(Preview(planner.steps, SortedNames(planner.missingInputs), SortedNames(made)));
        Exact(reg, target, planner.Contents(), r.value);
    }
  }

  /** `WorkflowPlanner.plan`. */
  method Plan(entries: seq<Entry>) returns (r: Result<Preview, PlanError>)
    ensures BestMatch(entries).None? ==> r == Success(Preview([], [], []))
    ensures BestMatch(entries).Some? ==> PlansFor(Load(entries), BestMatch(entries).value.manifest.name, r)
  {
    var best := BestMatch(entries);
    if best.None? {
      return Success(Preview([], [], []));
    }
    BestMatchIsBest(entries);
    LoadHolds(entries, best.value);
    var reg := LoadManifests(entries);
    r := PlanTarget(reg, best.value.manifest.name);
  }

  lemma Exact(reg: Registry, target: string, d: Draft, p: Preview)
    requires WellFormed(reg, d) && Progress(reg, target, Draft([], {}, {}, {}), d) && d.visiting == {}
    requires d.steps != [] && d.steps[|d.steps| - 1].capability == target && p.steps == d.steps
    requires forall need :: need in p.missingInputs <==> need in d.missing
    requires forall a :: a in p.producedArtifacts <==> exists i :: 0 <= i < |d.steps| && a in d.steps[i].makes
    requires Ascending(Less, p.missingInputs) && Ascending(Less, p.producedArtifacts)
    ensures ExactPlan(reg, target, p) && !reg.CycleFrom(target)
  {
    var order := Names(d.steps);
    var last := |order| - 1;
    forall n | reg.Reaches(target, n) ensures n in order {
      reg.TopologicalIsClosed(order, last, n);
    }
    forall q ensures !reg.Loops(target, q) {
      reg.TopologicalIsAcyclic(order, last, q);
    }
  }
}
