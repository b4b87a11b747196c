/** The launch of an API worker, falling back from model to model. */
module Launch {
  import opened Wrappers
  import opened Selection

  datatype Attempt = Succeeds | Fails(endpointReached: bool, workspaceChanged: bool)

  datatype Status = WorkspaceReady | RevisionRequested | ExecutorWorking | ExecutorDone | Failed | OtherStatus

  /** What each attempt comes to, given the models tried so far with it. */
  type World = seq<Model> -> Attempt

  datatype LaunchResult = LaunchResult(status: Status, launched: bool, tried: seq<Model>, health: map<string, bool>)

  /** The latest health of each endpoint; health records carry strictly increasing times. */
  function HealthAfter(health: map<string, bool>, tried: seq<Model>, world: World): map<string, bool> {
    if tried == [] then health
    else
      var last := |tried| - 1;
      HealthAfter(health, tried[..last], world)[
        tried[last].record.endpoint := world(tried).Succeeds? || world(tried).endpointReached]
  }

  function Keys(models: seq<Model>): (keys: seq<Key>)
    ensures |keys| == |models|
    ensures forall m :: m in models ==> m.record.key in keys
  {
    if models == [] then [] else [models[0].record.key] + Keys(models[1..])
  }

  ghost predicate DistinctKeys(models: seq<Model>) {
    forall m, n :: m in models && n in models && m.record.key == n.record.key ==> m == n
  }

  function AllowedModels(models: seq<Model>, policy: Policy): (allowed: seq<Model>)
    ensures forall m :: m in allowed <==> m in models && Allows(policy.allowedModels, m.record.key)
  {
    if models == [] then []
    else (if Allows(policy.allowedModels, models[0].record.key) then [models[0]] else []) + AllowedModels(models[1..], policy)
  }

  /** The policy of one attempt: only what has not been tried. */
  function AttemptPolicy(policy: Policy, remaining: seq<Model>): Policy {
    policy.(allowedModels := Keys(remaining))
  }

  method FindModel(models: seq<Model>, key: Key) returns (model: Model)
    requires exists m :: m in models && m.record.key == key
    ensures model in models && model.record.key == key
  {
    var i := 0;
    while models[i].record.key != key
      invariant 0 <= i < |models|
      invariant exists j :: i <= j < |models| && models[j].record.key == key
      decreases |models| - i
    {
      i := i + 1;
    }
    model := models[i];
  }

  method Remove(models: seq<Model>, key: Key) returns (rest: seq<Model>)
    ensures forall m :: m in rest <==> m in models && m.record.key != key
    ensures (exists m :: m in models && m.record.key == key) ==> |rest| < |models|
  {
    rest := [];
    for i := 0 to |models|
      invariant forall m :: m in rest <==> m in models[..i] && m.record.key != key
      invariant |rest| <= i && ((exists m :: m in models[..i] && m.record.key == key) ==> |rest| < i)
    {
      assert models[..i + 1] == models[..i] + [models[i]];
      if models[i].record.key != key {
        rest := rest + [models[i]];
      }
    }
    assert models[..|models|] == models;
  }

  /** The `i`-th model tried: the best of those left, authorized by the policy, on an endpoint not known to be down. */
  ghost predicate TriedRightly(
    models: seq<Model>, site: Site, policy: Policy, estimate: Estimate, world: World, tried: seq<Model>, i: nat)
    requires i < |tried|
  {
    var now := Site(site.endpoints, HealthAfter(site.health, tried[..i], world));
    && tried[i] in models
    && Eligible(tried[i], now, policy, estimate)
    && (i > 0 ==> Local(tried[i], site) || policy.cloudFallbackAllowed)
    && (i > 0 ==> world(tried[..i]).Fails? && !world(tried[..i]).workspaceChanged)
    && (forall j :: 0 <= j < i ==> tried[j].record.key != tried[i].record.key)
    && (forall j :: 0 <= j < i && world(tried[..j + 1]).Fails? && !world(tried[..j + 1]).endpointReached ==>
          tried[j].record.endpoint != tried[i].record.endpoint)
  }

  predicate Untried(m: Model, tried: seq<Model>) {
    forall t :: t in tried ==> t.record.key != m.record.key
  }

  /** An eligible model not tried yet that none of those outranks. */
  ghost predicate BestUntried(models: seq<Model>, now: Site, policy: Policy, estimate: Estimate, tried: seq<Model>, best: Model)
    requires forall m :: m in models ==> PricedSensibly(m)
  {
    && best in models && Untried(best, tried) && Eligible(best, now, policy, estimate)
    && forall m :: m in models && Untried(m, tried) && Eligible(m, now, policy, estimate) ==>
         AtLeast(Score(best, now, policy, estimate), best.record.key, Score(m, now, policy, estimate), m.record.key)
  }

  ghost predicate NoneUntried(models: seq<Model>, now: Site, policy: Policy, estimate: Estimate, tried: seq<Model>) {
    forall m :: m in models && Untried(m, tried) ==> !Eligible(m, now, policy, estimate)
  }

  /** Endpoints that could not be reached stay marked so: nothing on them is tried again. */
  ghost predicate DownStaysDown(health: map<string, bool>, tried: seq<Model>, world: World) {
    forall j :: 0 <= j < |tried| && world(tried[..j + 1]).Fails? && !world(tried[..j + 1]).endpointReached ==>
      var now := HealthAfter(health, tried, world);
      tried[j].record.endpoint in now && !now[tried[j].record.endpoint]
  }

  ghost predicate AllTriedRightly(
    models: seq<Model>, site: Site, policy: Policy, estimate: Estimate, world: World, tried: seq<Model>)
  {
    forall i :: 0 <= i < |tried| ==> TriedRightly(models, site, policy, estimate, world, tried, i)
  }

  lemma OneMoreTried(
    models: seq<Model>, site: Site, policy: Policy, estimate: Estimate, world: World, tried: seq<Model>, model: Model)
    requires AllTriedRightly(models, site, policy, estimate, world, tried) && DownStaysDown(site.health, tried, world)
    requires model in models && Eligible(model, Site(site.endpoints, HealthAfter(site.health, tried, world)), policy, estimate)
    requires tried != [] ==> Local(model, site) || policy.cloudFallbackAllowed
    requires tried != [] ==> world(tried).Fails? && !world(tried).workspaceChanged
    requires forall t :: t in tried ==> t.record.key != model.record.key
    ensures AllTriedRightly(models, site, policy, estimate, world, tried + [model])
    ensures DownStaysDown(site.health, tried + [model], world)
    ensures HealthAfter(site.health, tried + [model], world)
         == HealthAfter(site.health, tried, world)[
              model.record.endpoint := world(tried + [model]).Succeeds? || world(tried + [model]).endpointReached]
  {
    var longer := tried + [model];
    assert longer[..|tried|] == tried;
    forall i | 0 <= i < |longer| ensures TriedRightly(models, site, policy, estimate, world, longer, i) {
      assert forall j :: 0 <= j <= i && j <= |tried| ==> longer[..j] == tried[..j];
      assert tried[..|tried|] == tried;
      if i < |tried| {
        assert TriedRightly(models, site, policy, estimate, world, tried, i);
      }
    }
    forall j | 0 <= j < |longer| && world(longer[..j + 1]).Fails? && !world(longer[..j + 1]).endpointReached
      ensures var now := HealthAfter(site.health, longer, world);
              longer[j].record.endpoint in now && !now[longer[j].record.endpoint]
    {
      if j < |tried| {
        assert longer[..j + 1] == tried[..j + 1];
      } else {
        assert longer[..j + 1] == longer;
      }
    }
  }

  /** The candidates left in the loop. */
  ghost predicate IsLeft(models: seq<Model>, policy: Policy, tried: seq<Model>, remaining: seq<Model>) {
    forall m :: m in remaining <==> m in models && Allows(policy.allowedModels, m.record.key) && Untried(m, tried)
  }

  /** Under the attempt's policy a model is eligible exactly if it is left and eligible under the launch's policy. */
  lemma AttemptNarrows(remaining: seq<Model>, now: Site, policy: Policy, estimate: Estimate, m: Model)
    requires m in remaining && Allows(policy.allowedModels, m.record.key)
    ensures Eligible(m, now, AttemptPolicy(policy, remaining), estimate) <==> Eligible(m, now, policy, estimate)
  {
  }

  lemma SameScore(remaining: seq<Model>, now: Site, policy: Policy, estimate: Estimate, m: Model)
    requires PricedSensibly(m)
    ensures Score(m, now, AttemptPolicy(policy, remaining), estimate) == Score(m, now, policy, estimate)
  {
    CostIsNotNegative(m, estimate);
    assert ComponentsOf(m, now, AttemptPolicy(policy, remaining), estimate) == ComponentsOf(m, now, policy, estimate);
  }

  /** What `select` picks for an attempt is the best model not tried yet. */
  lemma ChoiceIsBest(
    models: seq<Model>, now: Site, policy: Policy, estimate: Estimate, tried: seq<Model>, remaining: seq<Model>, model: Model)
    requires DistinctKeys(models) && forall m :: m in models ==> PricedSensibly(m)
    requires IsLeft(models, policy, tried, remaining) && model in remaining
    requires Selected(remaining, now, AttemptPolicy(policy, remaining), estimate) == Some(model.record.key)
    ensures BestUntried(models, now, policy, estimate, tried, model)
  {
    var best := SelectedIsBest(remaining, now, AttemptPolicy(policy, remaining), estimate);
    assert best == model;
    AttemptNarrows(remaining, now, policy, estimate, model);
    SameScore(remaining, now, policy, estimate, model);
    forall m | m in models && Untried(m, tried) && Eligible(m, now, policy, estimate)
      ensures AtLeast(Score(model, now, policy, estimate), model.record.key, Score(m, now, policy, estimate), m.record.key)
    {
      assert m in remaining;
      AttemptNarrows(remaining, now, policy, estimate, m);
      SameScore(remaining, now, policy, estimate, m);
    }
  }

  lemma NoChoice(
    models: seq<Model>, now: Site, policy: Policy, estimate: Estimate, tried: seq<Model>, remaining: seq<Model>)
    requires forall m :: m in models ==> PricedSensibly(m)
    requires IsLeft(models, policy, tried, remaining)
    requires remaining == [] || Selected(remaining, now, AttemptPolicy(policy, remaining), estimate).None?
    ensures NoneUntried(models, now, policy, estimate, tried)
  {
    if remaining != [] {
      NothingSelected(remaining, now, AttemptPolicy(policy, remaining), estimate);
    }
    forall m | m in models && Untried(m, tried) ensures !Eligible(m, now, policy, estimate) {
      if Eligible(m, now, policy, estimate) {
        assert m in remaining;
        AttemptNarrows(remaining, now, policy, estimate, m);
      }
    }
  }

  /** The loop's variables between attempts. */
  ghost predicate Trying(
    models: seq<Model>, site: Site, policy: Policy, estimate: Estimate, world: World, tried: seq<Model>, remaining: seq<Model>)
  {
    && AllTriedRightly(models, site, policy, estimate, world, tried) && DownStaysDown(site.health, tried, world)
    && IsLeft(models, policy, tried, remaining)
    && (tried != [] ==> world(tried).Fails? && !world(tried).workspaceChanged)
  }

  lemma AttemptIsRight(
    models: seq<Model>, site: Site, policy: Policy, estimate: Estimate, world: World, tried: seq<Model>,
    remaining: seq<Model>, model: Model)
    requires DistinctKeys(models) && forall m :: m in models ==> PricedSensibly(m)
    requires Trying(models, site, policy, estimate, world, tried, remaining) && model in remaining
    requires var now := Site(site.endpoints, HealthAfter(site.health, tried, world));
             Selected(remaining, now, AttemptPolicy(policy, remaining), estimate) == Some(model.record.key)
    requires tried == [] || Local(model, site) || policy.cloudFallbackAllowed
    ensures AllTriedRightly(models, site, policy, estimate, world, tried + [model])
    ensures DownStaysDown(site.health, tried + [model], world)
    ensures HealthAfter(site.health, tried + [model], world)
         == HealthAfter(site.health, tried, world)[
              model.record.endpoint := world(tried + [model]).Succeeds? || world(tried + [model]).endpointReached]
  {
    var now := Site(site.endpoints, HealthAfter(site.health, tried, world));
    ChoiceIsBest(models, now, policy, estimate, tried, remaining, model);
    OneMoreTried(models, site, policy, estimate, world, tried, model);
  }

  lemma LeftAfter(models: seq<Model>, policy: Policy, tried: seq<Model>, remaining: seq<Model>, model: Model, rest: seq<Model>)
    requires IsLeft(models, policy, tried, remaining)
    requires forall m :: m in rest <==> m in remaining && m.record.key != model.record.key
    ensures IsLeft(models, policy, tried + [model], rest)
  {
  }

  /** Nothing eligible is left, or the best that is left would be an unauthorized fallback to the cloud. */
  ghost predicate NoNext(models: seq<Model>, now: Site, policy: Policy, estimate: Estimate, tried: seq<Model>)
    requires forall m :: m in models ==> PricedSensibly(m)
  {
    || NoneUntried(models, now, policy, estimate, tried)
    || (tried != [] && !policy.cloudFallbackAllowed
        && exists best :: BestUntried(models, now, policy, estimate, tried, best) && !Local(best, now))
  }

  /** Why no more was tried: the workspace changed, or there was no next model. */
  ghost predicate StoppedRightly(
    models: seq<Model>, site: Site, policy: Policy, estimate: Estimate, world: World, tried: seq<Model>)
    requires forall m :: m in models ==> PricedSensibly(m)
  {
    || (tried != [] && world(tried).Fails? && world(tried).workspaceChanged)
    || NoNext(models, Site(site.endpoints, HealthAfter(site.health, tried, world)), policy, estimate, tried)
  }

  /** The selection of one turn of the loop. */
  method NextModel(
    ghost models: seq<Model>, now: Site, policy: Policy, estimate: Estimate, ghost tried: seq<Model>, first: bool,
    remaining: seq<Model>)
    returns (next: Option<Model>)
    requires DistinctKeys(models) && forall m :: m in models ==> PricedSensibly(m)
    requires IsLeft(models, policy, tried, remaining) && (first <==> tried == [])
    ensures next.Some? ==>
              && next.value in remaining
              && Selected(remaining, now, AttemptPolicy(policy, remaining), estimate) == Some(next.value.record.key)
              && (first || Local(next.value, now) || policy.cloudFallbackAllowed)
    ensures next.None? ==> NoNext(models, now, policy, estimate, tried)
  {
    if remaining == [] {
      NoChoice(models, now, policy, estimate, tried, remaining);
      return None;
    }
    var choice := Select(remaining, now, AttemptPolicy(policy, remaining), estimate);
    if choice.None? {
      NoChoice(models, now, policy, estimate, tried, remaining);
      return None;
    }
    ChosenIsLeft(remaining, now, AttemptPolicy(policy, remaining), estimate);
    var model := FindModel(remaining, choice.value);
    if !first && !Local(model, now) && !policy.cloudFallbackAllowed {
      ChoiceIsBest(models, now, policy, estimate, tried, remaining, model);
      return None;
    }
    return Some(model);
  }

  /** One attempt: the model runs, and its endpoint is marked as reached or not. */
  method TryModel(
    models: seq<Model>, site: Site, policy: Policy, estimate: Estimate, world: World, tried: seq<Model>,
    remaining: seq<Model>, model: Model, health: map<string, bool>)
    returns (attempt: Attempt, health': map<string, bool>, rest: seq<Model>)
    requires DistinctKeys(models) && forall m :: m in models ==> PricedSensibly(m)
    requires Trying(models, site, policy, estimate, world, tried, remaining) && model in remaining
    requires health == HealthAfter(site.health, tried, world)
    requires Selected(remaining, Site(site.endpoints, health), AttemptPolicy(policy, remaining), estimate) == Some(model.record.key)
    requires tried == [] || Local(model, site) || policy.cloudFallbackAllowed
    ensures attempt == world(tried + [model]) && health' == HealthAfter(site.health, tried + [model], world)
    ensures AllTriedRightly(models, site, policy, estimate, world, tried + [model])
    ensures attempt.Fails? && !attempt.workspaceChanged ==>
              Trying(models, site, policy, estimate, world, tried + [model], rest) && |rest| < |remaining|
  {
    AttemptIsRight(models, site, policy, estimate, world, tried, remaining, model);
    attempt := world(tried + [model]);
    health' := health[model.record.endpoint := attempt.Succeeds? || attempt.endpointReached];
    rest := Remove(remaining, model.record.key);
    LeftAfter(models, policy, tried, remaining, model, rest);
  }

  /**
   * `launch`. It ends in `executor_done`, in `failed`, or, if no attempt was made, where it began; every attempt is
   * authorized and none is repeated; it stops for a changed workspace, an unauthorized cloud fallback, or for want of models.
   */
  method LaunchWorker(
    status: Status, policy: Policy, models: seq<Model>, site: Site, estimate: Estimate, world: World)
    returns (r: LaunchResult)
    requires DistinctKeys(models) && forall m :: m in models ==> PricedSensibly(m)
    ensures AllTriedRightly(models, site, policy, estimate, world, r.tried)
    ensures r.health == HealthAfter(site.health, r.tried, world)
    ensures r.launched <==> r.tried != [] && world(r.tried).Succeeds?
    ensures r.status == if r.tried == [] then status else if r.launched then ExecutorDone else Failed
    ensures status !in {WorkspaceReady, RevisionRequested} ==> r.tried == []
    ensures status in {WorkspaceReady, RevisionRequested} && !r.launched ==>
              StoppedRightly(models, site, policy, estimate, world, r.tried)
  {
    var tried: seq<Model> := [];
    var health := site.health;
    if status !in {WorkspaceReady, RevisionRequested} {
      return LaunchResult(status, false, tried, health);
    }
    var current := status;
    var remaining := AllowedModels(models, policy);
    while true
      invariant Trying(models, site, policy, estimate, world, tried, remaining)
      invariant health == HealthAfter(site.health, tried, world)
      invariant tried != [] ==> world(tried).Fails?
      invariant current == if tried == [] then status else ExecutorWorking
      decreases |remaining|
    {
      var next := NextModel(models, Site(site.endpoints, health), policy, estimate, tried, tried == [], remaining);
      if next.None? {
        break;
      }
      var model := next.value;
      current := ExecutorWorking;
      var attempt, health', rest := TryModel(models, site, policy, estimate, world, tried, remaining, model, health);
      tried := tried + [model];
      health := health';
      if attempt.Succeeds? {
        return LaunchResult(ExecutorDone, true, tried, health);
      }
      if attempt.workspaceChanged {
        return LaunchResult(Failed, false, tried, health);
      }
      remaining := rest;
    }
    r := LaunchResult(if current == ExecutorWorking then Failed else current, false, tried, health);
  }

  lemma ChosenIsLeft(remaining: seq<Model>, now: Site, policy: Policy, estimate: Estimate)
    requires (forall m :: m in remaining ==> PricedSensibly(m)) && Selected(remaining, now, policy, estimate).Some?
    ensures exists m :: m in remaining && m.record.key == Selected(remaining, now, policy, estimate).value
  {
    var _ := SelectedIsBest(remaining, now, policy, estimate);
  }
}
