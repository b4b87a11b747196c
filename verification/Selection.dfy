/** Worker policies composed from layers, and the choice of a model under the result. */
module Selection {
  import opened Ordering
  import opened Wrappers
  import Catalog
  import CatalogSteps

  type Key = string

  datatype Priority = Economy | Balanced | Quality | Urgent

  datatype Budget = Budget(enabled: bool, maxEstimated: Option<real>, allowUnknown: bool)

  datatype Policy = Policy(
    priority: Priority, allowedEndpoints: seq<string>, allowedProviders: seq<string>, allowedModels: seq<Key>,
    preferredModels: seq<Key>, cloudAllowed: bool, cloudFallbackAllowed: bool, localFirst: bool,
    requiredClassification: string, budget: Budget)

  // ---- composition ----

  /** `_narrow`: the intersection of the non-empty lists, sorted; empty when there are none. */
  function Narrow(lists: seq<seq<string>>): seq<string> {
    if exists i :: 0 <= i < |lists| && lists[i] != [] then SortedNames(Common(lists)) else []
  }

  /** What every non-empty list holds. */
  function Common(lists: seq<seq<string>>): (common: set<string>)
    requires exists i :: 0 <= i < |lists| && lists[i] != []
    ensures forall x :: x in common <==> AllowedByAll(lists, x)
  {
    var i :| 0 <= i < |lists| && lists[i] != [];
    set x | x in lists[i] && AllowedByAll(lists, x)
  }

  /** An allowlist without entries allows everything. */
  predicate Allows(list: seq<string>, x: string) {
    list == [] || x in list
  }

  predicate AllowedByAll(lists: seq<seq<string>>, x: string) {
    forall i :: 0 <= i < |lists| ==> Allows(lists[i], x)
  }

  /** Composition narrows exactly when some element satisfies all lists; disjoint lists compose to "everything". */
  lemma NarrowingIsExact(lists: seq<seq<string>>)
    ensures (forall x :: Allows(Narrow(lists), x) <==> AllowedByAll(lists, x)) <==> exists x :: AllowedByAll(lists, x)
  {
    if exists i :: 0 <= i < |lists| && lists[i] != [] {
      var narrowed := Narrow(lists);
      assert forall x :: x in narrowed <==> AllowedByAll(lists, x);
      if narrowed == [] {
        assert Allows(narrowed, "") && "" !in narrowed;
      } else {
        assert AllowedByAll(lists, narrowed[0]);
      }
    } else {
      assert AllowedByAll(lists, "");
    }
  }

  /** Disjoint allowlists widen to everything. */
  lemma DisjointListsWiden(lists: seq<seq<string>>, x: string)
    requires !exists y :: AllowedByAll(lists, y)
    ensures Allows(Narrow(lists), x) && !AllowedByAll(lists, x)
  {
    assert !AllowedByAll(lists, "");
    var i :| 0 <= i < |lists| && !Allows(lists[i], "");
    assert lists[i] != [];
    NarrowingIsExact(lists);
  }

  /** `_minimum`, over the limits that are set. */
  function Minimum(limits: seq<Option<real>>): Option<real> {
    if limits == [] then None
    else
      var rest := Minimum(limits[1..]);
      if limits[0].None? then rest
      else if rest.None? || limits[0].value <= rest.value then limits[0] else rest
  }

  lemma {:induction false} MinimumIsLeast(limits: seq<Option<real>>)
    ensures Minimum(limits).None? <==> forall i :: 0 <= i < |limits| ==> limits[i].None?
    ensures Minimum(limits).Some? ==> Minimum(limits) in limits
    ensures forall i :: 0 <= i < |limits| && limits[i].Some? ==> Minimum(limits).Some? && Minimum(limits).value <= limits[i].value
  {
    if limits != [] {
      MinimumIsLeast(limits[1..]);
    }
  }

  function Preference(layers: seq<Policy>): seq<Key> {
    if layers == [] then []
    else if layers[|layers| - 1].preferredModels != [] then layers[|layers| - 1].preferredModels
    else Preference(layers[..|layers| - 1])
  }

  function EndpointLists(layers: seq<Policy>): seq<seq<string>> {
    seq(|layers|, i requires 0 <= i < |layers| => layers[i].allowedEndpoints)
  }

  function ProviderLists(layers: seq<Policy>): seq<seq<string>> {
    seq(|layers|, i requires 0 <= i < |layers| => layers[i].allowedProviders)
  }

  function ModelLists(layers: seq<Policy>): seq<seq<string>> {
    seq(|layers|, i requires 0 <= i < |layers| => layers[i].allowedModels)
  }

  function Estimates(layers: seq<Policy>): seq<Option<real>> {
    seq(|layers|, i requires 0 <= i < |layers| => layers[i].budget.maxEstimated)
  }

  predicate DemandsImplementation(layers: seq<Policy>) {
    exists i :: 0 <= i < |layers| && layers[i].requiredClassification == "implementation"
  }

  lemma DemandAppends(layers: seq<Policy>, p: Policy)
    ensures DemandsImplementation(layers + [p]) <==>
              DemandsImplementation(layers) || p.requiredClassification == "implementation"
  {
    var all := layers + [p];
    assert all[|layers|] == p;
    forall i | 0 <= i < |layers| ensures all[i] == layers[i] {}
    if i :| 0 <= i < |layers| && layers[i].requiredClassification == "implementation" {
      assert all[i].requiredClassification == "implementation";
    }
  }

  /** `compose_worker_policy` for at least one layer. */
  function Compose(layers: seq<Policy>): Policy
    requires layers != []
  {
    Policy(
      layers[|layers| - 1].priority,
      Narrow(EndpointLists(layers)), Narrow(ProviderLists(layers)), Narrow(ModelLists(layers)),
      Preference(layers),
      forall i :: 0 <= i < |layers| ==> layers[i].cloudAllowed,
      forall i :: 0 <= i < |layers| ==> layers[i].cloudFallbackAllowed,
      exists i :: 0 <= i < |layers| && layers[i].localFirst,
      if DemandsImplementation(layers) then "implementation" else "advisory",
      Budget(
        exists i :: 0 <= i < |layers| && layers[i].budget.enabled,
        Minimum(Estimates(layers)),
        forall i :: 0 <= i < |layers| ==> layers[i].budget.allowUnknown))
  }

  lemma LaterLayerLimits(layers: seq<Policy>, p: Policy)
    requires layers != []
    ensures Compose(layers + [p]).budget.maxEstimated == Lesser(Compose(layers).budget.maxEstimated, p.budget.maxEstimated)
  {
    assert Estimates(layers + [p]) == Estimates(layers) + [p.budget.maxEstimated];
    MinimumAppend(Estimates(layers), p.budget.maxEstimated);
  }

  /** A later layer has the last word on priority and preference. */
  lemma LaterLayerPrevails(layers: seq<Policy>, p: Policy)
    requires layers != []
    ensures var before, after := Compose(layers), Compose(layers + [p]);
            && after.priority == p.priority
            && after.preferredModels == (if p.preferredModels != [] then p.preferredModels else before.preferredModels)
            && after.budget.maxEstimated == Lesser(before.budget.maxEstimated, p.budget.maxEstimated)
            && after.budget.enabled == (before.budget.enabled || p.budget.enabled)
  {
    var all := layers + [p];
    assert all[..|layers|] == layers;
    assert forall i :: 0 <= i < |layers| ==> all[i] == layers[i];
    assert all[|layers|] == p;
    LaterLayerLimits(layers, p);
  }

  /** It can withhold what earlier layers allowed, */
  lemma LaterLayerWithholds(layers: seq<Policy>, p: Policy)
    requires layers != []
    ensures var before, after := Compose(layers), Compose(layers + [p]);
            && after.cloudAllowed == (before.cloudAllowed && p.cloudAllowed)
            && after.cloudFallbackAllowed == (before.cloudFallbackAllowed && p.cloudFallbackAllowed)
            && after.budget.allowUnknown == (before.budget.allowUnknown && p.budget.allowUnknown)
  {
    var all := layers + [p];
    assert forall i :: 0 <= i < |layers| ==> all[i] == layers[i];
    assert all[|layers|] == p;
  }

  /** and demand what they did not. */
  lemma LaterLayerDemands(layers: seq<Policy>, p: Policy)
    requires layers != []
    ensures var before, after := Compose(layers), Compose(layers + [p]);
            && after.localFirst == (before.localFirst || p.localFirst)
            && (after.requiredClassification == "implementation" <==>
                  before.requiredClassification == "implementation" || p.requiredClassification == "implementation")
  {
    var all := layers + [p];
    DemandAppends(layers, p);
    assert forall i :: 0 <= i < |layers| ==> all[i] == layers[i];
    assert all[|layers|] == p;
    assert "advisory"[0] == 'a';
  }

  function Lesser(a: Option<real>, b: Option<real>): Option<real> {
    if a.None? then b else if b.None? || a.value <= b.value then a else b
  }

  lemma {:induction false} MinimumAppend(limits: seq<Option<real>>, limit: Option<real>)
    ensures Minimum(limits + [limit]) == Lesser(Minimum(limits), limit)
  {
    if limits == [] {
      assert [] + [limit] == [limit] && Minimum([limit][1..]) == None;
    } else {
      assert (limits + [limit])[1..] == limits[1..] + [limit];
      MinimumAppend(limits[1..], limit);
    }
  }

  // ---- eligibility ----

  /** A catalogued model with what selection needs beside its record. */
  datatype Model = Model(record: Catalog.Model, context: Option<nat>, inputPrice: Option<real>, outputPrice: Option<real>)

  datatype Estimate = Estimate(inputTokens: nat, outputTokens: nat, minimumContext: nat)

  /** Endpoints by id and the latest health seen of each. */
  datatype Site = Site(endpoints: map<string, Catalog.Endpoint>, health: map<string, bool>)

  function Cost(model: Model, estimate: Estimate): Option<real> {
    if model.record.provider == "ollama" then Some(0.0)
    else if model.inputPrice.None? || model.outputPrice.None? then None
    else
      Some((estimate.inputTokens as real * model.inputPrice.value + estimate.outputTokens as real * model.outputPrice.value)
           / 1000000.0)
  }

  predicate Local(model: Model, site: Site) {
    model.record.endpoint in site.endpoints && Catalog.IsLocal(site.endpoints[model.record.endpoint])
  }

  predicate EndpointUsable(model: Model, site: Site) {
    var id := model.record.endpoint;
    id in site.endpoints && site.endpoints[id].enabled && (id in site.health ==> site.health[id])
  }

  /** The checks a layer's endpoint, provider, model, cloud and cost rules make. */
  predicate Authorized(model: Model, site: Site, policy: Policy, estimate: Estimate) {
    && (Local(model, site) || policy.cloudAllowed)
    && Allows(policy.allowedEndpoints, model.record.endpoint)
    && Allows(policy.allowedProviders, model.record.provider)
    && Allows(policy.allowedModels, model.record.key)
    && (policy.budget.enabled ==>
          && (Cost(model, estimate).Some? || policy.budget.allowUnknown)
          && (policy.budget.maxEstimated.Some? && Cost(model, estimate).Some? ==>
                Cost(model, estimate).value <= policy.budget.maxEstimated.value))
  }

  predicate Capable(model: Model, policy: Policy, estimate: Estimate) {
    && (model.record.provider == "ollama" ==> model.record.availability == Catalog.Available)
    && Catalog.ProbeAccepted(model.record, policy.requiredClassification)
    && (model.context.Some? && model.context.value != 0 ==> model.context.value >= estimate.minimumContext)
  }

  predicate Eligible(model: Model, site: Site, policy: Policy, estimate: Estimate) {
    EndpointUsable(model, site) && Authorized(model, site, policy, estimate) && Capable(model, policy, estimate)
  }

  /** No layer's authority is widened, whatever the layers, as long as each kind of allowlist leaves something. */
  lemma CompositionNeverWidens(layers: seq<Policy>, model: Model, site: Site, estimate: Estimate, i: nat)
    requires i < |layers| && Authorized(model, site, Compose(layers), estimate)
    requires exists x :: AllowedByAll(EndpointLists(layers), x)
    requires exists x :: AllowedByAll(ProviderLists(layers), x)
    requires exists x :: AllowedByAll(ModelLists(layers), x)
    ensures Authorized(model, site, layers[i], estimate)
  {
    NarrowingIsExact(EndpointLists(layers));
    NarrowingIsExact(ProviderLists(layers));
    NarrowingIsExact(ModelLists(layers));
    MinimumIsLeast(Estimates(layers));
    assert Allows(EndpointLists(layers)[i], model.record.endpoint);
    assert Allows(ProviderLists(layers)[i], model.record.provider);
    assert Allows(ModelLists(layers)[i], model.record.key);
    assert Estimates(layers)[i] == layers[i].budget.maxEstimated;
  }

  // ---- scores ----

  function IndexOf(keys: seq<Key>, key: Key): (i: nat)
    requires key in keys
    ensures i < |keys| && keys[i] == key && forall j :: 0 <= j < i ==> keys[j] != key
  {
    if keys[0] == key then 0 else 1 + IndexOf(keys[1..], key)
  }

  datatype Components = Components(preference: real, local: real, cost: real, capacity: real)

  function ComponentsOf(model: Model, site: Site, policy: Policy, estimate: Estimate): Components
    requires Cost(model, estimate).Some? ==> Cost(model, estimate).value >= 0.0
  {
    var cost := if Cost(model, estimate).Some? then Cost(model, estimate).value else 0.0;
    var context := if model.context.Some? && model.context.value != 0 then model.context.value else estimate.minimumContext;
    var capacity := context as real / 100000.0;
    Components(
      if model.record.key in policy.preferredModels
      then 10000.0 - IndexOf(policy.preferredModels, model.record.key) as real else 0.0,
      if Local(model, site) && policy.localFirst then 1000.0 else 0.0,
      100.0 / (1.0 + cost * 100.0),
      if capacity <= 10.0 then capacity else 10.0)
  }

  function Weighted(priority: Priority, c: Components): real {
    match priority
    case Economy => c.preference + c.local + c.cost * 10.0 - c.capacity
    case Quality => c.preference + c.local * 0.1 + c.capacity * 100.0 + c.cost
    case Urgent => c.preference + c.local * 0.25 + c.capacity * 50.0 + c.cost
    case Balanced => c.preference + c.local * 0.5 + c.cost * 5.0 + c.capacity * 20.0
  }

  predicate PricedSensibly(model: Model) {
    && (model.inputPrice.Some? ==> model.inputPrice.value >= 0.0)
    && (model.outputPrice.Some? ==> model.outputPrice.value >= 0.0)
  }

  lemma CostIsNotNegative(model: Model, estimate: Estimate)
    requires PricedSensibly(model)
    ensures Cost(model, estimate).Some? ==> Cost(model, estimate).value >= 0.0
  {
    if Cost(model, estimate).Some? && model.record.provider != "ollama" {
      assert estimate.inputTokens as real * model.inputPrice.value >= 0.0;
      assert estimate.outputTokens as real * model.outputPrice.value >= 0.0;
    }
  }

  function Score(model: Model, site: Site, policy: Policy, estimate: Estimate): real
    requires PricedSensibly(model)
  {
    CostIsNotNegative(model, estimate);
    Weighted(policy.priority, ComponentsOf(model, site, policy, estimate))
  }

  lemma CostComponent(cost: real)
    requires cost >= 0.0
    ensures 0.0 < 100.0 / (1.0 + cost * 100.0) <= 100.0
  {
    var d := 1.0 + cost * 100.0;
    assert d >= 1.0;
    assert 100.0 / d * d == 100.0;
  }

  /** The parts of a score beside the preference. */
  lemma ComponentBounds(model: Model, site: Site, policy: Policy, estimate: Estimate)
    requires PricedSensibly(model)
    ensures Cost(model, estimate).Some? ==> Cost(model, estimate).value >= 0.0
    ensures var c := ComponentsOf(model, site, policy, estimate);
            0.0 <= c.local <= 1000.0 && 0.0 < c.cost <= 100.0 && 0.0 <= c.capacity <= 10.0
  {
    CostIsNotNegative(model, estimate);
    CostComponent(if Cost(model, estimate).Some? then Cost(model, estimate).value else 0.0);
  }

  /** Under every priority, a preferred model outscores every other one if at most 7990 keys precede it. */
  lemma PreferenceDecides(preferred: Model, other: Model, site: Site, policy: Policy, estimate: Estimate)
    requires PricedSensibly(preferred) && PricedSensibly(other)
    requires preferred.record.key in policy.preferredModels && IndexOf(policy.preferredModels, preferred.record.key) <= 7990
    requires other.record.key !in policy.preferredModels
    ensures Score(preferred, site, policy, estimate) > Score(other, site, policy, estimate)
  {
    ComponentBounds(preferred, site, policy, estimate);
    ComponentBounds(other, site, policy, estimate);
  }

  /** The bound is exact: at rank 7991 a cheap local model wins under the economy priority. */
  lemma PreferenceBoundIsExact(policy: Policy, preferred: Key, other: Key)
    requires policy.priority == Economy && policy.localFirst
    requires preferred in policy.preferredModels && IndexOf(policy.preferredModels, preferred) == 7991
    requires other !in policy.preferredModels
    ensures exists a: Model, b: Model, site: Site, estimate: Estimate ::
              && a.record.key == preferred && b.record.key == other && PricedSensibly(a) && PricedSensibly(b)
              && Score(a, site, policy, estimate) < Score(b, site, policy, estimate)
  {
    var record := Catalog.Model(
      preferred, "cloud", "openai", "1", "1", "implementation", Catalog.Current, false, Catalog.Available, None);
    var a := Model(record, Some(1000000), Some(1000000.0), Some(0.0));
    var b := Model(record.(key := other, endpoint := "local", provider := "ollama"), None, None, None);
    var site := Site(map["local" := Catalog.Endpoint("local", "ollama", true, true)], map[]);
    var estimate := Estimate(1000, 0, 0);
    assert Cost(a, estimate) == Some(1000.0) by {
      assert 1000 as real * 1000000.0 == 1000000000.0;
    }
    assert 100.0 / (1.0 + 1000.0 * 100.0) < 0.01;
    CostIsNotNegative(a, estimate);
    CostIsNotNegative(b, estimate);
    assert ComponentsOf(a, site, policy, estimate) == Components(2009.0, 0.0, 100.0 / (1.0 + 1000.0 * 100.0), 10.0);
    assert Local(b, site);
    assert ComponentsOf(b, site, policy, estimate) == Components(0.0, 1000.0, 100.0, 0.0);
    assert Score(a, site, policy, estimate) < 2000.0 == Score(b, site, policy, estimate);
  }

  // ---- the choice ----

  datatype Ranked = Ranked(score: real, key: Key)

  /** The sort key of `select`: the higher score, then the smaller key. */
  predicate Before(a: Ranked, b: Ranked) {
    a.score > b.score || (a.score == b.score && Less(a.key, b.key))
  }

  lemma BeforeIsStrictTotal()
    ensures StrictTotal(Before)
  {
    LessIsStrictTotal();
  }

  function EligibleRanks(models: seq<Model>, site: Site, policy: Policy, estimate: Estimate): set<Ranked>
    requires forall m :: m in models ==> PricedSensibly(m)
  {
    set m | m in models && Eligible(m, site, policy, estimate) :: Ranked(Score(m, site, policy, estimate), m.record.key)
  }

  /** `sorted(eligible)[0]`, if any. */
  function Selected(models: seq<Model>, site: Site, policy: Policy, estimate: Estimate): Option<Key>
    requires forall m :: m in models ==> PricedSensibly(m)
  {
    BeforeIsStrictTotal();
    var ranks := EligibleRanks(models, site, policy, estimate);
    if ranks == {} then None else Some(Least(Before, ranks).key)
  }

  /** A strictly better rank than the model's, or the same score and no larger key. */
  predicate AtLeast(score: real, key: Key, than: real, thanKey: Key) {
    score > than || (score == than && !Less(thanKey, key))
  }

  lemma RankComparison(best: Ranked, rank: Ranked)
    requires rank == best || Before(best, rank)
    ensures AtLeast(best.score, best.key, rank.score, rank.key)
  {
    LessIrreflexive(best.key);
    if Less(best.key, rank.key) && Less(rank.key, best.key) {
      LessTransitive(best.key, rank.key, best.key);
    }
  }

  lemma EligibleIsRanked(models: seq<Model>, site: Site, policy: Policy, estimate: Estimate, m: Model)
    requires (forall x :: x in models ==> PricedSensibly(x)) && m in models && Eligible(m, site, policy, estimate)
    ensures Ranked(Score(m, site, policy, estimate), m.record.key) in EligibleRanks(models, site, policy, estimate)
  {
  }

  lemma NothingSelected(models: seq<Model>, site: Site, policy: Policy, estimate: Estimate)
    requires forall m :: m in models ==> PricedSensibly(m)
    ensures Selected(models, site, policy, estimate).None? <==> forall m :: m in models ==> !Eligible(m, site, policy, estimate)
  {
    forall m | m in models && Eligible(m, site, policy, estimate)
      ensures EligibleRanks(models, site, policy, estimate) != {}
    {
      EligibleIsRanked(models, site, policy, estimate, m);
    }
  }

  /** The selected model is eligible, and no eligible one beats it. */
  lemma SelectedIsBest(models: seq<Model>, site: Site, policy: Policy, estimate: Estimate) returns (best: Model)
    requires (forall m :: m in models ==> PricedSensibly(m)) && Selected(models, site, policy, estimate).Some?
    ensures best in models && best.record.key == Selected(models, site, policy, estimate).value
    ensures Eligible(best, site, policy, estimate)
    ensures forall m :: m in models && Eligible(m, site, policy, estimate) ==>
              AtLeast(Score(best, site, policy, estimate), best.record.key, Score(m, site, policy, estimate), m.record.key)
  {
    BeforeIsStrictTotal();
    var ranks := EligibleRanks(models, site, policy, estimate);
    var least := Least(Before, ranks);
    best :| best in models && Eligible(best, site, policy, estimate)
      && Ranked(Score(best, site, policy, estimate), best.record.key) == least;
    forall m | m in models && Eligible(m, site, policy, estimate)
      ensures AtLeast(Score(best, site, policy, estimate), best.record.key, Score(m, site, policy, estimate), m.record.key)
    {
      EligibleIsRanked(models, site, policy, estimate, m);
      RankComparison(least, Ranked(Score(m, site, policy, estimate), m.record.key));
    }
  }

  datatype Rejection =
    | EndpointMissing | Unhealthy | CloudNotAuthorized | EndpointNotAllowed | ProviderNotAllowed | ModelNotAllowed
    | NotAvailable | ProbeAbsent | ProbeStale | WrongClassification | ContextTooSmall | PricingUnknown | TooExpensive

  /** The checks of the endpoint and of what the policy authorizes. */
  method CheckAuthority(model: Model, site: Site, policy: Policy, estimate: Estimate) returns (rejected: seq<Rejection>)
    ensures rejected == [] <==> EndpointUsable(model, site) && Authorized(model, site, policy, estimate)
  {
    var record := model.record;
    rejected := [];
    if record.endpoint !in site.endpoints || !site.endpoints[record.endpoint].enabled {
      rejected := rejected + [EndpointMissing];
    }
    if record.endpoint in site.health && !site.health[record.endpoint] {
      rejected := rejected + [Unhealthy];
    }
    var local := record.endpoint in site.endpoints && Catalog.IsLocal(site.endpoints[record.endpoint]);
    if !local && !policy.cloudAllowed {
      rejected := rejected + [CloudNotAuthorized];
    }
    if policy.allowedEndpoints != [] && record.endpoint !in policy.allowedEndpoints {
      rejected := rejected + [EndpointNotAllowed];
    }
    if policy.allowedProviders != [] && record.provider !in policy.allowedProviders {
      rejected := rejected + [ProviderNotAllowed];
    }
    if policy.allowedModels != [] && record.key !in policy.allowedModels {
      rejected := rejected + [ModelNotAllowed];
    }
    var cost := Cost(model, estimate);
    if policy.budget.enabled && cost.None? && !policy.budget.allowUnknown {
      rejected := rejected + [PricingUnknown];
    }
    if policy.budget.enabled && policy.budget.maxEstimated.Some? && cost.Some?
       && cost.value > policy.budget.maxEstimated.value {
      rejected := rejected + [TooExpensive];
    }
  }

  /** The checks of the model itself. */
  method CheckCapability(model: Model, policy: Policy, estimate: Estimate) returns (rejected: seq<Rejection>)
    ensures rejected == [] <==> Capable(model, policy, estimate)
  {
    var record := model.record;
    rejected := [];
    if record.provider == "ollama" && record.availability != Catalog.Available {
      rejected := rejected + [NotAvailable];
    }
    if record.probeState == Catalog.Absent {
      rejected := rejected + [ProbeAbsent];
    } else if record.probeStale || record.probeState == Catalog.Stale {
      rejected := rejected + [ProbeStale];
    }
    if record.classification != policy.requiredClassification {
      rejected := rejected + [WrongClassification];
    }
    if model.context.Some? && model.context.value != 0 && model.context.value < estimate.minimumContext {
      rejected := rejected + [ContextTooSmall];
    }
  }

  /** `_score`: every failed check is listed; without any, the score. */
  method ScoreModel(model: Model, site: Site, policy: Policy, estimate: Estimate)
    returns (rejected: seq<Rejection>, score: Option<real>)
    requires PricedSensibly(model)
    ensures rejected == [] <==> Eligible(model, site, policy, estimate)
    ensures score == if rejected == [] then Some(Score(model, site, policy, estimate)) else None
  {
    var authority := CheckAuthority(model, site, policy, estimate);
    var capability := CheckCapability(model, policy, estimate);
    rejected := authority + capability;
    score := if rejected == [] then Some(Score(model, site, policy, estimate)) else None;
  }

  lemma OneMoreRank(models: seq<Model>, n: nat, site: Site, policy: Policy, estimate: Estimate)
    requires n < |models| && forall m :: m in models ==> PricedSensibly(m)
    ensures var rank := Ranked(Score(models[n], site, policy, estimate), models[n].record.key);
            EligibleRanks(models[..n + 1], site, policy, estimate)
            == EligibleRanks(models[..n], site, policy, estimate)
               + if Eligible(models[n], site, policy, estimate) then {rank} else {}
  {
    assert models[..n + 1] == models[..n] + [models[n]];
  }

  /** The first of some candidates in the order of the sort key, if there are any. */
  ghost predicate IsFirst(first: Option<Ranked>, ranks: set<Ranked>) {
    if first.None? then ranks == {} else IsLeast(Before, first.value, ranks)
  }

  lemma FirstOfMore(first: Option<Ranked>, ranks: set<Ranked>, rank: Ranked)
    requires IsFirst(first, ranks)
    ensures IsFirst(Some(if first.None? || Before(rank, first.value) then rank else first.value), ranks + {rank})
  {
    BeforeIsStrictTotal();
  }

  lemma FirstIsSelected(first: Option<Ranked>, models: seq<Model>, site: Site, policy: Policy, estimate: Estimate)
    requires forall m :: m in models ==> PricedSensibly(m)
    requires IsFirst(first, EligibleRanks(models, site, policy, estimate))
    ensures Selected(models, site, policy, estimate) == if first.None? then None else Some(first.value.key)
  {
    if first.Some? {
      BeforeIsStrictTotal();
      LeastIsUnique(first.value, Least(Before, EligibleRanks(models, site, policy, estimate)),
                    EligibleRanks(models, site, policy, estimate));
    }
  }

  lemma LeastIsUnique(a: Ranked, b: Ranked, ranks: set<Ranked>)
    requires IsLeast(Before, a, ranks) && IsLeast(Before, b, ranks)
    ensures a == b
  {
    if a != b {
      BeforeIsAsymmetric(a, b);
    }
  }

  lemma BeforeIsAsymmetric(a: Ranked, b: Ranked)
    ensures !(Before(a, b) && Before(b, a))
  {
    LessIrreflexive(a.key);
    if Less(a.key, b.key) && Less(b.key, a.key) {
      LessTransitive(a.key, b.key, a.key);
    }
  }

  /** `select`: the first eligible candidate in the order of the sort key, found while scoring. */
  method Select(models: seq<Model>, site: Site, policy: Policy, estimate: Estimate) returns (selected: Option<Key>)
    requires forall m :: m in models ==> PricedSensibly(m)
    ensures selected == Selected(models, site, policy, estimate)
  {
    var first: Option<Ranked> := None;
    ghost var ranks: set<Ranked> := {};
    for n := 0 to |models|
      invariant ranks == EligibleRanks(models[..n], site, policy, estimate)
      invariant IsFirst(first, ranks)
    {
      OneMoreRank(models, n, site, policy, estimate);
      var rejected, score := ScoreModel(models[n], site, policy, estimate);
      if score.Some? {
        var rank := Ranked(score.value, models[n].record.key);
        FirstOfMore(first, ranks, rank);
        if first.None? || Before(rank, first.value) {
          first := Some(rank);
        }
        ranks := ranks + {rank};
      }
    }
    assert models[..|models|] == models;
    FirstIsSelected(first, models, site, policy, estimate);
    selected := if first.None? then None else Some(first.value.key);
  }

  /** The order in which models are listed does not matter. */
  lemma SelectionIgnoresOrder(a: seq<Model>, b: seq<Model>, site: Site, policy: Policy, estimate: Estimate)
    requires multiset(a) == multiset(b) && forall m :: m in a ==> PricedSensibly(m)
    ensures forall m :: m in b ==> PricedSensibly(m)
    ensures Selected(a, site, policy, estimate) == Selected(b, site, policy, estimate)
  {
    forall m ensures m in a <==> m in b {
      assert m in multiset(a) <==> m in multiset(b);
    }
    assert EligibleRanks(a, site, policy, estimate) == EligibleRanks(b, site, policy, estimate);
  }

  /** The candidates are models as the catalogue holds them. */
  ghost predicate Catalogued(models: seq<Model>, records: Catalog.Models) {
    forall m :: m in models ==> PricedSensibly(m) && m.record.key in records && records[m.record.key] == m.record
  }

  /**
   * Whatever the interleaving of probes, refreshes, discoveries and removals: a selected model was probed at its
   * catalogued version and found to be of the class required. If each verdict was written undisturbed, it was the last.
   */
  lemma SelectedWasProbed(
    run: seq<(CatalogSteps.Process, CatalogSteps.Choice)>, models: seq<Model>, site: Site, policy: Policy, estimate: Estimate)
    requires Catalogued(models, CatalogSteps.RunActs(CatalogSteps.START, run).models)
    requires Selected(models, site, policy, estimate).Some?
    ensures var s := CatalogSteps.RunActs(CatalogSteps.START, run);
            var key := Selected(models, site, policy, estimate).value;
            && key in s.models
            && var verdict := CatalogSteps.Judgement(s.models[key], policy.requiredClassification);
               && (key, verdict) in s.evidence
               && (CatalogSteps.Disciplined(CatalogSteps.START, run) ==> key in s.last && s.last[key] == verdict)
  {
    var best := SelectedIsBest(models, site, policy, estimate);
    CatalogSteps.AcceptedWasOnceProbed(run, best.record.key, policy.requiredClassification);
    if CatalogSteps.Disciplined(CatalogSteps.START, run) {
      CatalogSteps.DisciplinedIsTrusted(run);
    }
  }
}
