/** The model catalogue: discovery, local refresh, probes and removal, and what a stored probe verdict still means. */
module Catalog {
  import opened Ordering
  import opened Wrappers

  type Key = string
  type Time = string
  type ProbeId = string

  datatype ProbeState = Absent | Current | Stale
  datatype Availability = Unknown | Available | Unreachable | Missing

  datatype Model = Model(
    key: Key, endpoint: string, provider: string, version: string, checksum: string, classification: string,
    probeState: ProbeState, probeStale: bool, availability: Availability, missingSince: Option<Time>)

  datatype Endpoint = Endpoint(id: string, provider: string, enabled: bool, loopback: bool)

  /** One model as the endpoint lists it; the checksum is that of its metadata. */
  datatype Listed = Listed(id: string, version: string, checksum: string)

  datatype CatalogError =
    | EndpointDisabled | NotLocalOllama | RefreshFailed | DiscoveryFailed | UnknownModel | StillAvailable | Referenced
    | UnknownProbe

  datatype Report = Report(added: seq<Key>, changed: seq<Key>, same: seq<Key>, missing: seq<Key>)

  type Models = map<Key, Model>

  function KeyOf(endpoint: Endpoint, item: Listed): Key {
    endpoint.id + ":" + item.id
  }

  predicate Changed(previous: Option<Model>, item: Listed) {
    previous.Some? && (previous.value.version != item.version || previous.value.checksum != item.checksum)
  }

  function Find(models: Models, key: Key): Option<Model> {
    if key in models then Some(models[key]) else None
  }

  // ---- discovery ----

  function DiscoveredRecord(endpoint: Endpoint, item: Listed, previous: Option<Model>): Model {
    var changed := Changed(previous, item);
    Model(KeyOf(endpoint, item), endpoint.id, endpoint.provider, item.version, item.checksum,
          if previous.Some? then previous.value.classification else "unvalidated",
          if changed || (previous.Some? && previous.value.probeStale) then Stale
          else if previous.Some? then previous.value.probeState else Absent,
          changed || previous.None? || previous.value.probeStale,
          Available, None)
  }

  function AfterDiscovery(models: Models, endpoint: Endpoint, items: seq<Listed>): Models
    decreases |items|
  {
    if items == [] then models
    else
      var key := KeyOf(endpoint, items[0]);
      AfterDiscovery(models[key := DiscoveredRecord(endpoint, items[0], Find(models, key))], endpoint, items[1..])
  }

  // ---- refresh ----

  function RefreshedRecord(endpoint: Endpoint, item: Listed, previous: Option<Model>): Model {
    var changed := Changed(previous, item);
    Model(KeyOf(endpoint, item), endpoint.id, endpoint.provider, item.version, item.checksum,
          if previous.Some? then previous.value.classification else "unvalidated",
          if changed then Stale else if previous.Some? then previous.value.probeState else Absent,
          if previous.Some? then changed || previous.value.probeStale else true,
          Available, None)
  }

  /** The endpoint's own records when the refresh begins. */
  function OwnModels(models: Models, endpoint: Endpoint): Models {
    map key | key in models && models[key].endpoint == endpoint.id :: models[key]
  }

  function Returned(endpoint: Endpoint, items: seq<Listed>): seq<Key> {
    seq(|items|, i requires 0 <= i < |items| => KeyOf(endpoint, items[i]))
  }

  function Elements(keys: seq<Key>): set<Key> {
    set key | key in keys
  }

  /** Every returned model is stored as compared with the record it had before the refresh. */
  function Stored(previous: Models, models: Models, endpoint: Endpoint, items: seq<Listed>): Models {
    if items == [] then models
    else
      var last := |items| - 1;
      var key := KeyOf(endpoint, items[last]);
      Stored(previous, models, endpoint, items[..last])[key := RefreshedRecord(endpoint, items[last], Find(previous, key))]
  }

  function GoneRecord(model: Model, now: Time): Model {
    model.(availability := Missing, missingSince := if model.missingSince.Some? then model.missingSince else Some(now))
  }

  /** Records of `previous` that were not returned. */
  function MarkMissing(previous: Models, models: Models, missing: set<Key>, now: Time): Models
    requires missing <= previous.Keys
  {
    models + map key | key in missing :: GoneRecord(previous[key], now)
  }

  function UnreachableRecord(model: Model): Model {
    if model.availability == Missing then model else model.(availability := Unreachable)
  }

  /** The endpoint did not answer. */
  function MarkUnreachable(models: Models, endpoint: Endpoint): Models {
    map key | key in models ::
      if models[key].endpoint == endpoint.id then UnreachableRecord(models[key]) else models[key]
  }

  /** The same while some of its records are left to be marked. */
  function MarkUnreachableBut(models: Models, endpoint: Endpoint, left: set<Key>): Models {
    map key | key in models ::
      if models[key].endpoint == endpoint.id && key !in left then UnreachableRecord(models[key]) else models[key]
  }

  lemma ModelsAgree(a: Models, b: Models)
    requires forall key :: Find(a, key) == Find(b, key)
    ensures a == b
  {
    forall key ensures key in a <==> key in b {
      assert Find(a, key) == Find(b, key);
    }
    forall key | key in a ensures a[key] == b[key] {
      assert Find(a, key) == Find(b, key);
    }
  }

  lemma MarkNone(models: Models, endpoint: Endpoint)
    ensures MarkUnreachableBut(models, endpoint, OwnModels(models, endpoint).Keys) == models
  {
    ModelsAgree(MarkUnreachableBut(models, endpoint, OwnModels(models, endpoint).Keys), models);
  }

  lemma MarkAll(models: Models, endpoint: Endpoint)
    ensures MarkUnreachableBut(models, endpoint, {}) == MarkUnreachable(models, endpoint)
  {
    ModelsAgree(MarkUnreachableBut(models, endpoint, {}), MarkUnreachable(models, endpoint));
  }

  lemma MarkOne(models: Models, endpoint: Endpoint, left: set<Key>, key: Key)
    requires key in left && key in models && models[key].endpoint == endpoint.id
    ensures MarkUnreachableBut(models, endpoint, left - {key})
         == MarkUnreachableBut(models, endpoint, left)[key := UnreachableRecord(models[key])]
    ensures MarkUnreachableBut(models, endpoint, left)[key] == models[key]
  {
    ModelsAgree(MarkUnreachableBut(models, endpoint, left - {key}),
                MarkUnreachableBut(models, endpoint, left)[key := UnreachableRecord(models[key])]);
  }

  lemma MissingNone(previous: Models, models: Models, missing: seq<Key>, now: Time)
    ensures Elements(missing[..0]) == {} && MarkMissing(previous, models, {}, now) == models
  {
    ModelsAgree(MarkMissing(previous, models, {}, now), models);
  }

  lemma MissingNext(previous: Models, models: Models, missing: seq<Key>, i: nat, now: Time)
    requires i < |missing| && Elements(missing) <= previous.Keys && Elements(missing[..i]) <= previous.Keys
    ensures missing[i] in previous && Elements(missing[..i + 1]) <= previous.Keys
    ensures MarkMissing(previous, models, Elements(missing[..i + 1]), now)
         == MarkMissing(previous, models, Elements(missing[..i]), now)[missing[i] := GoneRecord(previous[missing[i]], now)]
  {
    ElementsNext(missing, i);
    MarkOneMissing(previous, models, Elements(missing[..i]), missing[i], now);
  }

  lemma ElementsNext(keys: seq<Key>, i: nat)
    requires i < |keys|
    ensures keys[i] in Elements(keys) && Elements(keys[..i + 1]) == Elements(keys[..i]) + {keys[i]}
  {
    assert keys[..i + 1] == keys[..i] + [keys[i]];
  }

  lemma MarkOneMissing(previous: Models, models: Models, missing: set<Key>, key: Key, now: Time)
    requires missing <= previous.Keys && key in previous
    ensures MarkMissing(previous, models, missing + {key}, now)
         == MarkMissing(previous, models, missing, now)[key := GoneRecord(previous[key], now)]
  {
    ModelsAgree(MarkMissing(previous, models, missing + {key}, now),
                MarkMissing(previous, models, missing, now)[key := GoneRecord(previous[key], now)]);
  }

  function AfterRefresh(models: Models, endpoint: Endpoint, items: seq<Listed>, now: Time): Models {
    var previous := OwnModels(models, endpoint);
    var returned := Elements(Returned(endpoint, items));
    MarkMissing(previous, Stored(previous, models, endpoint, items), previous.Keys - returned, now)
  }

  /** The keys of the items that pass `verdict`, in order. */
  function Where(previous: Models, endpoint: Endpoint, items: seq<Listed>, verdict: Verdict): seq<Key> {
    if items == [] then []
    else
      var last := |items| - 1;
      var key := KeyOf(endpoint, items[last]);
      Where(previous, endpoint, items[..last], verdict)
      + if VerdictOf(Find(previous, key), items[last]) == verdict then [key] else []
  }

  lemma StoredNext(previous: Models, models: Models, endpoint: Endpoint, items: seq<Listed>, i: nat)
    requires i < |items|
    ensures var key := KeyOf(endpoint, items[i]);
            Stored(previous, models, endpoint, items[..i + 1]) ==
            Stored(previous, models, endpoint, items[..i])[key := RefreshedRecord(endpoint, items[i], Find(previous, key))]
  {
    assert items[..i + 1][..i] == items[..i];
  }

  lemma WhereNext(previous: Models, endpoint: Endpoint, items: seq<Listed>, i: nat)
    requires i < |items|
    ensures var key := KeyOf(endpoint, items[i]);
            forall verdict ::
              Where(previous, endpoint, items[..i + 1], verdict) ==
              Where(previous, endpoint, items[..i], verdict)
              + if VerdictOf(Find(previous, key), items[i]) == verdict then [key] else []
  {
    assert items[..i + 1][..i] == items[..i];
  }

  datatype Verdict = IsAdded | IsChanged | IsUnchanged

  function VerdictOf(previous: Option<Model>, item: Listed): Verdict {
    if previous.None? then IsAdded else if Changed(previous, item) then IsChanged else IsUnchanged
  }

  function ReportOf(models: Models, endpoint: Endpoint, items: seq<Listed>): Report {
    var previous := OwnModels(models, endpoint);
    var returned := Elements(Returned(endpoint, items));
    Report(Where(previous, endpoint, items, IsAdded), Where(previous, endpoint, items, IsChanged),
           Where(previous, endpoint, items, IsUnchanged), SortedNames(previous.Keys - returned))
  }

  // ---- the whole catalogue ----

  /** What a probe found, and of what. */
  datatype Evidence = Evidence(version: string, checksum: string, classification: string)

  /** `running` are probes between reading their model and storing the result; `last` is history. */
  datatype State = State(models: Models, running: map<ProbeId, Model>, probed: set<Key>, last: map<Key, Evidence>)

  datatype Op =
    | Discover(endpoint: Endpoint, answer: Option<seq<Listed>>)
    | Refresh(endpoint: Endpoint, answer: Option<seq<Listed>>, now: Time)
    | Forget(key: Key, otherwiseReferenced: bool)
    | BeginProbe(probe: ProbeId, key: Key)
    | EndProbe(probe: ProbeId, classification: string)

  predicate IsLocal(endpoint: Endpoint) {
    endpoint.provider == "ollama" && endpoint.loopback
  }

  function Step(s: State, op: Op): (State, Option<CatalogError>) {
    match op
    case Discover(endpoint, answer) =>
      if !endpoint.enabled then (s, Some(EndpointDisabled))
      else if answer.None? then (s, Some(DiscoveryFailed))
      else (s.(models := AfterDiscovery(s.models, endpoint, answer.value)), None)
    case Refresh(endpoint, answer, now) =>
      if !endpoint.enabled then (s, Some(EndpointDisabled))
      else if !IsLocal(endpoint) then (s, Some(NotLocalOllama))
      else if answer.None? then (s.(models := MarkUnreachable(s.models, endpoint)), Some(RefreshFailed))
      else (s.(models := AfterRefresh(s.models, endpoint, answer.value, now)), None)
    case Forget(key, otherwiseReferenced) =>
      if key !in s.models then (s, Some(UnknownModel))
      else if s.models[key].availability == Available then (s, Some(StillAvailable))
      else if key in s.probed || otherwiseReferenced then (s, Some(Referenced))
      else (s.(models := s.models - {key}), None)
    case BeginProbe(probe, key) =>
      if key !in s.models then (s, Some(UnknownModel))
      else (s.(running := s.running[probe := s.models[key]]), None)
    case EndProbe(probe, classification) =>
      if probe !in s.running then (s, Some(UnknownProbe))
      else
        var model := s.running[probe];
        (State(s.models[model.key := model.(classification := classification, probeStale := false, probeState := Current)],
               s.running - {probe}, s.probed + {model.key},
               s.last[model.key := Evidence(model.version, model.checksum, classification)]),
         None)
  }

  function Run(s: State, ops: seq<Op>): State
    decreases |ops|
  {
    if ops == [] then s else Run(Step(s, ops[0]).0, ops[1..])
  }

  /** The services, working record by record on their store. */
  class ModelCatalog {
    var models: Models
    var running: map<ProbeId, Model>
    var probed: set<Key>
    ghost var last: map<Key, Evidence>

    constructor ()
      ensures Contents() == State(map[], map[], {}, map[])
    {
      models, running, probed, last := map[], map[], {}, map[];
    }

    ghost function Contents(): State
      reads this
    {
      State(models, running, probed, last)
    }

    method DiscoverModels(endpoint: Endpoint, answer: Option<seq<Listed>>) returns (error: Option<CatalogError>)
      modifies this
      ensures (Contents(), error) == Step(old(Contents()), Discover(endpoint, answer))
    {
      if !endpoint.enabled {
        return Some(EndpointDisabled);
      }
      if answer.None? {
        return Some(DiscoveryFailed);
      }
      var items := answer.value;
      for i := 0 to |items|
        invariant unchanged(`running) && unchanged(`probed) && unchanged(`last)
        invariant AfterDiscovery(models, endpoint, items[i..]) == AfterDiscovery(old(models), endpoint, items)
      {
        var item := items[i];
        assert items[i..][0] == item && items[i..][1..] == items[i + 1..];
        var key := KeyOf(endpoint, item);
        models := models[key := DiscoveredRecord(endpoint, item, Find(models, key))];
      }
      return None;
    }

    method RefreshModels(endpoint: Endpoint, answer: Option<seq<Listed>>, now: Time)
      returns (error: Option<CatalogError>, report: Report)
      modifies this
      ensures (Contents(), error) == Step(old(Contents()), Refresh(endpoint, answer, now))
      ensures error.None? ==> report == ReportOf(old(models), endpoint, answer.value)
    {
      report := Report([], [], [], []);
      if !endpoint.enabled {
        return Some(EndpointDisabled), report;
      }
      if endpoint.provider != "ollama" || !endpoint.loopback {
        return Some(NotLocalOllama), report;
      }
      var previous := OwnModels(models, endpoint);
      if answer.None? {
        LeaveUnreachable(endpoint, previous);
        return Some(RefreshFailed), report;
      }
      var items := answer.value;
      var added, changed, same := StoreReturned(endpoint, items, previous);
      var current := Elements(Returned(endpoint, items));
      var missing := SortedNames(previous.Keys - current);
      assert previous.Keys - current == Elements(missing);
      RecordMissing(previous, missing, now);
      report := Report(added, changed, same, missing);
      return None, report;
    }

    method LeaveUnreachable(endpoint: Endpoint, previous: Models)
      requires previous == OwnModels(models, endpoint)
      modifies this`models
      ensures models == MarkUnreachable(old(models), endpoint)
    {
      var left := previous.Keys;
      MarkNone(models, endpoint);
      while left != {}
        invariant left <= previous.Keys
        invariant models == MarkUnreachableBut(old(models), endpoint, left)
        decreases |left|
      {
        var key :| key in left;
        MarkOne(old(models), endpoint, left, key);
        if previous[key].availability != Missing {
          models := models[key := previous[key].(availability := Unreachable)];
        }
        left := left - {key};
      }
      MarkAll(old(models), endpoint);
    }

    method StoreReturned(endpoint: Endpoint, items: seq<Listed>, previous: Models)
      returns (added: seq<Key>, changed: seq<Key>, same: seq<Key>)
      modifies this`models
      ensures models == Stored(previous, old(models), endpoint, items)
      ensures added == Where(previous, endpoint, items, IsAdded)
      ensures changed == Where(previous, endpoint, items, IsChanged)
      ensures same == Where(previous, endpoint, items, IsUnchanged)
    {
      added, changed, same := [], [], [];
      for i := 0 to |items|
        invariant models == Stored(previous, old(models), endpoint, items[..i])
        invariant added == Where(previous, endpoint, items[..i], IsAdded)
        invariant changed == Where(previous, endpoint, items[..i], IsChanged)
        invariant same == Where(previous, endpoint, items[..i], IsUnchanged)
      {
        var item := items[i];
        var key := KeyOf(endpoint, item);
        StoredNext(previous, old(models), endpoint, items, i);
        WhereNext(previous, endpoint, items, i);
        if key !in previous {
          added := added + [key];
        } else if previous[key].version != item.version || previous[key].checksum != item.checksum {
          changed := changed + [key];
        } else {
          same := same + [key];
        }
        models := models[key := RefreshedRecord(endpoint, item, Find(previous, key))];
      }
      assert items[..|items|] == items;
    }

    method RecordMissing(previous: Models, missing: seq<Key>, now: Time)
      requires Elements(missing) <= previous.Keys
      modifies this`models
      ensures models == MarkMissing(previous, old(models), Elements(missing), now)
    {
      MissingNone(previous, models, missing, now);
      for i := 0 to |missing|
        invariant Elements(missing[..i]) <= previous.Keys
        invariant models == MarkMissing(previous, old(models), Elements(missing[..i]), now)
      {
        var key := missing[i];
        MissingNext(previous, old(models), missing, i, now);
        models := models[key := GoneRecord(previous[key], now)];
      }
      assert missing[..|missing|] == missing;
    }

    method ForgetModel(key: Key, otherwiseReferenced: bool) returns (error: Option<CatalogError>)
      modifies this
      ensures (Contents(), error) == Step(old(Contents()), Forget(key, otherwiseReferenced))
    {
      if key !in models {
        return Some(UnknownModel);
      }
      if models[key].availability == Available {
        return Some(StillAvailable);
      }
      if key in probed || otherwiseReferenced {
        return Some(Referenced);
      }
      models := models - {key};
      return None;
    }

    method StartProbe(probe: ProbeId, key: Key) returns (error: Option<CatalogError>)
      modifies this
      ensures (Contents(), error) == Step(old(Contents()), BeginProbe(probe, key))
    {
      if key !in models {
        return Some(UnknownModel);
      }
      running := running[probe := models[key]];
      return None;
    }

    /** The result record first, then the model as it was read, with the verdict. */
    method StoreProbe(probe: ProbeId, classification: string) returns (error: Option<CatalogError>)
      modifies this
      ensures (Contents(), error) == Step(old(Contents()), EndProbe(probe, classification))
    {
      if probe !in running {
        return Some(UnknownProbe);
      }
      var model := running[probe];
      running := running - {probe};
      probed := probed + {model.key};
      last := last[model.key := Evidence(model.version, model.checksum, classification)];
      models := models[model.key := model.(classification := classification, probeStale := false, probeState := Current)];
      return None;
    }
  }

  // ---- what stored verdicts mean ----

  /** A record counts as probed only with the version, checksum and class of the last probe stored under its key. */
  ghost predicate Vouched(last: map<Key, Evidence>, model: Model) {
    && (model.probeStale <==> model.probeState != Current)
    && (model.probeState == Current ==>
          model.key in last && last[model.key] == Evidence(model.version, model.checksum, model.classification))
  }

  ghost predicate AllVouched(last: map<Key, Evidence>, models: Models) {
    forall key :: key in models ==> models[key].key == key && Vouched(last, models[key])
  }

  ghost predicate Honest(s: State) {
    && AllVouched(s.last, s.models)
    && s.probed == s.last.Keys
    && s.probed <= s.models.Keys
  }

  lemma {:induction false} DiscoveryKeepsVouched(last: map<Key, Evidence>, models: Models, endpoint: Endpoint, items: seq<Listed>)
    requires AllVouched(last, models)
    ensures AllVouched(last, AfterDiscovery(models, endpoint, items))
    ensures models.Keys <= AfterDiscovery(models, endpoint, items).Keys
    decreases |items|
  {
    if items != [] {
      var key := KeyOf(endpoint, items[0]);
      DiscoveryKeepsVouched(last, models[key := DiscoveredRecord(endpoint, items[0], Find(models, key))], endpoint, items[1..]);
    }
  }

  lemma RefreshedIsVouched(last: map<Key, Evidence>, endpoint: Endpoint, item: Listed, previous: Models)
    requires AllVouched(last, previous)
    ensures Vouched(last, RefreshedRecord(endpoint, item, Find(previous, KeyOf(endpoint, item))))
  {
  }

  lemma {:induction false} StoringKeepsVouched(
    last: map<Key, Evidence>, previous: Models, models: Models, endpoint: Endpoint, items: seq<Listed>)
    requires AllVouched(last, models) && AllVouched(last, previous)
    ensures AllVouched(last, Stored(previous, models, endpoint, items))
    decreases |items|
  {
    if items != [] {
      var end := |items| - 1;
      StoringKeepsVouched(last, previous, models, endpoint, items[..end]);
      RefreshedIsVouched(last, endpoint, items[end], previous);
    }
  }

  lemma {:induction false} StoredKeys(previous: Models, models: Models, endpoint: Endpoint, items: seq<Listed>, key: Key)
    ensures key in Stored(previous, models, endpoint, items) <==> key in models || key in Returned(endpoint, items)
    decreases |items|
  {
    if items != [] {
      var end := |items| - 1;
      StoredKeys(previous, models, endpoint, items[..end], key);
      assert Returned(endpoint, items) == Returned(endpoint, items[..end]) + [KeyOf(endpoint, items[end])];
    }
  }

  lemma MarkingKeepsVouched(last: map<Key, Evidence>, previous: Models, models: Models, missing: set<Key>, now: Time)
    requires AllVouched(last, models) && AllVouched(last, previous) && missing <= previous.Keys
    ensures AllVouched(last, MarkMissing(previous, models, missing, now))
    ensures models.Keys <= MarkMissing(previous, models, missing, now).Keys
  {
  }

  lemma RefreshKeepsVouched(last: map<Key, Evidence>, models: Models, endpoint: Endpoint, items: seq<Listed>, now: Time)
    requires AllVouched(last, models)
    ensures AllVouched(last, AfterRefresh(models, endpoint, items, now))
    ensures models.Keys <= AfterRefresh(models, endpoint, items, now).Keys
  {
    var previous := OwnModels(models, endpoint);
    StoringKeepsVouched(last, previous, models, endpoint, items);
    forall key | key in models ensures key in Stored(previous, models, endpoint, items) {
      StoredKeys(previous, models, endpoint, items, key);
    }
    MarkingKeepsVouched(last, previous, Stored(previous, models, endpoint, items),
                        previous.Keys - Elements(Returned(endpoint, items)), now);
  }

  /** A stored probe speaks for the record it was stored with, whatever whole calls the catalogue saw meanwhile. */
  lemma ProbeKeepsHonest(s: State, probe: ProbeId, classification: string)
    requires Honest(s)
    ensures Honest(Step(s, EndProbe(probe, classification)).0)
  {
  }

  lemma StepKeepsHonest(s: State, op: Op)
    requires Honest(s)
    ensures Honest(Step(s, op).0)
  {
    match op {
      case Discover(endpoint, answer) =>
        if endpoint.enabled && answer.Some? {
          DiscoveryKeepsVouched(s.last, s.models, endpoint, answer.value);
        }
      case Refresh(endpoint, answer, now) =>
        if endpoint.enabled && IsLocal(endpoint) {
          if answer.Some? {
            RefreshKeepsVouched(s.last, s.models, endpoint, answer.value, now);
          } else {
            assert AllVouched(s.last, MarkUnreachable(s.models, endpoint));
          }
        }
      case Forget(key, _) =>
      case BeginProbe(_, _) =>
      case EndProbe(probe, classification) => ProbeKeepsHonest(s, probe, classification);
    }
  }

  /** Whole discoveries, refreshes and removals, also between the halves of probes, leave no verdict on another version. */
  lemma {:induction false} RunKeepsHonest(s: State, ops: seq<Op>)
    requires Honest(s)
    ensures Honest(Run(s, ops))
    ensures s.probed <= Run(s, ops).probed
    decreases |ops|
  {
    if ops != [] {
      StepKeepsHonest(s, ops[0]);
      RunKeepsHonest(Step(s, ops[0]).0, ops[1..]);
    }
  }

  const EMPTY := State(map[], map[], {}, map[])

  /** The gate of `select` on probe evidence. */
  predicate ProbeAccepted(model: Model, required: string) {
    model.probeState != Absent && !(model.probeStale || model.probeState == Stale) && model.classification == required
  }

  /** After whole calls, what passes the gate was probed, last, at the catalogued version and checksum, and found to be in its class. */
  lemma AcceptedWasProbed(ops: seq<Op>, key: Key, required: string)
    requires var s := Run(EMPTY, ops); key in s.models && ProbeAccepted(s.models[key], required)
    ensures var s := Run(EMPTY, ops);
            key in s.last && s.last[key] == Evidence(s.models[key].version, s.models[key].checksum, required)
  {
    RunKeepsHonest(EMPTY, ops);
  }

  /** While no other call runs between its check and its deletion, `forget` never removes a probed model. */
  lemma ProbedIsNeverForgotten(s: State, ops: seq<Op>, key: Key)
    requires Honest(s) && key in s.probed
    ensures key in Run(s, ops).models
  {
    RunKeepsHonest(s, ops);
  }

  // ---- what a refresh reports and leaves ----

  /** How often each key is reported under all headings together. */
  function Reported(previous: Models, endpoint: Endpoint, items: seq<Listed>): multiset<Key> {
    multiset(Where(previous, endpoint, items, IsAdded)) + multiset(Where(previous, endpoint, items, IsChanged))
    + multiset(Where(previous, endpoint, items, IsUnchanged))
  }

  lemma ReportedNext(previous: Models, endpoint: Endpoint, items: seq<Listed>, item: Listed)
    ensures Reported(previous, endpoint, items + [item])
         == Reported(previous, endpoint, items) + multiset{KeyOf(endpoint, item)}
  {
    assert (items + [item])[..|items|] == items;
  }

  /** Every returned item is reported once, under one heading; nothing else is. */
  lemma {:induction false} ReportConservesItems(previous: Models, endpoint: Endpoint, items: seq<Listed>)
    ensures Reported(previous, endpoint, items) == multiset(Returned(endpoint, items))
    decreases |items|
  {
    if items != [] {
      var end := |items| - 1;
      ReportConservesItems(previous, endpoint, items[..end]);
      ReportedNext(previous, endpoint, items[..end], items[end]);
      assert items == items[..end] + [items[end]];
      assert Returned(endpoint, items) == Returned(endpoint, items[..end]) + [KeyOf(endpoint, items[end])];
    }
  }

  ghost predicate IsReturned(endpoint: Endpoint, items: seq<Listed>, i: int, key: Key) {
    0 <= i < |items| && KeyOf(endpoint, items[i]) == key
  }

  lemma {:induction false} WhereHolds(previous: Models, endpoint: Endpoint, items: seq<Listed>, verdict: Verdict, key: Key)
    ensures key in Where(previous, endpoint, items, verdict) <==>
              exists i :: IsReturned(endpoint, items, i, key) && VerdictOf(Find(previous, key), items[i]) == verdict
    decreases |items|
  {
    if items != [] {
      var end := |items| - 1;
      WhereHolds(previous, endpoint, items[..end], verdict, key);
      forall i ensures IsReturned(endpoint, items[..end], i, key) <==> IsReturned(endpoint, items, i, key) && i < end {}
    }
  }

  ghost predicate DistinctIds(items: seq<Listed>) {
    forall i, j :: 0 <= i < j < |items| ==> items[i].id != items[j].id
  }

  lemma KeysTellIds(endpoint: Endpoint, a: Listed, b: Listed)
    requires KeyOf(endpoint, a) == KeyOf(endpoint, b)
    ensures a.id == b.id
  {
    assert a.id == KeyOf(endpoint, a)[|endpoint.id| + 1..];
    assert b.id == KeyOf(endpoint, b)[|endpoint.id| + 1..];
  }

  /** What the report says of one key. */
  lemma ReportMeans(models: Models, endpoint: Endpoint, items: seq<Listed>, key: Key)
    ensures var report := ReportOf(models, endpoint, items);
            var previous := Find(OwnModels(models, endpoint), key);
            && (key in report.added <==> previous.None? && exists i :: IsReturned(endpoint, items, i, key))
            && (key in report.changed <==> exists i :: IsReturned(endpoint, items, i, key) && Changed(previous, items[i]))
            && (key in report.same <==>
                  previous.Some? && exists i :: IsReturned(endpoint, items, i, key) && !Changed(previous, items[i]))
            && (key in report.missing <==> previous.Some? && !exists i :: IsReturned(endpoint, items, i, key))
  {
    var previous := OwnModels(models, endpoint);
    WhereHolds(previous, endpoint, items, IsAdded, key);
    WhereHolds(previous, endpoint, items, IsChanged, key);
    WhereHolds(previous, endpoint, items, IsUnchanged, key);
    ReturnedMeans(endpoint, items, key);
  }

  lemma ReturnedMeans(endpoint: Endpoint, items: seq<Listed>, key: Key)
    ensures key in Returned(endpoint, items) <==> exists i :: IsReturned(endpoint, items, i, key)
  {
    if i :| IsReturned(endpoint, items, i, key) {
      assert Returned(endpoint, items)[i] == key;
    }
    if key in Returned(endpoint, items) {
      var i :| 0 <= i < |items| && Returned(endpoint, items)[i] == key;
      assert IsReturned(endpoint, items, i, key);
    }
  }

  /** With distinct ids the headings exclude each other: they partition the returned and the previous keys. */
  lemma ReportIsAPartition(models: Models, endpoint: Endpoint, items: seq<Listed>, key: Key)
    requires DistinctIds(items)
    ensures var report := ReportOf(models, endpoint, items);
            var returned := exists i :: IsReturned(endpoint, items, i, key);
            var previous := key in OwnModels(models, endpoint);
            && (key in report.added <==> returned && !previous)
            && (key in report.missing <==> previous && !returned)
            && (key in report.changed || key in report.same <==> returned && previous)
            && !(key in report.changed && key in report.same)
  {
    ReportMeans(models, endpoint, items, key);
    forall i, j | IsReturned(endpoint, items, i, key) && IsReturned(endpoint, items, j, key) ensures i == j {
      KeysTellIds(endpoint, items[i], items[j]);
    }
  }

  lemma {:induction false} StoredIsLastReturned(
    previous: Models, models: Models, endpoint: Endpoint, items: seq<Listed>, i: nat)
    requires i < |items| && forall j :: i < j < |items| ==> KeyOf(endpoint, items[j]) != KeyOf(endpoint, items[i])
    ensures var key := KeyOf(endpoint, items[i]);
            key in Stored(previous, models, endpoint, items)
            && Stored(previous, models, endpoint, items)[key] == RefreshedRecord(endpoint, items[i], Find(previous, key))
    decreases |items|
  {
    var end := |items| - 1;
    if i < end {
      StoredIsLastReturned(previous, models, endpoint, items[..end], i);
    }
  }

  lemma {:induction false} StoredLeavesOthers(previous: Models, models: Models, endpoint: Endpoint, items: seq<Listed>, key: Key)
    requires key !in Returned(endpoint, items)
    ensures Find(Stored(previous, models, endpoint, items), key) == Find(models, key)
    decreases |items|
  {
    if items != [] {
      var end := |items| - 1;
      assert Returned(endpoint, items) == Returned(endpoint, items[..end]) + [KeyOf(endpoint, items[end])];
      StoredLeavesOthers(previous, models, endpoint, items[..end], key);
    }
  }

  /** After a refresh: returned models are available as returned, own models not returned are missing, others untouched. */
  lemma RefreshLeaves(models: Models, endpoint: Endpoint, items: seq<Listed>, now: Time, key: Key)
    ensures var after := AfterRefresh(models, endpoint, items, now);
            var previous := OwnModels(models, endpoint);
            if key in Returned(endpoint, items) then
              key in after && after[key].availability == Available && after[key].endpoint == endpoint.id
              && exists i :: 0 <= i < |items| && KeyOf(endpoint, items[i]) == key
                             && after[key] == RefreshedRecord(endpoint, items[i], Find(previous, key))
            else if key in previous then
              Find(after, key) == Some(GoneRecord(previous[key], now))
            else Find(after, key) == Find(models, key)
  {
    var previous := OwnModels(models, endpoint);
    if key in Returned(endpoint, items) {
      var i := LastReturned(endpoint, items, key);
      StoredIsLastReturned(previous, models, endpoint, items, i);
    } else {
      StoredLeavesOthers(previous, models, endpoint, items, key);
    }
  }

  lemma {:induction false} LastReturned(endpoint: Endpoint, items: seq<Listed>, key: Key) returns (i: nat)
    requires key in Returned(endpoint, items)
    ensures i < |items| && KeyOf(endpoint, items[i]) == key
    ensures forall j :: i < j < |items| ==> KeyOf(endpoint, items[j]) != key
    decreases |items|
  {
    i := |items| - 1;
    if KeyOf(endpoint, items[i]) != key {
      assert Returned(endpoint, items) == Returned(endpoint, items[..i]) + [KeyOf(endpoint, items[i])];
      i := LastReturned(endpoint, items[..i], key);
    }
  }

  // ---- how a model comes to be missing ----

  /** A refresh of the endpoint was answered, and the answer left the model out. */
  predicate Omits(op: Op, key: Key) {
    op.Refresh? && op.answer.Some? && key !in Returned(op.endpoint, op.answer.value)
  }

  ghost predicate Omitted(past: seq<Op>, key: Key) {
    exists i :: 0 <= i < |past| && Omits(past[i], key)
  }

  /** Each missing model, and each missing copy that a probe holds, was left out before. */
  ghost predicate MissingExplained(s: State, past: seq<Op>) {
    && (forall key :: key in s.models ==>
          s.models[key].key == key && (s.models[key].availability == Missing ==> Omitted(past, key)))
    && (forall probe :: probe in s.running && s.running[probe].availability == Missing ==> Omitted(past, s.running[probe].key))
  }

  lemma OmittedLater(past: seq<Op>, op: Op, key: Key)
    ensures Omitted(past + [op], key) <==> Omitted(past, key) || Omits(op, key)
  {
    if i :| 0 <= i < |past| && Omits(past[i], key) {
      assert (past + [op])[i] == past[i];
    }
    if Omits(op, key) {
      assert (past + [op])[|past|] == op;
    }
  }

  lemma {:induction false} DiscoveryAdds(models: Models, endpoint: Endpoint, items: seq<Listed>, key: Key)
    requires key in AfterDiscovery(models, endpoint, items)
    ensures var model := AfterDiscovery(models, endpoint, items)[key];
            (key in models && model == models[key]) || (model.key == key && model.availability == Available)
    decreases |items|
  {
    if items != [] {
      var first := KeyOf(endpoint, items[0]);
      DiscoveryAdds(models[first := DiscoveredRecord(endpoint, items[0], Find(models, first))], endpoint, items[1..], key);
    }
  }

  /** What one operation leaves under a key is as before, or not missing, or what a probe held, or left out just now. */
  lemma MissingByOne(s: State, op: Op, key: Key)
    requires forall k :: k in s.models ==> s.models[k].key == k
    requires key in Step(s, op).0.models
    ensures var model := Step(s, op).0.models[key];
            model.key == key
            && (model.availability == Missing ==>
                  || (key in s.models && s.models[key].availability == Missing) || Omits(op, key)
                  || exists probe :: probe in s.running && s.running[probe].key == key && s.running[probe].availability == Missing)
  {
    match op {
      case Discover(endpoint, answer) =>
        if endpoint.enabled && answer.Some? {
          DiscoveryAdds(s.models, endpoint, answer.value, key);
        }
      case Refresh(endpoint, answer, now) =>
        if endpoint.enabled && IsLocal(endpoint) && answer.Some? {
          RefreshLeaves(s.models, endpoint, answer.value, now, key);
        }
      case _ =>
    }
  }

  lemma StepKeepsExplained(s: State, op: Op, past: seq<Op>)
    requires MissingExplained(s, past)
    ensures MissingExplained(Step(s, op).0, past + [op])
  {
    var s' := Step(s, op).0;
    forall key | key in s'.models
      ensures s'.models[key].key == key && (s'.models[key].availability == Missing ==> Omitted(past + [op], key))
    {
      MissingByOne(s, op, key);
      OmittedLater(past, op, key);
    }
    forall probe | probe in s'.running && s'.running[probe].availability == Missing
      ensures Omitted(past + [op], s'.running[probe].key)
    {
      OmittedLater(past, op, s'.running[probe].key);
    }
  }

  lemma {:induction false} RunKeepsExplained(s: State, ops: seq<Op>, past: seq<Op>)
    requires MissingExplained(s, past)
    ensures MissingExplained(Run(s, ops), past + ops)
    decreases |ops|
  {
    if ops == [] {
      assert past + ops == past;
    } else {
      StepKeepsExplained(s, ops[0], past);
      RunKeepsExplained(Step(s, ops[0]).0, ops[1..], past + [ops[0]]);
      assert past + [ops[0]] + ops[1..] == past + ops;
    }
  }

  /** Over any run: a missing model was left out of the answer to some refresh; unanswered refreshes make nothing missing. */
  lemma MissingWasOmitted(ops: seq<Op>, key: Key)
    requires var s := Run(EMPTY, ops); key in s.models && s.models[key].availability == Missing
    ensures Omitted(ops, key)
  {
    RunKeepsExplained(EMPTY, ops, []);
    assert [] + ops == ops;
  }
}
