/**
 * The catalogue's services as they share one store: any number of probes, refreshes, discoveries and removals, each
 * interrupted between any two of its store accesses.
 */
module CatalogSteps {
  import opened Catalog
  import opened Ordering
  import opened Wrappers

  type Process = nat

  /** Where a process is, with the copies it holds. */
  datatype Place =
    | Idle
    | Probing(model: Model)
    | Judged(model: Model, classification: string)
    | Asking(endpoint: Endpoint, previous: Models)
    | Writing(due: seq<Model>)
    | Listing(endpoint: Endpoint, items: seq<Listed>)
    | Comparing(endpoint: Endpoint, items: seq<Listed>, known: Option<Model>)
    | Referring(key: Key)
    | Forgetting(key: Key)

  /** `evidence` are the probe results stored so far; `last` is history: the last verdict written to each model. */
  datatype System = System(
    models: Models, evidence: set<(Key, Evidence)>, last: map<Key, Evidence>, places: map<Process, Place>)

  /** What begins a call, or what it meets at its next step. */
  datatype Choice =
    | StartProbe(key: Key) | Found(classification: string) | Tell
    | StartRefresh(endpoint: Endpoint) | Answer(answer: Option<seq<Listed>>, now: Time)
    | StartDiscovery(endpoint: Endpoint, items: seq<Listed>) | Read
    | Write
    | StartForget(key: Key) | References(otherwise: bool) | Delete

  const START := System(map[], {}, map[], map[])

  function At(s: System, p: Process): Place {
    if p in s.places then s.places[p] else Idle
  }

  function Put(s: System, p: Process, place: Place): System {
    s.(places := s.places[p := place])
  }

  function Save(s: System, model: Model): System {
    s.(models := s.models[model.key := model])
  }

  function Judgement(model: Model, classification: string): Evidence {
    Evidence(model.version, model.checksum, classification)
  }

  /** The model as it was read, with the verdict. */
  function Verdict(model: Model, classification: string): Model {
    model.(classification := classification, probeStale := false, probeState := Current)
  }

  function Renewed(endpoint: Endpoint, previous: Models, item: Listed): Model {
    RefreshedRecord(endpoint, item, Find(previous, KeyOf(endpoint, item)))
  }

  function RefreshedRecords(previous: Models, endpoint: Endpoint, items: seq<Listed>): seq<Model> {
    seq(|items|, i requires 0 <= i < |items| => Renewed(endpoint, previous, items[i]))
  }

  function GoneRecords(previous: Models, names: seq<Key>, now: Time): seq<Model>
    requires forall name :: name in names ==> name in previous
  {
    seq(|names|, i requires 0 <= i < |names| => GoneRecord(previous[names[i]], now))
  }

  function UnreachableRecords(previous: Models, names: seq<Key>): seq<Model>
    requires forall name :: name in names ==> name in previous
  {
    if names == [] then []
    else
      (if previous[names[0]].availability == Missing then [] else [UnreachableRecord(previous[names[0]])])
      + UnreachableRecords(previous, names[1..])
  }

  function MissingNames(previous: Models, endpoint: Endpoint, items: seq<Listed>): (names: seq<Key>)
    ensures forall name :: name in names <==> name in previous && name !in Returned(endpoint, items)
  {
    SortedNames(previous.Keys - Elements(Returned(endpoint, items)))
  }

  /** All a refresh writes once the endpoint has answered, or not: it follows from the answer and the copy read before. */
  function DueRecords(endpoint: Endpoint, previous: Models, answer: Option<seq<Listed>>, now: Time): seq<Model> {
    match answer
    case None => UnreachableRecords(previous, SortedNames(previous.Keys))
    case Some(items) =>
      RefreshedRecords(previous, endpoint, items) + GoneRecords(previous, MissingNames(previous, endpoint, items), now)
  }

  predicate Tested(s: System, key: Key) {
    exists e :: e in s.evidence && e.0 == key
  }

  /** One step of one process. */
  function Act(s: System, p: Process, choice: Choice): System {
    match (At(s, p), choice)
    case (Idle, StartProbe(key)) => if key in s.models then Put(s, p, Probing(s.models[key])) else s
    case (Probing(model), Found(classification)) =>
      Put(s.(evidence := s.evidence + {(model.key, Judgement(model, classification))}), p, Judged(model, classification))
    case (Judged(model, classification), Tell) =>
      Put(Save(s.(last := s.last[model.key := Judgement(model, classification)]), Verdict(model, classification)), p, Idle)
    case (Idle, StartRefresh(endpoint)) =>
      if endpoint.enabled && IsLocal(endpoint) then Put(s, p, Asking(endpoint, OwnModels(s.models, endpoint))) else s
    case (Asking(endpoint, previous), Answer(answer, now)) =>
      Put(s, p, Writing(DueRecords(endpoint, previous, answer, now)))
    case (Writing(due), Write) =>
      if due == [] then Put(s, p, Idle) else Put(Save(s, due[0]), p, Writing(due[1..]))
    case (Idle, StartDiscovery(endpoint, items)) => if endpoint.enabled then Put(s, p, Listing(endpoint, items)) else s
    case (Listing(endpoint, items), Read) =>
      if items == [] then Put(s, p, Idle)
      else Put(s, p, Comparing(endpoint, items, Find(s.models, KeyOf(endpoint, items[0]))))
    case (Comparing(endpoint, items, known), Write) =>
      if items == [] then s
      else Put(Save(s, DiscoveredRecord(endpoint, items[0], known)), p, Listing(endpoint, items[1..]))
    case (Idle, StartForget(key)) =>
      if key in s.models && s.models[key].availability != Available then Put(s, p, Referring(key)) else s
    case (Referring(key), References(otherwise)) =>
      Put(s, p, if otherwise || Tested(s, key) then Idle else Forgetting(key))
    case (Forgetting(key), Delete) => Put(s.(models := s.models - {key}), p, Idle)
    case _ => s
  }

  function RunActs(s: System, run: seq<(Process, Choice)>): System
    decreases |run|
  {
    if run == [] then s else RunActs(Act(s, run[0].0, run[0].1), run[1..])
  }

  // ---- whatever the interleaving: no verdict without its probe ----

  /** A current verdict is one that some stored probe found of this version. */
  ghost predicate Backed(evidence: set<(Key, Evidence)>, model: Model) {
    && (model.probeStale <==> model.probeState != Current)
    && (model.probeState == Current ==> (model.key, Judgement(model, model.classification)) in evidence)
  }

  ghost predicate AllBacked(evidence: set<(Key, Evidence)>, models: Models) {
    forall key :: key in models ==> models[key].key == key && Backed(evidence, models[key])
  }

  ghost predicate PlaceBacked(evidence: set<(Key, Evidence)>, place: Place) {
    match place
    case Judged(model, classification) => (model.key, Judgement(model, classification)) in evidence
    case Asking(_, previous) => AllBacked(evidence, previous)
    case Writing(due) => EachBacked(evidence, due)
    case Comparing(endpoint, items, known) =>
      items != [] && Backed(evidence, DiscoveredRecord(endpoint, items[0], known))
    case _ => true
  }

  ghost predicate LastIsStored(s: System) {
    forall key :: key in s.last ==> (key, s.last[key]) in s.evidence
  }

  ghost predicate Sane(s: System) {
    && AllBacked(s.evidence, s.models)
    && LastIsStored(s)
    && (forall p :: p in s.places ==> PlaceBacked(s.evidence, s.places[p]))
  }

  lemma MoreBacks(evidence: set<(Key, Evidence)>, more: set<(Key, Evidence)>, place: Place)
    requires PlaceBacked(evidence, place) && evidence <= more
    ensures PlaceBacked(more, place)
  {
  }

  ghost predicate EachBacked(evidence: set<(Key, Evidence)>, due: seq<Model>) {
    forall i :: 0 <= i < |due| ==> Backed(evidence, due[i])
  }

  lemma RenewedAreBacked(evidence: set<(Key, Evidence)>, previous: Models, endpoint: Endpoint, items: seq<Listed>)
    requires AllBacked(evidence, previous)
    ensures EachBacked(evidence, RefreshedRecords(previous, endpoint, items))
  {
  }

  lemma GoneAreBacked(evidence: set<(Key, Evidence)>, previous: Models, names: seq<Key>, now: Time)
    requires AllBacked(evidence, previous) && forall name :: name in names ==> name in previous
    ensures EachBacked(evidence, GoneRecords(previous, names, now))
  {
  }

  lemma {:induction false} UnreachableAreBacked(evidence: set<(Key, Evidence)>, previous: Models, names: seq<Key>)
    requires AllBacked(evidence, previous) && forall name :: name in names ==> name in previous
    ensures EachBacked(evidence, UnreachableRecords(previous, names))
  {
    if names != [] {
      UnreachableAreBacked(evidence, previous, names[1..]);
      assert Backed(evidence, UnreachableRecord(previous[names[0]]));
    }
  }

  /** A refresh adds no verdict of its own: what it writes is backed as well as the copy it read. */
  lemma DueIsBacked(evidence: set<(Key, Evidence)>, endpoint: Endpoint, previous: Models, answer: Option<seq<Listed>>, now: Time)
    requires AllBacked(evidence, previous)
    ensures EachBacked(evidence, DueRecords(endpoint, previous, answer, now))
  {
    if answer.None? {
      UnreachableAreBacked(evidence, previous, SortedNames(previous.Keys));
    } else {
      RenewedAreBacked(evidence, previous, endpoint, answer.value);
      GoneAreBacked(evidence, previous, MissingNames(previous, endpoint, answer.value), now);
    }
  }

  /** Only process `p` moved. */
  lemma MoveKeepsSane(s: System, s': System, p: Process)
    requires Sane(s) && s.evidence <= s'.evidence && p in s'.places && s'.places == s.places[p := s'.places[p]]
    requires AllBacked(s'.evidence, s'.models) && LastIsStored(s')
    requires PlaceBacked(s'.evidence, s'.places[p])
    ensures Sane(s')
  {
    forall q | q in s'.places ensures PlaceBacked(s'.evidence, s'.places[q]) {
      if q != p {
        MoreBacks(s.evidence, s'.evidence, s.places[q]);
      }
    }
  }

  lemma AnswerIsBacked(s: System, p: Process, answer: Option<seq<Listed>>, now: Time)
    requires At(s, p).Asking? && PlaceBacked(s.evidence, At(s, p))
    ensures PlaceBacked(s.evidence, At(Act(s, p, Answer(answer, now)), p))
  {
    DueIsBacked(s.evidence, At(s, p).endpoint, At(s, p).previous, answer, now);
  }

  lemma ActBacksModels(s: System, p: Process, choice: Choice)
    requires Sane(s) && Act(s, p, choice) != s
    ensures AllBacked(Act(s, p, choice).evidence, Act(s, p, choice).models)
  {
    assert PlaceBacked(s.evidence, At(s, p));
  }

  lemma ActBacksPlace(s: System, p: Process, choice: Choice)
    requires Sane(s) && Act(s, p, choice) != s
    ensures PlaceBacked(Act(s, p, choice).evidence, At(Act(s, p, choice), p))
  {
    assert PlaceBacked(s.evidence, At(s, p));
    if choice.Answer? {
      AnswerIsBacked(s, p, choice.answer, choice.now);
    }
  }

  lemma ActMoves(s: System, p: Process, choice: Choice)
    requires Sane(s) && Act(s, p, choice) != s
    ensures var s' := Act(s, p, choice);
            s.evidence <= s'.evidence && p in s'.places && s'.places == s.places[p := s'.places[p]]
    ensures LastIsStored(Act(s, p, choice))
  {
    assert PlaceBacked(s.evidence, At(s, p));
  }

  lemma ActKeepsSane(s: System, p: Process, choice: Choice)
    requires Sane(s)
    ensures Sane(Act(s, p, choice)) && s.evidence <= Act(s, p, choice).evidence
  {
    var s' := Act(s, p, choice);
    if s' != s {
      ActBacksModels(s, p, choice);
      ActBacksPlace(s, p, choice);
      ActMoves(s, p, choice);
      MoveKeepsSane(s, s', p);
    }
  }

  lemma {:induction false} RunKeepsSane(s: System, run: seq<(Process, Choice)>)
    requires Sane(s)
    ensures Sane(RunActs(s, run)) && s.evidence <= RunActs(s, run).evidence
    decreases |run|
  {
    if run != [] {
      ActKeepsSane(s, run[0].0, run[0].1);
      RunKeepsSane(Act(s, run[0].0, run[0].1), run[1..]);
    }
  }

  /** Under every interleaving: what passes the probe gate was probed, at the catalogued version, as the class required. */
  lemma AcceptedWasOnceProbed(run: seq<(Process, Choice)>, key: Key, required: string)
    requires var s := RunActs(START, run); key in s.models && ProbeAccepted(s.models[key], required)
    ensures var s := RunActs(START, run); (key, Judgement(s.models[key], required)) in s.evidence
  {
    RunKeepsSane(START, run);
  }

  // ---- the last probe counts: exactly when ----

  /** Every current record shows the last verdict under its key, and no probed model is lost. */
  ghost predicate Trusted(s: System) {
    AllVouched(s.last, s.models) && s.last.Keys <= s.models.Keys
  }

  /** Nothing that a process here will write, or delete, contradicts the last verdicts. */
  ghost predicate PlaceSafe(last: map<Key, Evidence>, place: Place) {
    match place
    case Asking(_, previous) => AllVouched(last, previous)
    case Writing(due) => forall i :: 0 <= i < |due| ==> Vouched(last, due[i])
    case Comparing(endpoint, items, known) => items != [] && Vouched(last, DiscoveredRecord(endpoint, items[0], known))
    case Forgetting(key) => key !in last
    case _ => true
  }

  ghost predicate Safe(s: System) {
    Trusted(s) && forall p :: p in s.places ==> PlaceSafe(s.last, s.places[p])
  }

  /** Vouched for by the last verdicts is backed by them. */
  lemma VouchedIsBacked(last: map<Key, Evidence>, model: Model)
    ensures Vouched(last, model) <==> Backed(last.Items, model)
  {
  }

  lemma DueIsSafe(last: map<Key, Evidence>, endpoint: Endpoint, previous: Models, answer: Option<seq<Listed>>, now: Time)
    requires AllVouched(last, previous)
    ensures PlaceSafe(last, Writing(DueRecords(endpoint, previous, answer, now)))
  {
    forall model ensures Vouched(last, model) <==> Backed(last.Items, model) {
      VouchedIsBacked(last, model);
    }
    DueIsBacked(last.Items, endpoint, previous, answer, now);
  }

  lemma AnswerIsSafe(s: System, p: Process, answer: Option<seq<Listed>>, now: Time)
    requires At(s, p).Asking? && PlaceSafe(s.last, At(s, p))
    ensures PlaceSafe(s.last, At(Act(s, p, Answer(answer, now)), p))
  {
    DueIsSafe(s.last, At(s, p).endpoint, At(s, p).previous, answer, now);
  }

  lemma ReferencesAreSafe(s: System, p: Process, otherwise: bool)
    requires Sane(s) && At(s, p).Referring?
    ensures PlaceSafe(s.last, At(Act(s, p, References(otherwise)), p))
  {
    var key := At(s, p).key;
    assert key in s.last ==> (key, s.last[key]) in s.evidence;
  }

  lemma WriteIsTrusted(s: System, p: Process)
    requires Trusted(s) && PlaceSafe(s.last, At(s, p))
    ensures Trusted(Act(s, p, Write))
  {
  }

  /** The record a refresh or a discovery writes next is vouched for. */
  lemma WriteIsSafe(s: System, p: Process)
    requires PlaceSafe(s.last, At(s, p))
    ensures PlaceSafe(s.last, At(Act(s, p, Write), p))
  {
  }

  lemma QuietTrusts(s: System, p: Process, choice: Choice)
    requires Sane(s) && Safe(s) && !choice.Tell? && Act(s, p, choice) != s
    ensures Trusted(Act(s, p, choice))
  {
    assert PlaceSafe(s.last, At(s, p));
    if choice.Write? {
      WriteIsTrusted(s, p);
    }
  }

  lemma QuietPlace(s: System, p: Process, choice: Choice)
    requires Sane(s) && Safe(s) && !choice.Tell? && Act(s, p, choice) != s
    ensures PlaceSafe(s.last, At(Act(s, p, choice), p))
  {
    assert PlaceSafe(s.last, At(s, p));
    match choice {
      case Answer(answer, now) => AnswerIsSafe(s, p, answer, now);
      case References(otherwise) => ReferencesAreSafe(s, p, otherwise);
      case Write => WriteIsSafe(s, p);
      case _ =>
    }
  }

  ghost predicate OnlyMoves(s: System, s': System, p: Process) {
    s'.last == s.last && p in s'.places && s'.places == s.places[p := s'.places[p]]
  }

  lemma QuietMoves(s: System, p: Process, choice: Choice)
    requires !choice.Tell? && Act(s, p, choice) != s
    ensures OnlyMoves(s, Act(s, p, choice), p)
  {
  }

  lemma MoveKeepsSafe(s: System, s': System, p: Process)
    requires Safe(s) && Trusted(s') && OnlyMoves(s, s', p) && PlaceSafe(s.last, At(s', p))
    ensures Safe(s')
  {
  }

  /** Without a verdict written, safe stays safe. */
  lemma QuietStepKeepsSafe(s: System, p: Process, choice: Choice)
    requires Sane(s) && Safe(s) && !choice.Tell?
    ensures Safe(Act(s, p, choice))
  {
    var s' := Act(s, p, choice);
    if s' != s {
      QuietTrusts(s, p, choice);
      QuietPlace(s, p, choice);
      QuietMoves(s, p, choice);
      MoveKeepsSafe(s, s', p);
    }
  }

  predicate Quiet(run: seq<(Process, Choice)>) {
    forall i :: 0 <= i < |run| ==> !run[i].1.Tell?
  }

  lemma {:induction false} QuietRunKeepsSafe(s: System, run: seq<(Process, Choice)>)
    requires Sane(s) && Safe(s) && Quiet(run)
    ensures Safe(RunActs(s, run))
    decreases |run|
  {
    if run != [] {
      QuietStepKeepsSafe(s, run[0].0, run[0].1);
      ActKeepsSane(s, run[0].0, run[0].1);
      QuietRunKeepsSafe(Act(s, run[0].0, run[0].1), run[1..]);
    }
  }

  /** A refresh writes on until it has written what nothing vouches for. */
  lemma {:induction false} WritesThrough(s: System, p: Process, j: nat) returns (run: seq<(Process, Choice)>)
    requires At(s, p).Writing? && j < |At(s, p).due| && !Vouched(s.last, At(s, p).due[j])
    ensures Quiet(run) && !Trusted(RunActs(s, run))
    decreases j
  {
    var s' := Act(s, p, Write);
    if j == 0 {
      run := [(p, Write)];
      assert s'.models[At(s, p).due[0].key] == At(s, p).due[0];
      assert RunActs(s', []) == s' && run[1..] == [];
    } else {
      var rest := WritesThrough(s', p, j - 1);
      run := [(p, Write)] + rest;
      assert run[1..] == rest;
    }
  }

  lemma FirstAct(s: System, p: Process, choice: Choice, rest: seq<(Process, Choice)>)
    ensures RunActs(s, [(p, choice)] + rest) == RunActs(Act(s, p, choice), rest)
  {
    assert ([(p, choice)] + rest)[1..] == rest;
  }

  lemma IsMissing(previous: Models, endpoint: Endpoint, key: Key) returns (j: nat)
    requires key in previous
    ensures j < |MissingNames(previous, endpoint, [])| && MissingNames(previous, endpoint, [])[j] == key
  {
    assert key !in Returned(endpoint, []);
    assert key in MissingNames(previous, endpoint, []);
    j :| 0 <= j < |MissingNames(previous, endpoint, [])| && MissingNames(previous, endpoint, [])[j] == key;
  }

  lemma NothingRenewed(previous: Models, endpoint: Endpoint, gone: seq<Model>)
    ensures RefreshedRecords(previous, endpoint, []) + gone == gone
  {
  }

  lemma EmptyAnswerRewrites(endpoint: Endpoint, previous: Models, key: Key) returns (j: nat)
    requires key in previous
    ensures var due := DueRecords(endpoint, previous, Some([]), ""); j < |due| && due[j] == GoneRecord(previous[key], "")
  {
    j := IsMissing(previous, endpoint, key);
    NothingRenewed(previous, endpoint, GoneRecords(previous, MissingNames(previous, endpoint, []), ""));
  }

  lemma AnswerPuts(s: System, p: Process, endpoint: Endpoint, previous: Models, answer: Option<seq<Listed>>, now: Time)
    requires At(s, p) == Asking(endpoint, previous)
    ensures Act(s, p, Answer(answer, now)) == Put(s, p, Writing(DueRecords(endpoint, previous, answer, now)))
  {
  }

  lemma EmptyAnswerIsUnsafe(s: System, p: Process, key: Key) returns (j: nat)
    requires At(s, p).Asking? && key in At(s, p).previous && !Vouched(s.last, At(s, p).previous[key])
    ensures var s' := Act(s, p, Answer(Some([]), ""));
            At(s', p).Writing? && j < |At(s', p).due| && !Vouched(s'.last, At(s', p).due[j])
  {
    j := EmptyAnswerRewrites(At(s, p).endpoint, At(s, p).previous, key);
    AnswerPuts(s, p, At(s, p).endpoint, At(s, p).previous, Some([]), "");
    assert !Vouched(s.last, GoneRecord(At(s, p).previous[key], ""));
  }

  lemma {:induction false} AsksThrough(s: System, p: Process, key: Key) returns (run: seq<(Process, Choice)>)
    requires At(s, p).Asking? && key in At(s, p).previous && !Vouched(s.last, At(s, p).previous[key])
    ensures Quiet(run) && !Trusted(RunActs(s, run))
  {
    var j := EmptyAnswerIsUnsafe(s, p, key);
    var choice := Answer(Some([]), "");
    var rest := WritesThrough(Act(s, p, choice), p, j);
    FirstAct(s, p, choice, rest);
    run := [(p, choice)] + rest;
  }

  lemma {:induction false} UnsafeBreaks(s: System) returns (run: seq<(Process, Choice)>)
    requires Sane(s) && !Safe(s)
    ensures Quiet(run) && !Trusted(RunActs(s, run))
  {
    if !Trusted(s) {
      return [];
    }
    var p :| p in s.places && !PlaceSafe(s.last, s.places[p]);
    assert PlaceBacked(s.evidence, s.places[p]);
    match s.places[p] {
      case Asking(_, previous) =>
        var key :| key in previous && !(previous[key].key == key && Vouched(s.last, previous[key]));
        run := AsksThrough(s, p, key);
      case Writing(due) =>
        var j :| 0 <= j < |due| && !Vouched(s.last, due[j]);
        run := WritesThrough(s, p, j);
      case Comparing(endpoint, items, known) =>
        run := [(p, Write)];
        OneAct(s, p, Write);
        var model := DiscoveredRecord(endpoint, items[0], known);
        assert Act(s, p, Write).models[model.key] == model;
      case Forgetting(key) =>
        run := [(p, Delete)];
        OneAct(s, p, Delete);
    }
  }

  lemma OneAct(s: System, p: Process, choice: Choice)
    ensures RunActs(s, [(p, choice)]) == Act(s, p, choice)
  {
    assert RunActs(Act(s, p, choice), [(p, choice)][1..]) == Act(s, p, choice);
  }

  /** Safe means: however the other calls go on, nothing goes wrong before the next verdict. */
  lemma SafeIsExact(s: System)
    requires Sane(s)
    ensures Safe(s) <==> forall run :: Quiet(run) ==> Trusted(RunActs(s, run))
  {
    if Safe(s) {
      forall run | Quiet(run) ensures Trusted(RunActs(s, run)) {
        QuietRunKeepsSafe(s, run);
      }
    } else {
      var run := UnsafeBreaks(s);
    }
  }

  /** No other call holds a current copy of the model with other evidence, or is about to delete it. */
  ghost predicate Undisturbed(place: Place, key: Key, e: Evidence) {
    match place
    case Asking(_, previous) =>
      key in previous && previous[key].probeState == Current ==> Judgement(previous[key], previous[key].classification) == e
    case Writing(due) =>
      forall i :: 0 <= i < |due| && due[i].key == key && due[i].probeState == Current ==>
        Judgement(due[i], due[i].classification) == e
    case Comparing(endpoint, items, known) =>
      items != [] &&
      var model := DiscoveredRecord(endpoint, items[0], known);
      model.key == key && model.probeState == Current ==> Judgement(model, model.classification) == e
    case Forgetting(k) => k != key
    case _ => true
  }

  ghost predicate VerdictClear(s: System, key: Key, e: Evidence) {
    forall q :: q in s.places ==> Undisturbed(s.places[q], key, e)
  }

  lemma VerdictKeepsPlace(last: map<Key, Evidence>, evidence: set<(Key, Evidence)>, place: Place, key: Key, e: Evidence)
    requires PlaceSafe(last, place) && PlaceBacked(evidence, place)
    ensures PlaceSafe(last[key := e], place) <==> Undisturbed(place, key, e)
  {
  }

  /** A verdict leaves everything safe exactly when no other call is in the middle of rewriting or deleting its model. */
  lemma VerdictKeepsSafeExactly(s: System, p: Process)
    requires Sane(s) && Safe(s) && At(s, p).Judged?
    ensures var model := At(s, p).model;
            Safe(Act(s, p, Tell)) <==> VerdictClear(s, model.key, Judgement(model, At(s, p).classification))
  {
    var model, classification := At(s, p).model, At(s, p).classification;
    var e := Judgement(model, classification);
    var s' := Act(s, p, Tell);
    assert Trusted(s');
    forall q | q in s.places ensures PlaceSafe(s'.last, s'.places[q]) <==> Undisturbed(s.places[q], model.key, e) {
      VerdictKeepsPlace(s.last, s.evidence, s.places[q], model.key, e);
    }
  }

  /** Each verdict of the run is written while no other call is in its way. */
  ghost predicate Disciplined(s: System, run: seq<(Process, Choice)>)
    decreases |run|
  {
    run == [] ||
    (var (p, choice) := run[0];
     && (choice.Tell? && At(s, p).Judged? ==>
           VerdictClear(s, At(s, p).model.key, Judgement(At(s, p).model, At(s, p).classification)))
     && Disciplined(Act(s, p, choice), run[1..]))
  }

  ghost predicate AlwaysSafe(s: System, run: seq<(Process, Choice)>)
    decreases |run|
  {
    Safe(s) && (run == [] || AlwaysSafe(Act(s, run[0].0, run[0].1), run[1..]))
  }

  /** A run is safe throughout exactly when it is disciplined. */
  lemma {:induction false} DisciplineIsExact(s: System, run: seq<(Process, Choice)>)
    requires Sane(s) && Safe(s)
    ensures AlwaysSafe(s, run) <==> Disciplined(s, run)
    decreases |run|
  {
    if run != [] {
      var p, choice := run[0].0, run[0].1;
      var s' := Act(s, p, choice);
      ActKeepsSane(s, p, choice);
      if choice.Tell? && At(s, p).Judged? {
        VerdictKeepsSafeExactly(s, p);
      } else if choice.Tell? {
        assert s' == s;
      } else {
        QuietStepKeepsSafe(s, p, choice);
      }
      if Safe(s') {
        DisciplineIsExact(s', run[1..]);
      }
    }
  }

  lemma {:induction false} AlwaysSafeEndsSafe(s: System, run: seq<(Process, Choice)>)
    requires AlwaysSafe(s, run)
    ensures Safe(RunActs(s, run))
    decreases |run|
  {
    if run != [] {
      AlwaysSafeEndsSafe(Act(s, run[0].0, run[0].1), run[1..]);
    }
  }

  /** After a disciplined run what passes the gate shows the last verdict, and every probed model is in the catalogue. */
  lemma DisciplinedIsTrusted(run: seq<(Process, Choice)>)
    requires Disciplined(START, run)
    ensures Trusted(RunActs(START, run))
    ensures var s := RunActs(START, run);
            forall key, required :: key in s.models && ProbeAccepted(s.models[key], required) ==>
              key in s.last && s.last[key] == Judgement(s.models[key], required)
  {
    DisciplineIsExact(START, run);
    AlwaysSafeEndsSafe(START, run);
  }

  // ---- what a caller can arrange: no refresh, discovery or removal of a model while its verdict is written ----

  /** The process holds a copy of the model, or is about to delete it. */
  predicate Busy(place: Place, key: Key) {
    match place
    case Asking(_, previous) => key in previous
    case Writing(due) => exists i :: 0 <= i < |due| && due[i].key == key
    case Comparing(endpoint, items, _) => items != [] && KeyOf(endpoint, items[0]) == key
    case Forgetting(k) => k == key
    case _ => false
  }

  lemma IdleIsUndisturbed(evidence: set<(Key, Evidence)>, place: Place, key: Key, e: Evidence)
    requires PlaceBacked(evidence, place) && !Busy(place, key)
    ensures Undisturbed(place, key, e)
  {
  }

  /** Each verdict of the run is written while nobody is busy with its model. */
  ghost predicate Separate(s: System, run: seq<(Process, Choice)>)
    decreases |run|
  {
    run == [] ||
    (var (p, choice) := run[0];
     && (choice.Tell? && At(s, p).Judged? ==> forall q :: q in s.places ==> !Busy(s.places[q], At(s, p).model.key))
     && Separate(Act(s, p, choice), run[1..]))
  }

  /** Such a run is disciplined. */
  lemma {:induction false} SeparateIsDisciplined(s: System, run: seq<(Process, Choice)>)
    requires Sane(s) && Separate(s, run)
    ensures Disciplined(s, run)
    decreases |run|
  {
    if run != [] {
      var p, choice := run[0].0, run[0].1;
      ActKeepsSane(s, p, choice);
      SeparateIsDisciplined(Act(s, p, choice), run[1..]);
      if choice.Tell? && At(s, p).Judged? {
        var model := At(s, p).model;
        forall q | q in s.places ensures Undisturbed(s.places[q], model.key, Judgement(model, At(s, p).classification)) {
          IdleIsUndisturbed(s.evidence, s.places[q], model.key, Judgement(model, At(s, p).classification));
        }
      }
    }
  }

  // ---- a verdict writes the whole model ----

  /** The model without its verdict: what listings say of it. */
  function Bare(model: Model): Model {
    model.(classification := "", probeState := Absent, probeStale := false)
  }

  /** The model stands as it does here, apart from its verdict. */
  ghost predicate StandsAs(models: Models, key: Key, model: Model) {
    key in models && Bare(models[key]) == Bare(model)
  }

  predicate HoldsCopy(place: Place, model: Model) {
    place == Probing(model) || (place.Judged? && place.model == model)
  }

  /** The probe's copy stays the same until it writes its verdict. */
  lemma {:induction false} CopyStays(s: System, p: Process, model: Model, run: seq<(Process, Choice)>)
    requires HoldsCopy(At(s, p), model)
    requires forall i :: 0 <= i < |run| && run[i].0 == p ==> !run[i].1.Tell?
    ensures HoldsCopy(At(RunActs(s, run), p), model)
    decreases |run|
  {
    if run != [] {
      CopyStaysOnce(s, p, model, run[0].0, run[0].1);
      CopyStays(Act(s, run[0].0, run[0].1), p, model, run[1..]);
    }
  }

  lemma CopyStaysOnce(s: System, p: Process, model: Model, q: Process, choice: Choice)
    requires HoldsCopy(At(s, p), model) && (q == p ==> !choice.Tell?)
    ensures HoldsCopy(At(Act(s, q, choice), p), model)
  {
  }

  /**
   * Whatever happened while a model was probed, its verdict leaves the model listed as when the probe began. So it keeps
   * what the catalogue has by then exactly if that is the same again.
   */
  lemma VerdictRestoresListing(s: System, p: Process, key: Key, run: seq<(Process, Choice)>)
    requires At(s, p) == Idle && key in s.models && s.models[key].key == key
    requires forall i :: 0 <= i < |run| && run[i].0 == p ==> !run[i].1.Tell?
    requires At(RunActs(Act(s, p, StartProbe(key)), run), p).Judged?
    ensures var before := RunActs(Act(s, p, StartProbe(key)), run);
            var after := Act(before, p, Tell);
            && StandsAs(after.models, key, s.models[key])
            && (key in before.models && StandsAs(after.models, key, before.models[key]) <==>
                  StandsAs(before.models, key, s.models[key]))
  {
    var model := s.models[key];
    var started := Act(s, p, StartProbe(key));
    CopyStays(started, p, model, run);
    var before := RunActs(started, run);
    assert Act(before, p, Tell).models[key] == Verdict(model, At(before, p).classification);
  }

  /** No step of the run changes what is stored under the key. */
  ghost predicate Untouched(s: System, run: seq<(Process, Choice)>, key: Key)
    decreases |run|
  {
    run == [] ||
    (var next := Act(s, run[0].0, run[0].1);
     Find(next.models, key) == Find(s.models, key) && Untouched(next, run[1..], key))
  }

  lemma {:induction false} UntouchedStays(s: System, run: seq<(Process, Choice)>, key: Key)
    requires Untouched(s, run, key)
    ensures Find(RunActs(s, run).models, key) == Find(s.models, key)
    decreases |run|
  {
    if run != [] {
      UntouchedStays(Act(s, run[0].0, run[0].1), run[1..], key);
    }
  }

  /** So a verdict undoes no listing if nobody writes or removes the model while it is probed. */
  lemma UntouchedVerdictKeepsListing(s: System, p: Process, key: Key, run: seq<(Process, Choice)>)
    requires At(s, p) == Idle && key in s.models && s.models[key].key == key
    requires forall i :: 0 <= i < |run| && run[i].0 == p ==> !run[i].1.Tell?
    requires At(RunActs(Act(s, p, StartProbe(key)), run), p).Judged? && Untouched(Act(s, p, StartProbe(key)), run, key)
    ensures var before := RunActs(Act(s, p, StartProbe(key)), run);
            key in before.models && StandsAs(Act(before, p, Tell).models, key, before.models[key])
  {
    VerdictRestoresListing(s, p, key, run);
    UntouchedStays(Act(s, p, StartProbe(key)), run, key);
  }

  // ---- three interleavings that go wrong ----

  lemma {:induction false} ThenAct(s: System, run: seq<(Process, Choice)>, p: Process, choice: Choice)
    ensures RunActs(s, run + [(p, choice)]) == Act(RunActs(s, run), p, choice)
    decreases |run|
  {
    if run == [] {
      assert run + [(p, choice)] == [(p, choice)];
      OneAct(s, p, choice);
    } else {
      assert (run + [(p, choice)])[1..] == run[1..] + [(p, choice)];
      ThenAct(Act(s, run[0].0, run[0].1), run[1..], p, choice);
    }
  }

  ghost predicate Reached(s: System) {
    exists run :: RunActs(START, run) == s
  }

  lemma ReachNext(s: System, p: Process, choice: Choice)
    requires Reached(s)
    ensures Reached(Act(s, p, choice))
  {
    var run :| RunActs(START, run) == s;
    ThenAct(START, run, p, choice);
  }

  lemma StartIsReached()
    ensures Reached(START)
  {
    assert RunActs(START, []) == START;
  }

  /** One model was discovered. */
  function Known(endpoint: Endpoint, item: Listed): System {
    System(map[KeyOf(endpoint, item) := DiscoveredRecord(endpoint, item, None)], {}, map[], map[0 := Listing(endpoint, [])])
  }

  lemma ListedIsReached(endpoint: Endpoint, item: Listed)
    requires endpoint.enabled
    ensures Reached(START.(places := map[0 := Listing(endpoint, [item])]))
  {
    StartIsReached();
    ReachNext(START, 0, StartDiscovery(endpoint, [item]));
    assert Act(START, 0, StartDiscovery(endpoint, [item])) == START.(places := map[0 := Listing(endpoint, [item])]);
  }

  lemma KnownIsReached(endpoint: Endpoint, item: Listed)
    requires endpoint.enabled
    ensures Reached(Known(endpoint, item))
  {
    ListedIsReached(endpoint, item);
    var listing := START.(places := map[0 := Listing(endpoint, [item])]);
    ReachNext(listing, 0, Read);
    var comparing := START.(places := map[0 := Comparing(endpoint, [item], None)]);
    assert Act(listing, 0, Read) == comparing;
    ReachNext(comparing, 0, Write);
    assert [item][1..] == [];
    assert Act(comparing, 0, Write) == Known(endpoint, item);
  }

  /** Process `p`, idle so far, probes the model from beginning to end. */
  function Probed(s: System, p: Process, key: Key, classification: string): System
    requires key in s.models
  {
    var e := Judgement(s.models[key], classification);
    System(s.models[s.models[key].key := Verdict(s.models[key], classification)], s.evidence + {(s.models[key].key, e)},
           s.last[s.models[key].key := e], s.places[p := Idle])
  }

  lemma ProbedIsReached(s: System, p: Process, key: Key, classification: string)
    requires Reached(s) && At(s, p) == Idle && key in s.models
    ensures Reached(Probed(s, p, key, classification))
  {
    var a := Act(s, p, StartProbe(key));
    ReachNext(s, p, StartProbe(key));
    var b := Act(a, p, Found(classification));
    ReachNext(a, p, Found(classification));
    ReachNext(b, p, Tell);
    assert Act(b, p, Tell) == Probed(s, p, key, classification);
  }

  /**
   * A model is found good, and a refresh reads it. Another probe finds otherwise before the endpoint has answered. The
   * refresh then writes back what it read: the model passes the gate against its last probe.
   */
  lemma RefreshOverturnsVerdict(endpoint: Endpoint, item: Listed, good: string, bad: string, now: Time)
    requires endpoint.enabled && IsLocal(endpoint) && good != bad
    ensures exists s :: Reached(s) && KeyOf(endpoint, item) in s.models && ProbeAccepted(s.models[KeyOf(endpoint, item)], good)
                        && s.last == map[KeyOf(endpoint, item) := Evidence(item.version, item.checksum, bad)]
  {
    var key := KeyOf(endpoint, item);
    KnownIsReached(endpoint, item);
    ProbedIsReached(Known(endpoint, item), 1, key, good);
    var found := Probed(Known(endpoint, item), 1, key, good);
    ReachNext(found, 2, StartRefresh(endpoint));
    var asking := Act(found, 2, StartRefresh(endpoint));
    assert asking == Put(found, 2, Asking(endpoint, found.models)) by {
      assert OwnModels(found.models, endpoint) == found.models;
    }
    ProbedIsReached(asking, 1, key, bad);
    OverturnedIsReached(Probed(asking, 1, key, bad), 2, endpoint, item, now);
  }

  /** The endpoint still lists the model as the refresh had read it. */
  lemma OverturnedIsReached(s: System, p: Process, endpoint: Endpoint, item: Listed, now: Time)
    requires Reached(s) && At(s, p).Asking? && At(s, p).endpoint == endpoint
    requires KeyOf(endpoint, item) in At(s, p).previous && !Changed(Some(At(s, p).previous[KeyOf(endpoint, item)]), item)
    ensures exists s' :: Reached(s') && s'.last == s.last && KeyOf(endpoint, item) in s'.models
                         && s'.models[KeyOf(endpoint, item)] == Renewed(endpoint, At(s, p).previous, item)
  {
    var previous := At(s, p).previous;
    ReachNext(s, p, Answer(Some([item]), now));
    AnswerPuts(s, p, endpoint, previous, Some([item]), now);
    var due := DueRecords(endpoint, previous, Some([item]), now);
    FirstIsRenewed(endpoint, previous, item, now);
    WriteIsReached(Put(s, p, Writing(due)), p);
  }

  lemma FirstIsRenewed(endpoint: Endpoint, previous: Models, item: Listed, now: Time)
    ensures DueRecords(endpoint, previous, Some([item]), now) != []
    ensures DueRecords(endpoint, previous, Some([item]), now)[0] == Renewed(endpoint, previous, item)
  {
  }

  lemma WriteIsReached(s: System, p: Process)
    requires Reached(s) && At(s, p).Writing? && At(s, p).due != []
    ensures exists s' :: Reached(s') && s'.last == s.last && At(s, p).due[0].key in s'.models
                         && s'.models[At(s, p).due[0].key] == At(s, p).due[0]
  {
    ReachNext(s, p, Write);
    var s' := Act(s, p, Write);
    assert s'.last == s.last && s'.models == s.models[At(s, p).due[0].key := At(s, p).due[0]];
  }

  /** The model was listed anew while its probe, which has found it to be of the class, was under way. */
  function Relisted(endpoint: Endpoint, item: Listed, again: Listed, classification: string): System {
    var model := DiscoveredRecord(endpoint, item, None);
    var renewed := DiscoveredRecord(endpoint, again, Some(model));
    System(map[KeyOf(endpoint, item) := renewed], {(model.key, Judgement(model, classification))}, map[],
           map[0 := Listing(endpoint, []), 1 := Judged(model, classification), 2 := Listing(endpoint, [])])
  }

  lemma RelistedIsReached(endpoint: Endpoint, item: Listed, again: Listed, classification: string)
    requires endpoint.enabled && again.id == item.id
    ensures Reached(Relisted(endpoint, item, again, classification))
  {
    var key := KeyOf(endpoint, item);
    var model := DiscoveredRecord(endpoint, item, None);
    var known := Known(endpoint, item);
    KnownIsReached(endpoint, item);
    ReachNext(known, 1, StartProbe(key));
    var probing := Put(known, 1, Probing(model));
    assert Act(known, 1, StartProbe(key)) == probing;
    ReachNext(probing, 1, Found(classification));
    var judged := Put(known.(evidence := {(key, Judgement(model, classification))}), 1, Judged(model, classification));
    assert Act(probing, 1, Found(classification)) == judged;
    ReachNext(judged, 2, StartDiscovery(endpoint, [again]));
    var listing := Put(judged, 2, Listing(endpoint, [again]));
    assert Act(judged, 2, StartDiscovery(endpoint, [again])) == listing;
    RelistingIsReached(listing, endpoint, item, again, classification);
  }

  lemma RelistingIsReached(listing: System, endpoint: Endpoint, item: Listed, again: Listed, classification: string)
    requires Reached(listing) && again.id == item.id && At(listing, 2) == Listing(endpoint, [again])
    requires var goal := Relisted(endpoint, item, again, classification);
             listing == goal.(models := map[KeyOf(endpoint, item) := DiscoveredRecord(endpoint, item, None)],
                              places := goal.places[2 := Listing(endpoint, [again])])
    ensures Reached(Relisted(endpoint, item, again, classification))
  {
    var model := DiscoveredRecord(endpoint, item, None);
    ReachNext(listing, 2, Read);
    var comparing := Put(listing, 2, Comparing(endpoint, [again], Some(model)));
    assert Act(listing, 2, Read) == comparing;
    ReachNext(comparing, 2, Write);
    assert [again][1..] == [];
    assert Act(comparing, 2, Write) == Relisted(endpoint, item, again, classification);
  }

  /** A discovery stores a new version of a model while it is probed; the verdict puts the old version back, as current. */
  lemma VerdictUndoesDiscovery(endpoint: Endpoint, item: Listed, again: Listed, classification: string)
    requires endpoint.enabled && again.id == item.id && again.version != item.version
    ensures exists s, p ::
              && Reached(s) && At(s, p).Judged?
              && StandsAs(s.models, KeyOf(endpoint, item), DiscoveredRecord(endpoint, again, None))
              && StandsAs(Act(s, p, Tell).models, KeyOf(endpoint, item), DiscoveredRecord(endpoint, item, None))
              && Act(s, p, Tell).models[KeyOf(endpoint, item)].probeState == Current
  {
    var s := Relisted(endpoint, item, again, classification);
    RelistedIsReached(endpoint, item, again, classification);
    assert At(s, 1) == Judged(DiscoveredRecord(endpoint, item, None), classification);
    assert Act(s, 1, Tell).models[KeyOf(endpoint, item)] == Verdict(DiscoveredRecord(endpoint, item, None), classification);
  }

  /** A removal found no reference to a missing model. A probe of it ends before the removal does: the probed model is gone. */
  lemma RemovalLosesProbedModel(endpoint: Endpoint, item: Listed, classification: string, now: Time)
    requires endpoint.enabled && IsLocal(endpoint)
    ensures exists s :: Reached(s) && KeyOf(endpoint, item) in s.last && KeyOf(endpoint, item) !in s.models
  {
    var key := KeyOf(endpoint, item);
    var known := Known(endpoint, item);
    KnownIsReached(endpoint, item);
    var gone := MissingIsReached(known, 1, endpoint, key, now);
    assert At(gone, 2) == At(known, 2) && At(gone, 3) == At(known, 3);
    LossIsReached(gone, 2, 3, key, classification);
  }

  lemma LossIsReached(s: System, p: Process, q: Process, key: Key, classification: string)
    requires Reached(s) && At(s, p) == Idle && At(s, q) == Idle && p != q
    requires key in s.models && s.models[key].key == key && s.models[key].availability != Available && !Tested(s, key)
    ensures exists s' :: Reached(s') && key in s'.last && key !in s'.models
  {
    ReachNext(s, p, StartForget(key));
    var referring := Put(s, p, Referring(key));
    assert Act(s, p, StartForget(key)) == referring;
    ReachNext(referring, p, References(false));
    var forgetting := Put(referring, p, Forgetting(key));
    assert Act(referring, p, References(false)) == forgetting by {
      assert !Tested(referring, key);
    }
    ProbedIsReached(forgetting, q, key, classification);
    DeleteLoses(Probed(forgetting, q, key, classification), p, key);
  }

  lemma DeleteLoses(s: System, p: Process, key: Key)
    requires Reached(s) && At(s, p) == Forgetting(key) && key in s.last
    ensures exists s' :: Reached(s') && key in s'.last && key !in s'.models
  {
    ReachNext(s, p, Delete);
    assert key in Act(s, p, Delete).last && key !in Act(s, p, Delete).models;
  }

  /** The only model is missing from the endpoint's answer. */
  /** The refresh has been asked for, and answered without the model. */
  lemma AnsweredIsReached(s: System, p: Process, endpoint: Endpoint, now: Time) returns (writing: System)
    requires Reached(s) && At(s, p) == Idle && endpoint.enabled && IsLocal(endpoint)
    ensures Reached(writing)
    ensures writing == Put(s, p, Writing(DueRecords(endpoint, OwnModels(s.models, endpoint), Some([]), now)))
  {
    var previous := OwnModels(s.models, endpoint);
    ReachNext(s, p, StartRefresh(endpoint));
    AskPuts(s, p, endpoint);
    var asking := Put(s, p, Asking(endpoint, previous));
    ReachNext(asking, p, Answer(Some([]), now));
    AnswerPuts(asking, p, endpoint, previous, Some([]), now);
    writing := Put(asking, p, Writing(DueRecords(endpoint, previous, Some([]), now)));
  }

  lemma OnlyOne(models: Models, key: Key, model: Model)
    requires models.Keys == {key}
    ensures models[key := model] == map[key := model]
  {
  }

  lemma GoneIsWritten(writing: System, p: Process, key: Key, gone: Model) returns (s': System)
    requires Reached(writing) && At(writing, p).Writing? && At(writing, p).due != [] && At(writing, p).due[0] == gone
    requires gone.key == key && writing.models.Keys == {key}
    ensures Reached(s') && s'.models == map[key := gone] && s'.evidence == writing.evidence
    ensures forall q :: q != p ==> At(s', q) == At(writing, q)
  {
    ReachNext(writing, p, Write);
    WriteOne(writing, p);
    OnlyOne(writing.models, key, gone);
    s' := Act(writing, p, Write);
  }

  lemma MissingIsReached(s: System, p: Process, endpoint: Endpoint, key: Key, now: Time) returns (s': System)
    requires Reached(s) && At(s, p) == Idle && endpoint.enabled && IsLocal(endpoint)
    requires s.models.Keys == {key} && s.models[key].endpoint == endpoint.id && s.models[key].key == key && s.evidence == {}
    ensures Reached(s') && s'.models == map[key := GoneRecord(s.models[key], now)] && s'.evidence == {}
    ensures forall q :: q != p ==> At(s', q) == At(s, q)
  {
    assert OwnModels(s.models, endpoint) == s.models;
    var writing := AnsweredIsReached(s, p, endpoint, now);
    FirstIsGone(endpoint, s.models, key, now);
    s' := GoneIsWritten(writing, p, key, GoneRecord(s.models[key], now));
  }

  lemma WriteOne(s: System, p: Process)
    requires At(s, p).Writing? && At(s, p).due != []
    ensures Act(s, p, Write) == Put(Save(s, At(s, p).due[0]), p, Writing(At(s, p).due[1..]))
  {
  }

  lemma FirstIsGone(endpoint: Endpoint, models: Models, key: Key, now: Time)
    requires models.Keys == {key}
    ensures var due := DueRecords(endpoint, models, Some([]), now); due != [] && due[0] == GoneRecord(models[key], now)
  {
    var names := MissingNames(models, endpoint, []);
    assert key in names && names[0] in names;
    NothingRenewed(models, endpoint, GoneRecords(models, names, now));
  }

  // ---- a call that nobody interrupts is the whole call ----

  /** The catalogue as its calls see it, without probes under way. */
  function StateOf(s: System): State {
    State(s.models, map[], set e | e in s.evidence :: e.0, s.last)
  }

  /** Process `p` made one call from beginning to end, alone, and left these models. */
  ghost predicate Alone(s: System, p: Process, run: seq<(Process, Choice)>, models: Models) {
    && (forall i :: 0 <= i < |run| ==> run[i].0 == p)
    && var s' := RunActs(s, run);
       s'.models == models && s'.evidence == s.evidence && s'.last == s.last && forall q :: At(s', q) == At(s, q)
  }

  function WriteAll(models: Models, due: seq<Model>): Models
    decreases |due|
  {
    if due == [] then models else WriteAll(models[due[0].key := due[0]], due[1..])
  }

  lemma {:induction false} WriteLast(models: Models, due: seq<Model>, model: Model)
    ensures WriteAll(models, due + [model]) == WriteAll(models, due)[model.key := model]
    decreases |due|
  {
    if due == [] {
      assert due + [model] == [model];
      assert WriteAll(models[model.key := model], []) == models[model.key := model];
    } else {
      assert (due + [model])[1..] == due[1..] + [model];
      WriteLast(models[due[0].key := due[0]], due[1..], model);
    }
  }

  lemma {:induction false} WriteBoth(models: Models, a: seq<Model>, b: seq<Model>)
    ensures WriteAll(models, a + b) == WriteAll(WriteAll(models, a), b)
    decreases |a|
  {
    if a == [] {
      assert a + b == b;
    } else {
      assert (a + b)[1..] == a[1..] + b;
      WriteBoth(models[a[0].key := a[0]], a[1..], b);
    }
  }

  lemma {:induction false} WritingStores(previous: Models, models: Models, endpoint: Endpoint, items: seq<Listed>)
    ensures WriteAll(models, RefreshedRecords(previous, endpoint, items)) == Stored(previous, models, endpoint, items)
    decreases |items|
  {
    if items != [] {
      var last := |items| - 1;
      WritingStores(previous, models, endpoint, items[..last]);
      var model := Renewed(endpoint, previous, items[last]);
      assert RefreshedRecords(previous, endpoint, items) == RefreshedRecords(previous, endpoint, items[..last]) + [model];
      WriteLast(models, RefreshedRecords(previous, endpoint, items[..last]), model);
    }
  }

  ghost predicate WellKeyed(models: Models) {
    forall key :: key in models ==> models[key].key == key
  }

  lemma {:induction false} WritingMarksMissing(previous: Models, models: Models, names: seq<Key>, now: Time, key: Key)
    requires WellKeyed(previous) && forall name :: name in names ==> name in previous
    ensures Find(WriteAll(models, GoneRecords(previous, names, now)), key)
         == if key in names then Some(GoneRecord(previous[key], now)) else Find(models, key)
    decreases |names|
  {
    if names != [] {
      var last := |names| - 1;
      WritingMarksMissing(previous, models, names[..last], now, key);
      var model := GoneRecord(previous[names[last]], now);
      assert GoneRecords(previous, names, now) == GoneRecords(previous, names[..last], now) + [model];
      WriteLast(models, GoneRecords(previous, names[..last], now), model);
      assert names == names[..last] + [names[last]];
    }
  }

  /** Each record here is the copy, or the copy marked already. */
  ghost predicate PartlyMarked(previous: Models, models: Models, names: seq<Key>) {
    forall name :: name in names ==>
      name in previous && name in models && models[name] in {previous[name], UnreachableRecord(previous[name])}
  }

  lemma {:induction false} WritingMarksUnreachable(previous: Models, models: Models, names: seq<Key>, key: Key)
    requires WellKeyed(previous) && PartlyMarked(previous, models, names)
    ensures Find(WriteAll(models, UnreachableRecords(previous, names)), key)
         == if key in names then Some(UnreachableRecord(previous[key])) else Find(models, key)
    decreases |names|
  {
    if names != [] {
      var name, rest := names[0], names[1..];
      var model := UnreachableRecord(previous[name]);
      assert names == [name] + rest;
      if previous[name].availability == Missing {
        assert UnreachableRecords(previous, names) == UnreachableRecords(previous, rest);
        WritingMarksUnreachable(previous, models, rest, key);
      } else {
        assert UnreachableRecords(previous, names) == [model] + UnreachableRecords(previous, rest);
        WriteBoth(models, [model], UnreachableRecords(previous, rest));
        assert WriteAll(models, [model]) == models[name := model] by {
          assert WriteAll(models[name := model], []) == models[name := model];
        }
        WritingMarksUnreachable(previous, models[name := model], rest, key);
      }
    }
  }

  /** What a refresh writes, one record after the other, is what the whole refresh leaves. */
  lemma DueIsTheRefresh(s: State, endpoint: Endpoint, answer: Option<seq<Listed>>, now: Time)
    requires WellKeyed(s.models) && endpoint.enabled && IsLocal(endpoint)
    ensures WriteAll(s.models, DueRecords(endpoint, OwnModels(s.models, endpoint), answer, now))
         == Step(s, Refresh(endpoint, answer, now)).0.models
  {
    var previous := OwnModels(s.models, endpoint);
    if answer.None? {
      UnansweredWrites(s.models, endpoint);
    } else {
      AnsweredWrites(s.models, endpoint, answer.value, now);
    }
  }

  lemma UnansweredWrites(models: Models, endpoint: Endpoint)
    requires WellKeyed(models)
    ensures var previous := OwnModels(models, endpoint);
            WriteAll(models, UnreachableRecords(previous, SortedNames(previous.Keys))) == MarkUnreachable(models, endpoint)
  {
    var previous := OwnModels(models, endpoint);
    var names := SortedNames(previous.Keys);
    forall key ensures Find(WriteAll(models, UnreachableRecords(previous, names)), key) == Find(MarkUnreachable(models, endpoint), key) {
      WritingMarksUnreachable(previous, models, names, key);
    }
    ModelsAgree(WriteAll(models, UnreachableRecords(previous, names)), MarkUnreachable(models, endpoint));
  }

  lemma AnsweredWrites(models: Models, endpoint: Endpoint, items: seq<Listed>, now: Time)
    requires WellKeyed(models)
    ensures WriteAll(models, DueRecords(endpoint, OwnModels(models, endpoint), Some(items), now))
         == AfterRefresh(models, endpoint, items, now)
  {
    var previous := OwnModels(models, endpoint);
    var names := MissingNames(previous, endpoint, items);
    var stored := Stored(previous, models, endpoint, items);
    WritingStores(previous, models, endpoint, items);
    WriteBoth(models, RefreshedRecords(previous, endpoint, items), GoneRecords(previous, names, now));
    forall key ensures Find(WriteAll(stored, GoneRecords(previous, names, now)), key)
                    == Find(AfterRefresh(models, endpoint, items, now), key) {
      WritingMarksMissing(previous, stored, names, now, key);
    }
    ModelsAgree(WriteAll(stored, GoneRecords(previous, names, now)), AfterRefresh(models, endpoint, items, now));
  }

  lemma {:induction false} WritingAlone(s: System, p: Process) returns (run: seq<(Process, Choice)>)
    requires At(s, p).Writing?
    ensures forall i :: 0 <= i < |run| ==> run[i].0 == p
    ensures RunActs(s, run) == Put(s.(models := WriteAll(s.models, At(s, p).due)), p, Idle)
    decreases |At(s, p).due|
  {
    var s' := Act(s, p, Write);
    if At(s, p).due == [] {
      run := [(p, Write)];
      OneAct(s, p, Write);
    } else {
      var rest := WritingAlone(s', p);
      run := [(p, Write)] + rest;
      FirstAct(s, p, Write, rest);
    }
  }

  lemma AskPuts(s: System, p: Process, endpoint: Endpoint)
    requires At(s, p) == Idle && endpoint.enabled && IsLocal(endpoint)
    ensures Act(s, p, StartRefresh(endpoint)) == Put(s, p, Asking(endpoint, OwnModels(s.models, endpoint)))
  {
  }

  /** Once asked, the endpoint answers. */
  lemma AnswerAlone(s: System, p: Process, endpoint: Endpoint, previous: Models, answer: Option<seq<Listed>>, now: Time)
    returns (run: seq<(Process, Choice)>)
    requires At(s, p) == Asking(endpoint, previous)
    ensures forall i :: 0 <= i < |run| ==> run[i].0 == p
    ensures RunActs(s, run) == Put(s.(models := WriteAll(s.models, DueRecords(endpoint, previous, answer, now))), p, Idle)
  {
    AnswerPuts(s, p, endpoint, previous, answer, now);
    var rest := WritingAlone(Put(s, p, Writing(DueRecords(endpoint, previous, answer, now))), p);
    FirstAct(s, p, Answer(answer, now), rest);
    run := [(p, Answer(answer, now))] + rest;
  }

  /** A call that begins by itself and goes on alone is made alone. */
  lemma BegunAlone(s: System, p: Process, choice: Choice, place: Place, rest: seq<(Process, Choice)>, models: Models)
    requires At(s, p) == Idle && Act(s, p, choice) == Put(s, p, place) && forall i :: 0 <= i < |rest| ==> rest[i].0 == p
    requires RunActs(Put(s, p, place), rest) == Put(Put(s, p, place).(models := models), p, Idle)
    ensures Alone(s, p, [(p, choice)] + rest, models)
  {
    FirstAct(s, p, choice, rest);
    IdleAgain(s, p, place, models);
  }

  lemma IdleAgain(s: System, p: Process, place: Place, models: Models)
    requires At(s, p) == Idle
    ensures var s' := Put(Put(s, p, place).(models := models), p, Idle);
            s'.models == models && s'.evidence == s.evidence && s'.last == s.last && forall q :: At(s', q) == At(s, q)
  {
  }

  lemma RefreshAlone(s: System, p: Process, endpoint: Endpoint, answer: Option<seq<Listed>>, now: Time)
    returns (run: seq<(Process, Choice)>)
    requires At(s, p) == Idle && endpoint.enabled && IsLocal(endpoint)
    ensures Alone(s, p, run, WriteAll(s.models, DueRecords(endpoint, OwnModels(s.models, endpoint), answer, now)))
  {
    var asking := Asking(endpoint, OwnModels(s.models, endpoint));
    AskPuts(s, p, endpoint);
    var rest := AnswerAlone(Put(s, p, asking), p, endpoint, asking.previous, answer, now);
    BegunAlone(s, p, StartRefresh(endpoint), asking, rest, WriteAll(s.models, DueRecords(endpoint, asking.previous, answer, now)));
    run := [(p, StartRefresh(endpoint))] + rest;
  }

  lemma {:induction false} ListingAlone(s: System, p: Process) returns (run: seq<(Process, Choice)>)
    requires At(s, p).Listing?
    ensures forall i :: 0 <= i < |run| ==> run[i].0 == p
    ensures RunActs(s, run) == Put(s.(models := AfterDiscovery(s.models, At(s, p).endpoint, At(s, p).items)), p, Idle)
    decreases |At(s, p).items|
  {
    var endpoint, items := At(s, p).endpoint, At(s, p).items;
    if items == [] {
      run := [(p, Read)];
      OneAct(s, p, Read);
    } else {
      var known := Find(s.models, KeyOf(endpoint, items[0]));
      var a := Put(s, p, Comparing(endpoint, items, known));
      var b := Put(Save(s, DiscoveredRecord(endpoint, items[0], known)), p, Listing(endpoint, items[1..]));
      assert Act(s, p, Read) == a && Act(a, p, Write) == b;
      var rest := ListingAlone(b, p);
      FirstAct(a, p, Write, rest);
      FirstAct(s, p, Read, [(p, Write)] + rest);
      run := [(p, Read)] + ([(p, Write)] + rest);
    }
  }

  lemma DiscoveryAlone(s: System, p: Process, endpoint: Endpoint, items: seq<Listed>) returns (run: seq<(Process, Choice)>)
    requires At(s, p) == Idle && endpoint.enabled
    ensures Alone(s, p, run, Step(StateOf(s), Discover(endpoint, Some(items))).0.models)
  {
    var a := Put(s, p, Listing(endpoint, items));
    assert Act(s, p, StartDiscovery(endpoint, items)) == a;
    var rest := ListingAlone(a, p);
    FirstAct(s, p, StartDiscovery(endpoint, items), rest);
    run := [(p, StartDiscovery(endpoint, items))] + rest;
  }

  lemma ReferringAlone(s: System, p: Process, otherwise: bool) returns (run: seq<(Process, Choice)>)
    requires At(s, p).Referring?
    ensures forall i :: 0 <= i < |run| ==> run[i].0 == p
    ensures RunActs(s, run) == Put(s.(models := if otherwise || Tested(s, At(s, p).key) then s.models else s.models - {At(s, p).key}), p, Idle)
  {
    var next := Act(s, p, References(otherwise));
    if otherwise || Tested(s, At(s, p).key) {
      OneAct(s, p, References(otherwise));
      run := [(p, References(otherwise))];
    } else {
      OneAct(next, p, Delete);
      FirstAct(s, p, References(otherwise), [(p, Delete)]);
      run := [(p, References(otherwise))] + [(p, Delete)];
    }
  }

  lemma ForgetAlone(s: System, p: Process, key: Key, otherwise: bool) returns (run: seq<(Process, Choice)>)
    requires At(s, p) == Idle
    ensures Alone(s, p, run, Step(StateOf(s), Forget(key, otherwise)).0.models)
  {
    if key !in s.models || s.models[key].availability == Available {
      run := [];
    } else {
      var referring := Put(s, p, Referring(key));
      assert Tested(referring, key) <==> key in StateOf(s).probed;
      assert Act(s, p, StartForget(key)) == referring;
      var rest := ReferringAlone(referring, p, otherwise);
      FirstAct(s, p, StartForget(key), rest);
      run := [(p, StartForget(key))] + rest;
    }
  }

  /** Any refresh, discovery or removal made without interruption does what the catalogue's one-step operation does. */
  lemma UninterruptedIsAtomic(s: System, p: Process, op: Op)
    requires At(s, p) == Idle && WellKeyed(s.models) && (op.Refresh? || op.Discover? || op.Forget?)
    ensures exists run :: Alone(s, p, run, Step(StateOf(s), op).0.models)
  {
    if op.Refresh? && op.endpoint.enabled && IsLocal(op.endpoint) {
      var run := RefreshAlone(s, p, op.endpoint, op.answer, op.now);
      DueIsTheRefresh(StateOf(s), op.endpoint, op.answer, op.now);
    } else if op.Discover? && op.endpoint.enabled && op.answer.Some? {
      var run := DiscoveryAlone(s, p, op.endpoint, op.answer.value);
    } else if op.Forget? {
      var run := ForgetAlone(s, p, op.key, op.otherwiseReferenced);
    } else {
      assert Step(StateOf(s), op).0 == StateOf(s);
      assert Alone(s, p, [], s.models);
    }
  }
}
