/**
 * The job service over its shared store, as interleaved store accesses of any number of callers.
 * Each `Act` is one access (or one provider run) by one caller; a `Choice` settles what the outside world decides.
 */
module Jobs {
  import opened Wrappers

  type JobId = int
  type ApprovalId = int
  type Key = int
  type Checksum = int
  type Caller = int
  type Artifacts = int

  datatype JobStatus =
    | Queued | CheckingDependencies | WaitingForDependency | WaitingForApproval
    | Running | Completed | Failed | Rejected

  /** `checksum` stands for the promoted change set's checksum. */
  datatype Job = Job(status: JobStatus, approvalId: Option<ApprovalId>, checksum: Checksum)

  datatype Decision = Pending | Approved | Denied

  datatype Approval = Approval(decision: Decision, jobId: Option<JobId>)

  datatype ClaimStatus = ClaimRunning | ClaimCompleted | ClaimFailed

  datatype Claim = Claim(status: ClaimStatus, jobId: JobId, checksum: Checksum)

  /** Where a caller stands, with its local copies. */
  datatype Pc =
    | Idle
    | Reading(j: JobId)
    | Started(j: JobId, job: Job)
    | TakeWaiting(j: JobId, job: Job)
    | Checking(j: JobId, job: Job)
    | TakeChecked(j: JobId, job: Job, reasons: bool)
    | Park(j: JobId, job: Job)
    | Save(j: JobId, job: Job, key: Option<Key>)
    | Claiming(j: JobId, job: Job, reasons: bool)
    | Replaying(j: JobId, job: Job, k: Key, original: JobId)
    | ReplayStore(j: JobId, job: Job, k: Key, original: JobId, artifacts: Artifacts)
    | Ready(j: JobId, job: Job, reasons: bool, key: Option<Key>)
    | InProvider(j: JobId, job: Job, key: Option<Key>)
    | Release(j: JobId, job: Job, key: Option<Key>)
    | StoreArtifacts(j: JobId, job: Job, key: Option<Key>, artifacts: Artifacts)
    | CompleteClaim(j: JobId, job: Job, k: Key)
    | Deciding(a: ApprovalId, approval: Approval, decision: Decision)
    | RejectJob(j: JobId)
    | Linking(j: JobId, job: Job, a: ApprovalId, approval: Approval)
    | Creating(j: JobId, job: Job)

  /** History only: which caller last moved a job, and how far. */
  datatype Phase = New(w: Caller) | Fresh | Checked(w: Caller) | Parked | Ran(w: Caller)

  datatype Start = Start(reasons: bool, approvalId: Option<ApprovalId>)
  datatype Replay = Replay(key: Key, original: JobId, checksum: Checksum)

  /** The shared store, and the history the properties speak of. */
  datatype Store = Store(
    jobs: map<JobId, Job>,
    approvals: map<ApprovalId, Approval>,
    claims: map<Key, Claim>,
    artifacts: map<JobId, Artifacts>,
    // history
    phase: map<JobId, Phase>,
    starts: map<JobId, seq<Start>>,
    successes: map<Key, seq<JobId>>,
    replays: map<JobId, Replay>,
    sealed: map<JobId, Artifacts>,
    decisions: map<ApprovalId, seq<Decision>>)
  {
    predicate IsApproved(a: Option<ApprovalId>) {
      a.Some? && a.value in approvals && approvals[a.value].decision == Approved
    }
  }

  datatype State = State(store: Store, pcs: map<Caller, Pc>) {
    function At(w: Caller): Pc {
      if w in pcs then pcs[w] else Idle
    }
  }

  /** The store after one access, and where the caller goes on. */
  datatype Access = Access(store: Store, pc: Pc)

  datatype Choice =
    | CallProcess(j: JobId)
    | CallDecide(a: ApprovalId, decision: Decision)
    | CallCreate(j: JobId, checksum: Checksum, approval: Option<ApprovalId>)
    | CallRequest(a: ApprovalId)
    | Proceed
    | ProviderMissing
    | CheckFails
    | DependencyMissing
    | Reasons(newId: ApprovalId)
    | UseKey(k: Key)
    | EarlyFailure
    | PreWriteFails
    | ProviderFails
    | ProviderSucceeds(artifacts: Artifacts)

  function Logged<K, V>(log: map<K, seq<V>>, k: K, v: V): map<K, seq<V>> {
    log[k := (if k in log then log[k] else []) + [v]]
  }

  const INIT := State(Store(map[], map[], map[], map[], map[], map[], map[], map[], map[], map[]), map[])

  /** One atomic access at `pc` by caller `w`; a choice that does not fit leaves everything as it is. */
  function Do(s: Store, w: Caller, pc: Pc, c: Choice): Access {
    match pc
    case Idle => Enter(s, w, c)
    case Reading(j) => Read(s, j)
    case Started(j, job) => Begin(s, w, c, j, job)
    case TakeWaiting(j, job) => Take(s, w, WaitingForApproval, j, job, true)
    case Checking(j, job) => Check(s, c, j, job)
    case TakeChecked(j, job, reasons) => Take(s, w, CheckingDependencies, j, job, reasons)
    case Park(j, job) => Access(PutJob(s, j, job, Parked), Idle)
    case Save(j, job, key) =>
      Access(PutJob(s, j, job, if j in s.phase then s.phase[j] else Fresh),
             if key.Some? then CompleteClaim(j, job, key.value) else Idle)
    case Claiming(j, job, reasons) => ClaimKey(s, c, j, job, reasons)
    case Replaying(j, job, k, original) =>
      Access(s, ReplayStore(j, job, k, original, if original in s.artifacts then s.artifacts[original] else 0))
    case ReplayStore(j, job, k, original, artifacts) =>
      Access(SetArtifacts(s, j, artifacts, s.replays[j := Replay(k, original, job.checksum)]), Save(j, job.(status := Completed), None))
    case Ready(j, job, reasons, key) => StartProvider(s, c, j, job, reasons, key)
    case InProvider(j, job, key) => EndProvider(s, c, j, job, key)
    case Release(j, job, key) =>
      Access(SetClaim(s, key, Claim(ClaimFailed, j, job.checksum)), Save(j, job.(status := Failed), None))
    case StoreArtifacts(j, job, key, artifacts) =>
      Access(SetArtifacts(s, j, artifacts, s.replays), Save(j, job.(status := Completed), key))
    case CompleteClaim(j, job, k) => Access(SetClaim(s, Some(k), Claim(ClaimCompleted, j, job.checksum)), Idle)
    case Deciding(a, approval, decision) => Decide(s, a, approval, decision)
    case RejectJob(j) =>
      Access(s, if j in s.jobs then Save(j, s.jobs[j].(status := Rejected), None) else Idle)
    case Linking(j, job, a, approval) =>
      Access(PutApproval(s, a, approval.(jobId := Some(j)), if a in s.decisions then s.decisions[a] else []), Creating(j, job))
    case Creating(j, job) => Access(PutJob(s, j, job, Fresh), Idle)
  }

  function Act(s: State, w: Caller, c: Choice): State {
    var access := Do(s.store, w, s.At(w), c);
    State(access.store, s.pcs[w := access.pc])
  }

  function Run(s: State, steps: seq<(Caller, Choice)>): State {
    if steps == [] then s
    else
      var last := |steps| - 1;
      Act(Run(s, steps[..last]), steps[last].0, steps[last].1)
  }

  /** A call of `process_job`, `approve` / `reject`, `create_job`, or one that only asks for an approval. */
  function Enter(s: Store, w: Caller, c: Choice): Access {
    match c
    case CallProcess(j) => Access(s, Reading(j))
    case CallDecide(a, decision) =>
      if a in s.approvals && s.approvals[a].decision == Pending && decision != Pending
      then Access(s, Deciding(a, s.approvals[a], decision)) else Access(s, Idle)
    case CallCreate(j, checksum, approval) => Create(s, w, j, checksum, approval)
    case CallRequest(a) => Access(if a in s.approvals then s else Request(s, a, None), Idle)
    case _ => Access(s, Idle)
  }

  /** The linked approval must be approved; the new job directory reserves the identifier. */
  function Create(s: Store, w: Caller, j: JobId, checksum: Checksum, approval: Option<ApprovalId>): Access {
    if j in s.phase || (approval.Some? && !s.IsApproved(approval)) then Access(s, Idle)
    else
      var job := Job(Queued, approval, checksum);
      Access(
        s.(phase := s.phase[j := New(w)]),
        if approval.None? then Creating(j, job) else Linking(j, job, approval.value, s.approvals[approval.value]))
  }

  /** A pending approval under a fresh identifier. */
  function Request(s: Store, a: ApprovalId, j: Option<JobId>): Store {
    PutApproval(s, a, Approval(Pending, j), [])
  }

  function PutApproval(s: Store, a: ApprovalId, approval: Approval, decisions: seq<Decision>): Store {
    s.(approvals := s.approvals[a := approval], decisions := s.decisions[a := decisions])
  }

  function PutJob(s: Store, j: JobId, job: Job, phase: Phase): Store {
    s.(jobs := s.jobs[j := job], phase := s.phase[j := phase])
  }

  /** The first read of `process_job`. */
  function Read(s: Store, j: JobId): Access {
    Access(s, if j in s.jobs && s.jobs[j].status in {Queued, WaitingForApproval} then Started(j, s.jobs[j]) else Idle)
  }

  /** After the read: missing provider, approval gate, or the compare-and-set out of `queued`. */
  function Begin(s: Store, w: Caller, c: Choice, j: JobId, job: Job): Access {
    if c == ProviderMissing then Access(s, Save(j, job.(status := Failed), None))
    else if job.status == WaitingForApproval then
      Access(s, if s.IsApproved(job.approvalId) then TakeWaiting(j, job) else Idle)
    else if j in s.jobs && s.jobs[j].status == Queued then
      var job' := job.(status := CheckingDependencies);
      Access(PutJob(s, j, job', Checked(w)), Checking(j, job'))
    else Access(s, Idle)
  }

  /** Dependency check and policy evaluation. */
  function Check(s: Store, c: Choice, j: JobId, job: Job): Access {
    match c
    case CheckFails => Access(s, Save(j, job.(status := Failed), None))
    case DependencyMissing => Access(s, Save(j, job.(status := WaitingForDependency), None))
    case Reasons(newId) =>
      if job.approvalId.Some? then
        Access(s,
          if s.IsApproved(job.approvalId) then TakeChecked(j, job, true)
          else if job.approvalId.value in s.approvals && s.approvals[job.approvalId.value].decision == Denied
          then Save(j, job.(status := Failed), None)
          else Park(j, job.(status := WaitingForApproval)))
      else if newId in s.approvals then Access(s, Checking(j, job))
      else
        Access(Request(s, newId, Some(j)), Park(j, job.(status := WaitingForApproval, approvalId := Some(newId))))
    case _ => Access(s, TakeChecked(j, job, false))
  }

  /** The compare-and-set from `expected` to `running`. */
  function Take(s: Store, w: Caller, expected: JobStatus, j: JobId, job: Job, reasons: bool): Access {
    if j in s.jobs && s.jobs[j].status == expected then
      var job' := job.(status := Running);
      Access(PutJob(s, j, job', Ran(w)), Claiming(j, job', reasons))
    else Access(s, Idle)
  }

  /** `claim_idempotency` and its three refusals; any other choice than a key is a job that needs none. */
  function ClaimKey(s: Store, c: Choice, j: JobId, job: Job, reasons: bool): Access {
    if !c.UseKey? then Access(s, Ready(j, job, reasons, None))
    else if c.k !in s.claims || s.claims[c.k].status == ClaimFailed then
      Access(SetClaim(s, Some(c.k), Claim(ClaimRunning, j, job.checksum)), Ready(j, job, reasons, Some(c.k)))
    else
      Access(s,
        if s.claims[c.k].checksum == job.checksum && s.claims[c.k].status == ClaimCompleted
        then Replaying(j, job, c.k, s.claims[c.k].jobId)
        else Save(j, job.(status := Failed), None))
  }

  /** Limits and credentials, the pre-write validation, then the provider is launched. */
  function StartProvider(s: Store, c: Choice, j: JobId, job: Job, reasons: bool, key: Option<Key>): Access {
    if c == EarlyFailure then Access(s, Save(j, job.(status := Failed), None))
    else if c == PreWriteFails then Access(s, Release(j, job, key))
    else Access(s.(starts := Logged(s.starts, j, Start(reasons, job.approvalId))), InProvider(j, job, key))
  }

  /** The provider's run, collection and output validation. */
  function EndProvider(s: Store, c: Choice, j: JobId, job: Job, key: Option<Key>): Access {
    if c.ProviderSucceeds? then
      Access(s.(successes := if key.Some? then Logged(s.successes, key.value, j) else s.successes),
             StoreArtifacts(j, job, key, c.artifacts))
    else Access(s, Release(j, job, key))
  }

  function SetArtifacts(s: Store, j: JobId, artifacts: Artifacts, replays: map<JobId, Replay>): Store {
    s.(artifacts := s.artifacts[j := artifacts], sealed := s.sealed[j := artifacts], replays := replays)
  }

  function SetClaim(s: Store, key: Option<Key>, claim: Claim): Store {
    if key.Some? then s.(claims := s.claims[key.value := claim]) else s
  }

  /** The compare-and-set of `approve` and `reject`, and where each goes from there. */
  function Decide(s: Store, a: ApprovalId, approval: Approval, decision: Decision): Access {
    if a in s.approvals && s.approvals[a].decision == Pending then
      Access(
        PutApproval(s, a, approval.(decision := decision), (if a in s.decisions then s.decisions[a] else []) + [decision]),
        if approval.jobId.None? then Idle
        else if decision == Approved then Reading(approval.jobId.value)
        else RejectJob(approval.jobId.value))
    else Access(s, Idle)
  }

  // ---- the invariant ----

  ghost predicate Phased(s: Store, j: JobId, p: Phase) {
    j in s.phase && s.phase[j] == p
  }

  ghost predicate Holds(s: Store, k: Key, j: JobId) {
    k in s.claims && s.claims[k].status == ClaimRunning && s.claims[k].jobId == j
  }

  ghost predicate Succeeded(s: Store, k: Key, j: JobId) {
    k in s.successes && s.successes[k] == [j]
  }

  /** How far a job has come, as far as the caller at some place relies on it. */
  datatype Stage = NoStage | AnyStage | ByNew | ByChecked | ByRan

  /**
   * What a caller at `pc` relies on: the stage of job `j`, an approved approval, a job not yet started,
   * artifacts not yet / already final, a held claim, and a key won by nobody / by this job / by `original`.
   */
  datatype Duty = Duty(
    j: JobId, stage: Stage, approval: Option<Option<ApprovalId>>, unstarted: bool, unsealed: bool, isSealed: bool,
    held: Option<Key>, unwon: bool, won: bool, replayed: Option<Replay>)

  function DutyOf(pc: Pc): Duty {
    match pc
    case Idle => FREE
    case Reading(_) => FREE
    case Started(j, _) => FREE.(j := j, stage := AnyStage)
    case TakeWaiting(j, job) => FREE.(j := j, stage := AnyStage, approval := Some(job.approvalId))
    case Checking(j, _) => FREE.(j := j, stage := ByChecked)
    case TakeChecked(j, job, reasons) =>
      FREE.(j := j, stage := ByChecked, approval := if reasons then Some(job.approvalId) else None)
    case Park(j, _) => FREE.(j := j, stage := ByChecked)
    case Save(j, _, None) => FREE.(j := j, stage := AnyStage)
    case Save(j, _, Some(k)) => FREE.(j := j, stage := ByRan, isSealed := true, held := Some(k), won := true)
    case Claiming(j, job, reasons) =>
      FREE.(j := j, stage := ByRan, approval := if reasons then Some(job.approvalId) else None,
            unstarted := true, unsealed := true)
    case Replaying(j, job, k, original) =>
      FREE.(j := j, stage := ByRan, unstarted := true, unsealed := true, replayed := Some(Replay(k, original, job.checksum)))
    case ReplayStore(j, job, k, original, _) =>
      FREE.(j := j, stage := ByRan, unstarted := true, unsealed := true, replayed := Some(Replay(k, original, job.checksum)))
    case Ready(j, job, reasons, key) =>
      FREE.(j := j, stage := ByRan, approval := if reasons then Some(job.approvalId) else None,
            unstarted := true, unsealed := true, held := key, unwon := true)
    case InProvider(j, _, key) => FREE.(j := j, stage := ByRan, unsealed := true, held := key, unwon := true)
    case Release(j, _, key) => FREE.(j := j, stage := ByRan, unsealed := true, held := key, unwon := true)
    case StoreArtifacts(j, _, key, _) => FREE.(j := j, stage := ByRan, unsealed := true, held := key, won := true)
    case CompleteClaim(j, _, k) => FREE.(j := j, stage := ByRan, isSealed := true, held := Some(k), won := true)
    case Deciding(_, _, _) => FREE
    case RejectJob(_) => FREE
    case Linking(j, _, a, _) => FREE.(j := j, stage := ByNew, approval := Some(Some(a)))
    case Creating(j, _) => FREE.(j := j, stage := ByNew)
  }

  const FREE := Duty(0, NoStage, None, false, false, false, None, false, false, None)

  ghost predicate StageOk(s: Store, w: Caller, j: JobId, stage: Stage) {
    stage.NoStage? ||
    (j in s.phase &&
      match stage
      case NoStage => true
      case AnyStage => !s.phase[j].New?
      case ByNew => s.phase[j] == New(w)
      case ByChecked => s.phase[j] == Checked(w)
      case ByRan => s.phase[j] == Ran(w))
  }

  /** The key is completed, for this very change set, by the original job, whose artifacts are final. */
  ghost predicate Replayable(s: Store, r: Replay) {
    && r.key in s.claims && s.claims[r.key] == Claim(ClaimCompleted, r.original, r.checksum)
    && r.original in s.sealed && Succeeded(s, r.key, r.original)
  }

  ghost predicate DutyOk(s: Store, w: Caller, d: Duty) {
    && StageOk(s, w, d.j, d.stage)
    && (d.approval.Some? ==> s.IsApproved(d.approval.value))
    && (d.unstarted || d.unsealed ==> d.stage.ByRan?)
    && (d.unstarted ==> d.j !in s.starts)
    && (d.unsealed ==> d.j !in s.sealed)
    && (d.isSealed ==> d.j in s.sealed)
    && (d.held.Some? ==> d.stage.ByRan? && Holds(s, d.held.value, d.j))
    && (d.held.Some? && d.unwon ==> d.held.value !in s.successes)
    && (d.held.Some? && d.won ==> Succeeded(s, d.held.value, d.j))
    && (d.replayed.Some? ==> Replayable(s, d.replayed.value))
  }

  /** What a caller's local copies look like. */
  ghost predicate LocalOk(s: Store, pc: Pc) {
    match pc
    case Started(_, job) => job.status in {Queued, WaitingForApproval}
    case Park(_, job) => job.status == WaitingForApproval
    case Save(_, job, _) => job.status in {Failed, WaitingForDependency, Rejected, Completed}
    case ReplayStore(_, _, _, original, artifacts) => original in s.sealed && artifacts == s.sealed[original]
    case Deciding(_, _, decision) => decision != Pending
    case Linking(_, job, _, approval) => job.status == Queued && approval.decision == Approved
    case Creating(_, job) => job.status == Queued
    case _ => true
  }

  /** The places where caller `w` may stand. */
  ghost function Places(s: Store, w: Caller): iset<Pc> {
    iset pc: Pc | DutyOk(s, w, DutyOf(pc)) && LocalOk(s, pc)
  }

  ghost predicate Fits(s: Store, w: Caller, pc: Pc) {
    pc in Places(s, w)
  }

  ghost predicate JobsOk(s: Store) {
    forall j :: j in s.jobs ==>
      && j in s.phase && !s.phase[j].New?
      && (s.jobs[j].status == Queued ==> s.phase[j] == Fresh)
      && (s.jobs[j].status == CheckingDependencies ==> s.phase[j].Checked?)
      && (s.jobs[j].status == WaitingForApproval ==> s.phase[j] == Parked)
  }

  ghost predicate StartsOk(s: Store) {
    forall j :: j in s.starts ==>
      && j in s.phase && s.phase[j].Ran? && |s.starts[j]| == 1
      && (s.starts[j][0].reasons ==> s.IsApproved(s.starts[j][0].approvalId))
  }

  ghost predicate ClaimsOk(s: Store) {
    && (forall k :: k in s.successes ==>
          k in s.claims && s.successes[k] == [s.claims[k].jobId] && s.claims[k].status != ClaimFailed)
    && (forall k :: k in s.claims && s.claims[k].status == ClaimCompleted ==>
          s.claims[k].jobId in s.sealed && Succeeded(s, k, s.claims[k].jobId))
  }

  ghost predicate ArtifactsOk(s: Store) {
    && (forall j :: j in s.sealed ==>
          && j in s.phase && s.phase[j].Ran?
          && j in s.artifacts && s.artifacts[j] == s.sealed[j])
    && (forall j :: j in s.replays ==>
          var r := s.replays[j];
          Replayable(s, r) && j in s.sealed && s.sealed[j] == s.sealed[r.original] && j !in s.starts)
  }

  ghost predicate DecisionsOk(s: Store) {
    forall a :: a in s.approvals ==>
      && a in s.decisions
      && s.decisions[a] == if s.approvals[a].decision == Pending then [] else [s.approvals[a].decision]
  }

  /** The stores that any history leaves. */
  ghost function SoundStores(): iset<Store> {
    iset s: Store | JobsOk(s) && StartsOk(s) && ClaimsOk(s) && ArtifactsOk(s) && DecisionsOk(s)
  }

  ghost predicate HistoryOk(s: Store) {
    s in SoundStores()
  }

  ghost predicate Inv(s: State) {
    HistoryOk(s.store) && forall w :: Fits(s.store, w, s.At(w))
  }

  /** What one more access, by anyone, cannot undo. */
  ghost predicate Lasting(s: Store, s': Store) {
    && (forall a: Option<ApprovalId> :: s.IsApproved(a) ==> s'.IsApproved(a))
    && (forall a :: a in s.approvals && s.approvals[a].decision == Denied ==>
          a in s'.approvals && s'.approvals[a].decision == Denied)
    && (forall k :: k in s.claims && s.claims[k].status == ClaimCompleted ==> k in s'.claims && s'.claims[k] == s.claims[k])
    && (forall j :: j in s.sealed ==> j in s'.sealed && s'.sealed[j] == s.sealed[j])
  }

  /** Jobs are moved on only by the caller that has them, or that takes them up. */
  ghost predicate PhasesPolite(s: Store, w: Caller, s': Store) {
    forall j :: j in s.phase ==>
      && j in s'.phase
      && (s'.phase[j] == s.phase[j] || s.phase[j] == New(w) || s.phase[j] == Checked(w) || s.phase[j].Fresh? || s.phase[j].Parked?)
      && (s'.phase[j].New? ==> s.phase[j].New?)
  }

  /** Only the caller that runs a job starts it, seals its artifacts, or touches its claim. */
  ghost predicate RunsPolite(s: Store, w: Caller, s': Store) {
    && (forall j :: j in s'.sealed && j !in s.sealed ==> Phased(s, j, Ran(w)))
    && (forall j :: j in s'.starts && j !in s.starts ==> Phased(s, j, Ran(w)))
    && (forall k :: k in s.claims && s.claims[k].status == ClaimRunning && !Phased(s, s.claims[k].jobId, Ran(w)) ==>
          k in s'.claims && s'.claims[k] == s.claims[k])
  }

  ghost predicate SuccessesPolite(s: Store, w: Caller, s': Store) {
    && (forall k :: k in s.successes ==> k in s'.successes && s'.successes[k] == s.successes[k])
    && (forall k :: k in s'.successes && k !in s.successes ==>
          k in s.claims && Phased(s, s.claims[k].jobId, Ran(w)))
  }

  /** The stores that one caller's access may leave, with everything intact for every other caller. */
  ghost function PoliteStores(s: Store, w: Caller): iset<Store> {
    iset s': Store | PhasesPolite(s, w, s') && Lasting(s, s') && RunsPolite(s, w, s') && SuccessesPolite(s, w, s')
  }

  ghost predicate Polite(s: Store, w: Caller, s': Store) {
    s' in PoliteStores(s, w)
  }

  lemma DutyKeeps(s: Store, w: Caller, s': Store, v: Caller, d: Duty)
    requires Polite(s, w, s') && DutyOk(s, v, d) && v != w
    ensures DutyOk(s', v, d)
  {
  }

  lemma OthersKeep(s: Store, w: Caller, s': Store, v: Caller, pc: Pc)
    requires Polite(s, w, s') && Fits(s, v, pc) && v != w
    ensures Fits(s', v, pc)
  {
    DutyKeeps(s, w, s', v, DutyOf(pc));
    assert LocalOk(s', pc);
  }

  /** Everything an access owes. */
  ghost predicate Good(s: Store, w: Caller, a: Access) {
    Kept(s, w, a.store) && Fits(a.store, w, a.pc)
  }

  ghost predicate Kept(s: Store, w: Caller, s': Store) {
    Polite(s, w, s') && HistoryOk(s')
  }

  /** Caller `w` may move job `j` to phase `p`. */
  ghost predicate Moves(s: Store, w: Caller, j: JobId, p: Phase) {
    && !p.New?
    && j in s.phase
    && (s.phase[j] == p || s.phase[j] == New(w) || s.phase[j] == Checked(w) || s.phase[j].Fresh? || s.phase[j].Parked?)
  }

  ghost predicate Matches(status: JobStatus, p: Phase) {
    && (status == Queued ==> p.Fresh?)
    && (status == CheckingDependencies ==> p.Checked?)
    && (status == WaitingForApproval ==> p.Parked?)
  }

  lemma PutJobPolite(s: Store, w: Caller, j: JobId, job: Job, p: Phase)
    requires HistoryOk(s)
    requires Moves(s, w, j, p) && Matches(job.status, p)
    requires j in s.starts || j in s.sealed ==> p.Ran?
    ensures Polite(s, w, PutJob(s, j, job, p))
  {
  }

  lemma PutJobHistory(s: Store, w: Caller, j: JobId, job: Job, p: Phase)
    requires HistoryOk(s)
    requires Moves(s, w, j, p) && Matches(job.status, p)
    requires j in s.starts || j in s.sealed ==> p.Ran?
    ensures HistoryOk(PutJob(s, j, job, p))
  {
  }

  lemma PutJobKept(s: Store, w: Caller, j: JobId, job: Job, p: Phase)
    requires HistoryOk(s)
    requires Moves(s, w, j, p) && Matches(job.status, p)
    requires j in s.starts || j in s.sealed ==> p.Ran?
    ensures Kept(s, w, PutJob(s, j, job, p))
  {
    PutJobPolite(s, w, j, job, p);
    PutJobHistory(s, w, j, job, p);
  }

  lemma PutApprovalPolite(s: Store, w: Caller, a: ApprovalId, approval: Approval, decisions: seq<Decision>)
    requires HistoryOk(s)
    requires a in s.approvals && s.approvals[a].decision != Pending ==> approval.decision == s.approvals[a].decision
    requires decisions == if approval.decision == Pending then [] else [approval.decision]
    ensures Polite(s, w, PutApproval(s, a, approval, decisions))
  {
  }

  lemma PutApprovalHistory(s: Store, w: Caller, a: ApprovalId, approval: Approval, decisions: seq<Decision>)
    requires HistoryOk(s)
    requires a in s.approvals && s.approvals[a].decision != Pending ==> approval.decision == s.approvals[a].decision
    requires decisions == if approval.decision == Pending then [] else [approval.decision]
    ensures HistoryOk(PutApproval(s, a, approval, decisions))
  {
  }

  lemma PutApprovalKept(s: Store, w: Caller, a: ApprovalId, approval: Approval, decisions: seq<Decision>)
    requires HistoryOk(s)
    requires a in s.approvals && s.approvals[a].decision != Pending ==> approval.decision == s.approvals[a].decision
    requires decisions == if approval.decision == Pending then [] else [approval.decision]
    ensures Kept(s, w, PutApproval(s, a, approval, decisions))
  {
    PutApprovalPolite(s, w, a, approval, decisions);
    PutApprovalHistory(s, w, a, approval, decisions);
  }

  lemma SetClaimPolite(s: Store, w: Caller, k: Key, claim: Claim)
    requires HistoryOk(s)
    requires k in s.claims && s.claims[k].status == ClaimRunning ==> StageOk(s, w, s.claims[k].jobId, ByRan)
    requires k in s.claims ==> s.claims[k].status != ClaimCompleted
    requires k in s.successes ==> s.successes[k] == [claim.jobId] && claim.status != ClaimFailed
    requires claim.status == ClaimCompleted ==> claim.jobId in s.sealed && Succeeded(s, k, claim.jobId)
    ensures Polite(s, w, SetClaim(s, Some(k), claim))
  {
  }

  lemma SetClaimHistory(s: Store, w: Caller, k: Key, claim: Claim)
    requires HistoryOk(s)
    requires k in s.claims && s.claims[k].status == ClaimRunning ==> StageOk(s, w, s.claims[k].jobId, ByRan)
    requires k in s.claims ==> s.claims[k].status != ClaimCompleted
    requires k in s.successes ==> s.successes[k] == [claim.jobId] && claim.status != ClaimFailed
    requires claim.status == ClaimCompleted ==> claim.jobId in s.sealed && Succeeded(s, k, claim.jobId)
    ensures HistoryOk(SetClaim(s, Some(k), claim))
  {
  }

  lemma SetClaimKept(s: Store, w: Caller, k: Key, claim: Claim)
    requires HistoryOk(s)
    requires k in s.claims && s.claims[k].status == ClaimRunning ==> StageOk(s, w, s.claims[k].jobId, ByRan)
    requires k in s.claims ==> s.claims[k].status != ClaimCompleted
    requires k in s.successes ==> s.successes[k] == [claim.jobId] && claim.status != ClaimFailed
    requires claim.status == ClaimCompleted ==> claim.jobId in s.sealed && Succeeded(s, k, claim.jobId)
    ensures Kept(s, w, SetClaim(s, Some(k), claim))
  {
    SetClaimPolite(s, w, k, claim);
    SetClaimHistory(s, w, k, claim);
  }

  lemma SetArtifactsPolite(s: Store, w: Caller, j: JobId, artifacts: Artifacts, replay: Option<Replay>)
    requires HistoryOk(s)
    requires StageOk(s, w, j, ByRan) && j !in s.sealed
    requires replay.Some? ==>
               Replayable(s, replay.value) && s.sealed[replay.value.original] == artifacts && j !in s.starts
    ensures Polite(s, w, SetArtifacts(s, j, artifacts, if replay.Some? then s.replays[j := replay.value] else s.replays))
  {
  }

  lemma SetArtifactsHistory(s: Store, w: Caller, j: JobId, artifacts: Artifacts, replay: Option<Replay>)
    requires HistoryOk(s)
    requires StageOk(s, w, j, ByRan) && j !in s.sealed
    requires replay.Some? ==>
               Replayable(s, replay.value) && s.sealed[replay.value.original] == artifacts && j !in s.starts
    ensures HistoryOk(SetArtifacts(s, j, artifacts, if replay.Some? then s.replays[j := replay.value] else s.replays))
  {
  }

  lemma SetArtifactsKept(s: Store, w: Caller, j: JobId, artifacts: Artifacts, replay: Option<Replay>)
    requires HistoryOk(s)
    requires StageOk(s, w, j, ByRan) && j !in s.sealed
    requires replay.Some? ==>
               Replayable(s, replay.value) && s.sealed[replay.value.original] == artifacts && j !in s.starts
    ensures Kept(s, w, SetArtifacts(s, j, artifacts, if replay.Some? then s.replays[j := replay.value] else s.replays))
  {
    SetArtifactsPolite(s, w, j, artifacts, replay);
    SetArtifactsHistory(s, w, j, artifacts, replay);
  }

  lemma NewJobPolite(s: Store, w: Caller, j: JobId)
    requires HistoryOk(s)
    requires j !in s.phase
    ensures Polite(s, w, s.(phase := s.phase[j := New(w)]))
  {
  }

  lemma NewJobHistory(s: Store, w: Caller, j: JobId)
    requires HistoryOk(s)
    requires j !in s.phase
    ensures HistoryOk(s.(phase := s.phase[j := New(w)]))
  {
  }

  lemma NewJobKept(s: Store, w: Caller, j: JobId)
    requires HistoryOk(s)
    requires j !in s.phase
    ensures Kept(s, w, s.(phase := s.phase[j := New(w)]))
  {
    NewJobPolite(s, w, j);
    NewJobHistory(s, w, j);
  }

  lemma LogStartPolite(s: Store, w: Caller, j: JobId, start: Start)
    requires HistoryOk(s)
    requires StageOk(s, w, j, ByRan) && j !in s.starts && j !in s.sealed && (start.reasons ==> s.IsApproved(start.approvalId))
    ensures Polite(s, w, s.(starts := Logged(s.starts, j, start)))
  {
  }

  lemma LogStartHistory(s: Store, w: Caller, j: JobId, start: Start)
    requires HistoryOk(s)
    requires StageOk(s, w, j, ByRan) && j !in s.starts && j !in s.sealed && (start.reasons ==> s.IsApproved(start.approvalId))
    ensures HistoryOk(s.(starts := Logged(s.starts, j, start)))
  {
  }

  lemma LogStartKept(s: Store, w: Caller, j: JobId, start: Start)
    requires HistoryOk(s)
    requires StageOk(s, w, j, ByRan) && j !in s.starts && j !in s.sealed && (start.reasons ==> s.IsApproved(start.approvalId))
    ensures Kept(s, w, s.(starts := Logged(s.starts, j, start)))
  {
    LogStartPolite(s, w, j, start);
    LogStartHistory(s, w, j, start);
  }

  lemma LogSuccessPolite(s: Store, w: Caller, k: Key, j: JobId)
    requires HistoryOk(s)
    requires StageOk(s, w, j, ByRan) && Holds(s, k, j) && k !in s.successes
    ensures Polite(s, w, s.(successes := Logged(s.successes, k, j)))
  {
  }

  lemma LogSuccessHistory(s: Store, w: Caller, k: Key, j: JobId)
    requires HistoryOk(s)
    requires StageOk(s, w, j, ByRan) && Holds(s, k, j) && k !in s.successes
    ensures HistoryOk(s.(successes := Logged(s.successes, k, j)))
  {
  }

  lemma LogSuccessKept(s: Store, w: Caller, k: Key, j: JobId)
    requires HistoryOk(s)
    requires StageOk(s, w, j, ByRan) && Holds(s, k, j) && k !in s.successes
    ensures Kept(s, w, s.(successes := Logged(s.successes, k, j)))
  {
    LogSuccessPolite(s, w, k, j);
    LogSuccessHistory(s, w, k, j);
  }

  lemma AccessGood(s: Store, w: Caller, s': Store, pc: Pc)
    requires Kept(s, w, s') && Fits(s', w, pc)
    ensures Good(s, w, Access(s', pc))
  {
  }

  lemma IdleFits(s: Store, w: Caller)
    ensures Fits(s, w, Idle)
  {
  }

  lemma StayKept(s: Store, w: Caller)
    requires HistoryOk(s)
    ensures Kept(s, w, s)
  {
  }

  lemma MoveGood(s: Store, w: Caller, pc: Pc)
    requires HistoryOk(s) && Fits(s, w, pc)
    ensures Good(s, w, Access(s, pc))
  {
    StayKept(s, w);
  }

  lemma RequestGood(s: Store, w: Caller, a: ApprovalId, j: Option<JobId>, pc: Pc)
    requires HistoryOk(s) && a !in s.approvals && Fits(s, w, pc)
    ensures Good(s, w, Access(Request(s, a, j), pc))
  {
    PutApprovalKept(s, w, a, Approval(Pending, j), []);
    PutApprovalPolite(s, w + 1, a, Approval(Pending, j), []);
    OthersKeep(s, w + 1, Request(s, a, j), w, pc);
  }

  lemma NewFits(s: Store, w: Caller, j: JobId, job: Job, approval: Option<ApprovalId>)
    requires HistoryOk(s) && j !in s.phase && job == Job(Queued, approval, job.checksum) && (approval.Some? ==> s.IsApproved(approval))
    ensures Fits(s.(phase := s.phase[j := New(w)]), w,
                 if approval.None? then Creating(j, job) else Linking(j, job, approval.value, s.approvals[approval.value]))
  {
  }

  lemma CreateGood(s: Store, w: Caller, j: JobId, checksum: Checksum, approval: Option<ApprovalId>)
    requires HistoryOk(s) && Fits(s, w, Idle)
    ensures Good(s, w, Create(s, w, j, checksum, approval))
  {
    if j in s.phase || (approval.Some? && !s.IsApproved(approval)) {
      MoveGood(s, w, Idle);
    } else {
      NewJobKept(s, w, j);
      NewFits(s, w, j, Job(Queued, approval, checksum), approval);
    }
  }

  lemma EnterGood(s: Store, w: Caller, c: Choice)
    requires HistoryOk(s) && Fits(s, w, Idle)
    ensures Good(s, w, Enter(s, w, c))
  {
    match c
    case CallProcess(j) => MoveGood(s, w, Reading(j));
    case CallDecide(a, decision) =>
      MoveGood(s, w, Idle);
      if a in s.approvals && s.approvals[a].decision == Pending && decision != Pending {
        MoveGood(s, w, Deciding(a, s.approvals[a], decision));
      }
    case CallCreate(j, checksum, approval) => CreateGood(s, w, j, checksum, approval);
    case CallRequest(a) =>
      if a in s.approvals { MoveGood(s, w, Idle); } else { RequestGood(s, w, a, None, Idle); }
    case _ => MoveGood(s, w, Idle);
  }

  lemma ReadGood(s: Store, w: Caller, j: JobId)
    requires HistoryOk(s) && Fits(s, w, Reading(j))
    ensures Good(s, w, Read(s, j))
  {
    MoveGood(s, w, Read(s, j).pc);
  }

  /** A queued job is taken up for checking. */
  lemma TakeUpGood(s: Store, w: Caller, j: JobId, job: Job)
    requires HistoryOk(s) && j in s.jobs && s.jobs[j].status == Queued
    ensures Good(s, w, Access(PutJob(s, j, job.(status := CheckingDependencies), Checked(w)),
                              Checking(j, job.(status := CheckingDependencies))))
  {
    PutJobKept(s, w, j, job.(status := CheckingDependencies), Checked(w));
  }

  lemma GiveUpGood(s: Store, w: Caller, j: JobId, job: Job)
    requires HistoryOk(s) && Fits(s, w, Started(j, job))
    ensures Good(s, w, Access(s, Save(j, job.(status := Failed), None)))
  {
    MoveGood(s, w, Save(j, job.(status := Failed), None));
  }

  lemma BeginGood(s: Store, w: Caller, c: Choice, j: JobId, job: Job)
    requires HistoryOk(s) && Fits(s, w, Started(j, job))
    ensures Good(s, w, Begin(s, w, c, j, job))
  {
    if c == ProviderMissing {
      GiveUpGood(s, w, j, job);
    } else if job.status == WaitingForApproval && s.IsApproved(job.approvalId) {
      MoveGood(s, w, TakeWaiting(j, job));
    } else if job.status != WaitingForApproval && j in s.jobs && s.jobs[j].status == Queued {
      TakeUpGood(s, w, j, job);
    } else {
      MoveGood(s, w, Idle);
    }
  }

  lemma CheckGood(s: Store, w: Caller, c: Choice, j: JobId, job: Job)
    requires HistoryOk(s) && Fits(s, w, Checking(j, job))
    ensures Good(s, w, Check(s, c, j, job))
  {
    match c
    case CheckFails => MoveGood(s, w, Save(j, job.(status := Failed), None));
    case DependencyMissing => MoveGood(s, w, Save(j, job.(status := WaitingForDependency), None));
    case Reasons(newId) =>
      if job.approvalId.Some? {
        MoveGood(s, w, Check(s, c, j, job).pc);
      } else if newId in s.approvals {
        MoveGood(s, w, Checking(j, job));
      } else {
        RequestGood(s, w, newId, Some(j), Park(j, job.(status := WaitingForApproval, approvalId := Some(newId))));
      }
    case _ => MoveGood(s, w, TakeChecked(j, job, false));
  }

  lemma TakeWaitingGood(s: Store, w: Caller, j: JobId, job: Job)
    requires HistoryOk(s) && Fits(s, w, TakeWaiting(j, job))
    ensures Good(s, w, Take(s, w, WaitingForApproval, j, job, true))
  {
    if j in s.jobs && s.jobs[j].status == WaitingForApproval {
      PutJobKept(s, w, j, job.(status := Running), Ran(w));
    } else {
      MoveGood(s, w, Idle);
    }
  }

  lemma TakenFits(s: Store, w: Caller, j: JobId, job: Job, reasons: bool)
    requires HistoryOk(s) && Fits(s, w, TakeChecked(j, job, reasons))
    ensures Fits(PutJob(s, j, job.(status := Running), Ran(w)), w, Claiming(j, job.(status := Running), reasons))
  {
  }

  lemma TakeCheckedGood(s: Store, w: Caller, j: JobId, job: Job, reasons: bool)
    requires HistoryOk(s) && Fits(s, w, TakeChecked(j, job, reasons))
    ensures Good(s, w, Take(s, w, CheckingDependencies, j, job, reasons))
  {
    if j in s.jobs && s.jobs[j].status == CheckingDependencies {
      PutJobKept(s, w, j, job.(status := Running), Ran(w));
      TakenFits(s, w, j, job, reasons);
    } else {
      MoveGood(s, w, Idle);
    }
  }

  lemma ParkGood(s: Store, w: Caller, j: JobId, job: Job)
    requires HistoryOk(s) && Fits(s, w, Park(j, job))
    ensures Good(s, w, Do(s, w, Park(j, job), Proceed))
  {
    PutJobKept(s, w, j, job, Parked);
  }

  lemma SaveKept(s: Store, w: Caller, j: JobId, job: Job, key: Option<Key>)
    requires HistoryOk(s) && Fits(s, w, Save(j, job, key))
    ensures j in s.phase && Kept(s, w, PutJob(s, j, job, s.phase[j]))
  {
    PutJobKept(s, w, j, job, s.phase[j]);
  }

  lemma CompletionFits(s: Store, w: Caller, j: JobId, job: Job, k: Key)
    requires Fits(s, w, Save(j, job, Some(k)))
    ensures j in s.phase && Fits(PutJob(s, j, job, s.phase[j]), w, CompleteClaim(j, job, k))
  {
    assert s.phase[j := s.phase[j]] == s.phase;
  }

  lemma SaveGood(s: Store, w: Caller, j: JobId, job: Job, key: Option<Key>)
    requires HistoryOk(s) && Fits(s, w, Save(j, job, key))
    ensures Good(s, w, Do(s, w, Save(j, job, key), Proceed))
  {
    SaveKept(s, w, j, job, key);
    var s' := PutJob(s, j, job, s.phase[j]);
    if key.Some? {
      CompletionFits(s, w, j, job, key.value);
      AccessGood(s, w, s', CompleteClaim(j, job, key.value));
    } else {
      IdleFits(s', w);
      AccessGood(s, w, s', Idle);
    }
  }

  lemma NewClaimKept(s: Store, w: Caller, j: JobId, job: Job, reasons: bool, k: Key)
    requires HistoryOk(s) && Fits(s, w, Claiming(j, job, reasons))
    requires k !in s.claims || s.claims[k].status == ClaimFailed
    ensures k !in s.successes && Kept(s, w, SetClaim(s, Some(k), Claim(ClaimRunning, j, job.checksum)))
  {
    SetClaimKept(s, w, k, Claim(ClaimRunning, j, job.checksum));
  }

  lemma NewClaimFits(s: Store, w: Caller, j: JobId, job: Job, reasons: bool, k: Key)
    requires Fits(s, w, Claiming(j, job, reasons)) && k !in s.successes
    ensures Fits(SetClaim(s, Some(k), Claim(ClaimRunning, j, job.checksum)), w, Ready(j, job, reasons, Some(k)))
  {
  }

  lemma NewClaimGood(s: Store, w: Caller, j: JobId, job: Job, reasons: bool, k: Key)
    requires HistoryOk(s) && Fits(s, w, Claiming(j, job, reasons))
    requires k !in s.claims || s.claims[k].status == ClaimFailed
    ensures Good(s, w, Access(SetClaim(s, Some(k), Claim(ClaimRunning, j, job.checksum)), Ready(j, job, reasons, Some(k))))
  {
    NewClaimKept(s, w, j, job, reasons, k);
    NewClaimFits(s, w, j, job, reasons, k);
  }

  lemma ClaimGood(s: Store, w: Caller, c: Choice, j: JobId, job: Job, reasons: bool)
    requires HistoryOk(s) && Fits(s, w, Claiming(j, job, reasons))
    ensures Good(s, w, ClaimKey(s, c, j, job, reasons))
  {
    if !c.UseKey? {
      MoveGood(s, w, Ready(j, job, reasons, None));
    } else if c.k !in s.claims || s.claims[c.k].status == ClaimFailed {
      NewClaimGood(s, w, j, job, reasons, c.k);
    } else {
      MoveGood(s, w, ClaimKey(s, c, j, job, reasons).pc);
    }
  }

  lemma CopyGood(s: Store, w: Caller, j: JobId, job: Job, k: Key, original: JobId)
    requires HistoryOk(s) && Fits(s, w, Replaying(j, job, k, original))
    ensures Good(s, w, Do(s, w, Replaying(j, job, k, original), Proceed))
  {
    MoveGood(s, w, Do(s, w, Replaying(j, job, k, original), Proceed).pc);
  }

  lemma ReplayStoreGood(s: Store, w: Caller, j: JobId, job: Job, k: Key, original: JobId, artifacts: Artifacts)
    requires HistoryOk(s) && Fits(s, w, ReplayStore(j, job, k, original, artifacts))
    ensures Good(s, w, Do(s, w, ReplayStore(j, job, k, original, artifacts), Proceed))
  {
    SetArtifactsKept(s, w, j, artifacts, Some(Replay(k, original, job.checksum)));
  }

  lemma StartsProvider(s: Store, w: Caller, j: JobId, job: Job, reasons: bool, key: Option<Key>)
    requires HistoryOk(s) && Fits(s, w, Ready(j, job, reasons, key))
    ensures Good(s, w, Access(s.(starts := Logged(s.starts, j, Start(reasons, job.approvalId))), InProvider(j, job, key)))
  {
    LogStartKept(s, w, j, Start(reasons, job.approvalId));
  }

  lemma StartGood(s: Store, w: Caller, c: Choice, j: JobId, job: Job, reasons: bool, key: Option<Key>)
    requires HistoryOk(s) && Fits(s, w, Ready(j, job, reasons, key))
    ensures Good(s, w, StartProvider(s, c, j, job, reasons, key))
  {
    if c == EarlyFailure || c == PreWriteFails {
      MoveGood(s, w, StartProvider(s, c, j, job, reasons, key).pc);
    } else {
      StartsProvider(s, w, j, job, reasons, key);
    }
  }

  lemma SuccessGood(s: Store, w: Caller, j: JobId, job: Job, k: Key, artifacts: Artifacts)
    requires HistoryOk(s) && Fits(s, w, InProvider(j, job, Some(k)))
    ensures Good(s, w, Access(s.(successes := Logged(s.successes, k, j)), StoreArtifacts(j, job, Some(k), artifacts)))
  {
    LogSuccessKept(s, w, k, j);
  }

  lemma EndGood(s: Store, w: Caller, c: Choice, j: JobId, job: Job, key: Option<Key>)
    requires HistoryOk(s) && Fits(s, w, InProvider(j, job, key))
    ensures Good(s, w, EndProvider(s, c, j, job, key))
  {
    if c.ProviderSucceeds? && key.Some? {
      SuccessGood(s, w, j, job, key.value, c.artifacts);
    } else {
      MoveGood(s, w, EndProvider(s, c, j, job, key).pc);
    }
  }

  lemma ReleaseGood(s: Store, w: Caller, j: JobId, job: Job, key: Option<Key>)
    requires HistoryOk(s) && Fits(s, w, Release(j, job, key))
    ensures Good(s, w, Do(s, w, Release(j, job, key), Proceed))
  {
    if key.Some? {
      SetClaimKept(s, w, key.value, Claim(ClaimFailed, j, job.checksum));
    } else {
      MoveGood(s, w, Save(j, job.(status := Failed), None));
    }
  }

  lemma StoreArtifactsGood(s: Store, w: Caller, j: JobId, job: Job, key: Option<Key>, artifacts: Artifacts)
    requires HistoryOk(s) && Fits(s, w, StoreArtifacts(j, job, key, artifacts))
    ensures Good(s, w, Do(s, w, StoreArtifacts(j, job, key, artifacts), Proceed))
  {
    SetArtifactsKept(s, w, j, artifacts, None);
  }

  lemma CompleteClaimGood(s: Store, w: Caller, j: JobId, job: Job, k: Key)
    requires HistoryOk(s) && Fits(s, w, CompleteClaim(j, job, k))
    ensures Good(s, w, Do(s, w, CompleteClaim(j, job, k), Proceed))
  {
    SetClaimKept(s, w, k, Claim(ClaimCompleted, j, job.checksum));
  }

  lemma DecideGood(s: Store, w: Caller, a: ApprovalId, approval: Approval, decision: Decision)
    requires HistoryOk(s) && Fits(s, w, Deciding(a, approval, decision))
    ensures Good(s, w, Decide(s, a, approval, decision))
  {
    if a in s.approvals && s.approvals[a].decision == Pending {
      PutApprovalKept(s, w, a, approval.(decision := decision), [decision]);
      assert s.decisions[a] + [decision] == [decision];
      var access := Decide(s, a, approval, decision);
      assert access.store == PutApproval(s, a, approval.(decision := decision), [decision]);
      assert Fits(access.store, w, access.pc);
    } else {
      MoveGood(s, w, Idle);
    }
  }

  lemma RejectJobGood(s: Store, w: Caller, j: JobId)
    requires HistoryOk(s) && Fits(s, w, RejectJob(j))
    ensures Good(s, w, Do(s, w, RejectJob(j), Proceed))
  {
    MoveGood(s, w, Do(s, w, RejectJob(j), Proceed).pc);
  }

  lemma LinkKept(s: Store, w: Caller, j: JobId, job: Job, a: ApprovalId, approval: Approval)
    requires HistoryOk(s) && Fits(s, w, Linking(j, job, a, approval))
    ensures a in s.decisions && Kept(s, w, PutApproval(s, a, approval.(jobId := Some(j)), s.decisions[a]))
  {
    PutApprovalKept(s, w, a, approval.(jobId := Some(j)), s.decisions[a]);
  }

  lemma LinkFits(s: Store, w: Caller, j: JobId, job: Job, a: ApprovalId, approval: Approval)
    requires HistoryOk(s) && Fits(s, w, Linking(j, job, a, approval)) && a in s.decisions
    ensures Fits(PutApproval(s, a, approval.(jobId := Some(j)), s.decisions[a]), w, Creating(j, job))
  {
  }

  lemma DoLinks(s: Store, w: Caller, j: JobId, job: Job, a: ApprovalId, approval: Approval)
    requires a in s.decisions
    ensures Do(s, w, Linking(j, job, a, approval), Proceed)
         == Access(PutApproval(s, a, approval.(jobId := Some(j)), s.decisions[a]), Creating(j, job))
  {
  }

  lemma LinkGood(s: Store, w: Caller, j: JobId, job: Job, a: ApprovalId, approval: Approval)
    requires HistoryOk(s) && Fits(s, w, Linking(j, job, a, approval))
    ensures Good(s, w, Do(s, w, Linking(j, job, a, approval), Proceed))
  {
    LinkKept(s, w, j, job, a, approval);
    LinkFits(s, w, j, job, a, approval);
    DoLinks(s, w, j, job, a, approval);
  }

  lemma CreatingGood(s: Store, w: Caller, j: JobId, job: Job)
    requires HistoryOk(s) && Fits(s, w, Creating(j, job))
    ensures Good(s, w, Do(s, w, Creating(j, job), Proceed))
  {
    PutJobKept(s, w, j, job, Fresh);
  }

  /** Every access up to the claim of the idempotency key keeps what all callers rely on. */
  lemma EarlyGood(s: Store, w: Caller, pc: Pc, c: Choice)
    requires HistoryOk(s) && Fits(s, w, pc)
    requires pc.Idle? || pc.Reading? || pc.Started? || pc.TakeWaiting? || pc.Checking? || pc.TakeChecked? || pc.Park? || pc.Claiming?
    ensures Good(s, w, Do(s, w, pc, c))
  {
    match pc
    case Idle => EnterGood(s, w, c);
    case Reading(j) => ReadGood(s, w, j);
    case Started(j, job) => BeginGood(s, w, c, j, job);
    case TakeWaiting(j, job) => TakeWaitingGood(s, w, j, job);
    case Checking(j, job) => CheckGood(s, w, c, j, job);
    case TakeChecked(j, job, reasons) => TakeCheckedGood(s, w, j, job, reasons);
    case Park(j, job) => ParkGood(s, w, j, job);
    case Claiming(j, job, reasons) => ClaimGood(s, w, c, j, job, reasons);
  }

  /** Every access does. */
  lemma DoGood(s: Store, w: Caller, pc: Pc, c: Choice)
    requires HistoryOk(s) && Fits(s, w, pc)
    ensures Good(s, w, Do(s, w, pc, c))
  {
    match pc
    case Save(j, job, key) => SaveGood(s, w, j, job, key);
    case Replaying(j, job, k, original) => CopyGood(s, w, j, job, k, original);
    case ReplayStore(j, job, k, original, artifacts) => ReplayStoreGood(s, w, j, job, k, original, artifacts);
    case Ready(j, job, reasons, key) => StartGood(s, w, c, j, job, reasons, key);
    case InProvider(j, job, key) => EndGood(s, w, c, j, job, key);
    case Release(j, job, key) => ReleaseGood(s, w, j, job, key);
    case StoreArtifacts(j, job, key, artifacts) => StoreArtifactsGood(s, w, j, job, key, artifacts);
    case CompleteClaim(j, job, k) => CompleteClaimGood(s, w, j, job, k);
    case Deciding(a, approval, decision) => DecideGood(s, w, a, approval, decision);
    case RejectJob(j) => RejectJobGood(s, w, j);
    case Linking(j, job, a, approval) => LinkGood(s, w, j, job, a, approval);
    case Creating(j, job) => CreatingGood(s, w, j, job);
    case _ => EarlyGood(s, w, pc, c);
  }

  lemma ActKeepsInv(s: State, w: Caller, c: Choice)
    requires Inv(s)
    ensures Inv(Act(s, w, c))
  {
    DoGood(s.store, w, s.At(w), c);
    var s' := Act(s, w, c);
    forall v ensures Fits(s'.store, v, s'.At(v)) {
      if v != w {
        OthersKeep(s.store, w, s'.store, v, s.At(v));
      }
    }
  }

  lemma {:induction false} RunKeepsInv(steps: seq<(Caller, Choice)>)
    ensures Inv(Run(INIT, steps))
  {
    if steps != [] {
      var last := |steps| - 1;
      RunKeepsInv(steps[..last]);
      ActKeepsInv(Run(INIT, steps[..last]), steps[last].0, steps[last].1);
    }
  }

  // ---- what it means for the service ----

  /** However calls interleave, the provider of a job is launched at most once, and with reasons only once approved. */
  lemma ProviderStartsAtMostOnceAndApproved(steps: seq<(Caller, Choice)>, j: JobId)
    ensures
      var s := Run(INIT, steps).store;
      j in s.starts ==>
        |s.starts[j]| == 1 && (s.starts[j][0].reasons ==> s.IsApproved(s.starts[j][0].approvalId))
  {
    RunKeepsInv(steps);
  }

  /** An approval is decided at most once, and the recorded decision is that one. */
  lemma ApprovalDecidedAtMostOnce(steps: seq<(Caller, Choice)>, a: ApprovalId)
    ensures
      var s := Run(INIT, steps).store;
      a in s.approvals ==>
        a in s.decisions && |s.decisions[a]| <= 1
        && s.approvals[a].decision == if s.decisions[a] == [] then Pending else s.decisions[a][0]
  {
    RunKeepsInv(steps);
  }

  /** Two callers cannot both hold a key between its claim and its release or completion. */
  lemma KeyHeldByOneCaller(steps: seq<(Caller, Choice)>, v: Caller, w: Caller, k: Key)
    requires DutyOf(Run(INIT, steps).At(v)).held == Some(k) && DutyOf(Run(INIT, steps).At(w)).held == Some(k)
    ensures v == w
  {
    RunKeepsInv(steps);
    var s := Run(INIT, steps);
    assert Fits(s.store, v, s.At(v)) && Fits(s.store, w, s.At(w));
  }

  /** At most one job per idempotency key ever finishes its provider successfully, and it does so once. */
  lemma KeySucceedsAtMostOnce(steps: seq<(Caller, Choice)>, k: Key)
    ensures
      var s := Run(INIT, steps).store;
      k in s.successes ==> |s.successes[k]| == 1 && k in s.claims && s.claims[k].jobId == s.successes[k][0]
  {
    RunKeepsInv(steps);
  }

  /** A replay got the artifacts of the one job that succeeded under its key, and both records still hold them. */
  lemma ReplayReturnsFinalArtifacts(steps: seq<(Caller, Choice)>, j: JobId)
    ensures
      var s := Run(INIT, steps).store;
      j in s.replays ==>
        var r := s.replays[j];
        && Replayable(s, r)
        && j in s.artifacts && r.original in s.artifacts && s.artifacts[j] == s.artifacts[r.original]
        && j !in s.starts
  {
    RunKeepsInv(steps);
  }

  /** Decisions, completed claims with their checksum, and final artifacts last through every later access. */
  lemma DecisionsClaimsAndArtifactsLast(steps: seq<(Caller, Choice)>, w: Caller, c: Choice)
    ensures
      var s, s' := Run(INIT, steps).store, Run(INIT, steps + [(w, c)]).store;
      Lasting(s, s') && forall j :: j in s.sealed ==> j in s.artifacts && j in s'.artifacts && s'.artifacts[j] == s.artifacts[j]
  {
    RunKeepsInv(steps);
    RunKeepsInv(steps + [(w, c)]);
    var s := Run(INIT, steps);
    assert (steps + [(w, c)])[..|steps|] == steps;
    DoGood(s.store, w, s.At(w), c);
  }
}
