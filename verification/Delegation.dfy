/** The delegation lifecycle: the status table, append-only records, and the services that drive it. */
module Delegation {
  import opened Paths
  import opened Wrappers

  type TaskId = string

  datatype Status =
    | Draft | Assigned | WorkspaceReady | ExecutorWorking | ExecutorBlocked | ExecutorDone | Reviewing
    | RevisionRequested | Accepted | Promoting | Promoted | PromotionFailed | Rejected | Cancelled | Failed

  function Transitions(status: Status): set<Status> {
    match status
    case Draft => {Assigned}
    case Assigned => {WorkspaceReady}
    case WorkspaceReady => {ExecutorWorking}
    case ExecutorWorking => {ExecutorBlocked, ExecutorDone, Failed, Cancelled}
    case ExecutorBlocked => {ExecutorWorking, Failed, Cancelled}
    case ExecutorDone => {Reviewing, RevisionRequested}
    case Reviewing => {RevisionRequested, Accepted, Rejected}
    case RevisionRequested => {ExecutorWorking}
    case Accepted => {Promoting, Cancelled}
    case Promoting => {Promoted, PromotionFailed}
    case PromotionFailed => {Promoting, RevisionRequested, Rejected, Cancelled}
    case _ => {}
  }

  /** `TERMINAL_STATUSES` are exactly the statuses without a way on. */
  lemma TerminalStatusesAreDeadEnds(status: Status)
    ensures status in {Promoted, Rejected, Cancelled, Failed} <==> Transitions(status) == {}
  {
    if status !in {Promoted, Rejected, Cancelled, Failed} {
      var next := match status
        case Draft => Assigned
        case Assigned => WorkspaceReady
        case ExecutorWorking => ExecutorDone
        case ExecutorDone => Reviewing
        case Reviewing => Accepted
        case Accepted => Promoting
        case Promoting => Promoted
        case PromotionFailed => Promoting
        case _ => ExecutorWorking;
      assert next in Transitions(status);
    }
  }

  datatype Task = Task(status: Status, latest: nat, accepted: Option<nat>, required: seq<string>)

  datatype Decision = ReviseDecision | AcceptDecision | RejectDecision
  datatype Review = Review(revision: nat, decision: Decision)

  datatype WorkOutcome = CompletedWork | Advisory | NoWork | FailedWork

  datatype CommandStatus = Reported | Passed | NotPassed | Waived
  datatype Command = Command(command: string, observed: bool, status: CommandStatus, waiver: string)

  /** One task with its append-only records; `results` lists revision numbers, `promotions` rollback flags. */
  datatype Life = Life(
    task: Task, results: seq<nat>, reviews: seq<Review>, launches: seq<WorkOutcome>, commands: seq<Command>,
    promotions: seq<Option<bool>>)

  datatype DelegationError =
    | UnknownTask | TaskExists | InvalidTransition | NotDone | NothingToCapture(launch: Option<WorkOutcome>) | InvalidPath | DeniedPath
    | OutOfScope | SymlinkChange | EmptyPatch | RevisionExists | NotReviewable | NoResult | WorkspaceChanged
    | ArtifactChanged | NotPromotable | RollbackUnconfirmed | NotLatest | UnmetCommands | RefusedByRepository
    | PromotionRolled | CommandsClosed | CommandNotAllowed | NotRequired | NoRationale

  datatype Change = Change(path: Path, symlink: bool)

  /** What a call finds outside the store. */
  datatype Op =
    | Move(status: Status)
    | Launch(outcome: WorkOutcome)
    | Capture(changes: seq<Change>, allowed: seq<Path>, denied: seq<Path>, patchEmpty: bool, directoryExists: bool)
    | RequestRevision
    | Accept(patchUnchanged: bool, artifactsIntact: bool)
    | Reject
    | Promote(repositoryAllows: bool, applied: bool, rolledBack: bool)
    | RunCommand(command: string, allowed: seq<string>, passed: bool)
    | Report(command: string)
    | Waive(command: string, reason: string)

  predicate Blank(s: string) {
    forall c :: c in s ==> c in " \t\n\r"
  }

  /** Observed by Canto, and passed or waived with a rationale. */
  predicate Satisfies(record: Command) {
    record.observed && (record.status == Passed || (record.status == Waived && !Blank(record.waiver)))
  }

  function Unmet(life: Life): seq<string> {
    UnmetIn(life.task.required, life.commands)
  }

  function UnmetIn(required: seq<string>, records: seq<Command>): seq<string> {
    if required == [] then []
    else
      (if exists r :: r in records && Satisfies(r) && r.command == required[0] then [] else [required[0]])
      + UnmetIn(required[1..], records)
  }

  /** `transition`: the table, then the status with the caller's updates. */
  function Moved(life: Life, status: Status, latest: nat, accepted: Option<nat>): Result<Life, DelegationError> {
    if status !in Transitions(life.task.status) then Failure(InvalidTransition)
    else Success(life.(task := life.task.(status := status, latest := latest, accepted := accepted)))
  }

  predicate MatchesAny(path: Path, roots: seq<Path>) {
    exists root :: root in roots && Under(path, root)
  }

  predicate EscapingPath(path: Path) {
    (path != "" && path[0] == '/') || ".." in Split(path)
  }

  /** First objection to the changed files, in listing order. */
  function ScopeError(changes: seq<Change>, allowed: seq<Path>, denied: seq<Path>): Option<DelegationError> {
    if changes == [] then None
    else if EscapingPath(changes[0].path) then Some(InvalidPath)
    else if MatchesAny(changes[0].path, denied) then Some(DeniedPath)
    else if !MatchesAny(changes[0].path, allowed) then Some(OutOfScope)
    else if changes[0].symlink then Some(SymlinkChange)
    else ScopeError(changes[1..], allowed, denied)
  }

  function LastLaunch(life: Life): Option<WorkOutcome> {
    if life.launches == [] then None else Some(life.launches[|life.launches| - 1])
  }

  predicate Unproductive(life: Life) {
    LastLaunch(life) == Some(Advisory) || LastLaunch(life) == Some(NoWork)
  }

  function CaptureResult(life: Life, op: Op): Result<Life, DelegationError>
    requires op.Capture?
  {
    if life.task.status != ExecutorDone then Failure(NotDone)
    else if Unproductive(life) then Failure(NothingToCapture(LastLaunch(life)))
    else if op.changes == [] then Failure(NothingToCapture(None))
    else if ScopeError(op.changes, op.allowed, op.denied).Some? then Failure(ScopeError(op.changes, op.allowed, op.denied).value)
    else if op.patchEmpty then Failure(EmptyPatch)
    else if op.directoryExists then Failure(RevisionExists)
    else
      var revision := life.task.latest + 1;
      Moved(life.(results := life.results + [revision]), Reviewing, revision, life.task.accepted)
  }

  function AddReview(life: Life, revision: nat, decision: Decision): Life {
    life.(reviews := life.reviews + [Review(revision, decision)])
  }

  /** `_reviewable`: awaiting review, and the last stored result is the latest revision. */
  predicate Reviewable(life: Life) {
    life.task.status == Reviewing && life.results != [] && life.results[|life.results| - 1] == life.task.latest
  }

  function Revise(life: Life): Result<Life, DelegationError> {
    if life.task.status == ExecutorDone && life.task.latest == 0 then
      Moved(life, RevisionRequested, life.task.latest, life.task.accepted)
    else if life.task.status == PromotionFailed then
      if life.task.latest !in life.results then Failure(NoResult)
      else Moved(AddReview(life, life.task.latest, ReviseDecision), RevisionRequested, life.task.latest, None)
    else if !Reviewable(life) then Failure(NotReviewable)
    else Moved(AddReview(life, life.task.latest, ReviseDecision), RevisionRequested, life.task.latest, None)
  }

  function AcceptResult(life: Life, patchUnchanged: bool, artifactsIntact: bool): Result<Life, DelegationError> {
    if !Reviewable(life) then Failure(NotReviewable)
    else if !patchUnchanged then Failure(WorkspaceChanged)
    else if !artifactsIntact then Failure(ArtifactChanged)
    else Moved(AddReview(life, life.task.latest, AcceptDecision), Accepted, life.task.latest, Some(life.task.latest))
  }

  function RejectResult(life: Life): Result<Life, DelegationError> {
    if !Reviewable(life) then Failure(NotReviewable)
    else Moved(AddReview(life, life.task.latest, RejectDecision), Rejected, life.task.latest, None)
  }

  /** `promote` as far as the task is concerned: its gates, `promoting`, and the outcome. */
  function PromoteTask(life: Life, op: Op): Result<Life, DelegationError>
    requires op.Promote?
  {
    var log := life.promotions;
    if life.task.status !in {Accepted, PromotionFailed} then Failure(NotPromotable)
    else if life.task.status == PromotionFailed && (log == [] || log[|log| - 1] != Some(true)) then Failure(RollbackUnconfirmed)
    else if life.task.accepted != Some(life.task.latest) then Failure(NotLatest)
    else if life.task.latest !in life.results then Failure(NoResult)
    else if Unmet(life) != [] then Failure(UnmetCommands)
    else if !op.repositoryAllows then Failure(RefusedByRepository)
    else
      match Moved(life, Promoting, life.task.latest, life.task.accepted)
      case Failure(e) => Failure(e)
      case Success(promoting) =>
        Moved(promoting.(promotions := log + [if op.applied then None else Some(op.rolledBack)]),
                   if op.applied then Promoted else PromotionFailed, life.task.latest, life.task.accepted)
  }

  function AddCommand(life: Life, record: Command): Life {
    life.(commands := life.commands + [record])
  }

  /** One service call on one task. A launch appends its record and, like the manual flow, moves on by itself. */
  function Do(life: Life, op: Op): Result<Life, DelegationError> {
    match op
    case Move(status) =>
      // the targets the command line and the executors pass to `transition` directly
      if status in {Assigned, WorkspaceReady, ExecutorWorking, ExecutorBlocked, ExecutorDone, Failed}
      then Moved(life, status, life.task.latest, life.task.accepted) else Failure(InvalidTransition)
    case Launch(outcome) =>
      if life.task.status != ExecutorWorking then Failure(InvalidTransition)
      else Success(life.(launches := life.launches + [outcome]))
    case Capture(_, _, _, _, _) => CaptureResult(life, op)
    case RequestRevision => Revise(life)
    case Accept(patchUnchanged, artifactsIntact) => AcceptResult(life, patchUnchanged, artifactsIntact)
    case Reject => RejectResult(life)
    case Promote(_, _, _) => PromoteTask(life, op)
    case RunCommand(command, allowed, passed) =>
      if life.task.status !in {ExecutorWorking, ExecutorDone} then Failure(CommandsClosed)
      else if (allowed != [] || life.task.required != []) && command !in allowed && command !in life.task.required
      then Failure(CommandNotAllowed)
      else Success(AddCommand(life, Command(command, true, if passed then Passed else NotPassed, "")))
    case Report(command) => Success(AddCommand(life, Command(command, false, Reported, "")))
    case Waive(command, reason) =>
      if command !in life.task.required then Failure(NotRequired)
      else if Blank(reason) then Failure(NoRationale)
      else Success(AddCommand(life, Command(command, true, Waived, reason)))
  }

  function NewLife(required: seq<string>): Life {
    Life(Task(Draft, 0, None, required), [], [], [], [], [])
  }

  // ---- the invariant of one task ----

  /** Statuses in which a revision is bound. */
  predicate Bound(status: Status) {
    status in {Accepted, Promoting, Promoted, PromotionFailed}
  }

  ghost predicate Sound(life: Life) {
    var task := life.task;
    && |life.results| == task.latest
    && (forall i :: 0 <= i < |life.results| ==> life.results[i] == i + 1)
    && task.accepted == (if Bound(task.status) then Some(task.latest) else None)
    && (Bound(task.status) ==> Review(task.latest, AcceptDecision) in life.reviews)
    && (task.status == Rejected ==> Review(task.latest, RejectDecision) in life.reviews)
    && (task.status == RevisionRequested && task.latest > 0 ==> Review(task.latest, ReviseDecision) in life.reviews)
    && (task.status == Reviewing ==> task.latest > 0)
    && (task.status == Promoted ==> Unmet(life) == [])
    && (forall i :: 0 <= i < |life.reviews| ==>
          1 <= life.reviews[i].revision <= task.latest
          && (life.reviews[i].revision == task.latest ==> task.status !in {Reviewing}))
    && AcceptedOnce(life.reviews)
  }

  /** No revision is accepted twice. */
  ghost predicate AcceptedOnce(reviews: seq<Review>) {
    forall i, j :: 0 <= i < j < |reviews| && reviews[i].decision == AcceptDecision && reviews[j].decision == AcceptDecision ==>
      reviews[i].revision != reviews[j].revision
  }

  // ---- the services, working step by step on their store ----

  /** A method's outcome and new store, as its specification function gives them for one task. */
  ghost predicate Follows(
    before: map<TaskId, Life>, after: map<TaskId, Life>, t: TaskId, spec: Result<Life, DelegationError>,
    r: Outcome<DelegationError>)
  {
    match spec
    case Success(life) => r == Pass && after == before[t := life]
    case Failure(e) => r == Fail(e) && after == before
  }

  /** What a call on task `t` should do. */
  ghost function Called(lives: map<TaskId, Life>, t: TaskId, op: Op): Result<Life, DelegationError> {
    if t in lives then Do(lives[t], op) else Failure(UnknownTask)
  }

  class DelegationService {
    var lives: map<TaskId, Life>

    constructor ()
      ensures lives == map[]
    {
      lives := map[];
    }

    method CreateTask(t: TaskId, task: Task) returns (r: Outcome<DelegationError>)
      modifies this
      ensures Follows(old(lives), lives, t,
                      if t in old(lives) then Failure(TaskExists)
                      else if task.status != Draft then Failure(InvalidTransition)
                      else Success(Life(task, [], [], [], [], [])), r)
    {
      if t in lives {
        return Fail(TaskExists);
      }
      if task.status != Draft {
        return Fail(InvalidTransition);
      }
      lives := lives[t := Life(task, [], [], [], [], [])];
      return Pass;
    }

    method Transition(t: TaskId, status: Status, latest: nat, accepted: Option<nat>) returns (r: Outcome<DelegationError>)
      requires t in lives
      modifies this
      ensures Follows(old(lives), lives, t, Moved(old(lives)[t], status, latest, accepted), r)
    {
      var life := lives[t];
      if status !in Transitions(life.task.status) {
        return Fail(InvalidTransition);
      }
      lives := lives[t := life.(task := Task(status, latest, accepted, life.task.required))];
      return Pass;
    }

    method AppendResult(t: TaskId, revision: nat)
      requires t in lives
      modifies this
      ensures lives == old(lives)[t := old(lives)[t].(results := old(lives)[t].results + [revision])]
    {
      lives := lives[t := lives[t].(results := lives[t].results + [revision])];
    }

    method AppendReview(t: TaskId, revision: nat, decision: Decision)
      requires t in lives
      modifies this
      ensures lives == old(lives)[t := AddReview(old(lives)[t], revision, decision)]
    {
      lives := lives[t := lives[t].(reviews := lives[t].reviews + [Review(revision, decision)])];
    }

    /** The loop over the changed files. */
    method CheckScope(changes: seq<Change>, allowed: seq<Path>, denied: seq<Path>) returns (error: Option<DelegationError>)
      ensures error == ScopeError(changes, allowed, denied)
    {
      for i := 0 to |changes|
        invariant ScopeError(changes, allowed, denied) == ScopeError(changes[i..], allowed, denied)
      {
        var change := changes[i];
        assert changes[i..][0] == change && changes[i..][1..] == changes[i + 1..];
        if EscapingPath(change.path) {
          return Some(InvalidPath);
        }
        if MatchesAny(change.path, denied) {
          return Some(DeniedPath);
        }
        if !MatchesAny(change.path, allowed) {
          return Some(OutOfScope);
        }
        if change.symlink {
          return Some(SymlinkChange);
        }
      }
      return None;
    }

    method Capture(t: TaskId, op: Op) returns (r: Outcome<DelegationError>)
      requires op.Capture?
      modifies this
      ensures Follows(old(lives), lives, t, Called(old(lives), t, op), r)
    {
      if t !in lives {
        return Fail(UnknownTask);
      }
      var task := lives[t].task;
      if task.status != ExecutorDone {
        return Fail(NotDone);
      }
      var launches := lives[t].launches;
      if launches != [] && launches[|launches| - 1] in {Advisory, NoWork} {
        return Fail(NothingToCapture(Some(launches[|launches| - 1])));
      }
      if op.changes == [] {
        return Fail(NothingToCapture(None));
      }
      var scope := CheckScope(op.changes, op.allowed, op.denied);
      if scope.Some? {
        return Fail(scope.value);
      }
      if op.patchEmpty {
        return Fail(EmptyPatch);
      }
      var revision := task.latest + 1;
      if op.directoryExists {
        return Fail(RevisionExists);
      }
      AppendResult(t, revision);
      r := Transition(t, Reviewing, revision, task.accepted);
      assert lives == old(lives)[t := lives[t]];
    }

    method RequestRevision(t: TaskId) returns (r: Outcome<DelegationError>)
      modifies this
      ensures Follows(old(lives), lives, t, Called(old(lives), t, Op.RequestRevision), r)
    {
      if t !in lives {
        return Fail(UnknownTask);
      }
      var task := lives[t].task;
      if task.status == ExecutorDone && task.latest == 0 {
        r := Transition(t, RevisionRequested, task.latest, task.accepted);
        return;
      }
      if task.status == PromotionFailed {
        if task.latest !in lives[t].results {
          return Fail(NoResult);
        }
        AppendReview(t, task.latest, ReviseDecision);
        r := Transition(t, RevisionRequested, task.latest, None);
        assert lives == old(lives)[t := lives[t]];
        return;
      }
      if !Reviewable(lives[t]) {
        return Fail(NotReviewable);
      }
      AppendReview(t, task.latest, ReviseDecision);
      r := Transition(t, RevisionRequested, task.latest, None);
      assert lives == old(lives)[t := lives[t]];
    }

    method Accept(t: TaskId, patchUnchanged: bool, artifactsIntact: bool) returns (r: Outcome<DelegationError>)
      modifies this
      ensures Follows(old(lives), lives, t, Called(old(lives), t, Op.Accept(patchUnchanged, artifactsIntact)), r)
    {
      if t !in lives {
        return Fail(UnknownTask);
      }
      if !Reviewable(lives[t]) {
        return Fail(NotReviewable);
      }
      if !patchUnchanged {
        return Fail(WorkspaceChanged);
      }
      if !artifactsIntact {
        return Fail(ArtifactChanged);
      }
      var revision := lives[t].task.latest;
      AppendReview(t, revision, AcceptDecision);
      r := Transition(t, Accepted, revision, Some(revision));
      assert lives == old(lives)[t := lives[t]];
    }

    method Reject(t: TaskId) returns (r: Outcome<DelegationError>)
      modifies this
      ensures Follows(old(lives), lives, t, Called(old(lives), t, Op.Reject), r)
    {
      if t !in lives {
        return Fail(UnknownTask);
      }
      if !Reviewable(lives[t]) {
        return Fail(NotReviewable);
      }
      var revision := lives[t].task.latest;
      AppendReview(t, revision, RejectDecision);
      r := Transition(t, Rejected, revision, None);
      assert lives == old(lives)[t := lives[t]];
    }

    /** `run`, `report` and `waive` append one command record each. */
    method RecordCommand(t: TaskId, op: Op) returns (r: Outcome<DelegationError>)
      requires op.RunCommand? || op.Report? || op.Waive?
      modifies this
      ensures Follows(old(lives), lives, t, Called(old(lives), t, op), r)
    {
      if t !in lives {
        return Fail(UnknownTask);
      }
      var task := lives[t].task;
      var record := Command(op.command, false, Reported, "");
      if op.RunCommand? {
        if task.status !in {ExecutorWorking, ExecutorDone} {
          return Fail(CommandsClosed);
        }
        if (op.allowed != [] || task.required != []) && op.command !in op.allowed && op.command !in task.required {
          return Fail(CommandNotAllowed);
        }
        record := Command(op.command, true, if op.passed then Passed else NotPassed, "");
      } else if op.Waive? {
        if op.command !in task.required {
          return Fail(NotRequired);
        }
        if Blank(op.reason) {
          return Fail(NoRationale);
        }
        record := Command(op.command, true, Waived, op.reason);
      }
      lives := lives[t := lives[t].(commands := lives[t].commands + [record])];
      return Pass;
    }
  }

  // ---- what every call keeps ----

  lemma AppendAccepted(reviews: seq<Review>, review: Review)
    requires AcceptedOnce(reviews)
    requires review.decision == AcceptDecision ==>
               forall i :: 0 <= i < |reviews| ==> reviews[i].revision != review.revision
    ensures AcceptedOnce(reviews + [review])
  {
  }

  lemma ReviewKeepsSound(life: Life, op: Op)
    requires Sound(life) && Do(life, op).Success? && (op.RequestRevision? || op.Accept? || op.Reject?)
    ensures Sound(Do(life, op).value)
  {
    var after := Do(life, op).value;
    if after.reviews != life.reviews {
      LatestIsPositive(life);
      AppendAccepted(life.reviews, after.reviews[|life.reviews|]);
    }
    assert after.reviews != life.reviews ==> after.reviews[|life.reviews|] in after.reviews;
  }

  lemma CaptureKeepsSound(life: Life, op: Op)
    requires Sound(life) && Do(life, op).Success? && op.Capture?
    ensures Sound(Do(life, op).value)
  {
    assert Do(life, op).value.results == life.results + [life.task.latest + 1];
  }

  lemma PromoteKeepsSound(life: Life, op: Op)
    requires Sound(life) && Do(life, op).Success? && op.Promote?
    ensures Sound(Do(life, op).value)
  {
  }

  /** Every successful call keeps the links between status, revisions, reviews and evidence. */
  lemma DoKeepsSound(life: Life, op: Op)
    requires Sound(life) && Do(life, op).Success?
    ensures Sound(Do(life, op).value)
  {
    var after := Do(life, op).value;
    match op {
      case Capture(_, _, _, _, _) => CaptureKeepsSound(life, op);
      case Promote(_, _, _) => PromoteKeepsSound(life, op);
      case RequestRevision => ReviewKeepsSound(life, op);
      case Accept(_, _) => ReviewKeepsSound(life, op);
      case Reject => ReviewKeepsSound(life, op);
      case RunCommand(_, _, _) => RecordKeepsSound(life, after);
      case Report(_) => RecordKeepsSound(life, after);
      case Waive(_, _) => RecordKeepsSound(life, after);
      case _ => {}
    }
  }

  /** One more command record changes nothing but the evidence. */
  lemma RecordKeepsSound(life: Life, after: Life)
    requires Sound(life) && after == life.(commands := after.commands) && life.commands <= after.commands
    ensures Sound(after)
  {
    EvidenceStays(life, after);
  }

  lemma LatestIsPositive(life: Life)
    requires Sound(life) && life.task.status in {PromotionFailed, Reviewing}
    ensures life.task.latest > 0
  {
    if life.task.status == PromotionFailed {
      var i :| 0 <= i < |life.reviews| && life.reviews[i] == Review(life.task.latest, AcceptDecision);
    }
  }

  // ---- required commands ----

  /** `unmet_required` lists exactly the required commands without a satisfying record. */
  lemma {:induction false} UnmetIsExact(required: seq<string>, records: seq<Command>, c: string)
    ensures c in UnmetIn(required, records) <==>
              c in required && !exists r :: r in records && Satisfies(r) && r.command == c
  {
    if required != [] {
      UnmetIsExact(required[1..], records, c);
      assert required == [required[0]] + required[1..];
    }
  }

  /** Records are only ever appended and the required commands never change: evidence cannot be lost. */
  lemma EvidenceStays(life: Life, after: Life)
    requires life.commands <= after.commands && life.task.required == after.task.required
    ensures forall c :: c in Unmet(after) ==> c in Unmet(life)
    ensures Unmet(life) == [] ==> Unmet(after) == []
  {
    forall c | c in Unmet(after) ensures c in Unmet(life) {
      UnmetIsExact(life.task.required, life.commands, c);
      UnmetIsExact(life.task.required, after.commands, c);
    }
    if Unmet(after) != [] {
      assert Unmet(after)[0] in Unmet(life);
    }
  }

  /** No call forgets evidence. */
  lemma DoKeepsEvidence(life: Life, op: Op)
    requires Do(life, op).Success?
    ensures life.commands <= Do(life, op).value.commands
    ensures life.task.required == Do(life, op).value.task.required
    ensures forall c :: c in Unmet(Do(life, op).value) ==> c in Unmet(life)
    ensures Unmet(life) == [] ==> Unmet(Do(life, op).value) == []
  {
    EvidenceStays(life, Do(life, op).value);
  }

  /** A command stops being unmet by an observed pass or by a reasoned waiver, and by no other call. */
  lemma OnlyPassOrWaiverMeets(life: Life, op: Op, c: string)
    requires Do(life, op).Success? && c in Unmet(life)
    ensures c !in Unmet(Do(life, op).value) <==>
              (op.RunCommand? && op.command == c && op.passed) || (op.Waive? && op.command == c)
  {
    var after := Do(life, op).value;
    UnmetIsExact(life.task.required, life.commands, c);
    UnmetIsExact(life.task.required, after.commands, c);
    if after.commands != life.commands {
      var record := after.commands[|life.commands|];
      assert after.commands == life.commands + [record];
      assert c !in Unmet(after) <==> Satisfies(record) && record.command == c by {
        assert record in after.commands;
      }
    }
  }

  // ---- whole runs over many tasks ----

  /** A new task, or a call on one task of the store. */
  datatype Request = Create(t: TaskId, task: Task) | On(t: TaskId, op: Op)

  /** Only an identifier not used yet and a draft are accepted. */
  predicate Creates(lives: map<TaskId, Life>, request: Request) {
    request.Create? && request.t !in lives && request.task.status == Draft
  }

  function Created(task: Task): Life {
    Life(task, [], [], [], [], [])
  }

  /** One request; a refused one changes nothing. */
  function Call(lives: map<TaskId, Life>, request: Request): map<TaskId, Life> {
    match request
    case Create(t, task) => if Creates(lives, request) then lives[t := Created(task)] else lives
    case On(t, op) => if t in lives && Do(lives[t], op).Success? then lives[t := Do(lives[t], op).value] else lives
  }

  function RunCalls(lives: map<TaskId, Life>, calls: seq<Request>): (r: map<TaskId, Life>)
    ensures lives.Keys <= r.Keys
    decreases |calls|
  {
    if calls == [] then lives else RunCalls(Call(lives, calls[0]), calls[1..])
  }

  ghost predicate AllSound(lives: map<TaskId, Life>) {
    forall t :: t in lives ==> Sound(lives[t])
  }

  /** What has been promoted is final, and its evidence stays complete. */
  ghost predicate StillPromoted(before: Life, after: Life) {
    before.task.status == Promoted ==> after.task == before.task && Unmet(after) == [] && before.reviews <= after.reviews
  }

  lemma PromotedStays(life: Life, op: Op)
    requires Sound(life) && Do(life, op).Success?
    ensures StillPromoted(life, Do(life, op).value)
  {
    if life.task.status == Promoted {
      DoKeepsEvidence(life, op);
    }
  }

  /** `create_task` takes any draft, also one with a revision that nobody captured. */
  predicate IsClean(task: Task) {
    task.latest == 0 && task.accepted.None?
  }

  /** Every task that is created is clean. */
  ghost predicate CleanlyCreated(lives: map<TaskId, Life>, calls: seq<Request>)
    decreases |calls|
  {
    calls == [] || ((Creates(lives, calls[0]) ==> IsClean(calls[0].task)) && CleanlyCreated(Call(lives, calls[0]), calls[1..]))
  }

  ghost predicate AlwaysSound(lives: map<TaskId, Life>, calls: seq<Request>)
    decreases |calls|
  {
    AllSound(lives) && (calls == [] || AlwaysSound(Call(lives, calls[0]), calls[1..]))
  }

  lemma CreatedIsSoundExactly(task: Task)
    requires task.status == Draft
    ensures Sound(Created(task)) <==> IsClean(task)
  {
  }

  lemma CallKeepsSoundExactly(lives: map<TaskId, Life>, request: Request)
    requires AllSound(lives)
    ensures AllSound(Call(lives, request)) <==> (Creates(lives, request) ==> IsClean(request.task))
  {
    if Creates(lives, request) {
      CreatedIsSoundExactly(request.task);
      assert Call(lives, request)[request.t] == Created(request.task);
    } else if request.On? && request.t in lives && Do(lives[request.t], request.op).Success? {
      DoKeepsSound(lives[request.t], request.op);
    }
  }

  lemma CallKeepsPromoted(lives: map<TaskId, Life>, request: Request, t: TaskId)
    requires AllSound(lives) && t in lives
    ensures StillPromoted(lives[t], Call(lives, request)[t])
  {
    if request.On? && request.t == t && Do(lives[t], request.op).Success? {
      PromotedStays(lives[t], request.op);
    }
  }

  /**
   * Over any interleaving of new tasks and of calls on any tasks: every task stays sound if and only if each new one is
   * clean.
   */
  lemma {:induction false} RunKeepsSound(lives: map<TaskId, Life>, calls: seq<Request>)
    requires AllSound(lives)
    ensures AlwaysSound(lives, calls) <==> CleanlyCreated(lives, calls)
    decreases |calls|
  {
    if calls != [] {
      CallKeepsSoundExactly(lives, calls[0]);
      if AllSound(Call(lives, calls[0])) {
        RunKeepsSound(Call(lives, calls[0]), calls[1..]);
      }
    }
  }

  lemma {:induction false} AlwaysSoundEndsSound(lives: map<TaskId, Life>, calls: seq<Request>)
    requires AlwaysSound(lives, calls)
    ensures AllSound(RunCalls(lives, calls))
    decreases |calls|
  {
    if calls != [] {
      AlwaysSoundEndsSound(Call(lives, calls[0]), calls[1..]);
    }
  }

  /** What is promoted stays as promoted. */
  lemma {:induction false} PromotedForGood(lives: map<TaskId, Life>, calls: seq<Request>, t: TaskId)
    requires AlwaysSound(lives, calls) && t in lives
    ensures StillPromoted(lives[t], RunCalls(lives, calls)[t])
    decreases |calls|
  {
    if calls != [] {
      CallKeepsPromoted(lives, calls[0], t);
      PromotedForGood(Call(lives, calls[0]), calls[1..], t);
    }
  }

  // ---- the end of a life ----

  /** A call leaves the status or moves along the table; a promotion moves through `promoting`. */
  lemma DoFollowsTable(life: Life, op: Op)
    requires Do(life, op).Success?
    ensures var status := Do(life, op).value.task.status;
            || status == life.task.status || status in Transitions(life.task.status)
            || (Promoting in Transitions(life.task.status) && status in Transitions(Promoting))
  {
  }

  /** A task in one of the terminal statuses keeps it under any further requests. */
  lemma {:induction false} TerminalForGood(lives: map<TaskId, Life>, calls: seq<Request>, t: TaskId)
    requires t in lives && lives[t].task.status in {Promoted, Rejected, Cancelled, Failed}
    ensures RunCalls(lives, calls)[t].task.status == lives[t].task.status
    decreases |calls|
  {
    if calls != [] {
      if calls[0].On? && calls[0].t == t && Do(lives[t], calls[0].op).Success? {
        TerminalStatusesAreDeadEnds(lives[t].task.status);
        DoFollowsTable(lives[t], calls[0].op);
      }
      TerminalForGood(Call(lives, calls[0]), calls[1..], t);
    }
  }

  /** Reviewed, stored, and with evidence for every required command. */
  ghost predicate Vouched(life: Life) {
    && life.task.accepted == Some(life.task.latest)
    && Review(life.task.latest, AcceptDecision) in life.reviews
    && life.task.latest in life.results
    && forall c :: c in life.task.required ==> exists r :: r in life.commands && Satisfies(r) && r.command == c
  }

  lemma SoundPromotedIsVouched(life: Life)
    requires Sound(life) && life.task.status == Promoted
    ensures Vouched(life)
  {
    var i :| 0 <= i < |life.reviews| && life.reviews[i] == Review(life.task.latest, AcceptDecision);
    assert life.results[life.task.latest - 1] == life.task.latest;
    forall c | c in life.task.required ensures exists r :: r in life.commands && Satisfies(r) && r.command == c {
      UnmetIsExact(life.task.required, life.commands, c);
    }
  }

  /** From the empty store on, if each new task is clean, a promoted one's latest revision was reviewed, accepted and fully evidenced. */
  lemma PromotedWasReviewed(calls: seq<Request>, t: TaskId)
    requires CleanlyCreated(map[], calls)
    requires t in RunCalls(map[], calls) && RunCalls(map[], calls)[t].task.status == Promoted
    ensures Vouched(RunCalls(map[], calls)[t])
  {
    RunKeepsSound(map[], calls);
    AlwaysSoundEndsSound(map[], calls);
    SoundPromotedIsVouched(RunCalls(map[], calls)[t]);
  }

  // ---- capture ----

  predicate InScope(change: Change, allowed: seq<Path>, denied: seq<Path>) {
    !EscapingPath(change.path) && !MatchesAny(change.path, denied) && MatchesAny(change.path, allowed) && !change.symlink
  }

  lemma {:induction false} ScopeErrorIsExact(changes: seq<Change>, allowed: seq<Path>, denied: seq<Path>)
    ensures ScopeError(changes, allowed, denied).None? <==>
              forall i :: 0 <= i < |changes| ==> InScope(changes[i], allowed, denied)
  {
    if changes != [] {
      ScopeErrorIsExact(changes[1..], allowed, denied);
      assert forall i :: 0 < i < |changes| ==> changes[i] == changes[1..][i - 1];
    }
  }

  /** Exactly when capture stores a result, and which. */
  lemma CaptureIsExact(life: Life, op: Op)
    requires op.Capture?
    ensures Do(life, op).Success? <==>
              && life.task.status == ExecutorDone
              && !Unproductive(life)
              && op.changes != []
              && (forall i :: 0 <= i < |op.changes| ==> InScope(op.changes[i], op.allowed, op.denied))
              && !op.patchEmpty && !op.directoryExists
    ensures Do(life, op).Success? ==>
              var after := Do(life, op).value;
              && after.results == life.results + [life.task.latest + 1]
              && after.task == Task(Reviewing, life.task.latest + 1, life.task.accepted, life.task.required)
              && after == life.(results := after.results, task := after.task)
  {
    ScopeErrorIsExact(op.changes, op.allowed, op.denied);
  }

  // ---- the dead end ----

  /** One changed file, in scope. */
  function SmallCapture(): Op {
    Capture([Change("a", false)], ["a"], [], false, false)
  }

  lemma SmallCaptureIsInScope()
    ensures InScope(SmallCapture().changes[0], SmallCapture().allowed, SmallCapture().denied)
  {
    SplitWord("a");
    assert |".."| != |"a"|;
    assert "a" in ["a"] && Under("a", "a");
  }

  /** Some call moves the task out of its status. */
  ghost predicate CanLeave(life: Life) {
    exists op :: Do(life, op).Success? && Do(life, op).value.task.status != life.task.status
  }

  /** `executor_done` can be left exactly when no result exists yet or the last launch did reviewable work. */
  lemma ExecutorDoneExit(life: Life)
    requires Sound(life) && life.task.status == ExecutorDone
    ensures CanLeave(life) <==> life.task.latest == 0 || !Unproductive(life)
  {
    if life.task.latest == 0 {
      assert Do(life, RequestRevision).value.task.status == RevisionRequested;
    } else if !Unproductive(life) {
      SmallCaptureIsInScope();
      CaptureIsExact(life, SmallCapture());
      assert Do(life, SmallCapture()).value.task.status == Reviewing;
    }
  }

  predicate Stranded(life: Life) {
    life.task.status == ExecutorDone && life.task.latest > 0 && Unproductive(life)
  }

  /** Once a later launch produced nothing, the task is stranded for good. */
  lemma {:induction false} StrandedForGood(lives: map<TaskId, Life>, calls: seq<Request>, t: TaskId)
    requires t in lives && Stranded(lives[t])
    ensures t in RunCalls(lives, calls) && Stranded(RunCalls(lives, calls)[t])
    decreases |calls|
  {
    if calls != [] {
      StrandedForGood(Call(lives, calls[0]), calls[1..], t);
    }
  }

  /** A task, the only one created, has come this far by some calls. */
  ghost predicate Reached(life: Life) {
    exists calls :: RunCalls(map[], calls) == map["t" := life]
  }

  lemma {:induction false} RunThenOne(lives: map<TaskId, Life>, calls: seq<Request>, request: Request)
    ensures RunCalls(lives, calls + [request]) == Call(RunCalls(lives, calls), request)
    decreases |calls|
  {
    if calls == [] {
      assert calls + [request] == [request];
      assert RunCalls(Call(lives, request), []) == Call(lives, request);
    } else {
      assert (calls + [request])[1..] == calls[1..] + [request];
      RunThenOne(Call(lives, calls[0]), calls[1..], request);
    }
  }

  lemma ReachNext(life: Life, op: Op)
    requires Reached(life) && Do(life, op).Success?
    ensures Reached(Do(life, op).value)
  {
    var calls :| RunCalls(map[], calls) == map["t" := life];
    RunThenOne(map[], calls, On("t", op));
    var longer := calls + [On("t", op)];
    assert RunCalls(map[], longer) == map["t" := Do(life, op).value];
  }

  lemma DraftIsReachable()
    ensures Reached(NewLife([]))
  {
    var creation := Create("t", Task(Draft, 0, None, []));
    assert Call(map[], creation) == map["t" := NewLife([])];
    RunThenOne(map[], [], creation);
    assert [] + [creation] == [creation];
    assert RunCalls(map[], [creation]) == map["t" := NewLife([])];
  }

  lemma FirstResultIsReachable() returns (life: Life)
    ensures Reached(life)
    ensures life == Life(Task(Reviewing, 1, None, []), [1], [], [], [], [])
  {
    life := NewLife([]);
    DraftIsReachable();
    ReachNext(life, Move(Assigned));
    life := Do(life, Move(Assigned)).value;
    ReachNext(life, Move(WorkspaceReady));
    life := Do(life, Move(WorkspaceReady)).value;
    ReachNext(life, Move(ExecutorWorking));
    life := Do(life, Move(ExecutorWorking)).value;
    ReachNext(life, Move(ExecutorDone));
    life := Do(life, Move(ExecutorDone)).value;
    SmallCaptureIsInScope();
    CaptureIsExact(life, SmallCapture());
    ReachNext(life, SmallCapture());
    life := Do(life, SmallCapture()).value;
  }

  /** The dead end is reachable: a first result, a revision, and a relaunch that produced nothing. */
  lemma StrandedIsReachable()
    ensures exists life :: Reached(life) && Stranded(life)
  {
    var life := FirstResultIsReachable();
    ReachNext(life, RequestRevision);
    life := Do(life, RequestRevision).value;
    ReachNext(life, Move(ExecutorWorking));
    life := Do(life, Move(ExecutorWorking)).value;
    ReachNext(life, Launch(NoWork));
    life := Do(life, Launch(NoWork)).value;
    ReachNext(life, Move(ExecutorDone));
    life := Do(life, Move(ExecutorDone)).value;
  }
}
