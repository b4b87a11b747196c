/** Histories that the services allow: a promotion that fails, a revision, and what the next promotion then does. */
module RevisedPromotion {
  import opened Paths
  import opened Wrappers
  import opened PromotionHistory
  import D = Delegation
  import L = PromotionLifecycle
  import P = Promotion
  import Q = PromotionQueue

  /** Some history, with all promotions through the queue, leads here. */
  ghost predicate Reached(w: Site) {
    exists start, events :: Fresh(start) && ThroughQueue(events) && Run(start, events) == w
  }

  lemma ReachNext(w: Site, event: Event)
    requires Reached(w) && !event.PromoteNow?
    ensures Reached(Step(w, event))
  {
    var start, events :| Fresh(start) && ThroughQueue(events) && Run(start, events) == w;
    var longer := events + [event];
    assert longer[..|longer| - 1] == events;
    assert Run(start, longer) == Step(w, event);
  }

  /** A call on a task, on both sides. */
  ghost predicate CanWork(repo: P.Repo, life: D.Life, task: P.Task, op: D.Op, result: P.Capture) {
    !op.Promote? && D.Do(life, op).Success? && Captures(repo, task, op, result)
  }

  function Next(life: D.Life, task: P.Task, op: D.Op, result: P.Capture): (D.Life, P.Task)
    requires D.Do(life, op).Success?
  {
    (D.Do(life, op).value, View(task, D.Do(life, op).value, op, result))
  }

  type Records = iset<(D.Life, P.Task)>

  /** Records from which every call leads to records again. */
  ghost predicate Closed(repo: P.Repo, ok: Records) {
    forall life, task, op, result :: (life, task) in ok && CanWork(repo, life, task, op, result) ==> Next(life, task, op, result) in ok
  }

  /** The records that task `t` can have while the site is otherwise as it is. */
  ghost function Reachable(w: Site, t: TaskId): Records {
    iset life, task | Reached(Worked(w, t, life, task)) :: (life, task)
  }

  lemma WorkedTwice(w: Site, t: TaskId, a: D.Life, x: P.Task, b: D.Life, y: P.Task)
    ensures Worked(Worked(w, t, a, x), t, b, y) == Worked(w, t, b, y)
  {
  }

  lemma WorkedOn(w: Site, t: TaskId, op: D.Op, result: P.Capture)
    requires t in w.lives && t in w.queue.repo.tasks && CanWork(w.queue.repo, w.lives[t], w.queue.repo.tasks[t], op, result)
    ensures var next := Next(w.lives[t], w.queue.repo.tasks[t], op, result);
            Step(w, Work(t, op, result)) == Worked(w, t, next.0, next.1)
  {
  }

  lemma WorkIsReached(w: Site, t: TaskId, life: D.Life, task: P.Task, op: D.Op, result: P.Capture)
    requires Reached(Worked(w, t, life, task)) && CanWork(w.queue.repo, life, task, op, result)
    ensures Next(life, task, op, result) in Reachable(w, t)
  {
    var next := Next(life, task, op, result);
    ReachNext(Worked(w, t, life, task), Work(t, op, result));
    WorkedOn(Worked(w, t, life, task), t, op, result);
    WorkedTwice(w, t, life, task, next.0, next.1);
  }

  lemma ReachableIsClosed(w: Site, t: TaskId)
    ensures Closed(w.queue.repo, Reachable(w, t))
  {
    forall life, task, op, result | (life, task) in Reachable(w, t) && CanWork(w.queue.repo, life, task, op, result)
      ensures Next(life, task, op, result) in Reachable(w, t)
    {
      WorkIsReached(w, t, life, task, op, result);
    }
  }

  const NOTHING := P.Capture("", map[], {})

  function Moved(life: D.Life, status: D.Status): D.Life {
    life.(task := life.task.(status := status))
  }

  /** A move to a status in which no result is bound. */
  lemma Moves(repo: P.Repo, ok: Records, life: D.Life, task: P.Task, status: D.Status)
    requires Closed(repo, ok) && (life, task) in ok && status in D.Transitions(life.task.status)
    requires status in {D.Assigned, D.WorkspaceReady, D.ExecutorWorking, D.ExecutorDone}
    ensures (Moved(life, status), Shown(task, task.results, Moved(life, status))) in ok
  {
    assert CanWork(repo, life, task, D.Move(status), NOTHING);
    assert Next(life, task, D.Move(status), NOTHING) == (Moved(life, status), Shown(task, task.results, Moved(life, status)));
  }

  lemma MovesTwice(repo: P.Repo, ok: Records, life: D.Life, task: P.Task, first: D.Status, second: D.Status)
    requires Closed(repo, ok) && (life, task) in ok && first in D.Transitions(life.task.status) && second in D.Transitions(first)
    requires first in {D.Assigned, D.ExecutorWorking} && second in {D.WorkspaceReady, D.ExecutorDone}
    ensures (Moved(life, second), Shown(task, task.results, Moved(life, second))) in ok
  {
    Moves(repo, ok, life, task, first);
    Moves(repo, ok, Moved(life, first), Shown(task, task.results, Moved(life, first)), second);
  }

  /** One changed file. */
  function OneFile(path: Path, allowed: seq<Path>): D.Op {
    D.Capture([D.Change(path, false)], allowed, [], false, false)
  }

  function NewFile(head: P.Commit, path: Path, content: P.Content): P.Capture {
    P.Capture(head, map[path := P.Edit(None, Some(content))], {path})
  }

  lemma NewFileIsCaptured(repo: P.Repo, task: P.Task, path: Path, content: P.Content)
    requires repo.base == map[] && task.denied == []
    ensures Captures(repo, task, OneFile(path, task.allowed), NewFile(repo.head, path, content))
  {
    var op := OneFile(path, task.allowed);
    assert op.changes[0].path == path;
    assert path in NewFile(repo.head, path, content).patch;
  }

  /** One more revision stored, under review. */
  function Captured(life: D.Life): D.Life {
    life.(results := life.results + [life.task.latest + 1],
          task := life.task.(status := D.Reviewing, latest := life.task.latest + 1))
  }

  function Accepted(life: D.Life): D.Life {
    D.AddReview(life, life.task.latest, D.AcceptDecision).(
      task := life.task.(status := D.Accepted, accepted := Some(life.task.latest)))
  }

  lemma CapturesOne(repo: P.Repo, ok: Records, life: D.Life, task: P.Task, path: Path, content: P.Content)
    requires Closed(repo, ok) && (life, task) in ok && life.task.status == D.ExecutorDone && life.launches == []
    requires repo.base == map[] && task.denied == [] && D.InScope(D.Change(path, false), task.allowed, [])
    ensures var results := task.results[life.task.latest + 1 := NewFile(repo.head, path, content)];
            (Captured(life), Shown(task, results, Captured(life))) in ok
  {
    var op, result := OneFile(path, task.allowed), NewFile(repo.head, path, content);
    D.CaptureIsExact(life, op);
    NewFileIsCaptured(repo, task, path, content);
    assert CanWork(repo, life, task, op, result);
    assert Next(life, task, op, result).0 == Captured(life);
  }

  lemma AcceptsOne(repo: P.Repo, ok: Records, life: D.Life, task: P.Task)
    requires Closed(repo, ok) && (life, task) in ok && D.Reviewable(life)
    ensures (Accepted(life), Shown(task, task.results, Accepted(life))) in ok
  {
    assert CanWork(repo, life, task, D.Accept(true, true), NOTHING);
    assert Next(life, task, D.Accept(true, true), NOTHING).0 == Accepted(life);
  }

  /** The records after one more round of work, captured and accepted. */
  function WorkedUp(life: D.Life): D.Life {
    Accepted(Captured(Moved(life, D.ExecutorDone)))
  }

  function WithResult(head: P.Commit, life: D.Life, task: P.Task, path: Path, content: P.Content): P.Task {
    Shown(task, task.results[life.task.latest + 1 := NewFile(head, path, content)], WorkedUp(life))
  }

  lemma WorksUp(repo: P.Repo, ok: Records, life: D.Life, task: P.Task, path: Path, content: P.Content)
    requires Closed(repo, ok) && (life, task) in ok
    requires life.task.status in {D.WorkspaceReady, D.RevisionRequested} && life.launches == []
    requires repo.base == map[] && task.denied == [] && D.InScope(D.Change(path, false), task.allowed, [])
    ensures (WorkedUp(life), WithResult(repo.head, life, task, path, content)) in ok
  {
    var done := Moved(life, D.ExecutorDone);
    MovesTwice(repo, ok, life, task, D.ExecutorWorking, D.ExecutorDone);
    CapturesOne(repo, ok, done, Shown(task, task.results, done), path, content);
    var results := task.results[life.task.latest + 1 := NewFile(repo.head, path, content)];
    AcceptsOne(repo, ok, Captured(done), Shown(task, results, Captured(done)));
  }

  /** Two tasks of one repository that is empty at HEAD. */
  datatype Scene = Scene(
    head: P.Commit, t: TaskId, life: D.Life, task: P.Task, u: TaskId, otherLife: D.Life, otherTask: P.Task,
    tree: P.Tree, landed: map<P.Landing, P.Patch>, log: map<TaskId, seq<P.Record>>, entries: map<TaskId, Q.Entry>)

  function RepoOf(c: Scene): P.Repo {
    P.Repo(c.head, map[], c.tree, map[c.t := c.task, c.u := c.otherTask], c.log, c.landed)
  }

  function SiteOf(c: Scene): Site {
    Site(map[c.t := c.life, c.u := c.otherLife], Q.Queued(RepoOf(c), map[c.t := "", c.u := ""], c.entries))
  }

  lemma Replaced<T>(t: TaskId, u: TaskId, a: T, b: T, c: T)
    requires t != u
    ensures map[t := a, u := b][t := c] == map[t := c, u := b] && map[t := a, u := b][u := c] == map[t := a, u := c]
  {
  }

  lemma SceneWorks(c: Scene, life: D.Life, task: P.Task)
    requires c.t != c.u
    ensures Worked(SiteOf(c), c.t, life, task) == SiteOf(c.(life := life, task := task))
  {
    Replaced(c.t, c.u, c.life, c.otherLife, life);
    Replaced(c.t, c.u, c.task, c.otherTask, task);
  }

  lemma OtherWorks(c: Scene, life: D.Life, task: P.Task)
    requires c.t != c.u
    ensures Worked(SiteOf(c), c.u, life, task) == SiteOf(c.(otherLife := life, otherTask := task))
  {
    Replaced(c.t, c.u, c.life, c.otherLife, life);
    Replaced(c.t, c.u, c.task, c.otherTask, task);
  }

  lemma SceneIsReachable(c: Scene)
    requires c.t != c.u && Reached(SiteOf(c))
    ensures (c.life, c.task) in Reachable(SiteOf(c), c.t)
    ensures (c.otherLife, c.otherTask) in Reachable(SiteOf(c), c.u)
  {
    SceneWorks(c, c.life, c.task);
    OtherWorks(c, c.otherLife, c.otherTask);
  }

  function Draft(allowed: seq<Path>): P.Task {
    P.Task(P.Earlier, None, 0, map[], allowed, [], [])
  }

  function Opening(head: P.Commit, t: TaskId, u: TaskId, allowed: seq<Path>): Scene {
    Scene(head, t, D.NewLife([]), Draft(allowed), u, D.NewLife([]), Draft(allowed), map[], map[], map[], map[])
  }

  lemma OpeningIsReached(head: P.Commit, t: TaskId, u: TaskId, allowed: seq<Path>)
    ensures Reached(SiteOf(Opening(head, t, u, allowed)))
  {
    var w := SiteOf(Opening(head, t, u, allowed));
    assert IsDraft(D.NewLife([]), Draft(allowed));
    assert Fresh(w) && ThroughQueue([]) && Run(w, []) == w;
  }

  /** A draft's first result, accepted. */
  function FirstLife(): D.Life {
    WorkedUp(Moved(D.NewLife([]), D.WorkspaceReady))
  }

  function FirstTask(head: P.Commit, allowed: seq<Path>, path: Path, content: P.Content): P.Task {
    P.Task(P.Accepted, Some(1), 1, map[1 := NewFile(head, path, content)], allowed, [], [])
  }

  lemma FirstResult(repo: P.Repo, ok: Records, allowed: seq<Path>, path: Path, content: P.Content)
    requires Closed(repo, ok) && (D.NewLife([]), Draft(allowed)) in ok && repo.base == map[]
    requires D.InScope(D.Change(path, false), allowed, [])
    ensures (FirstLife(), FirstTask(repo.head, allowed, path, content)) in ok
  {
    var ready := Moved(D.NewLife([]), D.WorkspaceReady);
    MovesTwice(repo, ok, D.NewLife([]), Draft(allowed), D.Assigned, D.WorkspaceReady);
    assert Shown(Draft(allowed), map[], ready) == Draft(allowed);
    WorksUp(repo, ok, ready, Draft(allowed), path, content);
    assert WithResult(repo.head, ready, Draft(allowed), path, content) == FirstTask(repo.head, allowed, path, content);
  }

  lemma FirstResultIsReached(c: Scene, path: Path, content: P.Content)
    requires c.t != c.u && Reached(SiteOf(c)) && c.life == D.NewLife([]) && c.task == Draft(c.task.allowed)
    requires D.InScope(D.Change(path, false), c.task.allowed, [])
    ensures Reached(SiteOf(c.(life := FirstLife(), task := FirstTask(c.head, c.task.allowed, path, content))))
  {
    var w := SiteOf(c);
    SceneIsReachable(c);
    ReachableIsClosed(w, c.t);
    FirstResult(w.queue.repo, Reachable(w, c.t), c.task.allowed, path, content);
    SceneWorks(c, FirstLife(), FirstTask(c.head, c.task.allowed, path, content));
  }

  lemma OtherResultIsReached(c: Scene, path: Path, content: P.Content)
    requires c.t != c.u && Reached(SiteOf(c)) && c.otherLife == D.NewLife([]) && c.otherTask == Draft(c.otherTask.allowed)
    requires D.InScope(D.Change(path, false), c.otherTask.allowed, [])
    ensures Reached(SiteOf(c.(otherLife := FirstLife(), otherTask := FirstTask(c.head, c.otherTask.allowed, path, content))))
  {
    var w := SiteOf(c);
    SceneIsReachable(c);
    ReachableIsClosed(w, c.u);
    FirstResult(w.queue.repo, Reachable(w, c.u), c.otherTask.allowed, path, content);
    OtherWorks(c, FirstLife(), FirstTask(c.head, c.otherTask.allowed, path, content));
  }

  // ---- queueing, a promotion that fails and is taken back, and a revision ----

  function EntryOf(head: P.Commit, path: Path): Q.Entry {
    Q.Entry(1, head, {path}, false)
  }

  /** No queued task overlaps the path. */
  ghost predicate IsFree(entries: map<TaskId, Q.Entry>, t: TaskId, path: Path) {
    forall u :: u in entries && u != t ==> Clear({path}, entries[u].changed)
  }

  lemma FreeIsUnblocked(q: Q.Queued, t: TaskId, path: Path)
    requires IsFree(q.entries, t, path)
    ensures !Q.HasBlockers(q, t, q.repo.head, {path})
  {
    forall u | u in q.entries ensures !Q.BlockedBy(q, t, {path}, u) {
      assert u != t ==> Clear({path}, q.entries[u].changed);
    }
  }

  lemma FirstIsQueued(q: Q.Queued, t: TaskId, allowed: seq<Path>, path: Path, content: P.Content)
    requires t in q.repo.tasks && q.repo.tasks[t] == FirstTask(q.repo.head, allowed, path, content)
    requires t !in q.entries && IsFree(q.entries, t, path)
    ensures Q.Enqueue(q, t).0 == q.(entries := q.entries[t := EntryOf(q.repo.head, path)])
  {
    FreeIsUnblocked(q, t, path);
  }

  lemma QueueingIsReached(c: Scene, t: TaskId, allowed: seq<Path>, path: Path, content: P.Content)
    requires c.t != c.u && Reached(SiteOf(c)) && (t == c.t || t == c.u)
    requires (if t == c.t then c.task else c.otherTask) == FirstTask(c.head, allowed, path, content)
    requires t !in c.entries && IsFree(c.entries, t, path)
    ensures Reached(SiteOf(c.(entries := c.entries[t := EntryOf(c.head, path)])))
  {
    ReachNext(SiteOf(c), Enqueue(t));
    FirstIsQueued(SiteOf(c).queue, t, allowed, path, content);
  }

  /** Git applies the patch, and takes it back if the comparison afterwards fails. */
  function Attempted(verified: bool, reversed: bool): P.World {
    P.World(true, true, false, false, !verified, !reversed)
  }

  lemma NewFileIsPromotable(repo: P.Repo, t: TaskId, path: Path, content: P.Content, world: P.World)
    requires t in repo.tasks && repo.base == map[] && path !in repo.tree
    requires var task := repo.tasks[t];
             && task.status == P.Accepted && task.accepted == Some(task.latest) && task.latest in task.results
             && task.results[task.latest] == NewFile(repo.head, path, content)
             && P.Matches(path, task.allowed) && task.denied == [] && task.unmet == []
    requires world.identityOk && world.artifactsIntact && !world.checkErrors
    ensures P.Refusal(repo, t, world).None?
  {
    assert !P.Matches(path, []);
  }

  /** The comparison failed, and Git took the patch out again. */
  lemma TakenBack(repo: P.Repo, t: TaskId, path: Path, content: P.Content)
    requires t in repo.tasks && repo.base == map[] && repo.tree == map[] && repo.promotions == map[]
    requires P.Candidate(repo.tasks[t]) == Some(NewFile(repo.head, path, content))
    requires P.Refusal(repo, t, Attempted(false, true)).None?
    ensures P.Promote(repo, t, Attempted(false, true))
         == (repo.(tasks := repo.tasks[t := repo.tasks[t].(status := P.PromotionFailed)],
                   promotions := map[t := [P.Record(repo.tasks[t].latest, false, Some(true))]]),
             Some(P.Failed(true)))
  {
    var patch := NewFile(repo.head, path, content).patch;
    P.ReverseUndoes(repo.tree, patch);
    assert P.Applies(repo.tree, patch);
    var record := P.Record(repo.tasks[t].latest, false, Some(true));
    assert P.Log(repo, t) + [record] == [record];
    assert repo.promotions[t := [record]] == map[t := [record]];
  }

  /** The comparison failed, and Git did not take the patch out. */
  lemma LeftBehind(repo: P.Repo, t: TaskId, path: Path, content: P.Content)
    requires t in repo.tasks && repo.base == map[] && repo.tree == map[] && repo.promotions == map[] && repo.landed == map[]
    requires P.Candidate(repo.tasks[t]) == Some(NewFile(repo.head, path, content))
    requires P.Refusal(repo, t, Attempted(false, false)).None?
    ensures P.Promote(repo, t, Attempted(false, false))
         == (repo.(tasks := repo.tasks[t := repo.tasks[t].(status := P.PromotionFailed)],
                   promotions := map[t := [P.Record(repo.tasks[t].latest, false, Some(false))]],
                   tree := map[path := content],
                   landed := map[(t, repo.tasks[t].latest) := NewFile(repo.head, path, content).patch]),
             Some(P.Failed(false)))
  {
    var record := P.Record(repo.tasks[t].latest, false, Some(false));
    var patch := NewFile(repo.head, path, content).patch;
    assert P.Log(repo, t) + [record] == [record];
    assert repo.promotions[t := [record]] == map[t := [record]];
    assert P.Apply(repo.tree, patch) == map[path := content];
    assert repo.landed[(t, repo.tasks[t].latest) := patch] == map[(t, repo.tasks[t].latest) := patch];
    assert P.Lookup(P.Apply(repo.tree, patch), path) == Some(content);
  }

  /** After the first attempt, which failed and was taken back, or was not. */
  function FailedLife(back: bool): D.Life {
    Moved(FirstLife(), D.PromotionFailed).(promotions := [Some(back)])
  }

  function AfterFailure(c: Scene, back: bool, path: Path, content: P.Content): Scene {
    c.(life := FailedLife(back), task := c.task.(status := P.PromotionFailed),
       log := map[c.t := [P.Record(1, false, Some(back))]],
       tree := if back then map[] else map[path := content],
       landed := if back then map[] else map[(c.t, 1) := NewFile(c.head, path, content).patch])
  }

  lemma FirstFails(back: bool)
    ensures D.Do(FirstLife(), D.Promote(true, false, back)) == Success(FailedLife(back))
  {
    var life := FirstLife();
    assert life.results[0] == 1 && life.task.latest == 1 && D.Unmet(life) == [];
    assert life.promotions + [Some(back)] == [Some(back)];
  }

  lemma FailureSettles(c: Scene, world: P.World, back: bool)
    requires c.t != c.u && c.life == FirstLife()
    requires P.Refusal(RepoOf(c), c.t, world).None? && P.Promote(RepoOf(c), c.t, world).1 == Some(P.Failed(back))
    ensures Settled(SiteOf(c).lives, RepoOf(c), c.t, world) == map[c.t := FailedLife(back), c.u := c.otherLife]
  {
    FirstFails(back);
    Replaced(c.t, c.u, c.life, c.otherLife, FailedLife(back));
    assert L.AsOp(RepoOf(c), c.t, world) == D.Promote(true, false, back);
  }

  /** The first result is queued, nothing has been promoted, and nothing is in the way. */
  ghost predicate ReadyToPromote(c: Scene, path: Path, content: P.Content) {
    && c.t != c.u && c.life == FirstLife() && c.log == map[] && c.tree == map[] && c.landed == map[]
    && c.task == FirstTask(c.head, c.task.allowed, path, content) && P.Matches(path, c.task.allowed)
    && c.t in c.entries && c.entries[c.t] == EntryOf(c.head, path)
  }

  lemma RepoFails(c: Scene, back: bool, path: Path, content: P.Content)
    requires ReadyToPromote(c, path, content)
    ensures P.Refusal(RepoOf(c), c.t, Attempted(false, back)).None?
    ensures P.Promote(RepoOf(c), c.t, Attempted(false, back)) == (RepoOf(AfterFailure(c, back, path, content)), Some(P.Failed(back)))
  {
    NewFileIsPromotable(RepoOf(c), c.t, path, content, Attempted(false, back));
    Replaced(c.t, c.u, c.task, c.otherTask, c.task.(status := P.PromotionFailed));
    if back {
      TakenBack(RepoOf(c), c.t, path, content);
    } else {
      LeftBehind(RepoOf(c), c.t, path, content);
    }
  }

  lemma FailureSteps(c: Scene, back: bool, path: Path, content: P.Content)
    requires ReadyToPromote(c, path, content) && !Q.HasBlockers(SiteOf(c).queue, c.t, c.head, {path})
    ensures Step(SiteOf(c), PromoteNext(c.t, Attempted(false, back))) == SiteOf(AfterFailure(c, back, path, content))
  {
    RepoFails(c, back, path, content);
    FailureSettles(c, Attempted(false, back), back);
  }

  lemma FailureIsReached(c: Scene, back: bool, path: Path, content: P.Content)
    requires Reached(SiteOf(c)) && ReadyToPromote(c, path, content) && IsFree(c.entries, c.t, path)
    ensures Reached(SiteOf(AfterFailure(c, back, path, content)))
  {
    FreeIsUnblocked(SiteOf(c).queue, c.t, path);
    FailureSteps(c, back, path, content);
    ReachNext(SiteOf(c), PromoteNext(c.t, Attempted(false, back)));
  }

  function RevisedLife(back: bool): D.Life {
    D.AddReview(FailedLife(back), 1, D.ReviseDecision).(task := D.Task(D.RevisionRequested, 1, None, []))
  }

  /** The second result is accepted. */
  function SecondTask(head: P.Commit, allowed: seq<Path>, path: Path, x: P.Content, other: Path, y: P.Content): P.Task {
    P.Task(P.Accepted, Some(2), 2, map[1 := NewFile(head, path, x), 2 := NewFile(head, other, y)], allowed, [], [])
  }

  lemma RevisionRequested(repo: P.Repo, ok: Records, back: bool, task: P.Task)
    requires Closed(repo, ok) && (FailedLife(back), task) in ok
    ensures (RevisedLife(back), Shown(task, task.results, RevisedLife(back))) in ok
  {
    assert D.Do(FailedLife(back), D.RequestRevision) == Success(RevisedLife(back));
    assert CanWork(repo, FailedLife(back), task, D.RequestRevision, NOTHING);
    assert Next(FailedLife(back), task, D.RequestRevision, NOTHING) in ok;
  }

  lemma SecondResult(repo: P.Repo, ok: Records, back: bool, task: P.Task, path: Path, x: P.Content, other: Path, y: P.Content)
    requires Closed(repo, ok) && (FailedLife(back), task) in ok && repo.base == map[]
    requires task == FirstTask(repo.head, task.allowed, path, x).(status := P.PromotionFailed)
    requires D.InScope(D.Change(other, false), task.allowed, [])
    ensures (WorkedUp(RevisedLife(back)), SecondTask(repo.head, task.allowed, path, x, other, y)) in ok
  {
    RevisionRequested(repo, ok, back, task);
    var shown := Shown(task, task.results, RevisedLife(back));
    WorksUp(repo, ok, RevisedLife(back), shown, other, y);
    assert WithResult(repo.head, RevisedLife(back), shown, other, y) == SecondTask(repo.head, task.allowed, path, x, other, y);
  }

  lemma RevisionIsReached(c: Scene, back: bool, path: Path, x: P.Content, other: Path, y: P.Content)
    requires c.t != c.u && Reached(SiteOf(c)) && c.life == FailedLife(back)
    requires c.task == FirstTask(c.head, c.task.allowed, path, x).(status := P.PromotionFailed)
    requires D.InScope(D.Change(other, false), c.task.allowed, [])
    ensures Reached(SiteOf(c.(life := WorkedUp(RevisedLife(back)), task := SecondTask(c.head, c.task.allowed, path, x, other, y))))
  {
    var w := SiteOf(c);
    SceneIsReachable(c);
    ReachableIsClosed(w, c.t);
    SecondResult(w.queue.repo, Reachable(w, c.t), back, c.task, path, x, other, y);
    SceneWorks(c, WorkedUp(RevisedLife(back)), SecondTask(c.head, c.task.allowed, path, x, other, y));
  }

  // ---- the two outcomes ----

  /** A file name without a slash. */
  predicate Plain(path: Path) {
    path != "" && path != ".." && '/' !in path
  }

  lemma PlainIsInScope(path: Path, allowed: seq<Path>)
    requires Plain(path) && path in allowed
    ensures D.InScope(D.Change(path, false), allowed, []) && P.Matches(path, allowed)
  {
    SplitWord(path);
    assert path[0] in path;
    assert Under(path, path);
  }

  lemma PlainDoNotOverlap(a: Path, b: Path)
    requires Plain(a) && Plain(b) && a != b
    ensures !Overlap(a, b)
  {
    if a + "/" <= b {
      HasSlash(b, a);
    }
    if b + "/" <= a {
      HasSlash(a, b);
    }
  }

  lemma HasSlash(path: Path, root: Path)
    requires root + "/" <= path
    ensures '/' in path
  {
    assert path[|root|] == '/';
  }

  /** The first result of `t`, a new file `a`, is queued. */
  function QueuedScene(head: P.Commit, t: TaskId, u: TaskId, a: Path, b: Path, x: P.Content): Scene {
    Opening(head, t, u, [a, b]).(life := FirstLife(), task := FirstTask(head, [a, b], a, x), entries := map[t := EntryOf(head, a)])
  }

  /** Its promotion failed; the second result, a new file `b`, is accepted. */
  function RevisedScene(head: P.Commit, t: TaskId, u: TaskId, back: bool, a: Path, b: Path, x: P.Content): Scene {
    AfterFailure(QueuedScene(head, t, u, a, b, x), back, a, x).(
      life := WorkedUp(RevisedLife(back)), task := SecondTask(head, [a, b], a, x, b, x))
  }

  lemma QueuedSceneIsReached(head: P.Commit, t: TaskId, u: TaskId, a: Path, b: Path, x: P.Content)
    requires t != u && Plain(a)
    ensures Reached(SiteOf(QueuedScene(head, t, u, a, b, x)))
  {
    PlainIsInScope(a, [a, b]);
    OpeningIsReached(head, t, u, [a, b]);
    FirstResultIsReached(Opening(head, t, u, [a, b]), a, x);
    QueueingIsReached(QueuedScene(head, t, u, a, b, x).(entries := map[]), t, [a, b], a, x);
  }

  lemma RevisedSceneIsReached(head: P.Commit, t: TaskId, u: TaskId, back: bool, a: Path, b: Path, x: P.Content)
    requires t != u && Plain(a) && Plain(b)
    ensures Reached(SiteOf(RevisedScene(head, t, u, back, a, b, x)))
  {
    PlainIsInScope(a, [a, b]);
    PlainIsInScope(b, [a, b]);
    QueuedSceneIsReached(head, t, u, a, b, x);
    FailureIsReached(QueuedScene(head, t, u, a, b, x), back, a, x);
    RevisionIsReached(AfterFailure(QueuedScene(head, t, u, a, b, x), back, a, x), back, a, x, b, x);
  }

  /** The queue lets this promotion pass, although what it promotes overlaps another queued task's files. */
  ghost predicate SlipsThrough(q: Q.Queued, t: TaskId, u: TaskId, world: P.World) {
    && Q.PromoteQueued(q, t, world).1.None? && t != u && u in q.entries && Q.SameRepository(q, t, u) && !q.entries[u].blocked
    && t in q.repo.tasks && P.Candidate(q.repo.tasks[t]).Some?
    && !Clear(P.Candidate(q.repo.tasks[t]).value.changed, q.entries[u].changed)
  }

  /** The second result changes a file of the result that `u` has queued. */
  function LastScene(head: P.Commit, t: TaskId, u: TaskId, a: Path, b: Path, x: P.Content): Scene {
    RevisedScene(head, t, u, true, a, b, x).(
      otherLife := FirstLife(), otherTask := FirstTask(head, [a, b], b, x), entries := map[t := EntryOf(head, a), u := EntryOf(head, b)])
  }

  lemma LastSceneIsReached(head: P.Commit, t: TaskId, u: TaskId, a: Path, b: Path, x: P.Content)
    requires t != u && a != b && Plain(a) && Plain(b)
    ensures Reached(SiteOf(LastScene(head, t, u, a, b, x)))
  {
    PlainIsInScope(b, [a, b]);
    PlainDoNotOverlap(a, b);
    RevisedSceneIsReached(head, t, u, true, a, b, x);
    OtherResultIsReached(RevisedScene(head, t, u, true, a, b, x), b, x);
    QueueingIsReached(LastScene(head, t, u, a, b, x).(entries := map[t := EntryOf(head, a)]), u, [a, b], b, x);
    assert map[t := EntryOf(head, a)][u := EntryOf(head, b)] == map[t := EntryOf(head, a), u := EntryOf(head, b)];
  }

  lemma LastSceneSlips(head: P.Commit, t: TaskId, u: TaskId, a: Path, b: Path, x: P.Content)
    requires t != u && a != b && Plain(a) && Plain(b)
    ensures SlipsThrough(SiteOf(LastScene(head, t, u, a, b, x)).queue, t, u, Attempted(true, true))
  {
    var q, world := SiteOf(LastScene(head, t, u, a, b, x)).queue, Attempted(true, true);
    PlainIsInScope(b, [a, b]);
    PlainDoNotOverlap(a, b);
    NewFileIsPromotable(q.repo, t, b, x, world);
    FreeIsUnblocked(q, t, a);
    assert Under(b, b) && Overlap(b, b);
  }

  /**
   * Reachable for any two tasks and files: a promotion fails and is taken back; the revised result changes a file that
   * another queued task changes; the queue lets it pass.
   */
  lemma RevisedResultSlipsThrough(head: P.Commit, t: TaskId, u: TaskId, a: Path, b: Path, x: P.Content)
    requires t != u && a != b && Plain(a) && Plain(b)
    ensures exists w, world :: Reached(w) && SlipsThrough(w.queue, t, u, world)
  {
    LastSceneIsReached(head, t, u, a, b, x);
    LastSceneSlips(head, t, u, a, b, x);
  }

  /** The first result's patch is stuck in the tree; the second's is promoted beside it. */
  lemma SecondIsPromoted(c: Scene, a: Path, b: Path, x: P.Content)
    requires c.t != c.u && a != b && Plain(a) && Plain(b)
    requires c == RevisedScene(c.head, c.t, c.u, false, a, b, x)
    ensures var repo := Step(SiteOf(c), PromoteNext(c.t, Attempted(true, true))).queue.repo;
            P.IsPromoted(repo, c.t)
            && repo.landed == map[(c.t, 1) := NewFile(c.head, a, x).patch, (c.t, 2) := NewFile(c.head, b, x).patch]
  {
    PlainIsInScope(b, [a, b]);
    FreeIsUnblocked(SiteOf(c).queue, c.t, a);
    NewFileIsPromotable(RepoOf(c), c.t, b, x, Attempted(true, true));
    Lands(RepoOf(c), c.t, Attempted(true, true));
  }

  lemma Lands(repo: P.Repo, t: TaskId, world: P.World)
    requires P.Refusal(repo, t, world).None? && world == Attempted(true, true)
    ensures var repo' := P.Promote(repo, t, world).0;
            P.IsPromoted(repo', t)
            && repo'.landed == repo.landed[(t, repo.tasks[t].latest) := P.Candidate(repo.tasks[t]).value.patch]
  {
  }

  /** Reachable: a rollback that failed leaves one revision's patch in the tree, and the task's next revision is promoted. */
  lemma TwoRevisionsInTheTree(head: P.Commit, t: TaskId, u: TaskId, a: Path, b: Path, x: P.Content)
    requires t != u && a != b && Plain(a) && Plain(b)
    ensures exists w :: Reached(w) && P.IsPromoted(w.queue.repo, t)
              && w.queue.repo.landed == map[(t, 1) := NewFile(head, a, x).patch, (t, 2) := NewFile(head, b, x).patch]
  {
    var c := RevisedScene(head, t, u, false, a, b, x);
    RevisedSceneIsReached(head, t, u, false, a, b, x);
    SecondIsPromoted(c, a, b, x);
    ReachNext(SiteOf(c), PromoteNext(t, Attempted(true, true)));
  }
}
