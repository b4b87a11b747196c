/** Promotion of accepted patches into one shared working tree: check, apply, verify, roll back. */
module Promotion {
  import opened Paths
  import opened Wrappers

  type Content = string
  type Commit = string
  type TaskId = string

  /** Files by path; an absent path has no file. */
  type Tree = map<Path, Content>

  function Lookup(tree: Tree, p: Path): Option<Content> {
    if p in tree then Some(tree[p]) else None
  }

  /** What a patch expects at a path and what it leaves there. */
  datatype Edit = Edit(before: Option<Content>, after: Option<Content>)
  type Patch = map<Path, Edit>

  /** `git apply --check`. */
  predicate Applies(tree: Tree, patch: Patch) {
    forall p :: p in patch ==> Lookup(tree, p) == patch[p].before
  }

  /** `git apply`. */
  function Apply(tree: Tree, patch: Patch): (r: Tree)
    ensures forall p :: Lookup(r, p) == if p in patch then patch[p].after else Lookup(tree, p)
  {
    map p | p in tree.Keys + patch.Keys && (p in patch ==> patch[p].after.Some?) ::
      if p in patch then patch[p].after.value else tree[p]
  }

  /** `git apply --reverse` applies this. */
  function Reverse(patch: Patch): Patch {
    map p | p in patch :: Edit(patch[p].after, patch[p].before)
  }

  lemma TreesAgree(a: Tree, b: Tree)
    requires forall p :: Lookup(a, p) == Lookup(b, p)
    ensures a == b
  {
    forall p ensures p in a <==> p in b {
      assert Lookup(a, p) == Lookup(b, p);
    }
    forall p | p in a ensures a[p] == b[p] {
      assert Lookup(a, p) == Lookup(b, p);
    }
  }

  lemma ReverseUndoes(tree: Tree, patch: Patch)
    requires Applies(tree, patch)
    ensures Applies(Apply(tree, patch), Reverse(patch))
    ensures Apply(Apply(tree, patch), Reverse(patch)) == tree
  {
    TreesAgree(Apply(Apply(tree, patch), Reverse(patch)), tree);
  }

  /** Patches of disjoint paths commute, and neither affects whether the other applies. */
  lemma DisjointPatchesCommute(tree: Tree, a: Patch, b: Patch)
    requires a.Keys !! b.Keys
    ensures Apply(Apply(tree, a), b) == Apply(Apply(tree, b), a)
    ensures Applies(Apply(tree, a), b) <==> Applies(tree, b)
  {
    TreesAgree(Apply(Apply(tree, a), b), Apply(Apply(tree, b), a));
    forall p | p in b ensures Lookup(Apply(tree, a), p) == Lookup(tree, p) {
    }
  }

  predicate Matches(path: Path, roots: seq<Path>) {
    exists root :: root in roots && Under(path, root)
  }

  datatype Status = Earlier | Accepted | Promoting | Promoted | PromotionFailed | Later

  /** A captured result: the commit it is based on, its patch, and the changed files it lists. */
  datatype Capture = Capture(base: Commit, patch: Patch, changed: set<Path>)

  datatype Task = Task(
    status: Status, accepted: Option<nat>, latest: nat, results: map<nat, Capture>,
    allowed: seq<Path>, denied: seq<Path>, unmet: seq<string>)

  datatype Record = Record(revision: nat, promoted: bool, rollbackSucceeded: Option<bool>)

  /** A task's revision: after a failed promotion a task may be revised, and its next revision promoted. */
  type Landing = (TaskId, nat)

  /** `landed` is history: the patches that went into the tree and have not come out again. */
  datatype Repo = Repo(
    head: Commit, base: Tree, tree: Tree, tasks: map<TaskId, Task>, promotions: map<TaskId, seq<Record>>,
    landed: map<Landing, Patch>)

  /** What Git and the file system do during one call. */
  datatype World = World(
    identityOk: bool, artifactsIntact: bool, checkErrors: bool, applyErrors: bool, verifyErrors: bool, reverseErrors: bool)

  datatype PromotionError =
    | UnknownTask | NotPromotable | RollbackUnconfirmed | NotLatest | NoResult | UnmetCommands | IdentityChanged
    | HeadMoved | ArtifactChanged | DeniedPath | OutOfScope | NothingChanged | DirtyPaths | DoesNotApply
    | Failed(rollbackSucceeded: bool)

  function Log(s: Repo, t: TaskId): seq<Record> {
    if t in s.promotions then s.promotions[t] else []
  }

  /** The task's accepted result, once it is known to be the latest one. */
  function Candidate(task: Task): Option<Capture> {
    if task.accepted.Some? && task.accepted.value in task.results then Some(task.results[task.accepted.value]) else None
  }

  predicate Clean(s: Repo, paths: set<Path>) {
    forall p :: p in paths ==> Lookup(s.tree, p) == Lookup(s.base, p)
  }

  /** The first check that fails, in the order they are made. */
  function Refusal(s: Repo, t: TaskId, world: World): Option<PromotionError> {
    if t !in s.tasks then Some(UnknownTask)
    else
      var task := s.tasks[t];
      var log := Log(s, t);
      if task.status !in {Accepted, PromotionFailed} then Some(NotPromotable)
      else if task.status == PromotionFailed && (log == [] || log[|log| - 1].rollbackSucceeded != Some(true))
      then Some(RollbackUnconfirmed)
      else if task.accepted != Some(task.latest) then Some(NotLatest)
      else if Candidate(task).None? then Some(NoResult)
      else
        var result := Candidate(task).value;
        if task.unmet != [] then Some(UnmetCommands)
        else if !world.identityOk then Some(IdentityChanged)
        else if s.head != result.base then Some(HeadMoved)
        else if !world.artifactsIntact then Some(ArtifactChanged)
        else if exists p :: p in result.changed && Matches(p, task.denied) then Some(DeniedPath)
        else if exists p :: p in result.changed && !Matches(p, task.allowed) then Some(OutOfScope)
        else if result.changed == {} then Some(NothingChanged)
        else if !Clean(s, result.changed) then Some(DirtyPaths)
        else if world.checkErrors || !Applies(s.tree, result.patch) then Some(DoesNotApply)
        else None
  }

  /** The outcome's tree, the task's new status, and the appended promotion record. */
  function Settle(s: Repo, tree: Tree, landed: map<Landing, Patch>, t: TaskId, task: Task, record: Record): Repo {
    Repo(s.head, s.base, tree, s.tasks[t := task], s.promotions[t := Log(s, t) + [record]], landed)
  }

  /** The comparison through isolated indexes: the changed files hold what base plus patch gives. */
  predicate MatchesPatch(base: Tree, tree: Tree, result: Capture) {
    var expected := Apply(base, result.patch);
    forall p :: p in result.changed ==> Lookup(tree, p) == Lookup(expected, p)
  }

  /** One call of `promote`: the repository after it, and the error it raised. */
  function Promote(s: Repo, t: TaskId, world: World): (Repo, Option<PromotionError>) {
    var refusal := Refusal(s, t, world);
    if refusal.Some? then (s, refusal) else Attempt(s, t, s.tasks[t], Candidate(s.tasks[t]).value, world)
  }

  /** Apply, verify, and roll back if either failed. */
  function Attempt(s: Repo, t: TaskId, task: Task, result: Capture, world: World): (Repo, Option<PromotionError>) {
    var tree := if world.applyErrors then s.tree else Apply(s.tree, result.patch);
    if !world.applyErrors && !world.verifyErrors && MatchesPatch(s.base, tree, result) then
      (Settle(s, tree, s.landed[(t, task.latest) := result.patch], t, task.(status := Promoted), Record(task.latest, true, None)), None)
    else
      var rolledBack := !world.reverseErrors && Applies(tree, Reverse(result.patch));
      (Settle(s,
              if rolledBack then Apply(tree, Reverse(result.patch)) else tree,
              if rolledBack || world.applyErrors then s.landed else s.landed[(t, task.latest) := result.patch],
              t, task.(status := PromotionFailed), Record(task.latest, false, Some(rolledBack))),
       Some(Failed(rolledBack)))
  }

  lemma StatusTwice(tasks: map<TaskId, Task>, t: TaskId, first: Status, second: Status)
    requires t in tasks
    ensures var once := tasks[t := tasks[t].(status := first)];
            once[t := once[t].(status := second)] == tasks[t := tasks[t].(status := second)]
  {
  }

  /** The service, working step by step on its own state. */
  class PromotionService {
    const head: Commit
    const base: Tree
    var tree: Tree
    var tasks: map<TaskId, Task>
    var promotions: map<TaskId, seq<Record>>
    ghost var landed: map<Landing, Patch>

    constructor (head: Commit, base: Tree, tasks: map<TaskId, Task>)
      ensures Contents() == Repo(head, base, base, tasks, map[], map[])
    {
      this.head, this.base, tree, this.tasks := head, base, base, tasks;
      promotions, landed := map[], map[];
    }

    ghost function Contents(): Repo
      reads this
    {
      Repo(head, base, tree, tasks, promotions, landed)
    }

    method CheckPromotable(t: TaskId, world: World) returns (refusal: Option<PromotionError>)
      ensures refusal == Refusal(Contents(), t, world)
    {
      if t !in tasks {
        return Some(UnknownTask);
      }
      var task := tasks[t];
      if task.status !in {Accepted, PromotionFailed} {
        return Some(NotPromotable);
      }
      if task.status == PromotionFailed {
        var log := if t in promotions then promotions[t] else [];
        if log == [] || log[|log| - 1].rollbackSucceeded != Some(true) {
          return Some(RollbackUnconfirmed);
        }
      }
      if task.accepted != Some(task.latest) {
        return Some(NotLatest);
      }
      var candidate := Candidate(task);
      if candidate.None? {
        return Some(NoResult);
      }
      var result := candidate.value;
      if task.unmet != [] {
        return Some(UnmetCommands);
      }
      if !world.identityOk {
        return Some(IdentityChanged);
      }
      if head != result.base {
        return Some(HeadMoved);
      }
      if !world.artifactsIntact {
        return Some(ArtifactChanged);
      }
      if exists p :: p in result.changed && Matches(p, task.denied) {
        return Some(DeniedPath);
      }
      if exists p :: p in result.changed && !Matches(p, task.allowed) {
        return Some(OutOfScope);
      }
      if result.changed == {} {
        return Some(NothingChanged);
      }
      if exists p :: p in result.changed && Lookup(tree, p) != Lookup(base, p) {
        return Some(DirtyPaths);
      }
      if world.checkErrors || !Applies(tree, result.patch) {
        return Some(DoesNotApply);
      }
      return None;
    }

    method PromoteTask(t: TaskId, world: World) returns (error: Option<PromotionError>)
      modifies this
      ensures (Contents(), error) == Promote(old(Contents()), t, world)
    {
      error := CheckPromotable(t, world);
      if error.None? {
        error := ApplyAndVerify(t, Candidate(tasks[t]).value, world);
      }
    }

    /** The part of `promote` after its decision record. */
    method ApplyAndVerify(t: TaskId, result: Capture, world: World) returns (error: Option<PromotionError>)
      requires t in tasks
      modifies this
      ensures (Contents(), error) == Attempt(old(Contents()), t, old(tasks)[t], result, world)
    {
      error := None;
      var revision := tasks[t].latest;
      tasks := tasks[t := tasks[t].(status := Promoting)];
      var failed := world.applyErrors;
      if !failed {
        tree := Apply(tree, result.patch);
        landed := landed[(t, revision) := result.patch];
        failed := world.verifyErrors || !MatchesPatch(base, tree, result);
      }
      var record := Record(revision, true, None);
      if failed {
        var rolledBack := !world.reverseErrors && Applies(tree, Reverse(result.patch));
        if rolledBack {
          tree := Apply(tree, Reverse(result.patch));
          landed := old(landed);
        }
        record := Record(revision, false, Some(rolledBack));
        error := Some(Failed(rolledBack));
      }
      promotions := promotions[t := (if t in promotions then promotions[t] else []) + [record]];
      StatusTwice(old(tasks), t, Promoting, if failed then PromotionFailed else Promoted);
      tasks := tasks[t := tasks[t].(status := if failed then PromotionFailed else Promoted)];
    }
  }

  // ---- the invariant ----

  /** What capture guarantees of a result: it changes every path its patch touches, and lists all of them. */
  ghost predicate RealChange(base: Tree, result: Capture) {
    && result.patch != map[]
    && result.patch.Keys <= result.changed
    && forall p :: p in result.patch ==> result.patch[p].before == Lookup(base, p) && result.patch[p].before != result.patch[p].after
  }

  ghost predicate RealChanges(s: Repo) {
    forall t, r :: t in s.tasks && r in s.tasks[t].results && s.tasks[t].results[r].base == s.head ==>
      RealChange(s.base, s.tasks[t].results[r])
  }

  /** The attempt at this revision failed and could not be taken back. */
  ghost predicate Stuck(s: Repo, l: Landing) {
    Record(l.1, false, Some(false)) in Log(s, l.0)
  }

  ghost predicate IsPromoted(s: Repo, t: TaskId) {
    t in s.tasks && s.tasks[t].status == Promoted
  }

  /** The tree is HEAD overlaid with these patches and nothing else. */
  ghost predicate Overlaid(base: Tree, landed: map<Landing, Patch>, tree: Tree) {
    && (forall l, p :: l in landed && p in landed[l] ==> Lookup(tree, p) == landed[l][p].after)
    && (forall p :: (forall l :: l in landed ==> p !in landed[l]) ==> Lookup(tree, p) == Lookup(base, p))
  }

  ghost predicate PairwiseDisjoint(landed: map<Landing, Patch>) {
    forall l, k :: l in landed && k in landed && l != k ==> landed[l].Keys !! landed[k].Keys
  }

  /** What is in the tree is the patch of a stored revision, which was promoted or is stuck. */
  ghost predicate Explained(s: Repo, l: Landing) {
    && l.0 in s.tasks && l.1 in s.tasks[l.0].results
    && l in s.landed && s.landed[l] == s.tasks[l.0].results[l.1].patch
    && (Stuck(s, l) || (IsPromoted(s, l.0) && l.1 == s.tasks[l.0].latest))
  }

  /** Each promoted task's accepted patch is in the tree. */
  ghost predicate PromotedIsIn(s: Repo, t: TaskId) {
    IsPromoted(s, t) ==>
      && s.tasks[t].accepted == Some(s.tasks[t].latest) && Candidate(s.tasks[t]).Some?
      && (t, s.tasks[t].latest) in s.landed && s.landed[(t, s.tasks[t].latest)] == Candidate(s.tasks[t]).value.patch
  }

  /** Every patch in the tree changes all of its paths. */
  ghost predicate Visible(base: Tree, landed: map<Landing, Patch>) {
    forall l :: l in landed ==>
      landed[l] != map[] && forall p :: p in landed[l] ==> landed[l][p].after != Lookup(base, p)
  }

  /** The tree is HEAD with pairwise disjoint, visible patches. */
  ghost predicate Layered(base: Tree, landed: map<Landing, Patch>, tree: Tree) {
    Overlaid(base, landed, tree) && PairwiseDisjoint(landed) && Visible(base, landed)
  }

  ghost predicate AllExplained(s: Repo) {
    forall l :: l in s.landed ==> Explained(s, l)
  }

  ghost predicate AllPromotedIn(s: Repo) {
    forall t :: PromotedIsIn(s, t)
  }

  ghost predicate Good(s: Repo) {
    RealChanges(s) && Layered(s.base, s.landed, s.tree) && AllExplained(s) && AllPromotedIn(s)
  }

  /** What the checks leave standing. */
  lemma Checked(s: Repo, t: TaskId, world: World)
    requires Refusal(s, t, world).None?
    ensures
      && t in s.tasks && Candidate(s.tasks[t]).Some?
      && var task, result := s.tasks[t], Candidate(s.tasks[t]).value;
      && task.status != Promoted && task.accepted == Some(task.latest) && result == task.results[task.latest]
      && s.head == result.base && Clean(s, result.changed) && Applies(s.tree, result.patch)
      && forall p :: p in result.changed ==> Matches(p, task.allowed) && !Matches(p, task.denied)
  {
  }

  /** What may be promoted is not in the tree yet, and touches only untouched paths. */
  lemma CandidateIsFree(s: Repo, t: TaskId, result: Capture)
    requires Good(s) && t in s.tasks && s.tasks[t].accepted == Some(s.tasks[t].latest)
    requires Candidate(s.tasks[t]) == Some(result) && s.head == result.base && Clean(s, result.changed)
    ensures (t, s.tasks[t].latest) !in s.landed && RealChange(s.base, result)
    ensures forall l :: l in s.landed ==> s.landed[l].Keys !! result.patch.Keys
  {
    forall l: Landing, p: Path | l in s.landed && p in s.landed[l] ensures p !in result.patch {
      assert Lookup(s.tree, p) == s.landed[l][p].after != Lookup(s.base, p);
    }
    var l := (t, s.tasks[t].latest);
    if l in s.landed {
      LandedIsVisible(s, l);
    }
  }

  lemma LandedIsVisible(s: Repo, l: Landing)
    requires Good(s) && l in s.landed
    ensures Explained(s, l) && exists p :: p in s.landed[l]
  {
    assert s.landed[l] != map[];
  }

  /** Landing a patch on untouched paths keeps the tree an overlay. */
  lemma LandKeepsOverlay(base: Tree, tree: Tree, landed: map<Landing, Patch>, l: Landing, patch: Patch)
    requires Overlaid(base, landed, tree) && l !in landed
    requires forall k :: k in landed ==> landed[k].Keys !! patch.Keys
    ensures Overlaid(base, landed[l := patch], Apply(tree, patch))
  {
    var landed': map<Landing, Patch> := landed[l := patch];
    var tree' := Apply(tree, patch);
    forall k: Landing, p: Path | k in landed' && p in landed'[k] ensures Lookup(tree', p) == landed'[k][p].after {
      if k != l {
        assert Lookup(tree, p) == landed[k][p].after;
      }
    }
    forall p | forall k :: k in landed' ==> p !in landed'[k] ensures Lookup(tree', p) == Lookup(base, p) {
      assert p !in landed'[l];
      forall k | k in landed ensures p !in landed[k] {
        assert p !in landed'[k];
      }
    }
  }

  /** A rollback succeeds exactly when the patch had gone in and Git takes it out again, and then it restores the tree. */
  lemma RollbackRestores(s: Repo, t: TaskId, world: World)
    requires Good(s) && Promote(s, t, world).1.Some? && Promote(s, t, world).1.value.Failed?
    ensures Promote(s, t, world).1.value.rollbackSucceeded <==> !world.applyErrors && !world.reverseErrors
    ensures Promote(s, t, world).1.value.rollbackSucceeded || world.applyErrors ==>
              Promote(s, t, world).0.tree == s.tree && Promote(s, t, world).0.landed == s.landed
  {
    assert Refusal(s, t, world).None?;
    Checked(s, t, world);
    var result := Candidate(s.tasks[t]).value;
    CandidateIsFree(s, t, result);
    AttemptRestores(s, t, s.tasks[t], result, world);
  }

  lemma AttemptRestores(s: Repo, t: TaskId, task: Task, result: Capture, world: World)
    requires RealChange(s.base, result) && Applies(s.tree, result.patch)
    requires Attempt(s, t, task, result, world).1.Some?
    ensures
      var (s', error) := Attempt(s, t, task, result, world);
      && (error.value.rollbackSucceeded <==> !world.applyErrors && !world.reverseErrors)
      && (error.value.rollbackSucceeded || world.applyErrors ==> s'.tree == s.tree && s'.landed == s.landed)
      && (!error.value.rollbackSucceeded && !world.applyErrors ==>
            s'.tree == Apply(s.tree, result.patch) && s'.landed == s.landed[(t, task.latest) := result.patch])
  {
    ReverseUndoes(s.tree, result.patch);
    var p :| p in result.patch;
    assert p in Reverse(result.patch) && Lookup(s.tree, p) != Reverse(result.patch)[p].before;
  }

  /** What is in the tree stays explained while tasks and records only go on. */
  lemma StaysExplained(s: Repo, s': Repo, l: Landing)
    requires Explained(s, l) && l in s'.landed && s'.landed[l] == s.landed[l]
    requires l.0 in s'.tasks && l.1 in s'.tasks[l.0].results && s'.tasks[l.0].results[l.1] == s.tasks[l.0].results[l.1]
    requires Log(s, l.0) <= Log(s', l.0)
    requires IsPromoted(s, l.0) ==> IsPromoted(s', l.0) && s'.tasks[l.0].latest == s.tasks[l.0].latest
    ensures Explained(s', l)
  {
  }

  lemma StatusKeepsReal(s: Repo, s': Repo, t: TaskId, status: Status)
    requires RealChanges(s) && s'.head == s.head && s'.base == s.base
    requires t in s.tasks && s'.tasks == s.tasks[t := s.tasks[t].(status := status)]
    ensures RealChanges(s')
  {
    forall u, r | u in s'.tasks && r in s'.tasks[u].results && s'.tasks[u].results[r].base == s'.head
      ensures RealChange(s'.base, s'.tasks[u].results[r])
    {
      assert u in s.tasks && s'.tasks[u].results == s.tasks[u].results;
    }
  }

  lemma StatusKeepsPromotedIn(s: Repo, s': Repo, t: TaskId, status: Status)
    requires AllPromotedIn(s) && t in s.tasks && s.tasks[t].status != Promoted && status != Promoted
    requires s'.tasks == s.tasks[t := s.tasks[t].(status := status)] && s'.landed == s.landed
    ensures AllPromotedIn(s')
  {
    forall u ensures PromotedIsIn(s', u) {
      assert PromotedIsIn(s, u);
    }
  }

  lemma RecordKeepsExplained(s: Repo, s': Repo, t: TaskId, status: Status, record: Record)
    requires AllExplained(s) && t in s.tasks && s.tasks[t].status != Promoted
    requires s'.tasks == s.tasks[t := s.tasks[t].(status := status)] && s'.landed == s.landed
    requires s'.promotions == s.promotions[t := Log(s, t) + [record]]
    ensures AllExplained(s')
  {
    forall l | l in s'.landed ensures Explained(s', l) {
      StaysExplained(s, s', l);
    }
  }

  /** A failed attempt that left nothing behind. */
  lemma FailKeepsGood(s: Repo, t: TaskId, record: Record)
    requires Good(s) && t in s.tasks && s.tasks[t].status != Promoted
    ensures Good(Settle(s, s.tree, s.landed, t, s.tasks[t].(status := PromotionFailed), record))
  {
    var s' := Settle(s, s.tree, s.landed, t, s.tasks[t].(status := PromotionFailed), record);
    RecordKeepsExplained(s, s', t, PromotionFailed, record);
    StatusKeepsPromotedIn(s, s', t, PromotionFailed);
    StatusKeepsReal(s, s', t, PromotionFailed);
  }

  lemma LandKeepsDisjoint(base: Tree, landed: map<Landing, Patch>, l: Landing, result: Capture)
    requires PairwiseDisjoint(landed) && Visible(base, landed) && l !in landed && RealChange(base, result)
    requires forall k :: k in landed ==> landed[k].Keys !! result.patch.Keys
    ensures PairwiseDisjoint(landed[l := result.patch]) && Visible(base, landed[l := result.patch])
  {
  }

  /** The task's latest revision is the accepted one, stored, and not in the tree yet. */
  ghost predicate CanLand(s: Repo, t: TaskId) {
    && t in s.tasks && s.tasks[t].status != Promoted && s.tasks[t].accepted == Some(s.tasks[t].latest)
    && Candidate(s.tasks[t]).Some? && (t, s.tasks[t].latest) !in s.landed
  }

  /** The repository after an attempt at it left its patch in the tree, promoted or stuck. */
  ghost predicate Landed(s: Repo, s': Repo, t: TaskId, status: Status, record: Record)
    requires CanLand(s, t)
  {
    && (status == Promoted || (status == PromotionFailed && record == Record(s.tasks[t].latest, false, Some(false))))
    && s'.tasks == s.tasks[t := s.tasks[t].(status := status)]
    && s'.promotions == s.promotions[t := Log(s, t) + [record]]
    && s'.landed == s.landed[(t, s.tasks[t].latest) := Candidate(s.tasks[t]).value.patch]
  }

  lemma LandExplainsIt(s: Repo, s': Repo, t: TaskId, status: Status, record: Record)
    requires CanLand(s, t) && Landed(s, s', t, status, record)
    ensures Explained(s', (t, s.tasks[t].latest))
  {
    assert Log(s', t) == Log(s, t) + [record];
    assert record in Log(s', t);
  }

  lemma LandKeepsExplained(s: Repo, s': Repo, t: TaskId, status: Status, record: Record)
    requires AllExplained(s) && CanLand(s, t) && Landed(s, s', t, status, record)
    ensures AllExplained(s')
  {
    LandExplainsIt(s, s', t, status, record);
    forall l | l in s'.landed ensures Explained(s', l) {
      if l != (t, s.tasks[t].latest) {
        StaysExplained(s, s', l);
      }
    }
  }

  lemma LandKeepsPromotedIn(s: Repo, s': Repo, t: TaskId, status: Status, record: Record)
    requires AllPromotedIn(s) && CanLand(s, t) && Landed(s, s', t, status, record)
    ensures AllPromotedIn(s')
  {
    forall u ensures PromotedIsIn(s', u) {
      assert PromotedIsIn(s, u);
    }
  }

  lemma LandKeepsGood(s: Repo, t: TaskId, status: Status, record: Record)
    requires Good(s) && CanLand(s, t) && RealChange(s.base, Candidate(s.tasks[t]).value)
    requires forall l :: l in s.landed ==> s.landed[l].Keys !! Candidate(s.tasks[t]).value.patch.Keys
    requires status == Promoted || (status == PromotionFailed && record == Record(s.tasks[t].latest, false, Some(false)))
    ensures
      var patch := Candidate(s.tasks[t]).value.patch;
      Good(Settle(s, Apply(s.tree, patch), s.landed[(t, s.tasks[t].latest) := patch], t, s.tasks[t].(status := status), record))
  {
    var result := Candidate(s.tasks[t]).value;
    var l := (t, s.tasks[t].latest);
    var s' := Settle(s, Apply(s.tree, result.patch), s.landed[l := result.patch], t, s.tasks[t].(status := status), record);
    LandKeepsOverlay(s.base, s.tree, s.landed, l, result.patch);
    LandKeepsDisjoint(s.base, s.landed, l, result);
    LandKeepsExplained(s, s', t, status, record);
    LandKeepsPromotedIn(s, s', t, status, record);
    StatusKeepsReal(s, s', t, status);
  }

  lemma PromoteKeepsGood(s: Repo, t: TaskId, world: World)
    requires Good(s)
    ensures Good(Promote(s, t, world).0)
  {
    if Refusal(s, t, world).None? {
      Checked(s, t, world);
      var task, result := s.tasks[t], Candidate(s.tasks[t]).value;
      CandidateIsFree(s, t, result);
      var (s', error) := Attempt(s, t, task, result, world);
      if error.None? {
        LandKeepsGood(s, t, Promoted, Record(task.latest, true, None));
      } else {
        AttemptRestores(s, t, task, result, world);
        var record := Record(task.latest, false, Some(error.value.rollbackSucceeded));
        if error.value.rollbackSucceeded || world.applyErrors {
          FailKeepsGood(s, t, record);
        } else {
          LandKeepsGood(s, t, PromotionFailed, record);
        }
      }
    }
  }

  // ---- whole histories: promotions, and the tasks' lives between them ----

  /**
   * What the rest of a task's life may do to it as promotion sees it: results are only added, a promoted task stays
   * so, and only a promotion promotes.
   */
  ghost predicate Lives(head: Commit, base: Tree, before: Task, after: Task) {
    && after.allowed == before.allowed && after.denied == before.denied
    && (before.status == Promoted ==>
          after.status == Promoted && after.accepted == before.accepted && after.latest == before.latest)
    && (before.status != Promoted ==> after.status != Promoted)
    && (forall r :: r in before.results ==> r in after.results && after.results[r] == before.results[r])
    && (forall r :: r in after.results && r !in before.results && after.results[r].base == head ==>
          RealChange(base, after.results[r]))
  }

  datatype Event = Try(t: TaskId, world: World) | Live(t: TaskId, task: Task)

  ghost function Happen(s: Repo, event: Event): Repo {
    match event
    case Try(t, world) => Promote(s, t, world).0
    case Live(t, task) =>
      if t in s.tasks && Lives(s.head, s.base, s.tasks[t], task) then s.(tasks := s.tasks[t := task]) else s
  }

  ghost function Run(s: Repo, events: seq<Event>): Repo {
    if events == [] then s else Happen(Run(s, events[..|events| - 1]), events[|events| - 1])
  }

  lemma LiveKeepsReal(s: Repo, t: TaskId, task: Task)
    requires RealChanges(s) && t in s.tasks && Lives(s.head, s.base, s.tasks[t], task)
    ensures RealChanges(s.(tasks := s.tasks[t := task]))
  {
    forall r | r in task.results && task.results[r].base == s.head ensures RealChange(s.base, task.results[r]) {
      assert r in s.tasks[t].results ==> s.tasks[t].results[r] == task.results[r];
    }
  }

  lemma LiveKeepsExplained(s: Repo, t: TaskId, task: Task)
    requires AllExplained(s) && t in s.tasks && Lives(s.head, s.base, s.tasks[t], task)
    ensures AllExplained(s.(tasks := s.tasks[t := task]))
  {
    var s' := s.(tasks := s.tasks[t := task]);
    forall l | l in s'.landed ensures Explained(s', l) {
      StaysExplained(s, s', l);
    }
  }

  lemma LiveKeepsPromotedIn(s: Repo, t: TaskId, task: Task)
    requires AllPromotedIn(s) && t in s.tasks && Lives(s.head, s.base, s.tasks[t], task)
    ensures AllPromotedIn(s.(tasks := s.tasks[t := task]))
  {
    var s' := s.(tasks := s.tasks[t := task]);
    forall u ensures PromotedIsIn(s', u) {
      assert PromotedIsIn(s, u);
    }
  }

  lemma LiveKeepsGood(s: Repo, t: TaskId, task: Task)
    requires Good(s)
    ensures Good(Happen(s, Live(t, task)))
  {
    if t in s.tasks && Lives(s.head, s.base, s.tasks[t], task) {
      LiveKeepsReal(s, t, task);
      LiveKeepsExplained(s, t, task);
      LiveKeepsPromotedIn(s, t, task);
    }
  }

  /** A repository before any promotion. */
  ghost predicate Initial(s: Repo) {
    && RealChanges(s) && s.tree == s.base && s.landed == map[] && s.promotions == map[]
    && forall t :: t in s.tasks ==> s.tasks[t].status != Promoted && s.tasks[t].status != PromotionFailed
  }

  lemma {:induction false} RunKeepsGood(s: Repo, events: seq<Event>)
    requires Initial(s)
    ensures Good(Run(s, events))
    ensures Run(s, events).head == s.head && Run(s, events).base == s.base
    decreases |events|
  {
    if events == [] {
      assert forall t :: PromotedIsIn(s, t);
    } else {
      var last := |events| - 1;
      RunKeepsGood(s, events[..last]);
      var before := Run(s, events[..last]);
      match events[last] {
        case Try(t, world) => PromoteKeepsGood(before, t, world);
        case Live(t, task) => LiveKeepsGood(before, t, task);
      }
    }
  }

  /** A revision that is in the tree is never promoted again. */
  lemma LandedIsNotRetried(s: Repo, t: TaskId, world: World)
    requires Good(s) && t in s.tasks && (t, s.tasks[t].latest) in s.landed
    ensures Refusal(s, t, world).Some?
  {
    if Refusal(s, t, world).None? {
      Checked(s, t, world);
      CandidateIsFree(s, t, Candidate(s.tasks[t]).value);
    }
  }

  /** Git applied the patch, and did not take it out again. */
  predicate Stays(world: World) {
    !world.applyErrors && (!world.verifyErrors || world.reverseErrors)
  }

  function RecordOf(revision: nat, world: World): Record {
    if !world.applyErrors && !world.verifyErrors then Record(revision, true, None)
    else Record(revision, false, Some(!world.applyErrors && !world.reverseErrors))
  }

  /** A clean, applicable patch passes the comparison. */
  lemma AppliedMatches(s: Repo, result: Capture)
    requires Clean(s, result.changed)
    ensures MatchesPatch(s.base, Apply(s.tree, result.patch), result)
  {
  }

  /** All that an attempt changes, by what Git and the comparison do. */
  lemma PromotionOutcome(s: Repo, t: TaskId, world: World)
    requires Good(s) && Refusal(s, t, world).None?
    ensures CanLand(s, t)
    ensures
      var (s', error) := Promote(s, t, world);
      var l := (t, s.tasks[t].latest);
      && (error.None? <==> !world.applyErrors && !world.verifyErrors)
      && s'.tasks == s.tasks[t := s.tasks[t].(status := if error.None? then Promoted else PromotionFailed)]
      && s'.promotions == s.promotions[t := Log(s, t) + [RecordOf(l.1, world)]]
      && s'.landed == if Stays(world) then s.landed[l := Candidate(s.tasks[t]).value.patch] else s.landed
  {
    Checked(s, t, world);
    var result := Candidate(s.tasks[t]).value;
    CandidateIsFree(s, t, result);
    AppliedMatches(s, result);
    if Promote(s, t, world).1.Some? {
      AttemptRestores(s, t, s.tasks[t], result, world);
    }
  }

  /** The event is an attempt at this revision. */
  ghost predicate Attempts(s: Repo, event: Event, l: Landing) {
    event.Try? && event.t == l.0 && Refusal(s, l.0, event.world).None? && l.1 == s.tasks[l.0].latest
  }

  ghost predicate Attempted(s: Repo, events: seq<Event>, i: int, l: Landing) {
    0 <= i < |events| && Attempts(Run(s, events[..i]), events[i], l)
  }

  /** It left the patch in the tree. */
  ghost predicate WentIn(s: Repo, events: seq<Event>, i: int, l: Landing) {
    Attempted(s, events, i, l) && Stays(events[i].world)
  }

  lemma AttemptedBefore(s: Repo, events: seq<Event>, i: int, l: Landing)
    requires 0 <= i < |events| - 1
    ensures Attempted(s, events, i, l) <==> Attempted(s, events[..|events| - 1], i, l)
  {
    assert events[..|events| - 1][..i] == events[..i];
  }

  /** Some attempt at it left it in the tree. */
  ghost predicate EverWentIn(s: Repo, events: seq<Event>, l: Landing) {
    exists i :: WentIn(s, events, i, l)
  }

  lemma WentInBefore(s: Repo, events: seq<Event>, l: Landing)
    requires events != []
    ensures EverWentIn(s, events, l) <==> EverWentIn(s, events[..|events| - 1], l) || WentIn(s, events, |events| - 1, l)
  {
    var front := events[..|events| - 1];
    forall i ensures i < |events| - 1 ==> (WentIn(s, events, i, l) <==> WentIn(s, front, i, l)) {
      if 0 <= i < |events| - 1 {
        AttemptedBefore(s, events, i, l);
      }
    }
    if i :| WentIn(s, events, i, l) && i != |events| - 1 {
      assert WentIn(s, front, i, l);
    }
    if i :| WentIn(s, front, i, l) {
      assert WentIn(s, events, i, l);
    }
  }

  /** One event puts one revision into the tree, or none, and takes none out. */
  lemma EventLands(s: Repo, event: Event, l: Landing)
    requires Good(s)
    ensures l in Happen(s, event).landed <==> l in s.landed || (Attempts(s, event, l) && Stays(event.world))
  {
    if event.Try? && Refusal(s, event.t, event.world).None? {
      PromotionOutcome(s, event.t, event.world);
    }
  }

  /** In the tree are exactly the revisions that some attempt left there. */
  lemma {:induction false} LandedIsExact(s: Repo, events: seq<Event>, l: Landing)
    requires Initial(s)
    ensures l in Run(s, events).landed <==> EverWentIn(s, events, l)
    decreases |events|
  {
    if events != [] {
      var front := events[..|events| - 1];
      RunKeepsGood(s, front);
      LandedIsExact(s, front, l);
      EventLands(Run(s, front), events[|events| - 1], l);
      WentInBefore(s, events, l);
    }
  }

  /**
   * Over any history of promotions and of the tasks' lives between them, the tree is HEAD overlaid with exactly the
   * revisions that some attempt left there, on pairwise disjoint paths. Each of them is promoted, or stuck behind a
   * failed rollback; each promoted task's revision is among them; none is promoted again.
   */
  lemma TreeIsHeadPlusLanded(s: Repo, events: seq<Event>)
    requires Initial(s)
    ensures
      var s' := Run(s, events);
      && Overlaid(s.base, s'.landed, s'.tree) && PairwiseDisjoint(s'.landed)
      && (forall l :: l in s'.landed <==> EverWentIn(s, events, l))
      && (forall l :: l in s'.landed ==> Explained(s', l))
      && (forall t :: PromotedIsIn(s', t))
      && (forall t, world :: t in s'.tasks && (t, s'.tasks[t].latest) in s'.landed ==> Refusal(s', t, world).Some?)
  {
    RunKeepsGood(s, events);
    var s' := Run(s, events);
    forall l ensures l in s'.landed <==> EverWentIn(s, events, l) {
      LandedIsExact(s, events, l);
    }
    forall t, world | t in s'.tasks && (t, s'.tasks[t].latest) in s'.landed ensures Refusal(s', t, world).Some? {
      LandedIsNotRetried(s', t, world);
    }
  }

  // ---- one revision of a task in the tree ----

  /** Of the task's revisions exactly this one is in the tree. */
  ghost predicate OnlyLanded(s: Repo, t: TaskId, revision: nat) {
    forall r: nat :: (t, r) in s.landed <==> r == revision
  }

  /** A promotion leaves its revision alone in the tree exactly when none of the task's was there before. */
  lemma PromotesAlone(s: Repo, t: TaskId, world: World)
    requires Good(s) && Promote(s, t, world).1.None?
    ensures t in s.tasks && OnlyLanded(Promote(s, t, world).0, t, s.tasks[t].latest) <==>
            forall r: nat :: (t, r) !in s.landed
  {
    PromotionOutcome(s, t, world);
    AddsOne(s, Promote(s, t, world).0, t, s.tasks[t].latest, Candidate(s.tasks[t]).value.patch);
  }

  lemma AddsOne(s: Repo, s': Repo, t: TaskId, revision: nat, patch: Patch)
    requires s'.landed == s.landed[(t, revision) := patch] && (t, revision) !in s.landed
    ensures OnlyLanded(s', t, revision) <==> forall r: nat :: (t, r) !in s.landed
  {
    forall r: nat ensures (t, r) in s'.landed <==> (t, r) in s.landed || r == revision {}
  }

  /** Some rollback of the task was not confirmed. */
  ghost predicate HasUnconfirmed(s: Repo, t: TaskId) {
    exists record :: record in Log(s, t) && record.rollbackSucceeded == Some(false)
  }

  /** What the records show of a promoted task: with all rollbacks confirmed it is the only revision. */
  lemma ConfirmedIsAlone(s: Repo, t: TaskId)
    requires Good(s) && IsPromoted(s, t) && !HasUnconfirmed(s, t)
    ensures OnlyLanded(s, t, s.tasks[t].latest)
  {
    assert PromotedIsIn(s, t);
    forall r: nat | (t, r) in s.landed ensures r == s.tasks[t].latest {
      assert Explained(s, (t, r));
      assert !Stuck(s, (t, r));
    }
  }

  /** Git did apply the patch in every attempt at this revision. */
  ghost predicate AppliesAt(s: Repo, events: seq<Event>, l: Landing) {
    forall i :: Attempted(s, events, i, l) ==> !events[i].world.applyErrors
  }

  lemma AppliesBefore(s: Repo, events: seq<Event>, l: Landing)
    requires events != [] && AppliesAt(s, events, l)
    ensures AppliesAt(s, events[..|events| - 1], l)
  {
    var front := events[..|events| - 1];
    forall i | Attempted(s, front, i, l) ensures !front[i].world.applyErrors {
      AttemptedBefore(s, events, i, l);
    }
  }

  /** The revision's patch is in the tree, and it is not the promoted one. */
  ghost predicate InUnpromoted(s: Repo, l: Landing) {
    l in s.landed && !(IsPromoted(s, l.0) && l.1 == s.tasks[l.0].latest)
  }

  lemma LiveKeepsStuck(s: Repo, t: TaskId, task: Task, l: Landing)
    requires Stuck(s, l) <==> InUnpromoted(s, l)
    ensures Stuck(Happen(s, Live(t, task)), l) <==> InUnpromoted(Happen(s, Live(t, task)), l)
  {
  }

  lemma OtherKeepsInUnpromoted(s: Repo, s': Repo, t: TaskId, status: Status, l: Landing)
    requires t in s.tasks && s.tasks[t].status != Promoted && l != (t, s.tasks[t].latest)
    requires s'.tasks == s.tasks[t := s.tasks[t].(status := status)]
    requires l in s'.landed <==> l in s.landed
    ensures InUnpromoted(s', l) <==> InUnpromoted(s, l)
  {
    if l.0 == t {
      assert l.1 != s.tasks[t].latest;
    } else {
      assert IsPromoted(s', l.0) <==> IsPromoted(s, l.0);
    }
  }

  /** The attempt at this revision. */
  lemma AttemptIsInUnpromoted(s: Repo, t: TaskId, world: World)
    requires Good(s) && Refusal(s, t, world).None? && !world.applyErrors
    ensures var l := (t, s.tasks[t].latest);
            !InUnpromoted(s, l) && (InUnpromoted(Promote(s, t, world).0, l) <==> RecordOf(l.1, world) == Record(l.1, false, Some(false)))
  {
    PromotionOutcome(s, t, world);
  }

  lemma TryKeepsStuck(s: Repo, t: TaskId, world: World, l: Landing)
    requires Good(s) && Refusal(s, t, world).None? && (Stuck(s, l) <==> InUnpromoted(s, l))
    requires l == (t, s.tasks[t].latest) ==> !world.applyErrors
    ensures Stuck(Promote(s, t, world).0, l) <==> InUnpromoted(Promote(s, t, world).0, l)
  {
    StuckByAttempt(s, t, world, l);
    if l == (t, s.tasks[t].latest) {
      AttemptIsInUnpromoted(s, t, world);
    } else {
      PromotionOutcome(s, t, world);
      OtherKeepsInUnpromoted(s, Promote(s, t, world).0, t, Promote(s, t, world).0.tasks[t].status, l);
    }
  }

  lemma StuckByAttempt(s: Repo, t: TaskId, world: World, l: Landing)
    requires Good(s) && Refusal(s, t, world).None?
    ensures Stuck(Promote(s, t, world).0, l) <==>
              Stuck(s, l) || (l == (t, s.tasks[t].latest) && RecordOf(l.1, world) == Record(l.1, false, Some(false)))
  {
    PromotionOutcome(s, t, world);
    StuckByRecord(s, Promote(s, t, world).0, t, RecordOf(s.tasks[t].latest, world), l);
  }

  lemma StuckByRecord(s: Repo, s': Repo, t: TaskId, record: Record, l: Landing)
    requires s'.promotions == s.promotions[t := Log(s, t) + [record]]
    ensures Stuck(s', l) <==> Stuck(s, l) || (t == l.0 && record == Record(l.1, false, Some(false)))
  {
    assert Log(s', t) == Log(s, t) + [record];
  }

  /** When Git applied it in every attempt, a revision is recorded as stuck exactly when it is in the tree unpromoted. */
  lemma {:induction false} StuckIsExact(s: Repo, events: seq<Event>, l: Landing)
    requires Initial(s) && AppliesAt(s, events, l)
    ensures Stuck(Run(s, events), l) <==> InUnpromoted(Run(s, events), l)
    decreases |events|
  {
    if events != [] {
      var last := |events| - 1;
      var before := Run(s, events[..last]);
      RunKeepsGood(s, events[..last]);
      AppliesBefore(s, events, l);
      StuckIsExact(s, events[..last], l);
      match events[last] {
        case Live(t, task) => LiveKeepsStuck(before, t, task, l);
        case Try(t, world) =>
          if Refusal(before, t, world).None? {
            assert l == (t, before.tasks[t].latest) ==> Attempted(s, events, last, l);
            TryKeepsStuck(before, t, world, l);
          }
      }
    }
  }

  /** Only failed attempts record a rollback. */
  ghost predicate RecordsShaped(s: Repo) {
    forall t, record :: record in Log(s, t) && record.rollbackSucceeded == Some(false) ==> Stuck(s, (t, record.revision))
  }

  lemma TryKeepsShape(s: Repo, t: TaskId, world: World)
    requires Good(s) && RecordsShaped(s) && Refusal(s, t, world).None?
    ensures RecordsShaped(Promote(s, t, world).0)
  {
    var s' := Promote(s, t, world).0;
    PromotionOutcome(s, t, world);
    var record := RecordOf(s.tasks[t].latest, world);
    forall u, r | r in Log(s', u) && r.rollbackSucceeded == Some(false) ensures Stuck(s', (u, r.revision)) {
      assert u == t ==> Log(s', t) == Log(s, t) + [record];
      assert r in Log(s, u) || (u == t && r == record);
      StuckByRecord(s, s', t, record, (u, r.revision));
    }
  }

  lemma SameShape(s: Repo, s': Repo)
    requires RecordsShaped(s) && s'.promotions == s.promotions
    ensures RecordsShaped(s')
  {
    forall t, record | record in Log(s', t) && record.rollbackSucceeded == Some(false) ensures Stuck(s', (t, record.revision)) {
      assert record in Log(s, t) && Stuck(s, (t, record.revision));
    }
  }

  lemma {:induction false} RunKeepsShape(s: Repo, events: seq<Event>)
    requires Initial(s)
    ensures RecordsShaped(Run(s, events))
    decreases |events|
  {
    if events != [] {
      var last := |events| - 1;
      RunKeepsShape(s, events[..last]);
      RunKeepsGood(s, events[..last]);
      if events[last].Try? && Refusal(Run(s, events[..last]), events[last].t, events[last].world).None? {
        TryKeepsShape(Run(s, events[..last]), events[last].t, events[last].world);
      } else {
        assert Run(s, events).promotions == Run(s, events[..last]).promotions;
        SameShape(Run(s, events[..last]), Run(s, events));
      }
    }
  }

  /** A promoted task has one revision in the tree exactly when no attempt at another one stayed there. */
  lemma OneRevisionByAttempts(s: Repo, events: seq<Event>, t: TaskId)
    requires Initial(s) && IsPromoted(Run(s, events), t)
    ensures var s' := Run(s, events);
            OnlyLanded(s', t, s'.tasks[t].latest) <==>
              forall r: nat :: EverWentIn(s, events, (t, r)) ==> r == s'.tasks[t].latest
  {
    var s' := Run(s, events);
    RunKeepsGood(s, events);
    assert PromotedIsIn(s', t);
    forall r: nat ensures (t, r) in s'.landed <==> EverWentIn(s, events, (t, r)) {
      LandedIsExact(s, events, (t, r));
    }
  }

  /** If Git applied the patch in each attempt, exactly when the task's records show no unconfirmed rollback. */
  lemma OneRevisionExactly(s: Repo, events: seq<Event>, t: TaskId)
    requires Initial(s) && IsPromoted(Run(s, events), t) && forall r: nat :: AppliesAt(s, events, (t, r))
    ensures var s' := Run(s, events); OnlyLanded(s', t, s'.tasks[t].latest) <==> !HasUnconfirmed(s', t)
  {
    var s' := Run(s, events);
    RunKeepsGood(s, events);
    RunKeepsShape(s, events);
    if !HasUnconfirmed(s', t) {
      ConfirmedIsAlone(s', t);
    } else {
      var record :| record in Log(s', t) && record.rollbackSucceeded == Some(false);
      StuckIsExact(s, events, (t, record.revision));
    }
  }

  /** Git takes back what it just applied, in every call. */
  ghost predicate ReverseWorks(events: seq<Event>) {
    forall i :: 0 <= i < |events| && events[i].Try? ==> !events[i].world.reverseErrors
  }

  ghost predicate OnlyPromotedLanded(s: Repo) {
    forall l: Landing :: l in s.landed ==> IsPromoted(s, l.0) && l.1 == s.tasks[l.0].latest
  }

  lemma LandedAlone(s: Repo, s': Repo, t: TaskId)
    requires OnlyPromotedLanded(s) && t in s.tasks && s.tasks[t].status != Promoted
    requires s'.tasks.Keys == s.tasks.Keys && forall u :: u in s.tasks && u != t ==> s'.tasks[u] == s.tasks[u]
    requires s'.landed == s.landed
             || (IsPromoted(s', t) && s'.landed.Keys == s.landed.Keys + {(t, s'.tasks[t].latest)})
    ensures OnlyPromotedLanded(s')
  {
    forall l: Landing | l in s'.landed ensures IsPromoted(s', l.0) && l.1 == s'.tasks[l.0].latest {
      assert l in s.landed ==> IsPromoted(s, l.0) && l.0 != t;
    }
  }

  lemma NothingStuckByOne(s: Repo, t: TaskId, world: World)
    requires Good(s) && OnlyPromotedLanded(s) && !world.reverseErrors
    ensures OnlyPromotedLanded(Promote(s, t, world).0)
  {
    if Refusal(s, t, world).None? {
      PromotionOutcome(s, t, world);
      LandedAlone(s, Promote(s, t, world).0, t);
    }
  }

  /** While reversal works, exactly the promoted revisions are in the tree. */
  lemma {:induction false} NothingStaysBehind(s: Repo, events: seq<Event>)
    requires Initial(s) && ReverseWorks(events)
    ensures OnlyPromotedLanded(Run(s, events))
    decreases |events|
  {
    if events != [] {
      var last := |events| - 1;
      NothingStaysBehind(s, events[..last]);
      RunKeepsGood(s, events[..last]);
      if events[last].Try? {
        NothingStuckByOne(Run(s, events[..last]), events[last].t, events[last].world);
      }
    }
  }

  ghost predicate SamePromotions(a: Repo, b: Repo) {
    forall t :: (IsPromoted(a, t) <==> IsPromoted(b, t))
      && (IsPromoted(a, t) && Candidate(a.tasks[t]).Some? && Candidate(b.tasks[t]).Some? ==>
            Candidate(a.tasks[t]).value.patch == Candidate(b.tasks[t]).value.patch)
  }

  /** A promoted task's patch is in both trees. */
  lemma SameLanding(a: Repo, b: Repo, l: Landing) returns (k: Landing)
    requires AllPromotedIn(a) && AllPromotedIn(b) && OnlyPromotedLanded(a) && SamePromotions(a, b) && l in a.landed
    ensures k in b.landed && b.landed[k] == a.landed[l]
  {
    assert IsPromoted(a, l.0) && PromotedIsIn(a, l.0) && IsPromoted(b, l.0) && PromotedIsIn(b, l.0);
    k := (l.0, b.tasks[l.0].latest);
  }

  /** What one repository has at a path, another with the same promoted patches has too. */
  lemma SamePath(a: Repo, b: Repo, l: Landing, p: Path)
    requires Good(a) && Good(b) && OnlyPromotedLanded(a) && SamePromotions(a, b) && l in a.landed && p in a.landed[l]
    ensures Lookup(a.tree, p) == Lookup(b.tree, p)
  {
    var k := SameLanding(a, b, l);
    assert Lookup(b.tree, p) == b.landed[k][p].after;
  }

  lemma SameTree(a: Repo, b: Repo)
    requires Good(a) && Good(b) && OnlyPromotedLanded(a) && OnlyPromotedLanded(b) && a.base == b.base
    requires SamePromotions(a, b)
    ensures a.tree == b.tree
  {
    forall p ensures Lookup(a.tree, p) == Lookup(b.tree, p) {
      if l :| l in a.landed && p in a.landed[l] {
        SamePath(a, b, l, p);
      } else if l :| l in b.landed && p in b.landed[l] {
        SamePath(b, a, l, p);
      }
    }
    TreesAgree(a.tree, b.tree);
  }

  /** Two histories that promoted the same patches, with working rollbacks, leave the same tree: order does not matter. */
  lemma OrderDoesNotMatter(s: Repo, events: seq<Event>, events': seq<Event>)
    requires Initial(s) && ReverseWorks(events) && ReverseWorks(events')
    requires SamePromotions(Run(s, events), Run(s, events'))
    ensures Run(s, events).tree == Run(s, events').tree
  {
    RunKeepsGood(s, events);
    RunKeepsGood(s, events');
    NothingStaysBehind(s, events);
    NothingStaysBehind(s, events');
    SameTree(Run(s, events), Run(s, events'));
  }

  /** Every path of a promoted patch is allowed by its task's scope and not denied by it. */
  lemma PromotedPathsAreInScope(s: Repo, t: TaskId, world: World, p: Path)
    requires Good(s) && Promote(s, t, world).1.None?
    requires p in Candidate(s.tasks[t]).value.patch
    ensures Matches(p, s.tasks[t].allowed) && !Matches(p, s.tasks[t].denied)
    ensures Lookup(Promote(s, t, world).0.tree, p) == Candidate(s.tasks[t]).value.patch[p].after
  {
    Checked(s, t, world);
    CandidateIsFree(s, t, Candidate(s.tasks[t]).value);
  }
}
