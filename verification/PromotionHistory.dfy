/** Delegated tasks from draft to promotion, on one repository: the services' calls, the queue and the promotions together. */
module PromotionHistory {
  import opened Paths
  import opened Wrappers
  import D = Delegation
  import L = PromotionLifecycle
  import P = Promotion
  import Q = PromotionQueue

  type TaskId = P.TaskId

  /** Each task's records, and what promotion and its queue know of it. */
  datatype Site = Site(lives: map<TaskId, D.Life>, queue: Q.Queued)

  /** `result` is what a capture stores; other calls ignore it. */
  datatype Event =
    | Work(t: TaskId, op: D.Op, result: P.Capture)
    | Enqueue(t: TaskId)
    | PromoteNow(t: TaskId, world: P.World)
    | PromoteNext(t: TaskId, world: P.World)

  /** The captured files are those listed, under the task's own scope, and the patch is a real change of them. */
  ghost predicate Captures(repo: P.Repo, task: P.Task, op: D.Op, result: P.Capture) {
    op.Capture? ==>
      && op.allowed == task.allowed && op.denied == task.denied
      && result.changed == (set i | 0 <= i < |op.changes| :: op.changes[i].path)
      && (result.base == repo.head ==> P.RealChange(repo.base, result))
  }

  /** A task's records, as promotion reads them. */
  function Shown(task: P.Task, results: map<nat, P.Capture>, life: D.Life): P.Task {
    P.Task(L.Seen(life.task.status), life.task.accepted, life.task.latest, results, task.allowed, task.denied, D.Unmet(life))
  }

  /** The same after a call. */
  function View(task: P.Task, life: D.Life, op: D.Op, result: P.Capture): P.Task {
    Shown(task, if op.Capture? then task.results[life.task.latest := result] else task.results, life)
  }

  function Worked(w: Site, t: TaskId, life: D.Life, task: P.Task): Site {
    Site(w.lives[t := life], w.queue.(repo := w.queue.repo.(tasks := w.queue.repo.tasks[t := task])))
  }

  /** What a promotion does to the task's records. */
  function Settled(lives: map<TaskId, D.Life>, repo: P.Repo, t: TaskId, world: P.World): map<TaskId, D.Life> {
    if t in lives && D.Do(lives[t], L.AsOp(repo, t, world)).Success?
    then lives[t := D.Do(lives[t], L.AsOp(repo, t, world)).value] else lives
  }

  ghost function Step(w: Site, event: Event): Site {
    var repo := w.queue.repo;
    match event
    case Work(t, op, result) =>
      if t in w.lives && t in repo.tasks && !op.Promote? && D.Do(w.lives[t], op).Success? && Captures(repo, repo.tasks[t], op, result)
      then Worked(w, t, D.Do(w.lives[t], op).value, View(repo.tasks[t], D.Do(w.lives[t], op).value, op, result))
      else w
    case Enqueue(t) => w.(queue := Q.Enqueue(w.queue, t).0)
    case PromoteNow(t, world) =>
      Site(Settled(w.lives, repo, t, world), w.queue.(repo := P.Promote(repo, t, world).0))
    case PromoteNext(t, world) =>
      var blocked := Q.PromoteQueued(w.queue, t, world).1;
      if blocked == Some(Q.NotQueued) || blocked == Some(Q.Blocked) then w
      else Site(Settled(w.lives, repo, t, world), Q.PromoteQueued(w.queue, t, world).0)
  }

  ghost function Run(w: Site, events: seq<Event>): Site {
    if events == [] then w else Step(Run(w, events[..|events| - 1]), events[|events| - 1])
  }

  /** New drafts, an untouched tree and an empty queue. */
  ghost predicate Fresh(w: Site) {
    var repo := w.queue.repo;
    && w.lives.Keys == repo.tasks.Keys
    && (forall t :: t in w.lives ==> IsDraft(w.lives[t], repo.tasks[t]))
    && repo.tree == repo.base && repo.landed == map[] && repo.promotions == map[] && w.queue.entries == map[]
  }

  ghost predicate IsDraft(life: D.Life, task: P.Task) {
    && life == D.NewLife(life.task.required)
    && task == P.Task(P.Earlier, None, 0, map[], task.allowed, task.denied, D.Unmet(life))
  }

  // ---- the two views of every task agree throughout ----

  ghost predicate Agreed(w: Site, t: TaskId) {
    t in w.lives && D.Sound(w.lives[t]) && L.Agrees(w.lives[t], w.queue.repo, t)
  }

  ghost predicate AllAgree(w: Site) {
    w.lives.Keys == w.queue.repo.tasks.Keys && forall t :: t in w.lives ==> Agreed(w, t)
  }

  lemma FreshAgrees(w: Site)
    requires Fresh(w)
    ensures AllAgree(w)
  {
    forall t | t in w.lives ensures Agreed(w, t) {
      assert IsDraft(w.lives[t], w.queue.repo.tasks[t]);
    }
  }

  lemma CaptureIsALifeMove(w: Site, t: TaskId, op: D.Op, result: P.Capture)
    requires Agreed(w, t) && t in w.queue.repo.tasks && op.Capture? && D.Do(w.lives[t], op).Success?
    requires Captures(w.queue.repo, w.queue.repo.tasks[t], op, result)
    ensures var repo := w.queue.repo;
            P.Lives(repo.head, repo.base, repo.tasks[t], View(repo.tasks[t], D.Do(w.lives[t], op).value, op, result))
  {
    D.CaptureIsExact(w.lives[t], op);
    assert w.lives[t].task.latest + 1 !in w.lives[t].results;
  }

  /** Only a promotion promotes, and what is promoted stays as it is. */
  lemma OtherCallsPromoteNothing(life: D.Life, op: D.Op)
    requires D.Sound(life) && !op.Promote? && !op.Capture? && D.Do(life, op).Success?
    ensures var after := D.Do(life, op).value;
            && (life.task.status == D.Promoted ==> after.task == life.task)
            && (after.task.status == D.Promoted ==> life.task.status == D.Promoted)
  {
  }

  lemma OtherIsALifeMove(head: P.Commit, base: P.Tree, task: P.Task, before: D.Life, op: D.Op, result: P.Capture)
    requires D.Sound(before) && !op.Promote? && !op.Capture? && D.Do(before, op).Success?
    requires task.status == L.Seen(before.task.status)
    requires task.accepted == before.task.accepted && task.latest == before.task.latest
    ensures P.Lives(head, base, task, View(task, D.Do(before, op).value, op, result))
  {
    OtherCallsPromoteNothing(before, op);
  }

  /** A call other than promotion, as promotion sees it, is a move of the task's life. */
  lemma WorkIsALifeMove(w: Site, t: TaskId, op: D.Op, result: P.Capture)
    requires AllAgree(w) && t in w.lives && !op.Promote? && D.Do(w.lives[t], op).Success?
    requires Captures(w.queue.repo, w.queue.repo.tasks[t], op, result)
    ensures var repo := w.queue.repo;
            P.Lives(repo.head, repo.base, repo.tasks[t], View(repo.tasks[t], D.Do(w.lives[t], op).value, op, result))
  {
    assert Agreed(w, t);
    if op.Capture? {
      CaptureIsALifeMove(w, t, op, result);
    } else {
      OtherIsALifeMove(w.queue.repo.head, w.queue.repo.base, w.queue.repo.tasks[t], w.lives[t], op, result);
    }
  }

  lemma OtherCallsStoreNothing(life: D.Life, op: D.Op)
    requires !op.Promote? && D.Do(life, op).Success?
    ensures D.Do(life, op).value.promotions == life.promotions
    ensures D.Do(life, op).value.results == if op.Capture? then life.results + [life.task.latest + 1] else life.results
    ensures op.Capture? ==> D.Do(life, op).value.task.latest == life.task.latest + 1
  {
    if op.Capture? {
      D.CaptureIsExact(life, op);
    }
  }

  lemma ViewAgrees(repo: P.Repo, t: TaskId, life: D.Life, after: D.Life, op: D.Op, result: P.Capture)
    requires L.Agrees(life, repo, t) && after.promotions == life.promotions
    requires after.results == if op.Capture? then life.results + [life.task.latest + 1] else life.results
    requires op.Capture? ==> after.task.latest == life.task.latest + 1
    ensures L.Agrees(after, repo.(tasks := repo.tasks[t := View(repo.tasks[t], after, op, result)]), t)
  {
  }

  lemma WorkAgrees(w: Site, t: TaskId, op: D.Op, result: P.Capture)
    requires Agreed(w, t) && t in w.queue.repo.tasks && !op.Promote? && D.Do(w.lives[t], op).Success?
    ensures var life := D.Do(w.lives[t], op).value;
            Agreed(Worked(w, t, life, View(w.queue.repo.tasks[t], life, op, result)), t)
  {
    D.DoKeepsSound(w.lives[t], op);
    OtherCallsStoreNothing(w.lives[t], op);
    ViewAgrees(w.queue.repo, t, w.lives[t], D.Do(w.lives[t], op).value, op, result);
  }

  lemma WorkLeavesOthers(w: Site, t: TaskId, life: D.Life, task: P.Task, u: TaskId)
    requires Agreed(w, u) && Agreed(Worked(w, t, life, task), t)
    ensures Agreed(Worked(w, t, life, task), u)
  {
  }

  lemma EachAgrees(w: Site)
    requires w.lives.Keys == w.queue.repo.tasks.Keys && forall t :: t in w.lives ==> Agreed(w, t)
    ensures AllAgree(w)
  {
  }

  lemma SettledIsSound(w: Site, t: TaskId, world: P.World)
    requires Agreed(w, t)
    ensures var lives := Settled(w.lives, w.queue.repo, t, world);
            t in lives && D.Sound(lives[t]) && L.Agrees(lives[t], P.Promote(w.queue.repo, t, world).0, t)
  {
    var op := L.AsOp(w.queue.repo, t, world);
    L.PromotionIsALifecycleStep(w.lives[t], w.queue.repo, t, world);
    if D.Do(w.lives[t], op).Success? {
      D.DoKeepsSound(w.lives[t], op);
    }
  }

  lemma OthersAreAsBefore(w: Site, t: TaskId, world: P.World, u: TaskId)
    requires Agreed(w, u) && u != t
    ensures var lives := Settled(w.lives, w.queue.repo, t, world);
            u in lives && D.Sound(lives[u]) && L.Agrees(lives[u], P.Promote(w.queue.repo, t, world).0, u)
  {
    L.OthersAreUntouched(w.lives[u], w.queue.repo, u, t, world);
  }

  lemma PromotionAgrees(w: Site, t: TaskId, world: P.World, queue: Q.Queued, u: TaskId)
    requires Agreed(w, u) && queue.repo == P.Promote(w.queue.repo, t, world).0
    ensures Agreed(Site(Settled(w.lives, w.queue.repo, t, world), queue), u)
  {
    if u == t {
      SettledIsSound(w, t, world);
    } else {
      OthersAreAsBefore(w, t, world, u);
    }
  }

  lemma SettledKeys(lives: map<TaskId, D.Life>, repo: P.Repo, t: TaskId, world: P.World)
    ensures Settled(lives, repo, t, world).Keys == lives.Keys
  {
  }

  lemma PromotionKeepsAgree(w: Site, t: TaskId, world: P.World, queue: Q.Queued)
    requires AllAgree(w) && queue.repo == P.Promote(w.queue.repo, t, world).0
    ensures AllAgree(Site(Settled(w.lives, w.queue.repo, t, world), queue))
  {
    var w' := Site(Settled(w.lives, w.queue.repo, t, world), queue);
    SettledKeys(w.lives, w.queue.repo, t, world);
    Q.OnlyOnePromoted(w.queue.repo, t, world);
    forall u | u in w'.lives ensures Agreed(w', u) {
      PromotionAgrees(w, t, world, queue, u);
    }
    EachAgrees(w');
  }

  lemma WorkedKeys(w: Site, t: TaskId, life: D.Life, task: P.Task)
    requires t in w.lives && w.lives.Keys == w.queue.repo.tasks.Keys
    ensures var w' := Worked(w, t, life, task);
            w'.lives.Keys == w.lives.Keys && w'.queue.repo.tasks.Keys == w.lives.Keys
  {
  }

  lemma OthersAgree(w: Site, t: TaskId, life: D.Life, task: P.Task)
    requires AllAgree(w) && t in w.lives && Agreed(Worked(w, t, life, task), t)
    ensures AllAgree(Worked(w, t, life, task))
  {
    var w' := Worked(w, t, life, task);
    WorkedKeys(w, t, life, task);
    forall u | u in w'.lives ensures Agreed(w', u) {
      WorkLeavesOthers(w, t, life, task, u);
    }
    EachAgrees(w');
  }

  lemma WorkKeepsAgree(w: Site, t: TaskId, op: D.Op, result: P.Capture)
    requires AllAgree(w)
    ensures AllAgree(Step(w, Work(t, op, result)))
  {
    if Step(w, Work(t, op, result)) != w {
      WorkAgrees(w, t, op, result);
      var life := D.Do(w.lives[t], op).value;
      OthersAgree(w, t, life, View(w.queue.repo.tasks[t], life, op, result));
    }
  }

  lemma EnqueueLeaves(w: Site, t: TaskId, u: TaskId)
    requires Agreed(w, u)
    ensures Agreed(Step(w, Enqueue(t)), u)
  {
    Q.EnqueueRecordsAccepted(w.queue, t);
  }

  lemma EnqueueKeepsAgree(w: Site, t: TaskId)
    requires AllAgree(w)
    ensures AllAgree(Step(w, Enqueue(t)))
  {
    Q.EnqueueRecordsAccepted(w.queue, t);
    var w' := Step(w, Enqueue(t));
    forall u | u in w'.lives ensures Agreed(w', u) {
      EnqueueLeaves(w, t, u);
    }
    EachAgrees(w');
  }

  lemma NextKeepsAgree(w: Site, t: TaskId, world: P.World)
    requires AllAgree(w)
    ensures AllAgree(Step(w, PromoteNext(t, world)))
  {
    if Step(w, PromoteNext(t, world)) != w {
      PromotionKeepsAgree(w, t, world, Step(w, PromoteNext(t, world)).queue);
    }
  }

  lemma NowKeepsAgree(w: Site, t: TaskId, world: P.World)
    requires AllAgree(w)
    ensures AllAgree(Step(w, PromoteNow(t, world)))
  {
    PromotionKeepsAgree(w, t, world, Step(w, PromoteNow(t, world)).queue);
  }

  lemma StepKeepsAgree(w: Site, event: Event)
    requires AllAgree(w)
    ensures AllAgree(Step(w, event))
  {
    match event {
      case Work(t, op, result) => WorkKeepsAgree(w, t, op, result);
      case Enqueue(t) => EnqueueKeepsAgree(w, t);
      case PromoteNow(t, world) => NowKeepsAgree(w, t, world);
      case PromoteNext(t, world) => NextKeepsAgree(w, t, world);
    }
  }

  lemma LiveHappens(w: Site, t: TaskId, life: D.Life, task: P.Task)
    requires var repo := w.queue.repo; t in repo.tasks && P.Lives(repo.head, repo.base, repo.tasks[t], task)
    ensures Worked(w, t, life, task).queue == Q.Step(w.queue, Q.OpLive(t, task))
    ensures Worked(w, t, life, task).queue.repo == P.Happen(w.queue.repo, P.Live(t, task))
  {
  }

  lemma WorkIsAnEvent(w: Site, t: TaskId, op: D.Op, result: P.Capture) returns (task: P.Task)
    requires AllAgree(w) && Step(w, Work(t, op, result)) != w
    ensures Step(w, Work(t, op, result)).queue == Q.Step(w.queue, Q.OpLive(t, task))
    ensures Step(w, Work(t, op, result)).queue.repo == P.Happen(w.queue.repo, P.Live(t, task))
  {
    task := View(w.queue.repo.tasks[t], D.Do(w.lives[t], op).value, op, result);
    WorkIsALifeMove(w, t, op, result);
    LiveHappens(w, t, D.Do(w.lives[t], op).value, task);
  }

  lemma NextIsATry(w: Site, t: TaskId, world: P.World)
    requires Step(w, PromoteNext(t, world)) != w
    ensures Step(w, PromoteNext(t, world)).queue.repo == P.Happen(w.queue.repo, P.Try(t, world))
  {
  }

  /** A promotion of the task in which Git does apply the patch, or no promotion of it. */
  predicate EventApplies(event: Event, t: TaskId) {
    (event.PromoteNow? || event.PromoteNext?) && event.t == t ==> !event.world.applyErrors
  }

  predicate SeenApplies(event: P.Event, t: TaskId) {
    event.Try? && event.t == t ==> !event.world.applyErrors
  }

  /** What one event is for the repository. */
  lemma StepIsAnEvent(w: Site, event: Event) returns (events: seq<P.Event>)
    requires AllAgree(w)
    ensures |events| <= 1
    ensures Step(w, event).queue.repo == if events == [] then w.queue.repo else P.Happen(w.queue.repo, events[0])
    ensures forall t :: events != [] && EventApplies(event, t) ==> SeenApplies(events[0], t)
  {
    events := [];
    if Step(w, event) != w {
      match event {
        case Work(t, op, result) =>
          var task := WorkIsAnEvent(w, t, op, result);
          events := [P.Live(t, task)];
        case Enqueue(t) => Q.EnqueueRecordsAccepted(w.queue, t);
        case PromoteNow(t, world) => events := [P.Try(t, world)];
        case PromoteNext(t, world) =>
          NextIsATry(w, t, world);
          events := [P.Try(t, world)];
      }
    }
  }

  /** Git does apply the patch whenever the task is promoted. */
  predicate GitApplies(events: seq<Event>, t: TaskId) {
    forall i :: 0 <= i < |events| ==> EventApplies(events[i], t)
  }

  predicate AllSeenApply(seen: seq<P.Event>, t: TaskId) {
    forall k :: 0 <= k < |seen| ==> SeenApplies(seen[k], t)
  }

  ghost predicate Translates(events: seq<Event>, seen: seq<P.Event>) {
    forall t :: GitApplies(events, t) ==> AllSeenApply(seen, t)
  }

  /** Whatever the tasks, the queue and the promotions do from new drafts on is a history of the repository. */
  lemma {:induction false} HistoryIsARun(w: Site, events: seq<Event>) returns (seen: seq<P.Event>)
    requires Fresh(w)
    ensures AllAgree(Run(w, events))
    ensures Run(w, events).queue.repo == P.Run(w.queue.repo, seen)
    ensures Translates(events, seen)
    decreases |events|
  {
    if events == [] {
      FreshAgrees(w);
      seen := [];
    } else {
      var last := |events| - 1;
      var front := HistoryIsARun(w, events[..last]);
      var before := Run(w, events[..last]);
      StepKeepsAgree(before, events[last]);
      var more := StepIsAnEvent(before, events[last]);
      seen := front + more;
      if more == [] {
        assert seen == front;
      } else {
        assert seen[..|seen| - 1] == front;
      }
      AppliesThrough(events, front, more);
    }
  }

  lemma AppliesThrough(events: seq<Event>, front: seq<P.Event>, more: seq<P.Event>)
    requires events != [] && |more| <= 1
    requires Translates(events[..|events| - 1], front)
    requires forall t :: more != [] && EventApplies(events[|events| - 1], t) ==> SeenApplies(more[0], t)
    ensures Translates(events, front + more)
  {
    var before := events[..|events| - 1];
    forall t | GitApplies(events, t) ensures AllSeenApply(front + more, t) {
      forall i | 0 <= i < |before| ensures EventApplies(before[i], t) {
        assert before[i] == events[i];
      }
      assert GitApplies(before, t) && EventApplies(events[|events| - 1], t);
      AllSeenTogether(front, more, t);
    }
  }

  lemma AllSeenTogether(front: seq<P.Event>, more: seq<P.Event>, t: TaskId)
    requires AllSeenApply(front, t) && |more| <= 1 && (more != [] ==> SeenApplies(more[0], t))
    ensures AllSeenApply(front + more, t)
  {
  }

  lemma FreshIsInitial(w: Site)
    requires Fresh(w)
    ensures P.Initial(w.queue.repo)
  {
    forall t | t in w.queue.repo.tasks ensures w.queue.repo.tasks[t].status == P.Earlier && w.queue.repo.tasks[t].results == map[] {
      assert IsDraft(w.lives[t], w.queue.repo.tasks[t]);
    }
  }

  /**
   * From new drafts on, over any calls of the services, any queueing and any promotions: the tree is HEAD overlaid with
   * revisions that are promoted or stuck behind a failed rollback, on disjoint paths; each promoted revision was reviewed
   * and accepted, with evidence for every required command, and is in the tree.
   */
  lemma HistoryKeepsTree(w: Site, events: seq<Event>)
    requires Fresh(w)
    ensures
      var w' := Run(w, events);
      var repo := w'.queue.repo;
      && P.Overlaid(w.queue.repo.base, repo.landed, repo.tree) && P.PairwiseDisjoint(repo.landed)
      && (forall l :: l in repo.landed ==> P.Explained(repo, l))
      && (forall t :: P.PromotedIsIn(repo, t))
      && (forall t :: t in w'.lives && w'.lives[t].task.status == D.Promoted ==> D.Vouched(w'.lives[t]) && P.IsPromoted(repo, t))
  {
    var seen := HistoryIsARun(w, events);
    FreshIsInitial(w);
    P.TreeIsHeadPlusLanded(w.queue.repo, seen);
    PromotedIsVouched(Run(w, events));
  }

  lemma OneIsVouched(w: Site, t: TaskId)
    requires Agreed(w, t) && w.lives[t].task.status == D.Promoted
    ensures D.Vouched(w.lives[t]) && P.IsPromoted(w.queue.repo, t)
  {
    D.SoundPromotedIsVouched(w.lives[t]);
  }

  lemma PromotedIsVouched(w: Site)
    requires AllAgree(w)
    ensures forall t :: t in w.lives && w.lives[t].task.status == D.Promoted ==>
              D.Vouched(w.lives[t]) && P.IsPromoted(w.queue.repo, t)
  {
    forall t | t in w.lives && w.lives[t].task.status == D.Promoted ensures D.Vouched(w.lives[t]) && P.IsPromoted(w.queue.repo, t) {
      OneIsVouched(w, t);
    }
  }

  lemma UnconfirmedIsSeen(w: Site, t: TaskId)
    requires Agreed(w, t)
    ensures P.HasUnconfirmed(w.queue.repo, t) <==> Some(false) in w.lives[t].promotions
  {
    var log := P.Log(w.queue.repo, t);
    if i :| 0 <= i < |w.lives[t].promotions| && w.lives[t].promotions[i] == Some(false) {
      assert log[i] in log && log[i].rollbackSucceeded == Some(false);
    }
    if record :| record in log && record.rollbackSucceeded == Some(false) {
      var i :| 0 <= i < |log| && log[i] == record;
      assert w.lives[t].promotions[i] == Some(false);
    }
  }

  lemma SeenAppliesAt(repo: P.Repo, seen: seq<P.Event>, t: TaskId, r: nat)
    requires AllSeenApply(seen, t)
    ensures P.AppliesAt(repo, seen, (t, r))
  {
  }

  /**
   * In such a history a promoted task has one revision in the tree if its records show every rollback confirmed; and only
   * then, if Git did apply the patch whenever the task was promoted.
   */
  lemma OneRevisionInTheTree(w: Site, events: seq<Event>, t: TaskId)
    requires Fresh(w) && t in Run(w, events).lives && Run(w, events).lives[t].task.status == D.Promoted
    ensures var w' := Run(w, events);
            var alone := P.OnlyLanded(w'.queue.repo, t, w'.lives[t].task.latest);
            && (Some(false) !in w'.lives[t].promotions ==> alone)
            && (GitApplies(events, t) ==> (alone <==> Some(false) !in w'.lives[t].promotions))
  {
    var seen := HistoryIsARun(w, events);
    var w' := Run(w, events);
    FreshIsInitial(w);
    assert Agreed(w', t);
    UnconfirmedIsSeen(w', t);
    if Some(false) !in w'.lives[t].promotions {
      P.RunKeepsGood(w.queue.repo, seen);
      P.ConfirmedIsAlone(w'.queue.repo, t);
    } else if GitApplies(events, t) {
      OneRevisionSeen(w.queue.repo, seen, t);
    }
  }

  lemma OneRevisionSeen(repo: P.Repo, seen: seq<P.Event>, t: TaskId)
    requires P.Initial(repo) && P.IsPromoted(P.Run(repo, seen), t) && AllSeenApply(seen, t)
    ensures var repo' := P.Run(repo, seen); P.OnlyLanded(repo', t, repo'.tasks[t].latest) <==> !P.HasUnconfirmed(repo', t)
  {
    forall r: nat ensures P.AppliesAt(repo, seen, (t, r)) {
      SeenAppliesAt(repo, seen, t, r);
    }
    P.OneRevisionExactly(repo, seen, t);
  }

  /** No promotion goes past the queue. */
  ghost predicate ThroughQueue(events: seq<Event>) {
    forall i :: 0 <= i < |events| ==> !events[i].PromoteNow?
  }

  lemma NextIsAQueueStep(w: Site, t: TaskId, world: P.World)
    ensures Step(w, PromoteNext(t, world)).queue == Q.Step(w.queue, Q.OpPromote(t, world))
  {
  }

  lemma StepIsAQueueStep(w: Site, event: Event) returns (events: seq<Q.QueueEvent>)
    requires AllAgree(w) && !event.PromoteNow?
    ensures |events| <= 1
    ensures Step(w, event).queue == if events == [] then w.queue else Q.Step(w.queue, events[0])
  {
    events := [];
    if Step(w, event) != w {
      match event {
        case Work(t, op, result) =>
          var task := WorkIsAnEvent(w, t, op, result);
          events := [Q.OpLive(t, task)];
        case Enqueue(t) => events := [Q.OpEnqueue(t)];
        case PromoteNext(t, world) =>
          NextIsAQueueStep(w, t, world);
          events := [Q.OpPromote(t, world)];
      }
    }
  }

  /** When all promotions go through the queue, it is a history of the queue. */
  lemma {:induction false} HistoryIsAQueueRun(w: Site, events: seq<Event>) returns (seen: seq<Q.QueueEvent>)
    requires Fresh(w) && ThroughQueue(events)
    ensures Run(w, events).queue == Q.RunQueue(w.queue, seen)
    decreases |events|
  {
    if events == [] {
      seen := [];
    } else {
      var last := |events| - 1;
      seen := HistoryIsAQueueRun(w, events[..last]);
      var _ := HistoryIsARun(w, events[..last]);
      var more := StepIsAQueueStep(Run(w, events[..last]), events[last]);
      if more != [] {
        seen := seen + more;
        assert seen[..|seen| - 1] + more == seen;
      }
    }
  }

  lemma HistoryNeverOverlaps(w: Site, events: seq<Event>, t: TaskId, u: TaskId)
    requires Fresh(w) && ThroughQueue(events)
    requires var after := Run(w, events).queue;
             && t != u && P.IsPromoted(after.repo, t) && P.IsPromoted(after.repo, u) && Q.SameRepository(after, t, u)
             && Q.EntryCovers(after, t) && Q.EntryCovers(after, u)
    ensures var after := Run(w, events).queue;
            Clear(P.Candidate(after.repo.tasks[t]).value.changed, P.Candidate(after.repo.tasks[u]).value.changed)
  {
    var seen := HistoryIsAQueueRun(w, events);
    FreshIsInitial(w);
    Q.QueuePromotionsNeverOverlap(w.queue, seen, t, u);
  }
}
