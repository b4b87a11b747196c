/** The promotion queue in front of `Promotion`: enqueueing, blockers, and promotion through the queue. */
module PromotionQueue {
  import opened Paths
  import opened Promotion
  import opened Wrappers

  /** Appended once per task and never changed: `enqueue` refuses a task that has an entry. */
  datatype Entry = Entry(revision: nat, base: Commit, changed: set<Path>, blocked: bool)

  /** `repository` is where each task's workspace was taken from; the promotion state is that of one of them. */
  datatype Queued = Queued(repo: Repo, repository: map<TaskId, string>, entries: map<TaskId, Entry>)

  datatype QueueError = NotAccepted | AlreadyQueued | ResultMissing | NotQueued | Blocked | Refused(error: PromotionError)

  predicate SameRepository(q: Queued, t: TaskId, u: TaskId) {
    t in q.repository && u in q.repository && q.repository[t] == q.repository[u]
  }

  /** Another queued task of the repository changes a path equal to, above or below one of these. */
  predicate BlockedBy(q: Queued, t: TaskId, changed: set<Path>, u: TaskId) {
    && u in q.entries && u != t && SameRepository(q, t, u)
    && exists p, r :: p in changed && r in q.entries[u].changed && Overlap(p, r)
  }

  /** `blockers`: a moved HEAD, or any overlapping entry; every entry stays pending or blocked for good. */
  predicate HasBlockers(q: Queued, t: TaskId, base: Commit, changed: set<Path>) {
    q.repo.head != base || exists u :: u in q.entries && BlockedBy(q, t, changed, u)
  }

  function Enqueue(q: Queued, t: TaskId): (Queued, Option<QueueError>) {
    if t !in q.repo.tasks || q.repo.tasks[t].status != Accepted || q.repo.tasks[t].accepted.None? then (q, Some(NotAccepted))
    else if t in q.entries then (q, Some(AlreadyQueued))
    else
      match Candidate(q.repo.tasks[t])
      case None => (q, Some(ResultMissing))
      case Some(result) =>
        var entry := Entry(q.repo.tasks[t].accepted.value, result.base, result.changed, HasBlockers(q, t, result.base, result.changed));
        (q.(entries := q.entries[t := entry]), None)
  }

  function PromoteQueued(q: Queued, t: TaskId, world: World): (Queued, Option<QueueError>) {
    if t !in q.entries then (q, Some(NotQueued))
    else if HasBlockers(q, t, q.entries[t].base, q.entries[t].changed) then (q, Some(Blocked))
    else
      var (repo, error) := Promote(q.repo, t, world);
      (q.(repo := repo), if error.Some? then Some(Refused(error.value)) else None)
  }

  /** Enqueueing adds one entry, for the result accepted at that moment, and never replaces one. */
  lemma EnqueueRecordsAccepted(q: Queued, t: TaskId)
    ensures
      var (q', error) := Enqueue(q, t);
      && q'.repo == q.repo && (error.Some? ==> q' == q)
      && (forall u :: u in q.entries ==> u in q'.entries && q'.entries[u] == q.entries[u])
      && (error.None? ==>
            && t in q.repo.tasks && Candidate(q.repo.tasks[t]).Some?
            && q'.entries.Keys == q.entries.Keys + {t} && t !in q.entries
            && q'.entries[t].changed == Candidate(q.repo.tasks[t]).value.changed
            && Some(q'.entries[t].revision) == q.repo.tasks[t].accepted)
  {
  }

  /** A promotion through the queue is clear of every other queued task of its repository, as far as its entry says. */
  lemma EntryIsClear(q: Queued, t: TaskId, world: World, u: TaskId)
    requires PromoteQueued(q, t, world).1.None? && u in q.entries && u != t && SameRepository(q, t, u)
    ensures t in q.entries && Clear(q.entries[t].changed, q.entries[u].changed)
  {
    assert !BlockedBy(q, t, q.entries[t].changed, u);
  }

  /** The same queue holding only `t`'s entry and one other task's, for the same repository. */
  function WithNeighbour(q: Queued, t: TaskId, u: TaskId, files: set<Path>): Queued
    requires t in q.entries && t in q.repository
  {
    q.(entries := map[t := q.entries[t], u := Entry(0, q.entries[t].base, files, false)],
       repository := q.repository[u := q.repository[t]])
  }

  /**
   * The entry is written once, at enqueueing, but the patch promoted is the one accepted by now. The queue keeps
   * that patch clear of every possible neighbour exactly when the accepted files lie within the entry's.
   */
  lemma QueueGuardIsExact(q: Queued, t: TaskId, u: TaskId, world: World)
    requires t in q.entries && t in q.repository && u != t
    requires q.repo.head == q.entries[t].base && Promote(q.repo, t, world).1.None?
    ensures t in q.repo.tasks && Candidate(q.repo.tasks[t]).Some?
    ensures
      var accepted := Candidate(q.repo.tasks[t]).value.changed;
      (forall files: set<Path> :: PromoteQueued(WithNeighbour(q, t, u, files), t, world).1.None? ==> Clear(accepted, files))
      <==> Covers(q.entries[t].changed, accepted)
  {
    Checked(q.repo, t, world);
    var accepted := Candidate(q.repo.tasks[t]).value.changed;
    CoverIsExact(q.entries[t].changed, accepted);
    forall files: set<Path>
      ensures PromoteQueued(WithNeighbour(q, t, u, files), t, world).1.None? <==> Clear(q.entries[t].changed, files)
    {
      NeighbourBlocks(q, t, u, files);
    }
    forall files: set<Path> | Clear(q.entries[t].changed, files)
      ensures PromoteQueued(WithNeighbour(q, t, u, files), t, world).1.None?
    {
    }
  }

  lemma NeighbourBlocks(q: Queued, t: TaskId, u: TaskId, files: set<Path>)
    requires t in q.entries && t in q.repository && u != t && q.repo.head == q.entries[t].base
    ensures HasBlockers(WithNeighbour(q, t, u, files), t, q.entries[t].base, q.entries[t].changed) <==>
            !Clear(q.entries[t].changed, files)
  {
    var q' := WithNeighbour(q, t, u, files);
    if !Clear(q.entries[t].changed, files) {
      assert BlockedBy(q', t, q.entries[t].changed, u);
    }
  }

  // ---- whole histories through the queue ----

  /** Besides enqueueing and promoting, the tasks' lives go on. */
  datatype QueueEvent = OpEnqueue(t: TaskId) | OpPromote(t: TaskId, world: World) | OpLive(t: TaskId, task: Task)

  ghost function Step(q: Queued, event: QueueEvent): Queued {
    match event
    case OpEnqueue(t) => Enqueue(q, t).0
    case OpPromote(t, world) => PromoteQueued(q, t, world).0
    case OpLive(t, task) => q.(repo := Happen(q.repo, Live(t, task)))
  }

  ghost function RunQueue(q: Queued, events: seq<QueueEvent>): Queued {
    if events == [] then q else Step(RunQueue(q, events[..|events| - 1]), events[|events| - 1])
  }

  /** All promoted tasks are queued, and no two entries of one repository overlap. */
  ghost predicate PromotedAreClear(q: Queued) {
    && (forall t :: IsPromoted(q.repo, t) ==> t in q.entries)
    && (forall t, u :: IsPromoted(q.repo, t) && IsPromoted(q.repo, u) && t != u && SameRepository(q, t, u) ==>
          Clear(q.entries[t].changed, q.entries[u].changed))
  }

  /** Every entry lists the files of the revision it was made for. */
  ghost predicate EntriesRecord(q: Queued) {
    forall t :: t in q.entries ==>
      && t in q.repo.tasks && q.entries[t].revision in q.repo.tasks[t].results
      && q.entries[t].changed == q.repo.tasks[t].results[q.entries[t].revision].changed
  }

  lemma ClearIsSymmetric(a: set<Path>, b: set<Path>)
    requires Clear(a, b)
    ensures Clear(b, a)
  {
  }

  lemma PromoteKeepsEntries(q: Queued, t: TaskId, world: World)
    requires EntriesRecord(q)
    ensures EntriesRecord(PromoteQueued(q, t, world).0)
  {
    OnlyOnePromoted(q.repo, t, world);
  }

  /** A promotion through the queue is clear of all entries, in either direction. */
  lemma PromotedEntryIsClear(q: Queued, t: TaskId, world: World, u: TaskId)
    requires PromoteQueued(q, t, world).1.None? && u in q.entries && u != t && (SameRepository(q, t, u) || SameRepository(q, u, t))
    ensures t in q.entries && Clear(q.entries[t].changed, q.entries[u].changed) && Clear(q.entries[u].changed, q.entries[t].changed)
  {
    EntryIsClear(q, t, world, u);
    ClearIsSymmetric(q.entries[t].changed, q.entries[u].changed);
  }

  /** Two tasks of one repository, if both are promoted, have entries that do not overlap. */
  ghost predicate PairIsClear(q: Queued, t: TaskId, u: TaskId) {
    IsPromoted(q.repo, t) && IsPromoted(q.repo, u) && t != u && SameRepository(q, t, u) ==>
      t in q.entries && u in q.entries && Clear(q.entries[t].changed, q.entries[u].changed)
  }

  lemma ClearByPairs(q: Queued)
    requires (forall t :: IsPromoted(q.repo, t) ==> t in q.entries) && forall t, u :: PairIsClear(q, t, u)
    ensures PromotedAreClear(q)
  {
    forall t, u | IsPromoted(q.repo, t) && IsPromoted(q.repo, u) && t != u && SameRepository(q, t, u)
      ensures Clear(q.entries[t].changed, q.entries[u].changed)
    {
      assert PairIsClear(q, t, u);
    }
  }

  lemma PairStaysClear(q: Queued, t: TaskId, world: World, u: TaskId, v: TaskId)
    requires PromotedAreClear(q)
    ensures PairIsClear(PromoteQueued(q, t, world).0, u, v)
  {
    OnlyOnePromoted(q.repo, t, world);
    var q' := PromoteQueued(q, t, world).0;
    if IsPromoted(q'.repo, u) && IsPromoted(q'.repo, v) && u != v && SameRepository(q', u, v) {
      if u == t && !IsPromoted(q.repo, t) {
        PromotedEntryIsClear(q, t, world, v);
      } else if v == t && !IsPromoted(q.repo, t) {
        PromotedEntryIsClear(q, t, world, u);
      }
    }
  }

  lemma PromoteKeepsClear(q: Queued, t: TaskId, world: World)
    requires PromotedAreClear(q)
    ensures PromotedAreClear(PromoteQueued(q, t, world).0)
  {
    var q' := PromoteQueued(q, t, world).0;
    OnlyOnePromoted(q.repo, t, world);
    forall u, v ensures PairIsClear(q', u, v) {
      PairStaysClear(q, t, world, u, v);
    }
    ClearByPairs(q');
  }

  /** Entries are only added, and nobody is promoted. */
  lemma MoreEntriesKeepClear(q: Queued, q': Queued)
    requires PromotedAreClear(q) && q'.repository == q.repository
    requires forall t :: IsPromoted(q'.repo, t) ==> IsPromoted(q.repo, t)
    requires forall t :: t in q.entries ==> t in q'.entries && q'.entries[t] == q.entries[t]
    ensures PromotedAreClear(q')
  {
    forall t, u ensures PairIsClear(q', t, u) {
      assert SameRepository(q', t, u) <==> SameRepository(q, t, u);
    }
    ClearByPairs(q');
  }

  lemma EnqueueKeepsClear(q: Queued, t: TaskId)
    requires PromotedAreClear(q) && EntriesRecord(q)
    ensures PromotedAreClear(Enqueue(q, t).0) && EntriesRecord(Enqueue(q, t).0)
  {
    EnqueueRecordsAccepted(q, t);
    MoreEntriesKeepClear(q, Enqueue(q, t).0);
  }

  lemma LiveKeepsRecord(q: Queued, t: TaskId, task: Task)
    requires EntriesRecord(q)
    ensures EntriesRecord(Step(q, OpLive(t, task)))
  {
  }

  lemma LiveKeepsClear(q: Queued, t: TaskId, task: Task)
    requires PromotedAreClear(q) && EntriesRecord(q)
    ensures PromotedAreClear(Step(q, OpLive(t, task))) && EntriesRecord(Step(q, OpLive(t, task)))
  {
    LiveKeepsRecord(q, t, task);
    MoreEntriesKeepClear(q, Step(q, OpLive(t, task)));
  }

  /** A promotion changes the status of one task, and nothing of any result. */
  lemma OnlyOnePromoted(repo: Repo, t: TaskId, world: World)
    ensures var repo' := Promote(repo, t, world).0;
            && repo'.tasks.Keys == repo.tasks.Keys
            && (forall u :: u in repo.tasks ==> repo'.tasks[u] == repo.tasks[u].(status := repo'.tasks[u].status))
            && (forall u :: IsPromoted(repo', u) ==> IsPromoted(repo, u) || (u == t && Promote(repo, t, world).1.None?))
  {
    if Refusal(repo, t, world).None? {
      Checked(repo, t, world);
    }
  }

  lemma {:induction false} RunKeepsClear(q: Queued, events: seq<QueueEvent>)
    requires q.entries == map[] && forall t :: !IsPromoted(q.repo, t)
    ensures PromotedAreClear(RunQueue(q, events)) && EntriesRecord(RunQueue(q, events))
    decreases |events|
  {
    if events != [] {
      var before := RunQueue(q, events[..|events| - 1]);
      RunKeepsClear(q, events[..|events| - 1]);
      match events[|events| - 1] {
        case OpEnqueue(t) => EnqueueKeepsClear(before, t);
        case OpPromote(t, world) =>
          PromoteKeepsClear(before, t, world);
          PromoteKeepsEntries(before, t, world);
        case OpLive(t, task) => LiveKeepsClear(before, t, task);
      }
    }
  }

  /** The files of a promoted patch lie within the task's entry. */
  ghost predicate EntryCovers(q: Queued, t: TaskId) {
    && t in q.entries && t in q.repo.tasks && Candidate(q.repo.tasks[t]).Some?
    && Covers(q.entries[t].changed, Candidate(q.repo.tasks[t]).value.changed)
  }

  lemma CoverKeepsClear(outer: set<Path>, inner: set<Path>, other: set<Path>)
    requires Covers(outer, inner) && Clear(outer, other)
    ensures Clear(inner, other)
  {
    CoverIsExact(outer, inner);
  }

  /**
   * Over any history of queueing, promotion through the queue and revisions between: the files of any two promoted
   * results of a repository are clear of each other, if the two entries cover what was promoted.
   */
  lemma QueuePromotionsNeverOverlap(q: Queued, events: seq<QueueEvent>, t: TaskId, u: TaskId)
    requires q.entries == map[] && forall v :: !IsPromoted(q.repo, v)
    requires var after := RunQueue(q, events);
             && t != u && IsPromoted(after.repo, t) && IsPromoted(after.repo, u) && SameRepository(after, t, u)
             && EntryCovers(after, t) && EntryCovers(after, u)
    ensures var after := RunQueue(q, events);
            Clear(Candidate(after.repo.tasks[t]).value.changed, Candidate(after.repo.tasks[u]).value.changed)
  {
    RunKeepsClear(q, events);
    var after := RunQueue(q, events);
    var mine, yours := Candidate(after.repo.tasks[t]).value.changed, Candidate(after.repo.tasks[u]).value.changed;
    CoverKeepsClear(after.entries[t].changed, mine, after.entries[u].changed);
    ClearIsSymmetric(mine, after.entries[u].changed);
    CoverKeepsClear(after.entries[u].changed, yours, mine);
    ClearIsSymmetric(yours, mine);
  }

  /** An entry made for the revision that was promoted covers it. */
  lemma CurrentEntryCovers(q: Queued, t: TaskId)
    requires EntriesRecord(q) && t in q.entries && t in q.repo.tasks && Candidate(q.repo.tasks[t]).Some?
    requires q.repo.tasks[t].accepted == Some(q.entries[t].revision)
    ensures EntryCovers(q, t)
  {
  }

  /** No task's results or acceptance change: nothing is revised. */
  ghost predicate NoRevision(events: seq<QueueEvent>) {
    forall i :: 0 <= i < |events| ==> !events[i].OpLive?
  }

  /** Every entry is for the revision accepted now. */
  ghost predicate EntriesCurrent(q: Queued) {
    forall t :: t in q.entries ==>
      && t in q.repo.tasks && q.repo.tasks[t].accepted == Some(q.entries[t].revision)
      && Candidate(q.repo.tasks[t]).Some?
  }

  lemma EnqueueStaysCurrent(q: Queued, t: TaskId)
    requires EntriesCurrent(q)
    ensures EntriesCurrent(Enqueue(q, t).0)
  {
    EnqueueRecordsAccepted(q, t);
    var q' := Enqueue(q, t).0;
    forall u | u in q'.entries
      ensures u in q'.repo.tasks && q'.repo.tasks[u].accepted == Some(q'.entries[u].revision)
              && Candidate(q'.repo.tasks[u]).Some?
    {
      if u in q.entries {
        assert q'.entries[u] == q.entries[u];
      }
    }
  }

  lemma {:induction false} EntriesStayCurrent(q: Queued, events: seq<QueueEvent>)
    requires q.entries == map[] && NoRevision(events)
    ensures EntriesCurrent(RunQueue(q, events))
    decreases |events|
  {
    if events != [] {
      var last := |events| - 1;
      var before := RunQueue(q, events[..last]);
      EntriesStayCurrent(q, events[..last]);
      match events[last] {
        case OpEnqueue(t) => EnqueueStaysCurrent(before, t);
        case OpPromote(t, world) => OnlyOnePromoted(before.repo, t, world);
        case OpLive(_, _) =>
      }
    }
  }

  /** While nothing is revised, no two patches promoted through the queue overlap at all. */
  lemma UnrevisedPromotionsNeverOverlap(q: Queued, events: seq<QueueEvent>, t: TaskId, u: TaskId)
    requires q.entries == map[] && (forall v :: !IsPromoted(q.repo, v)) && NoRevision(events)
    requires var after := RunQueue(q, events);
             t != u && IsPromoted(after.repo, t) && IsPromoted(after.repo, u) && SameRepository(after, t, u)
    ensures var after := RunQueue(q, events);
            && Candidate(after.repo.tasks[t]).Some? && Candidate(after.repo.tasks[u]).Some?
            && Clear(Candidate(after.repo.tasks[t]).value.changed, Candidate(after.repo.tasks[u]).value.changed)
  {
    RunKeepsClear(q, events);
    EntriesStayCurrent(q, events);
    CurrentEntryCovers(RunQueue(q, events), t);
    CurrentEntryCovers(RunQueue(q, events), u);
    QueuePromotionsNeverOverlap(q, events, t, u);
  }
}
