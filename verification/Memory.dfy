/** Memory items and their approvals, as interleaved store accesses of any number of callers. */
module Memory {
  import opened Wrappers

  type MemoryId = string
  type ApprovalId = string

  datatype Status = Observed | Proposed | Active | Superseded | Expired | Rejected | Deleted

  function LegalTransitions(status: Status): set<Status> {
    match status
    case Observed => {Proposed, Expired, Deleted}
    case Proposed => {Active, Rejected, Expired, Deleted}
    case Active => {Superseded, Expired, Deleted}
    case Superseded => {Deleted}
    case Expired => {Deleted}
    case Rejected => {Deleted}
    case Deleted => {}
  }

  datatype Item = Item(status: Status, approvalId: Option<ApprovalId>)

  datatype Decision = Pending | Approved | Denied

  datatype Approval = Approval(decision: Decision, subject: MemoryId)

  /** Identifiers are never used twice: `known` and `attached` remember the items created and approvals written into items. */
  datatype Store = Store(
    items: map<MemoryId, Item>, approvals: map<ApprovalId, Approval>, known: set<MemoryId>, attached: set<ApprovalId>)

  /** Where a caller stands, with the copies it has read. */
  datatype Pc =
    | Idle
    | Requesting(m: MemoryId, item: Item)
    | Attaching(m: MemoryId, item: Item, a: ApprovalId)
    | ReadSubject(a: ApprovalId, approval: Approval, approve: bool)
    | Deciding(a: ApprovalId, m: MemoryId, item: Item, approve: bool)
    | Transitioning(m: MemoryId, target: Status)
    | Moving(m: MemoryId, item: Item, target: Status)
    | ReadReplacement(m: MemoryId, item: Item, replacement: MemoryId)
    | ReadPending(m: MemoryId, item: Item, a: ApprovalId)
    | Retiring(m: MemoryId, item: Item, a: ApprovalId)

  datatype State = State(store: Store, pcs: map<int, Pc>) {
    function At(c: int): Pc {
      if c in pcs then pcs[c] else Idle
    }
  }

  datatype Access = Access(store: Store, pc: Pc)

  datatype Choice =
    | Propose(m: MemoryId, observed: bool)
    | RequestApproval(m: MemoryId)
    | Decide(a: ApprovalId, approve: bool)
    | Transition(m: MemoryId, target: Status)
    | Supersede(m: MemoryId, replacement: MemoryId)
    | Retain(m: MemoryId)
    | Purge(m: MemoryId)
    | Proceed(freshId: ApprovalId)

  function Fresh(s: Store, choice: Choice): bool {
    choice.Proceed? && choice.freshId !in s.approvals && choice.freshId !in s.attached
  }

  function PutItem(s: Store, m: MemoryId, item: Item): Store {
    s.(items := s.items[m := item], attached := s.attached + if item.approvalId.Some? then {item.approvalId.value} else {})
  }

  /** `transition_memory_item`. */
  function CompareAndSet(s: Store, m: MemoryId, expected: Status, item: Item): Store {
    if m in s.items && s.items[m].status == expected then PutItem(s, m, item) else s
  }

  /** `transition_memory_approval` from pending and proposed. */
  function DecideBoth(s: Store, a: ApprovalId, m: MemoryId, decision: Decision, item: Item): Store {
    if a in s.approvals && s.approvals[a].decision == Pending && m in s.items && s.items[m].status == Proposed
    then PutItem(s.(approvals := s.approvals[a := Approval(decision, m)]), m, item)
    else s
  }

  /** The targets the retention and the callers of `transition` use. */
  predicate Removes(target: Status) {
    target in {Expired, Deleted}
  }

  /** One store access by a caller at `pc`; idle callers start the chosen operation. */
  function Do(s: Store, pc: Pc, choice: Choice): Access {
    match pc
    case Idle => Enter(s, choice)
    case Requesting(m, item) =>
      if Fresh(s, choice)
      then Access(s.(approvals := s.approvals[choice.freshId := Approval(Pending, m)]), Attaching(m, item, choice.freshId))
      else Access(s, pc)
    case Attaching(m, item, a) => Access(CompareAndSet(s, m, Proposed, item.(approvalId := Some(a))), Idle)
    case ReadSubject(a, approval, approve) =>
      var m := approval.subject;
      if m in s.items && s.items[m].status == Proposed && s.items[m].approvalId == Some(a)
      then Access(s, Deciding(a, m, s.items[m], approve)) else Access(s, Idle)
    case Deciding(a, m, item, approve) =>
      Access(DecideBoth(s, a, m, if approve then Approved else Denied, item.(status := if approve then Active else Rejected)), Idle)
    case Transitioning(m, target) => Access(s, BeginMove(s, m, target))
    case Moving(m, item, target) => Access(CompareAndSet(s, m, item.status, item.(status := target)), Idle)
    case ReadReplacement(m, item, replacement) =>
      if replacement in s.items && s.items[replacement].status == Active && item.status == Active
      then Access(s, Moving(m, item, Superseded)) else Access(s, Idle)
    case ReadPending(m, item, a) =>
      if a in s.approvals && s.approvals[a].decision == Pending
      then Access(s, Retiring(m, item, a)) else Access(s, Transitioning(m, Expired))
    case Retiring(m, item, a) => Access(DecideBoth(s, a, m, Denied, item.(status := Expired)), Idle)
  }

  /** The read of `transition` and its check against the table. */
  function BeginMove(s: Store, m: MemoryId, target: Status): Pc {
    if m in s.items && target in LegalTransitions(s.items[m].status) then Moving(m, s.items[m], target) else Idle
  }

  /** The first access of an operation. */
  function Enter(s: Store, choice: Choice): Access {
    match choice
    case Propose(m, observed) =>
      if m in s.known then Access(s, Idle)
      else Access(s.(items := s.items[m := Item(if observed then Observed else Proposed, None)], known := s.known + {m}), Idle)
    case RequestApproval(m) =>
      if m in s.items && s.items[m].status == Proposed
         && (s.items[m].approvalId.None? || s.items[m].approvalId.value !in s.approvals)
      then Access(s, Requesting(m, s.items[m])) else Access(s, Idle)
    case Decide(a, approve) =>
      if a in s.approvals && s.approvals[a].decision == Pending
      then Access(s, ReadSubject(a, s.approvals[a], approve)) else Access(s, Idle)
    case Transition(m, target) => Access(s, if Removes(target) then BeginMove(s, m, target) else Idle)
    case Supersede(m, replacement) =>
      if m in s.items then Access(s, ReadReplacement(m, s.items[m], replacement)) else Access(s, Idle)
    case Retain(m) =>
      if m !in s.items || s.items[m].status !in {Observed, Proposed, Active} then Access(s, Idle)
      else if s.items[m].status == Proposed && s.items[m].approvalId.Some?
      then Access(s, ReadPending(m, s.items[m], s.items[m].approvalId.value))
      else Access(s, Transitioning(m, Expired))
    case Purge(m) => Access(s.(items := s.items - {m}), Idle)
    case Proceed(_) => Access(s, Idle)
  }

  function Act(s: State, c: int, choice: Choice): State {
    var access := Do(s.store, s.At(c), choice);
    State(access.store, s.pcs[c := access.pc])
  }

  function Run(s: State, steps: seq<(int, Choice)>): State {
    if steps == [] then s
    else
      var last := |steps| - 1;
      Act(Run(s, steps[..last]), steps[last].0, steps[last].1)
  }

  const INIT := State(Store(map[], map[], {}, {}), map[])

  // ---- the invariant ----

  predicate Names(s: Store, a: Option<ApprovalId>, m: MemoryId, decision: Decision) {
    a.Some? && a.value in s.approvals && s.approvals[a.value] == Approval(decision, m)
  }

  predicate Undecided(status: Status) {
    status in {Observed, Proposed}
  }

  /** An item's status and its approval's decision. */
  ghost predicate Backed(s: Store, m: MemoryId, item: Item) {
    && (item.status in {Active, Superseded} ==> Names(s, item.approvalId, m, Approved))
    && (item.status == Rejected ==> Names(s, item.approvalId, m, Denied))
    && (item.status == Proposed && item.approvalId.Some? ==> Names(s, item.approvalId, m, Pending))
    && (item.status == Observed ==> item.approvalId.None?)
    && (item.approvalId.Some? ==> item.approvalId.value in s.attached)
  }

  /** An approved approval is the one its item carries, for as long as the item exists. */
  ghost predicate Granted(s: Store, a: ApprovalId)
    requires a in s.approvals
  {
    s.approvals[a].decision == Approved ==>
      var m := s.approvals[a].subject;
      m in s.known && (m in s.items ==> !Undecided(s.items[m].status) && s.items[m].approvalId == Some(a))
  }

  ghost predicate Consistent(s: Store) {
    && (forall m :: m in s.items ==> m in s.known && Backed(s, m, s.items[m]))
    && (forall a :: a in s.attached ==> a in s.approvals)
    && (forall a :: a in s.approvals ==> Granted(s, a))
    && (forall a, b, m :: Names(s, Some(a), m, Approved) && Names(s, Some(b), m, Approved) ==> a == b)
  }

  /** A copy of item `m`: once decided, an item keeps its approval. */
  ghost predicate Copied(s: Store, m: MemoryId, item: Item) {
    && m in s.known
    && (item.approvalId.Some? ==> item.approvalId.value in s.attached)
    && (item.status == Observed ==> item.approvalId.None?)
    && (!Undecided(item.status) && m in s.items ==>
          !Undecided(s.items[m].status) && s.items[m].approvalId == item.approvalId)
    && (item.status in {Active, Superseded} ==> Names(s, item.approvalId, m, Approved))
  }

  /** What a caller relies on. */
  ghost predicate Relies(s: Store, pc: Pc) {
    match pc
    case Idle => true
    case Requesting(m, item) => Copied(s, m, item) && item.status == Proposed
    case Attaching(m, item, a) =>
      Copied(s, m, item) && item.status == Proposed && Names(s, Some(a), m, Pending) && a !in s.attached
    case ReadSubject(a, approval, _) => a in s.approvals && s.approvals[a].subject == approval.subject
    case Deciding(a, m, item, _) =>
      Copied(s, m, item) && item.status == Proposed && item.approvalId == Some(a) && a in s.approvals && s.approvals[a].subject == m
    case Transitioning(_, target) => Removes(target)
    case Moving(m, item, target) => Copied(s, m, item) && (Removes(target) || (target == Superseded && item.status == Active))
    case ReadReplacement(m, item, _) => Copied(s, m, item)
    case ReadPending(m, item, a) =>
      Copied(s, m, item) && item.status == Proposed && item.approvalId == Some(a) && a in s.approvals && s.approvals[a].subject == m
    case Retiring(m, item, a) =>
      Copied(s, m, item) && item.status == Proposed && item.approvalId == Some(a) && a in s.approvals && s.approvals[a].subject == m
  }

  /** Two callers never attach the same approval. */
  ghost predicate Apart(p: Pc, q: Pc) {
    p.Attaching? && q.Attaching? ==> p.a != q.a
  }

  ghost predicate Inv(s: State) {
    && Consistent(s.store)
    && (forall c :: Relies(s.store, s.At(c)))
    && (forall c, d :: c != d ==> Apart(s.At(c), s.At(d)))
  }

  /** What one access may change: `own` is the approval it attaches, if any. */
  ghost predicate Grows(s: Store, s': Store, own: Option<ApprovalId>) {
    && s.known <= s'.known && s.attached <= s'.attached
    && (forall a :: a in s.approvals ==>
          && a in s'.approvals && s'.approvals[a].subject == s.approvals[a].subject
          && (s.approvals[a].decision != Pending || a !in s.attached ==> s'.approvals[a] == s.approvals[a])
          && (a in s'.attached && a !in s.attached ==> Some(a) == own))
    && (forall m :: m in s'.items && m in s.known ==> m in s.items)
    && (forall m :: m in s'.items && m in s.items && !Undecided(s.items[m].status) ==>
          !Undecided(s'.items[m].status) && s'.items[m].approvalId == s.items[m].approvalId)
  }

  lemma ReliesSurvives(s: Store, s': Store, own: Option<ApprovalId>, pc: Pc)
    requires Relies(s, pc) && Grows(s, s', own)
    requires pc.Attaching? ==> Some(pc.a) != own
    ensures Relies(s', pc)
  {
  }

  lemma ProposeKeeps(s: Store, m: MemoryId, item: Item)
    requires Consistent(s) && m !in s.known && item.status in {Observed, Proposed} && item.approvalId.None?
    ensures var s' := s.(items := s.items[m := item], known := s.known + {m}); Consistent(s') && Grows(s, s', None)
  {
    var s' := s.(items := s.items[m := item], known := s.known + {m});
    assert forall x :: x in s.items ==> Backed(s, x, s.items[x]);
    assert forall a :: a in s.approvals ==> Granted(s, a);
    assert forall a, x, d :: Names(s', a, x, d) <==> Names(s, a, x, d);
  }

  lemma PurgeKeeps(s: Store, m: MemoryId)
    requires Consistent(s)
    ensures var s' := s.(items := s.items - {m}); Consistent(s') && Grows(s, s', None)
  {
    var s' := s.(items := s.items - {m});
    assert forall x :: x in s.items ==> Backed(s, x, s.items[x]);
    assert forall a :: a in s.approvals ==> Granted(s, a);
    assert forall a, x, d :: Names(s', a, x, d) <==> Names(s, a, x, d);
  }

  lemma RequestKeeps(s: Store, m: MemoryId, a: ApprovalId)
    requires Consistent(s) && m in s.known && a !in s.approvals && a !in s.attached
    ensures var s' := s.(approvals := s.approvals[a := Approval(Pending, m)]); Consistent(s') && Grows(s, s', None)
  {
    var s' := s.(approvals := s.approvals[a := Approval(Pending, m)]);
    assert forall x :: x in s.items ==> Backed(s, x, s.items[x]);
    assert forall b :: b in s.approvals ==> Granted(s, b);
    assert forall b, x, d :: b != Some(a) ==> (Names(s', b, x, d) <==> Names(s, b, x, d));
  }

  lemma AttachKeeps(s: Store, m: MemoryId, item: Item, a: ApprovalId)
    requires Consistent(s) && Copied(s, m, item) && item.status == Proposed
    requires Names(s, Some(a), m, Pending) && a !in s.attached
    ensures var s' := CompareAndSet(s, m, Proposed, item.(approvalId := Some(a))); Consistent(s') && Grows(s, s', Some(a))
  {
    var s' := CompareAndSet(s, m, Proposed, item.(approvalId := Some(a)));
    assert forall x :: x in s.items ==> Backed(s, x, s.items[x]);
    assert forall b :: b in s.approvals ==> Granted(s, b);
    assert forall b, x, d :: Names(s', b, x, d) <==> Names(s, b, x, d);
  }

  lemma MoveKeeps(s: Store, m: MemoryId, item: Item, target: Status)
    requires Consistent(s) && Copied(s, m, item) && (Removes(target) || (target == Superseded && item.status == Active))
    ensures var s' := CompareAndSet(s, m, item.status, item.(status := target)); Consistent(s') && Grows(s, s', None)
  {
    MoveIsConsistent(s, m, item, target);
    MoveGrows(s, m, item, target);
  }

  lemma MoveIsConsistent(s: Store, m: MemoryId, item: Item, target: Status)
    requires Consistent(s) && Copied(s, m, item) && (Removes(target) || (target == Superseded && item.status == Active))
    ensures Consistent(CompareAndSet(s, m, item.status, item.(status := target)))
  {
    var s' := CompareAndSet(s, m, item.status, item.(status := target));
    assert forall b, x, d :: Names(s', b, x, d) <==> Names(s, b, x, d);
    forall x | x in s'.items ensures x in s'.known && Backed(s', x, s'.items[x]) {
      assert x in s.items && Backed(s, x, s.items[x]);
    }
    forall b | b in s'.approvals ensures Granted(s', b) {
      assert Granted(s, b);
    }
  }

  lemma MoveGrows(s: Store, m: MemoryId, item: Item, target: Status)
    requires Consistent(s) && Copied(s, m, item) && (Removes(target) || (target == Superseded && item.status == Active))
    ensures Grows(s, CompareAndSet(s, m, item.status, item.(status := target)), None)
  {
    assert m in s.items ==> Backed(s, m, s.items[m]);
  }

  lemma DecideIsConsistent(s: Store, a: ApprovalId, m: MemoryId, item: Item, decision: Decision, status: Status)
    requires Consistent(s) && Copied(s, m, item) && item.approvalId == Some(a)
    requires a in s.approvals && s.approvals[a].subject == m
    requires (decision == Approved && status == Active) || (decision == Denied && status in {Rejected, Expired})
    ensures Consistent(DecideBoth(s, a, m, decision, item.(status := status)))
  {
    var s' := DecideBoth(s, a, m, decision, item.(status := status));
    if s' != s {
      assert forall x :: x in s.items ==> Backed(s, x, s.items[x]);
      assert forall b :: b in s.approvals ==> Granted(s, b);
      assert forall b, x, d :: b != Some(a) ==> (Names(s', b, x, d) <==> Names(s, b, x, d));
      assert forall x :: x in s.items && x != m && s.items[x].approvalId == Some(a) ==> !Names(s, Some(a), x, Pending);
      forall b ensures !Names(s, Some(b), m, Approved) {
        assert b in s.approvals ==> Granted(s, b);
      }
    }
  }

  lemma DecideGrows(s: Store, a: ApprovalId, m: MemoryId, item: Item, decision: Decision, status: Status)
    requires Consistent(s) && Copied(s, m, item) && item.approvalId == Some(a)
    requires a in s.approvals && s.approvals[a].subject == m
    ensures Grows(s, DecideBoth(s, a, m, decision, item.(status := status)), None)
  {
    assert m in s.items ==> Backed(s, m, s.items[m]);
  }

  lemma DecideKeeps(s: Store, a: ApprovalId, m: MemoryId, item: Item, decision: Decision, status: Status)
    requires Consistent(s) && Copied(s, m, item) && item.approvalId == Some(a)
    requires a in s.approvals && s.approvals[a].subject == m
    requires (decision == Approved && status == Active) || (decision == Denied && status in {Rejected, Expired})
    ensures var s' := DecideBoth(s, a, m, decision, item.(status := status)); Consistent(s') && Grows(s, s', None)
  {
    DecideIsConsistent(s, a, m, item, decision, status);
    DecideGrows(s, a, m, item, decision, status);
  }

  lemma EnterKeepsStore(s: Store, choice: Choice)
    requires Consistent(s)
    ensures var s' := Enter(s, choice).store; Consistent(s') && Grows(s, s', None)
  {
    match choice {
      case Propose(m, observed) =>
        if m !in s.known {
          ProposeKeeps(s, m, Item(if observed then Observed else Proposed, None));
        }
      case Purge(m) => PurgeKeeps(s, m);
      case _ =>
    }
  }

  lemma EnterKeeps(s: Store, choice: Choice)
    requires Consistent(s)
    ensures var access := Enter(s, choice);
            Consistent(access.store) && Grows(s, access.store, None) && Relies(access.store, access.pc) && !access.pc.Attaching?
  {
    EnterKeepsStore(s, choice);
  }

  /** Each access keeps the store consistent, and what the caller relies on next. */
  /** The approval that a step attaches. */
  function OwnOf(pc: Pc): Option<ApprovalId> {
    if pc.Attaching? then Some(pc.a) else None
  }

  lemma DoKeepsStore(s: Store, pc: Pc, choice: Choice)
    requires Consistent(s) && Relies(s, pc)
    ensures var s' := Do(s, pc, choice).store; Consistent(s') && Grows(s, s', OwnOf(pc))
  {
    match pc {
      case Idle => EnterKeeps(s, choice);
      case Requesting(m, item) =>
        if Fresh(s, choice) {
          RequestKeeps(s, m, choice.freshId);
        }
      case Attaching(m, item, a) => AttachKeeps(s, m, item, a);
      case Deciding(a, m, item, approve) =>
        DecideKeeps(s, a, m, item, if approve then Approved else Denied, if approve then Active else Rejected);
      case Moving(m, item, target) => MoveKeeps(s, m, item, target);
      case Retiring(m, item, a) => DecideKeeps(s, a, m, item, Denied, Expired);
      case _ =>
    }
  }

  lemma DoRelies(s: Store, pc: Pc, choice: Choice)
    requires Consistent(s) && Relies(s, pc)
    ensures var access := Do(s, pc, choice);
            Relies(access.store, access.pc) && (access.pc.Attaching? ==> access.pc.a !in s.approvals)
  {
    match pc {
      case Idle => EnterKeeps(s, choice);
      case Requesting(m, item) =>
        if Fresh(s, choice) {
          RequestKeeps(s, m, choice.freshId);
          ReliesSurvives(s, Do(s, pc, choice).store, None, pc);
        }
      case _ =>
    }
  }

  lemma DoKeeps(s: Store, pc: Pc, choice: Choice) returns (own: Option<ApprovalId>)
    requires Consistent(s) && Relies(s, pc)
    ensures var access := Do(s, pc, choice);
            Consistent(access.store) && Grows(s, access.store, own) && Relies(access.store, access.pc)
    ensures own == if pc.Attaching? then Some(pc.a) else None
    ensures var access := Do(s, pc, choice); access.pc.Attaching? ==> access.pc.a !in s.approvals
  {
    own := OwnOf(pc);
    DoKeepsStore(s, pc, choice);
    DoRelies(s, pc, choice);
  }

  lemma ActKeepsInv(s: State, c: int, choice: Choice)
    requires Inv(s)
    ensures Inv(Act(s, c, choice))
  {
    var s' := Act(s, c, choice);
    var own := DoKeeps(s.store, s.At(c), choice);
    assert s'.store == Do(s.store, s.At(c), choice).store;
    forall d ensures Relies(s'.store, s'.At(d)) {
      if d != c {
        assert Apart(s.At(d), s.At(c)) && s'.At(d) == s.At(d);
        ReliesSurvives(s.store, s'.store, own, s.At(d));
      }
    }
    forall d, e | d != e ensures Apart(s'.At(d), s'.At(e)) {
      assert Apart(s.At(d), s.At(e)) && Relies(s.store, s.At(d)) && Relies(s.store, s.At(e));
    }
  }

  lemma {:induction false} RunKeepsInv(steps: seq<(int, Choice)>)
    ensures Inv(Run(INIT, steps))
    decreases |steps|
  {
    if steps == [] {
      assert Inv(INIT);
    } else {
      var last := |steps| - 1;
      RunKeepsInv(steps[..last]);
      ActKeepsInv(Run(INIT, steps[..last]), steps[last].0, steps[last].1);
    }
  }

  /**
   * Under any interleaving: an active or superseded item points to an approved approval naming it, a rejected one
   * to a denied one, and a proposed item's approval is still pending.
   */
  lemma ItemsAreBacked(steps: seq<(int, Choice)>, m: MemoryId)
    requires m in Run(INIT, steps).store.items
    ensures var s := Run(INIT, steps).store;
            var item := s.items[m];
            && (item.status in {Active, Superseded} ==> Names(s, item.approvalId, m, Approved))
            && (item.status == Rejected ==> Names(s, item.approvalId, m, Denied))
            && (item.status == Proposed && item.approvalId.Some? ==> Names(s, item.approvalId, m, Pending))
  {
    RunKeepsInv(steps);
  }

  /** Under any interleaving, and whatever is purged: no item is ever activated through two approvals. */
  lemma ActivatedOnce(steps: seq<(int, Choice)>, m: MemoryId, a: ApprovalId, b: ApprovalId)
    requires var s := Run(INIT, steps).store; Names(s, Some(a), m, Approved) && Names(s, Some(b), m, Approved)
    ensures a == b
  {
    RunKeepsInv(steps);
  }
}
