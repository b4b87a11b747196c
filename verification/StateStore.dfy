/**
 * The state store: its operations as single atomic steps, the locked in-memory store that performs them, and the
 * Redis store, whose WATCH / GET / MULTI / EXEC retry loops are interleaved command by command.
 */
module StateStore {
  import opened Wrappers

  type Id = string

  /** The key prefixes keep the kinds of record apart. */
  datatype Key = JobKey(id: Id) | ApprovalKey(id: Id) | TaskKey(id: Id) | ClaimKey(id: Id) | MemoryKey(id: Id)

  /** A stored record: its status and the rest. */
  datatype Value = Value(status: string, body: string)

  type Store = map<Key, Value>

  datatype Request =
    | Get(key: Key)
    | Put(key: Key, value: Value)
    | Delete(key: Key)
    | Transition(key: Key, expected: set<string>, value: Value)
    | Claim(id: Id, value: Value)
    | DecideMemory(
        approvalId: Id, memoryId: Id, approvalExpected: set<string>, memoryExpected: set<string>,
        approvalValue: Value, memoryValue: Value)

  datatype Reply = Done(ok: bool) | Found(found: Option<Value>)

  function Lookup(store: Store, key: Key): Option<Value> {
    if key in store then Some(store[key]) else None
  }

  predicate HasStatus(v: Option<Value>, expected: set<string>) {
    v.Some? && v.value.status in expected
  }

  /** A claim is free when absent or failed. */
  predicate IsFree(v: Option<Value>) {
    v.None? || v.value.status == "failed"
  }

  /** What each operation does when nothing else happens meanwhile. */
  function Atomic(store: Store, req: Request): (Store, Reply) {
    match req
    case Get(key) => (store, Found(Lookup(store, key)))
    case Put(key, value) => (store[key := value], Done(true))
    case Delete(key) => (store - {key}, Done(key in store))
    case Transition(key, expected, value) =>
      if HasStatus(Lookup(store, key), expected) then (store[key := value], Done(true)) else (store, Done(false))
    case Claim(id, value) =>
      if IsFree(Lookup(store, ClaimKey(id))) then (store[ClaimKey(id) := value], Found(None))
      else (store, Found(Lookup(store, ClaimKey(id))))
    case DecideMemory(a, m, approvalExpected, memoryExpected, approvalValue, memoryValue) =>
      if HasStatus(Lookup(store, ApprovalKey(a)), approvalExpected) && HasStatus(Lookup(store, MemoryKey(m)), memoryExpected)
      then (store[ApprovalKey(a) := approvalValue][MemoryKey(m) := memoryValue], Done(true))
      else (store, Done(false))
  }

  /** The keys an operation wrote, given its reply. */
  function Written(req: Request, reply: Reply): set<Key> {
    match req
    case Get(_) => {}
    case Put(key, _) => {key}
    case Delete(key) => if reply == Done(true) then {key} else {}
    case Transition(key, _, _) => if reply == Done(true) then {key} else {}
    case Claim(id, _) => if reply == Found(None) then {ClaimKey(id)} else {}
    case DecideMemory(a, m, _, _, _, _) => if reply == Done(true) then {ApprovalKey(a), MemoryKey(m)} else {}
  }

  /** An operation leaves every key alone that its reply does not say it wrote. */
  lemma AtomicFrame(store: Store, req: Request, key: Key)
    requires key !in Written(req, Atomic(store, req).1)
    ensures Lookup(Atomic(store, req).0, key) == Lookup(store, key)
  {
  }

  // ---- the locked in-memory store ----

  class MemoryStateStore {
    var jobs: map<Id, Value>
    var approvals: map<Id, Value>
    var tasks: map<Id, Value>
    var idempotency: map<Id, Value>
    var memoryItems: map<Id, Value>

    constructor ()
      ensures Represents(map[])
    {
      jobs, approvals, tasks, idempotency, memoryItems := map[], map[], map[], map[], map[];
    }

    function Find(key: Key): Option<Value>
      reads this
    {
      match key
      case JobKey(id) => if id in jobs then Some(jobs[id]) else None
      case ApprovalKey(id) => if id in approvals then Some(approvals[id]) else None
      case TaskKey(id) => if id in tasks then Some(tasks[id]) else None
      case ClaimKey(id) => if id in idempotency then Some(idempotency[id]) else None
      case MemoryKey(id) => if id in memoryItems then Some(memoryItems[id]) else None
    }

    ghost predicate Represents(store: Store)
      reads this
    {
      forall key :: Find(key) == Lookup(store, key)
    }

    method Set(key: Key, value: Value, ghost store: Store)
      requires Represents(store)
      modifies this
      ensures Represents(Atomic(store, Put(key, value)).0)
    {
      match key {
        case JobKey(id) => jobs := jobs[id := value];
        case ApprovalKey(id) => approvals := approvals[id := value];
        case TaskKey(id) => tasks := tasks[id := value];
        case ClaimKey(id) => idempotency := idempotency[id := value];
        case MemoryKey(id) => memoryItems := memoryItems[id := value];
      }
      assert forall k :: k != key ==> Find(k) == old(Find(k));
      assert Find(key) == Some(value);
    }

    method DeleteMemoryItem(id: Id, ghost store: Store) returns (deleted: bool)
      requires Represents(store)
      modifies this
      ensures (var after := Atomic(store, Delete(MemoryKey(id))); Represents(after.0) && Done(deleted) == after.1)
    {
      deleted := id in memoryItems;
      memoryItems := memoryItems - {id};
      assert deleted == old(Find(MemoryKey(id))).Some?;
      assert forall k :: k != MemoryKey(id) ==> Find(k) == old(Find(k));
      assert Find(MemoryKey(id)).None?;
    }

    /** `transition_job`, `_approval`, `_delegation_task` and `_memory_item`. */
    method TransitionRecord(key: Key, expected: set<string>, value: Value, ghost store: Store) returns (ok: bool)
      requires Represents(store)
      modifies this
      ensures (var after := Atomic(store, Transition(key, expected, value)); Represents(after.0) && Done(ok) == after.1)
    {
      var current := Find(key);
      if current.None? || current.value.status !in expected {
        return false;
      }
      Set(key, value, store);
      return true;
    }

    method ClaimIdempotency(id: Id, value: Value, ghost store: Store) returns (holder: Option<Value>)
      requires Represents(store)
      modifies this
      ensures (var after := Atomic(store, Claim(id, value)); Represents(after.0) && Found(holder) == after.1)
    {
      var current := Find(ClaimKey(id));
      if current.Some? && current.value.status != "failed" {
        return current;
      }
      Set(ClaimKey(id), value, store);
      return None;
    }

    method TransitionMemoryApproval(
      approvalId: Id, memoryId: Id, approvalExpected: set<string>, memoryExpected: set<string>,
      approvalValue: Value, memoryValue: Value, ghost store: Store)
      returns (ok: bool)
      requires Represents(store)
      modifies this
      ensures (var after := Atomic(store, DecideMemory(approvalId, memoryId, approvalExpected, memoryExpected,
                                                       approvalValue, memoryValue));
               Represents(after.0) && Done(ok) == after.1)
    {
      var approval := if approvalId in approvals then Some(approvals[approvalId]) else None;
      var memory := if memoryId in memoryItems then Some(memoryItems[memoryId]) else None;
      assert approval == Find(ApprovalKey(approvalId)) && memory == Find(MemoryKey(memoryId));
      if approval.None? || approval.value.status !in approvalExpected
         || memory.None? || memory.value.status !in memoryExpected {
        return false;
      }
      approvals := approvals[approvalId := approvalValue];
      memoryItems := memoryItems[memoryId := memoryValue];
      assert forall k :: k !in {ApprovalKey(approvalId), MemoryKey(memoryId)} ==> Find(k) == old(Find(k));
      return true;
    }
  }

  // ---- the Redis store, command by command ----

  /** Read with `GET`, in this order, after all of them were put under `WATCH`. */
  function WatchedKeys(req: Request): seq<Key> {
    match req
    case Transition(key, _, _) => [key]
    case Claim(id, _) => [ClaimKey(id)]
    case DecideMemory(a, m, _, _, _, _) => [ApprovalKey(a), MemoryKey(m)]
    case _ => []
  }

  /** Whether the `i`-th value read allows the write. */
  predicate Passes(req: Request, i: nat, v: Option<Value>)
    requires i < |WatchedKeys(req)|
  {
    match req
    case Transition(_, expected, _) => HasStatus(v, expected)
    case Claim(_, _) => IsFree(v)
    case DecideMemory(_, _, approvalExpected, memoryExpected, _, _) =>
      HasStatus(v, if i == 0 then approvalExpected else memoryExpected)
  }

  /** What the call returns when the value read does not allow the write. */
  function RefusalReply(req: Request, v: Option<Value>): Reply {
    if req.Claim? then Found(v) else Done(false)
  }

  /** The commands queued between `MULTI` and `EXEC`, and the reply when they ran. */
  function ExecStore(store: Store, req: Request): Store {
    match req
    case Transition(key, _, value) => store[key := value]
    case Claim(id, value) => store[ClaimKey(id) := value]
    case DecideMemory(a, m, _, _, approvalValue, memoryValue) =>
      store[ApprovalKey(a) := approvalValue][MemoryKey(m) := memoryValue]
    case _ => store
  }

  function ExecReply(req: Request): Reply {
    if req.Claim? then Found(None) else Done(true)
  }

  /**
   * One client. `Watching` holds the values read so far, where in the history the watch began, and the server's flag
   * that a watched key was written since. `Answered` has its reply; the commands left touch nothing.
   */
  datatype Client =
    | Idle
    | Begun(req: Request)
    | Watching(req: Request, seen: seq<Option<Value>>, since: nat, dirty: bool)
    | Answered(req: Request, reply: Reply)

  /** History: a call, the moment it takes effect, and its return. */
  datatype Event =
    | Called(client: int, req: Request)
    | Took(client: int, req: Request, reply: Reply)
    | Returned(client: int, req: Request, reply: Reply)

  datatype System = System(store: Store, clients: map<int, Client>, history: seq<Event>) {
    function At(c: int): Client {
      if c in clients then clients[c] else Idle
    }
  }

  predicate Meets(req: Request, keys: set<Key>) {
    exists i :: 0 <= i < |WatchedKeys(req)| && WatchedKeys(req)[i] in keys
  }

  /** The server marks every connection that watches a written key. */
  function Touch(client: Client, keys: set<Key>): Client {
    if client.Watching? && Meets(client.req, keys) then client.(dirty := true) else client
  }

  /** The call takes effect: the store changes, watchers are marked, the client knows its reply. */
  function Take(s: System, c: int, req: Request, store: Store, reply: Reply): System {
    System(store,
           (map d | d in s.clients :: Touch(s.clients[d], Written(req, reply)))[c := Answered(req, reply)],
           s.history + [Took(c, req, reply)])
  }

  /** The next command of client `c`; `call` is the operation it starts when idle. */
  function Step(s: System, c: int, call: Request): System {
    match s.At(c)
    case Idle => System(s.store, s.clients[c := Begun(call)], s.history + [Called(c, call)])
    case Begun(req) =>
      if WatchedKeys(req) == [] then Take(s, c, req, Atomic(s.store, req).0, Atomic(s.store, req).1)
      else s.(clients := s.clients[c := Watching(req, [], |s.history|, false)])
    case Watching(req, seen, since, dirty) =>
      if |seen| < |WatchedKeys(req)| then
        var v := Lookup(s.store, WatchedKeys(req)[|seen|]);
        if Passes(req, |seen|, v) then s.(clients := s.clients[c := Watching(req, seen + [v], since, dirty)])
        else Take(s, c, req, s.store, RefusalReply(req, v))
      else if dirty then s.(clients := s.clients[c := Begun(req)])
      else Take(s, c, req, ExecStore(s.store, req), ExecReply(req))
    case Answered(req, reply) =>
      System(s.store, s.clients[c := Idle], s.history + [Returned(c, req, reply)])
  }

  function Run(s: System, steps: seq<(int, Request)>): System {
    if steps == [] then s
    else
      var last := |steps| - 1;
      Step(Run(s, steps[..last]), steps[last].0, steps[last].1)
  }

  // ---- linearizability ----

  /** The operations of the history that took effect, run one after the other. */
  function StoreAfter(start: Store, history: seq<Event>): Store {
    if history == [] then start
    else
      var last := |history| - 1;
      var before := StoreAfter(start, history[..last]);
      if history[last].Took? then Atomic(before, history[last].req).0 else before
  }

  /** Every reply is the one the operation gives at the moment it takes effect. */
  ghost predicate RepliesAgree(start: Store, history: seq<Event>) {
    forall i :: 0 <= i < |history| && history[i].Took? ==>
      history[i].reply == Atomic(StoreAfter(start, history[..i]), history[i].req).1
  }

  datatype Phase = Quiet | Open(req: Request) | Effected(req: Request, reply: Reply) | Broken

  /** Where a client stands by its events alone: call, effect and return must follow each other. */
  function PhaseAfter(history: seq<Event>, c: int): Phase {
    if history == [] then Quiet
    else
      var last := |history| - 1;
      var before := PhaseAfter(history[..last], c);
      var e := history[last];
      if e.client != c then before
      else
        match e
        case Called(_, req) => if before == Quiet then Open(req) else Broken
        case Took(_, req, reply) => if before == Open(req) then Effected(req, reply) else Broken
        case Returned(_, req, reply) => if before == Effected(req, reply) then Quiet else Broken
  }

  function PhaseOf(client: Client): Phase {
    match client
    case Idle => Quiet
    case Begun(req) => Open(req)
    case Watching(req, _, _, _) => Open(req)
    case Answered(req, reply) => Effected(req, reply)
  }

  /** One of the request's watched keys was written at or after position `since`. */
  ghost predicate WrittenSince(history: seq<Event>, since: nat, req: Request) {
    exists i :: since <= i < |history| && history[i].Took? && Meets(req, Written(history[i].req, history[i].reply))
  }

  ghost predicate WatchHolds(s: System, client: Client) {
    client.Watching? ==>
      && client.since <= |s.history|
      && |client.seen| <= |WatchedKeys(client.req)|
      && WatchedKeys(client.req) != []
      && (client.dirty <==> WrittenSince(s.history, client.since, client.req))
      && forall i :: 0 <= i < |client.seen| ==>
           && Passes(client.req, i, client.seen[i])
           && (!client.dirty ==> client.seen[i] == Lookup(s.store, WatchedKeys(client.req)[i]))
  }

  ghost predicate Linear(start: Store, s: System) {
    && s.store == StoreAfter(start, s.history)
    && RepliesAgree(start, s.history)
    && (forall c :: PhaseAfter(s.history, c) == PhaseOf(s.At(c)))
    && (forall c :: WatchHolds(s, s.At(c)))
  }

  lemma AppendEvent(start: Store, history: seq<Event>, e: Event)
    requires RepliesAgree(start, history)
    requires e.Took? ==> e.reply == Atomic(StoreAfter(start, history), e.req).1
    ensures RepliesAgree(start, history + [e])
    ensures StoreAfter(start, history + [e]) ==
            if e.Took? then Atomic(StoreAfter(start, history), e.req).0 else StoreAfter(start, history)
    ensures forall c :: c != e.client ==> PhaseAfter(history + [e], c) == PhaseAfter(history, c)
  {
    var longer := history + [e];
    assert longer[..|history|] == history;
    forall i | 0 <= i < |longer| && longer[i].Took?
      ensures longer[i].reply == Atomic(StoreAfter(start, longer[..i]), longer[i].req).1
    {
      assert longer[..i] == (if i < |history| then history[..i] else history);
    }
  }

  lemma WatchersAfter(history: seq<Event>, e: Event, since: nat, req: Request)
    requires since <= |history|
    ensures WrittenSince(history + [e], since, req) <==>
              WrittenSince(history, since, req) || (e.Took? && Meets(req, Written(e.req, e.reply)))
  {
    var longer := history + [e];
    if WrittenSince(history, since, req) {
      var i :| since <= i < |history| && history[i].Took? && Meets(req, Written(history[i].req, history[i].reply));
      assert longer[i] == history[i];
    }
    if e.Took? && Meets(req, Written(e.req, e.reply)) {
      assert longer[|history|] == e;
    }
  }

  /** A client watching through another's operation is marked exactly if its values may be stale. */
  lemma WatcherKeeps(s: System, s': System, client: Client, e: Event)
    requires WatchHolds(s, client)
    requires s'.history == s.history + [e]
    requires e.Took? ==> Atomic(s.store, e.req) == (s'.store, e.reply)
    requires !e.Took? ==> s'.store == s.store
    ensures WatchHolds(s', if e.Took? then Touch(client, Written(e.req, e.reply)) else client)
  {
    if client.Watching? {
      WatchersAfter(s.history, e, client.since, client.req);
      if e.Took? && !Meets(client.req, Written(e.req, e.reply)) {
        forall i | 0 <= i < |client.seen| ensures WatchedKeys(client.req)[i] !in Written(e.req, e.reply) {}
        forall i | 0 <= i < |client.seen|
          ensures Lookup(s'.store, WatchedKeys(client.req)[i]) == Lookup(s.store, WatchedKeys(client.req)[i])
        {
          AtomicFrame(s.store, e.req, WatchedKeys(client.req)[i]);
        }
      }
    }
  }

  /** An operation takes effect with the atomic operation's own store and reply. */
  lemma TakeKeepsLinear(start: Store, s: System, c: int, req: Request, store: Store, reply: Reply)
    requires Linear(start, s)
    requires PhaseOf(s.At(c)) == Open(req)
    requires Atomic(s.store, req) == (store, reply)
    ensures Linear(start, Take(s, c, req, store, reply))
  {
    var s' := Take(s, c, req, store, reply);
    var e := Took(c, req, reply);
    AppendEvent(start, s.history, e);
    assert s'.history[..|s.history|] == s.history;
    forall d ensures PhaseAfter(s'.history, d) == PhaseOf(s'.At(d)) && WatchHolds(s', s'.At(d)) {
      if d != c {
        assert s'.At(d) == Touch(s.At(d), Written(req, reply));
        assert WatchHolds(s, s.At(d));
        WatcherKeeps(s, s', s.At(d), e);
      }
    }
  }

  /** The values read still hold, so `EXEC` does what the atomic operation does. */
  lemma ExecIsAtomic(s: System, client: Client)
    requires WatchHolds(s, client) && client.Watching? && !client.dirty
    requires |client.seen| == |WatchedKeys(client.req)|
    ensures Atomic(s.store, client.req) == (ExecStore(s.store, client.req), ExecReply(client.req))
  {
    assert Passes(client.req, 0, client.seen[0]);
    if client.req.DecideMemory? {
      assert Passes(client.req, 1, client.seen[1]);
    }
  }

  /** One value that forbids the write is enough: the atomic operation refuses at that very read. */
  lemma RefusalIsAtomic(s: System, req: Request, i: nat)
    requires i < |WatchedKeys(req)| && !Passes(req, i, Lookup(s.store, WatchedKeys(req)[i]))
    ensures Atomic(s.store, req) == (s.store, RefusalReply(req, Lookup(s.store, WatchedKeys(req)[i])))
  {
  }

  lemma ReadKeepsLinear(start: Store, s: System, c: int, call: Request)
    requires Linear(start, s) && s.At(c).Watching? && |s.At(c).seen| < |WatchedKeys(s.At(c).req)|
    ensures Linear(start, Step(s, c, call))
  {
    var req, seen := s.At(c).req, s.At(c).seen;
    var v := Lookup(s.store, WatchedKeys(req)[|seen|]);
    assert WatchHolds(s, s.At(c));
    if Passes(req, |seen|, v) {
      QuietKeepsLinear(start, s, c, Watching(req, seen + [v], s.At(c).since, s.At(c).dirty));
    } else {
      RefusalIsAtomic(s, req, |seen|);
      TakeKeepsLinear(start, s, c, req, s.store, RefusalReply(req, v));
    }
  }

  lemma ExecKeepsLinear(start: Store, s: System, c: int, call: Request)
    requires Linear(start, s) && s.At(c).Watching? && |s.At(c).seen| >= |WatchedKeys(s.At(c).req)|
    ensures Linear(start, Step(s, c, call))
  {
    var req := s.At(c).req;
    assert WatchHolds(s, s.At(c));
    if s.At(c).dirty {
      QuietKeepsLinear(start, s, c, Begun(req));
    } else {
      ExecIsAtomic(s, s.At(c));
      TakeKeepsLinear(start, s, c, req, ExecStore(s.store, req), ExecReply(req));
    }
  }

  lemma StepKeepsLinear(start: Store, s: System, c: int, call: Request)
    requires Linear(start, s)
    ensures Linear(start, Step(s, c, call))
  {
    match s.At(c) {
      case Idle => EventKeepsLinear(start, s, c, Begun(call), Called(c, call));
      case Begun(req) =>
        if WatchedKeys(req) == [] {
          TakeKeepsLinear(start, s, c, req, Atomic(s.store, req).0, Atomic(s.store, req).1);
        } else {
          QuietKeepsLinear(start, s, c, Watching(req, [], |s.history|, false));
        }
      case Watching(req, seen, _, _) =>
        if |seen| < |WatchedKeys(req)| {
          ReadKeepsLinear(start, s, c, call);
        } else {
          ExecKeepsLinear(start, s, c, call);
        }
      case Answered(req, reply) => EventKeepsLinear(start, s, c, Idle, Returned(c, req, reply));
    }
  }

  /** A command without effect on the store or the history. */
  lemma QuietKeepsLinear(start: Store, s: System, c: int, client: Client)
    requires Linear(start, s) && PhaseOf(client) == PhaseOf(s.At(c)) && WatchHolds(s, client)
    ensures Linear(start, s.(clients := s.clients[c := client]))
  {
    var s' := s.(clients := s.clients[c := client]);
    forall d ensures PhaseAfter(s'.history, d) == PhaseOf(s'.At(d)) && WatchHolds(s', s'.At(d)) {
      assert WatchHolds(s, s.At(d)) && (d != c ==> s'.At(d) == s.At(d));
    }
  }

  /** A call begins or returns. */
  lemma EventKeepsLinear(start: Store, s: System, c: int, client: Client, e: Event)
    requires Linear(start, s) && e.client == c && !e.Took? && !client.Watching?
    requires PhaseAfter(s.history + [e], c) == PhaseOf(client)
    ensures Linear(start, System(s.store, s.clients[c := client], s.history + [e]))
  {
    var s' := System(s.store, s.clients[c := client], s.history + [e]);
    AppendEvent(start, s.history, e);
    forall d ensures PhaseAfter(s'.history, d) == PhaseOf(s'.At(d)) && WatchHolds(s', s'.At(d)) {
      if d != c {
        assert s'.At(d) == s.At(d) && WatchHolds(s, s.At(d));
        WatcherKeeps(s, s', s.At(d), e);
      }
    }
  }

  /**
   * Whatever the interleaving of commands of any number of clients: each call takes effect once, between its
   * beginning and its return, and store and replies are those of the atomic operations in that order.
   */
  lemma {:induction false} RunIsLinear(start: Store, steps: seq<(int, Request)>)
    ensures Linear(start, Run(System(start, map[], []), steps))
    decreases |steps|
  {
    var init := System(start, map[], []);
    if steps == [] {
      assert Linear(start, init);
    } else {
      var last := |steps| - 1;
      RunIsLinear(start, steps[..last]);
      StepKeepsLinear(start, Run(init, steps[..last]), steps[last].0, steps[last].1);
    }
  }

  /** A retry happens exactly when another call has written a watched key since the watch began. */
  lemma RetryMeansInterference(start: Store, steps: seq<(int, Request)>, c: int, call: Request)
    requires var client := Run(System(start, map[], []), steps).At(c);
             client.Watching? && |client.seen| == |WatchedKeys(client.req)|
    ensures var s := Run(System(start, map[], []), steps);
            var client := s.At(c);
            Step(s, c, call).At(c) == Begun(client.req) <==> WrittenSince(s.history, client.since, client.req)
  {
    RunIsLinear(start, steps);
    var s := Run(System(start, map[], []), steps);
    assert WatchHolds(s, s.At(c));
  }

  // ---- decisions on memory items ----

  /** A decision on this approval and this item. */
  predicate Decides(req: Request, a: Id, m: Id) {
    req.DecideMemory? && req.approvalId == a && req.memoryId == m
  }

  /** The event is a decision of the two that took effect and wrote. */
  predicate Decided(e: Event, a: Id, m: Id) {
    e.Took? && Decides(e.req, a, m) && e.reply == Done(true)
  }

  /** Nothing but decisions of the two wrote either record. */
  ghost predicate OnlyDecided(history: seq<Event>, a: Id, m: Id) {
    forall i :: 0 <= i < |history| && history[i].Took? && !Decides(history[i].req, a, m) ==>
      Written(history[i].req, history[i].reply) !! {ApprovalKey(a), MemoryKey(m)}
  }

  /** Both records are as at the start, or both as one decision left them. */
  ghost predicate Together(start: Store, store: Store, history: seq<Event>, a: Id, m: Id) {
    || (Lookup(store, ApprovalKey(a)) == Lookup(start, ApprovalKey(a)) && Lookup(store, MemoryKey(m)) == Lookup(start, MemoryKey(m)))
    || exists i :: 0 <= i < |history| && Decided(history[i], a, m)
                   && Lookup(store, ApprovalKey(a)) == Some(history[i].req.approvalValue)
                   && Lookup(store, MemoryKey(m)) == Some(history[i].req.memoryValue)
  }

  lemma OnlyDecidedBefore(history: seq<Event>, a: Id, m: Id)
    requires history != [] && OnlyDecided(history, a, m)
    ensures OnlyDecided(history[..|history| - 1], a, m)
  {
  }

  /** One more operation leaves both records alone or writes both. */
  lemma StaysTogether(start: Store, before: Store, history: seq<Event>, e: Event, a: Id, m: Id)
    requires Together(start, before, history, a, m) && e.Took? && e.reply == Atomic(before, e.req).1
    requires !Decides(e.req, a, m) ==> Written(e.req, e.reply) !! {ApprovalKey(a), MemoryKey(m)}
    ensures Together(start, Atomic(before, e.req).0, history + [e], a, m)
  {
    var longer := history + [e];
    if Decided(e, a, m) {
      assert longer[|history|] == e;
    } else {
      AtomicFrame(before, e.req, ApprovalKey(a));
      AtomicFrame(before, e.req, MemoryKey(m));
      TogetherLater(start, before, Atomic(before, e.req).0, history, e, a, m);
    }
  }

  lemma TogetherLater(start: Store, before: Store, after: Store, history: seq<Event>, e: Event, a: Id, m: Id)
    requires Together(start, before, history, a, m)
    requires Lookup(after, ApprovalKey(a)) == Lookup(before, ApprovalKey(a)) && Lookup(after, MemoryKey(m)) == Lookup(before, MemoryKey(m))
    ensures Together(start, after, history + [e], a, m)
  {
    if i :| 0 <= i < |history| && Decided(history[i], a, m)
            && Lookup(before, ApprovalKey(a)) == Some(history[i].req.approvalValue)
            && Lookup(before, MemoryKey(m)) == Some(history[i].req.memoryValue)
    {
      assert (history + [e])[i] == history[i];
    }
  }

  lemma {:induction false} HistoryKeepsTogether(start: Store, history: seq<Event>, a: Id, m: Id)
    requires RepliesAgree(start, history) && OnlyDecided(history, a, m)
    ensures Together(start, StoreAfter(start, history), history, a, m)
    decreases |history|
  {
    if history != [] {
      var front, e := history[..|history| - 1], history[|history| - 1];
      OnlyDecidedBefore(history, a, m);
      RepliesAgreeBefore(start, history);
      HistoryKeepsTogether(start, front, a, m);
      assert history == front + [e];
      if e.Took? {
        StaysTogether(start, StoreAfter(start, front), front, e, a, m);
      } else {
        TogetherLater(start, StoreAfter(start, front), StoreAfter(start, front), front, e, a, m);
      }
    }
  }

  lemma RepliesAgreeBefore(start: Store, history: seq<Event>)
    requires history != [] && RepliesAgree(start, history)
    ensures RepliesAgree(start, history[..|history| - 1])
  {
    var front := history[..|history| - 1];
    forall i | 0 <= i < |front| && front[i].Took? ensures front[i].reply == Atomic(StoreAfter(start, front[..i]), front[i].req).1 {
      assert front[..i] == history[..i] && history[i] == front[i];
    }
  }

  /**
   * At every point of any interleaved run an approval and its item are both as they were or both as one decision left
   * them, whoever else is deciding, as long as nothing else writes them.
   */
  lemma DecisionsLandTogether(start: Store, steps: seq<(int, Request)>, a: Id, m: Id)
    requires OnlyDecided(Run(System(start, map[], []), steps).history, a, m)
    ensures var s := Run(System(start, map[], []), steps); Together(start, s.store, s.history, a, m)
  {
    RunIsLinear(start, steps);
    HistoryKeepsTogether(start, Run(System(start, map[], []), steps).history, a, m);
  }

  /** All decisions of the two ask for an open approval and close it. */
  ghost predicate Closing(history: seq<Event>, a: Id, m: Id, open: set<string>) {
    forall i :: 0 <= i < |history| && history[i].Took? && Decides(history[i].req, a, m) ==>
      history[i].req.approvalExpected <= open && history[i].req.approvalValue.status !in open
  }

  /** Once decided the approval is closed. */
  lemma {:induction false} DecidedIsClosed(start: Store, history: seq<Event>, i: nat, a: Id, m: Id, open: set<string>)
    requires RepliesAgree(start, history) && OnlyDecided(history, a, m) && Closing(history, a, m, open)
    requires i < |history| && Decided(history[i], a, m)
    ensures var v := Lookup(StoreAfter(start, history), ApprovalKey(a)); v.Some? && v.value.status !in open
    decreases |history|
  {
    var front, e := history[..|history| - 1], history[|history| - 1];
    RepliesAgreeBefore(start, history);
    OnlyDecidedBefore(history, a, m);
    assert e.Took? ==> e.reply == Atomic(StoreAfter(start, front), e.req).1;
    if i < |front| {
      assert front[i] == history[i] && Closing(front, a, m, open);
      DecidedIsClosed(start, front, i, a, m, open);
      if e.Took? && !Decided(e, a, m) {
        AtomicFrame(StoreAfter(start, front), e.req, ApprovalKey(a));
      }
    }
  }

  /** Of any number of clients racing to decide, at most one succeeds. */
  lemma RacingDecisionsWinOnce(start: Store, steps: seq<(int, Request)>, a: Id, m: Id, open: set<string>, i: nat, j: nat)
    requires var history := Run(System(start, map[], []), steps).history;
             && OnlyDecided(history, a, m) && Closing(history, a, m, open)
             && i < |history| && j < |history| && Decided(history[i], a, m) && Decided(history[j], a, m)
    ensures i == j
  {
    RunIsLinear(start, steps);
    var history := Run(System(start, map[], []), steps).history;
    if i < j {
      LaterIsRefused(start, history, i, j, a, m, open);
    } else if j < i {
      LaterIsRefused(start, history, j, i, a, m, open);
    }
  }

  lemma {:induction false} LaterIsRefused(start: Store, history: seq<Event>, i: nat, j: nat, a: Id, m: Id, open: set<string>)
    requires RepliesAgree(start, history) && OnlyDecided(history, a, m) && Closing(history, a, m, open)
    requires i < j < |history| && Decided(history[i], a, m) && history[j].Took? && Decides(history[j].req, a, m)
    ensures history[j].reply == Done(false)
    decreases |history|
  {
    RepliesAgreeBefore(start, history);
    OnlyDecidedBefore(history, a, m);
    var front := history[..|history| - 1];
    assert front[i] == history[i] && Closing(front, a, m, open);
    if j == |front| {
      DecidedIsClosed(start, front, i, a, m, open);
    } else {
      assert front[j] == history[j];
      LaterIsRefused(start, front, i, j, a, m, open);
    }
  }
}
