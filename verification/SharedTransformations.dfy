/**
 * The same rules as they work on Python's objects: a value is taken over as a reference, so a target below an earlier
 * one writes into the page itself. When no rule does that, this is what `Transformations` computes on copies.
 */
module SharedTransformations {
  import opened Transformations
  import opened Wrappers

  type Ref = nat

  /** A value held in an object: a text, or a reference to another object. */
  datatype Cell = Text(text: string) | Link(ref: Ref)

  type Heap = map<Ref, map<string, Cell>>

  /**
   * The output. Objects made for it are reached through their parent only; what was taken over from the page is borrowed.
   */
  datatype Node = Own(fields: map<string, Node>) | Borrowed(cell: Cell)

  /** `_get_path`. */
  function Read(heap: Heap, cell: Cell, parts: seq<string>): Option<Cell>
    decreases |parts|
  {
    if parts == [] then Some(cell)
    else if cell.Link? && cell.ref in heap && parts[0] in heap[cell.ref] then Read(heap, heap[cell.ref][parts[0]], parts[1..])
    else None
  }

  /** An unused reference. */
  ghost function Fresh(heap: Heap): (r: Ref)
    ensures r !in heap
  {
    BoundOf(heap.Keys)
  }

  ghost function BoundOf(used: set<Ref>): (bound: Ref)
    ensures forall r :: r in used ==> r < bound
  {
    if used == {} then 0
    else
      var r :| r in used;
      var bound := BoundOf(used - {r});
      assert forall q :: q in used ==> q == r || q in used - {r};
      if r < bound then bound else r + 1
  }

  /** `_set_path`, inside the object `r` of the page. */
  ghost function Write(heap: Heap, r: Ref, parts: Parts, content: Cell): Result<Heap, TransformError>
    decreases |parts|
  {
    var fields := if r in heap then heap[r] else map[];
    if |parts| == 1 then Success(heap[r := fields[parts[0] := content]])
    else if parts[0] !in fields then
      var child := Fresh(heap[r := fields]);
      Write(heap[r := fields[parts[0] := Link(child)]][child := map[]], child, parts[1..], content)
    else if fields[parts[0]].Text? then Failure(TargetConflict)
    else Write(heap, fields[parts[0]].ref, parts[1..], content)
  }

  datatype State = State(heap: Heap, output: Node)

  /** `_set_path`, from an object of the output on. */
  ghost function Put(heap: Heap, node: Node, parts: Parts, content: Cell): Result<State, TransformError>
    requires node.Own?
    ensures Put(heap, node, parts, content).Success? ==> Put(heap, node, parts, content).value.output.Own?
    decreases |parts|
  {
    if |parts| == 1 then Success(State(heap, Own(node.fields[parts[0] := Borrowed(content)])))
    else
      match if parts[0] in node.fields then node.fields[parts[0]] else Own(map[])
      case Borrowed(Text(_)) => Failure(TargetConflict)
      case Borrowed(Link(r)) =>
        (match Write(heap, r, parts[1..], content)
         case Failure(e) => Failure(e)
         case Success(heap') => Success(State(heap', node)))
      case Own(fields) =>
        match Put(heap, Own(fields), parts[1..], content)
        case Failure(e) => Failure(e)
        case Success(s) => Success(State(s.heap, Own(node.fields[parts[0] := s.output])))
  }

  ghost function Start(heap: Heap, page: Ref): State {
    var id := Read(heap, Link(page), ID);
    State(heap, Own(map["id" := Borrowed(if id.Some? then id.value else Text("null"))]))
  }

  /** The loop over the rules. */
  ghost function Run(heap: Heap, page: Ref, rules: seq<Rule>): (r: Result<State, TransformError>)
    ensures r.Success? ==> r.value.output.Own?
    decreases |rules|
  {
    if rules == [] then Success(Start(heap, page))
    else
      var last := rules[|rules| - 1];
      match Run(heap, page, rules[..|rules| - 1])
      case Failure(e) => Failure(e)
      case Success(s) =>
        match Read(s.heap, Link(page), last.source)
        case None => Success(s)
        case Some(content) => Put(s.heap, s.output, last.target, content)
  }

  // ---- what objects show ----

  ghost predicate Shows(heap: Heap, cell: Cell, value: Json)
    decreases value
  {
    match value
    case Leaf(text) => cell == Text(text)
    case Object(fields) =>
      cell.Link? && cell.ref in heap && heap[cell.ref].Keys == fields.Keys
      && forall name :: name in fields ==> Shows(heap, heap[cell.ref][name], fields[name])
  }

  ghost predicate NodeShows(heap: Heap, node: Node, value: Json)
    decreases node
  {
    match node
    case Borrowed(cell) => Shows(heap, cell, value)
    case Own(fields) =>
      value.Object? && value.fields.Keys == fields.Keys
      && forall name :: name in fields ==> NodeShows(heap, fields[name], value.fields[name])
  }

  /** Reading finds what the shown value has there. */
  lemma {:induction false} ReadShows(heap: Heap, cell: Cell, value: Json, parts: seq<string>)
    requires Shows(heap, cell, value)
    ensures Read(heap, cell, parts).Some? <==> Get(value, parts).Some?
    ensures Get(value, parts).Some? ==> Shows(heap, Read(heap, cell, parts).value, Get(value, parts).value)
    decreases |parts|
  {
    if parts != [] && value.Object? && parts[0] in value.fields {
      ReadShows(heap, heap[cell.ref][parts[0]], value.fields[parts[0]], parts[1..]);
    }
  }

  // ---- no rule writes below what an earlier one took over ----

  /** Something borrowed that is an object lies at this path of the output. */
  predicate BorrowsAt(node: Node, path: seq<string>) {
    if path == [] then node.Borrowed? && node.cell.Link?
    else node.Own? && path[0] in node.fields && BorrowsAt(node.fields[path[0]], path[1..])
  }

  /** Nothing borrowed lies on the way. */
  ghost predicate WayIsOwn(node: Node, parts: seq<string>) {
    forall n :: 0 <= n < |parts| ==> !BorrowsAt(node, parts[..n])
  }

  /** Writing where nothing is borrowed leaves the page alone and does what it does on copies. */
  lemma {:induction false} PutShows(heap: Heap, node: Node, value: Json, parts: Parts, cell: Cell, content: Json)
    requires node.Own? && NodeShows(heap, node, value) && Shows(heap, cell, content) && WayIsOwn(node, parts)
    ensures Put(heap, node, parts, cell).Success? <==> Set(value, parts, content).Success?
    ensures Put(heap, node, parts, cell).Success? ==>
              var s := Put(heap, node, parts, cell).value;
              s.heap == heap && NodeShows(heap, s.output, Set(value, parts, content).value)
    decreases |parts|
  {
    if |parts| > 1 {
      if parts[0] in node.fields {
        ChildWayIsOwn(node, parts);
        var child := node.fields[parts[0]];
        if child.Own? {
          PutShows(heap, child, value.fields[parts[0]], parts[1..], cell, content);
        } else {
          assert parts[1..][..0] == [] && !BorrowsAt(child, []);
          assert value.fields[parts[0]].Leaf?;
        }
      } else {
        EmptyWayIsOwn(parts[1..]);
        PutShows(heap, Own(map[]), Object(map[]), parts[1..], cell, content);
      }
    }
  }

  lemma ChildWayIsOwn(node: Node, parts: Parts)
    requires node.Own? && |parts| > 1 && parts[0] in node.fields && WayIsOwn(node, parts)
    ensures WayIsOwn(node.fields[parts[0]], parts[1..])
  {
    forall n | 0 <= n < |parts[1..]| ensures !BorrowsAt(node.fields[parts[0]], parts[1..][..n]) {
      assert parts[..n + 1][0] == parts[0] && parts[..n + 1][1..] == parts[1..][..n];
      assert !BorrowsAt(node, parts[..n + 1]);
    }
  }

  lemma EmptyWayIsOwn(parts: seq<string>)
    ensures WayIsOwn(Own(map[]), parts)
  {
  }

  /** A write borrows at its own path, and nowhere else anew. */
  lemma {:induction false} PutBorrows(heap: Heap, node: Node, parts: Parts, cell: Cell, path: seq<string>)
    requires node.Own? && WayIsOwn(node, parts) && Put(heap, node, parts, cell).Success?
    requires BorrowsAt(Put(heap, node, parts, cell).value.output, path) && !BorrowsAt(node, path)
    ensures path == parts && cell.Link?
    decreases |parts|
  {
    var after := Put(heap, node, parts, cell).value.output;
    assert path != [] && path == [path[0]] + path[1..] && parts == [parts[0]] + parts[1..];
    if |parts| > 1 {
      if parts[0] in node.fields {
        ChildWayIsOwn(node, parts);
        NothingBorrowedHere(node, parts);
      } else {
        EmptyWayIsOwn(parts[1..]);
      }
      if path[0] == parts[0] {
        PutBorrows(heap, if parts[0] in node.fields then node.fields[parts[0]] else Own(map[]), parts[1..], cell, path[1..]);
      }
    }
  }

  lemma NothingBorrowedHere(node: Node, parts: Parts)
    requires node.Own? && |parts| > 1 && parts[0] in node.fields && WayIsOwn(node, parts)
    ensures node.fields[parts[0]].Own? || node.fields[parts[0]].cell.Text?
  {
    ChildWayIsOwn(node, parts);
    assert parts[1..][..0] == [] && !BorrowsAt(node.fields[parts[0]], []);
  }

  predicate Takes(page: Json, rule: Rule) {
    Get(page, rule.source).Some?
  }

  predicate TakesObject(page: Json, rule: Rule) {
    Takes(page, rule) && Get(page, rule.source).value.Object?
  }

  /** The path leads below the other one. */
  predicate Below(path: seq<string>, other: seq<string>) {
    other <= path && other != path
  }

  /** No value is written below an object that the identifier or an earlier rule took over from the page. */
  ghost predicate Separate(page: Json, rules: seq<Rule>)
    requires page.Object?
  {
    && (forall j :: 0 <= j < |rules| && IdOf(page).Object? && Takes(page, rules[j]) ==> !Below(rules[j].target, ID))
    && (forall i, j :: 0 <= i < j < |rules| && TakesObject(page, rules[i]) && Takes(page, rules[j]) ==>
          !Below(rules[j].target, rules[i].target))
  }

  /** What is borrowed lies where the identifier or a rule put it. */
  ghost predicate Accounted(page: Json, rules: seq<Rule>, node: Node)
    requires page.Object?
  {
    forall path :: BorrowsAt(node, path) ==>
      (path == ID && IdOf(page).Object?) || exists i :: 0 <= i < |rules| && rules[i].target == path && TakesObject(page, rules[i])
  }

  lemma MoreAccounted(page: Json, rules: seq<Rule>, node: Node)
    requires page.Object? && rules != [] && Accounted(page, rules[..|rules| - 1], node)
    ensures Accounted(page, rules, node)
  {
    forall path | BorrowsAt(node, path) && !(path == ID && IdOf(page).Object?)
      ensures exists i :: 0 <= i < |rules| && rules[i].target == path && TakesObject(page, rules[i])
    {
      var i :| 0 <= i < |rules| - 1 && rules[..|rules| - 1][i].target == path && TakesObject(page, rules[..|rules| - 1][i]);
      assert rules[i] == rules[..|rules| - 1][i];
    }
  }

  lemma SeparateWay(page: Json, rules: seq<Rule>, node: Node)
    requires page.Object? && rules != [] && Separate(page, rules) && Takes(page, rules[|rules| - 1])
    requires Accounted(page, rules[..|rules| - 1], node)
    ensures WayIsOwn(node, rules[|rules| - 1].target)
  {
    var last := |rules| - 1;
    var target := rules[last].target;
    MoreAccounted(page, rules, node);
    forall n | 0 <= n < |target| ensures !BorrowsAt(node, target[..n]) {
      assert Below(target, target[..n]);
    }
  }

  lemma PutAccounts(page: Json, rules: seq<Rule>, heap: Heap, node: Node, cell: Cell)
    requires page.Object? && node.Own? && rules != [] && Accounted(page, rules[..|rules| - 1], node)
    requires WayIsOwn(node, rules[|rules| - 1].target) && Put(heap, node, rules[|rules| - 1].target, cell).Success?
    requires cell.Link? ==> TakesObject(page, rules[|rules| - 1])
    ensures Accounted(page, rules, Put(heap, node, rules[|rules| - 1].target, cell).value.output)
  {
    var last := |rules| - 1;
    var after := Put(heap, node, rules[last].target, cell).value.output;
    MoreAccounted(page, rules, node);
    forall path | BorrowsAt(after, path) && !(path == ID && IdOf(page).Object?)
      ensures exists i :: 0 <= i < |rules| && rules[i].target == path && TakesObject(page, rules[i])
    {
      if !BorrowsAt(node, path) {
        PutBorrows(heap, node, rules[last].target, cell, path);
      }
    }
  }

  lemma StartShows(heap: Heap, r: Ref, page: Json)
    requires page.Object? && Shows(heap, Link(r), page)
    ensures NodeShows(heap, Start(heap, r).output, Opening(page)) && Accounted(page, [], Start(heap, r).output)
  {
    ReadShows(heap, Link(r), page, ID);
    assert Get(page, ID) == if "id" in page.fields then Some(page.fields["id"]) else None;
    var node := Start(heap, r).output;
    forall path | BorrowsAt(node, path) ensures path == ID && IdOf(page).Object? {
      assert path != [] && path[0] in node.fields;
      assert path == [path[0]] + path[1..];
      assert node.fields[path[0]].Borrowed? && BorrowsAt(node.fields[path[0]], path[1..]);
    }
  }

  lemma SeparateBefore(page: Json, rules: seq<Rule>)
    requires page.Object? && rules != [] && Separate(page, rules)
    ensures Separate(page, rules[..|rules| - 1])
  {
  }

  /** The run on shared objects after these rules is where the one on copies is. */
  ghost predicate Agree(heap: Heap, r: Ref, page: Json, rules: seq<Rule>)
    requires page.Object?
  {
    && (Run(heap, r, rules).Success? <==> Applied(page, rules).Success?)
    && (Applied(page, rules).Success? ==>
          var s := Run(heap, r, rules).value;
          s.heap == heap && NodeShows(heap, s.output, Applied(page, rules).value) && Accounted(page, rules, s.output))
  }

  lemma RuleAgrees(heap: Heap, r: Ref, page: Json, rules: seq<Rule>)
    requires page.Object? && Shows(heap, Link(r), page) && rules != [] && Separate(page, rules)
    requires Agree(heap, r, page, rules[..|rules| - 1])
    ensures Agree(heap, r, page, rules)
  {
    var front, last := rules[..|rules| - 1], rules[|rules| - 1];
    ReadShows(heap, Link(r), page, last.source);
    if Applied(page, front).Success? {
      var s := Run(heap, r, front).value;
      if Takes(page, last) {
        var cell, content := Read(heap, Link(r), last.source).value, Get(page, last.source).value;
        SeparateWay(page, rules, s.output);
        PutShows(heap, s.output, Applied(page, front).value, last.target, cell, content);
        if Put(heap, s.output, last.target, cell).Success? {
          PutAccounts(page, rules, heap, s.output, cell);
        }
      } else {
        MoreAccounted(page, rules, s.output);
      }
    }
  }

  /**
   * If no value is written below an object taken over from the page, working on the page's own objects changes none of
   * them, and succeeds and shows exactly what working on copies does.
   */
  lemma {:induction false} SharingIsInvisible(heap: Heap, r: Ref, page: Json, rules: seq<Rule>)
    requires page.Object? && Shows(heap, Link(r), page) && Separate(page, rules)
    ensures Run(heap, r, rules).Success? <==> Applied(page, rules).Success?
    ensures Run(heap, r, rules).Success? ==>
              var s := Run(heap, r, rules).value;
              s.heap == heap && NodeShows(heap, s.output, Applied(page, rules).value)
    ensures Agree(heap, r, page, rules)
    decreases |rules|
  {
    if rules == [] {
      StartShows(heap, r, page);
    } else {
      SeparateBefore(page, rules);
      SharingIsInvisible(heap, r, page, rules[..|rules| - 1]);
      RuleAgrees(heap, r, page, rules);
    }
  }

  /** The rules whose source is missing when their turn comes. */
  ghost function SharedSkips(heap: Heap, r: Ref, id: Json, rules: seq<Rule>): seq<Skip>
    decreases |rules|
  {
    if rules == [] then []
    else
      var front, last := rules[..|rules| - 1], rules[|rules| - 1];
      SharedSkips(heap, r, id, front)
      + if Run(heap, r, front).Success? && Read(Run(heap, r, front).value.heap, Link(r), last.source).None? then [Skip(id, last)] else []
  }

  /** Nor does it change what is skipped. */
  lemma {:induction false} SharedSkipsAgree(heap: Heap, r: Ref, page: Json, rules: seq<Rule>)
    requires page.Object? && Shows(heap, Link(r), page) && Separate(page, rules) && Applied(page, rules).Success?
    ensures SharedSkips(heap, r, IdOf(page), rules) == Skipped(page, rules)
    decreases |rules|
  {
    if rules != [] {
      var front := rules[..|rules| - 1];
      SeparateBefore(page, rules);
      SharedSkipsAgree(heap, r, page, front);
      SharingIsInvisible(heap, r, page, front);
      ReadShows(heap, Link(r), page, rules[|rules| - 1].source);
    }
  }

  // ---- an input on which they differ ----

  lemma RunNext(heap: Heap, r: Ref, rules: seq<Rule>, rule: Rule)
    requires Run(heap, r, rules).Success?
    ensures var s := Run(heap, r, rules).value;
            var cell := Read(s.heap, Link(r), rule.source);
            Run(heap, r, rules + [rule]) == if cell.None? then Success(s) else Put(s.heap, s.output, rule.target, cell.value)
  {
    assert (rules + [rule])[..|rules|] == rules;
  }

  lemma AppliedNext(page: Json, rules: seq<Rule>, rule: Rule)
    requires page.Object? && Applied(page, rules).Success?
    ensures var content := Get(page, rule.source);
            Applied(page, rules + [rule]) ==
            if content.None? then Applied(page, rules) else Set(Applied(page, rules).value, rule.target, content.value)
  {
    assert (rules + [rule])[..|rules|] == rules;
  }

  /** An empty object under `a` and a text under `b`. */
  function SmallPage(a: string, b: string, text: string): Json {
    Object(map[a := Object(map[]), b := Leaf(text)])
  }

  function SmallHeap(a: string, b: string, text: string): Heap {
    map[0 := map[a := Link(1), b := Text(text)], 1 := map[]]
  }

  function RuleOf(source: Parts, target: Parts): seq<Rule> {
    [Rule(source, target)]
  }

  /** Take `a` over as `x`, write `b` into it as `x.c`, and read that as `a.c`. */
  function SmallRules(a: string, b: string, c: string, x: string, z: string): seq<Rule> {
    RuleOf([a], [x]) + RuleOf([b], [x, c]) + RuleOf([a, c], [z])
  }

  lemma ReadOne(heap: Heap, r: Ref, name: string)
    requires r in heap && name in heap[r]
    ensures Read(heap, Link(r), [name]) == Some(heap[r][name])
  {
    assert [name][1..] == [];
  }

  lemma ReadTwo(heap: Heap, r: Ref, name: string, next: string)
    requires r in heap && name in heap[r] && heap[r][name].Link? && heap[r][name].ref in heap
    requires next in heap[heap[r][name].ref]
    ensures Read(heap, Link(r), [name, next]) == Some(heap[heap[r][name].ref][next])
  {
    assert [name, next][1..] == [next];
    ReadOne(heap, heap[r][name].ref, next);
  }

  lemma PutOne(heap: Heap, node: Node, name: string, cell: Cell)
    requires node.Own?
    ensures Put(heap, node, [name], cell) == Success(State(heap, Own(node.fields[name := Borrowed(cell)])))
  {
  }

  /** Below a borrowed object, the write goes into the page. */
  lemma PutInto(heap: Heap, node: Node, name: string, next: string, r: Ref, cell: Cell)
    requires node.Own? && name in node.fields && node.fields[name] == Borrowed(Link(r)) && r in heap
    ensures Put(heap, node, [name, next], cell) == Success(State(heap[r := heap[r][next := cell]], node))
  {
    assert [name, next][1..] == [next];
    assert Write(heap, r, [next], cell) == Success(heap[r := heap[r][next := cell]]);
  }

  lemma FirstShared(heap: Heap, a: string, x: string) returns (node: Node)
    requires 0 in heap && a in heap[0] && heap[0][a] == Link(1)
    ensures Run(heap, 0, RuleOf([a], [x])) == Success(State(heap, node))
    ensures node.Own? && x in node.fields && node.fields[x] == Borrowed(Link(1))
  {
    assert Run(heap, 0, []) == Success(Start(heap, 0));
    RunNext(heap, 0, [], Rule([a], [x]));
    assert [] + [Rule([a], [x])] == RuleOf([a], [x]);
    ReadOne(heap, 0, a);
    PutOne(heap, Start(heap, 0).output, x, Link(1));
    node := Own(Start(heap, 0).output.fields[x := Borrowed(Link(1))]);
  }

  lemma SecondShared(heap: Heap, a: string, b: string, c: string, x: string) returns (node: Node)
    requires 0 in heap && a in heap[0] && heap[0][a] == Link(1) && b in heap[0] && 1 in heap
    ensures Run(heap, 0, RuleOf([a], [x]) + RuleOf([b], [x, c])) == Success(State(heap[1 := heap[1][c := heap[0][b]]], node))
    ensures node.Own?
  {
    node := FirstShared(heap, a, x);
    RunNext(heap, 0, RuleOf([a], [x]), Rule([b], [x, c]));
    ReadOne(heap, 0, b);
    PutInto(heap, node, x, c, 1, heap[0][b]);
  }

  lemma SharedFinds(heap: Heap, a: string, b: string, c: string, x: string, z: string)
    requires 0 in heap && a in heap[0] && heap[0][a] == Link(1) && b in heap[0] && 1 in heap
    ensures var shared := Run(heap, 0, SmallRules(a, b, c, x, z)); shared.Success? && z in shared.value.output.fields
  {
    var node := SecondShared(heap, a, b, c, x);
    var written := heap[1 := heap[1][c := heap[0][b]]];
    RunNext(heap, 0, RuleOf([a], [x]) + RuleOf([b], [x, c]), Rule([a, c], [z]));
    ReadTwo(written, 0, a, c);
    PutOne(written, node, z, heap[0][b]);
  }

  lemma SetOne(value: Json, name: string, content: Json)
    requires value.Object?
    ensures Set(value, [name], content) == Success(Object(value.fields[name := content]))
  {
  }

  lemma SetTwo(value: Json, name: string, next: string, content: Json)
    requires value.Object? && name in value.fields && value.fields[name] == Object(map[])
    ensures var after := Set(value, [name, next], content); after.Success? && after.value.fields.Keys == value.fields.Keys
  {
    assert [name, next][1..] == [next];
    SetOne(Object(map[]), next, content);
  }

  lemma GetOne(page: Json, name: string)
    requires page.Object?
    ensures Get(page, [name]) == if name in page.fields then Some(page.fields[name]) else None
  {
    assert [name][1..] == [];
  }

  lemma GetTwo(page: Json, name: string, next: string)
    requires page.Object? && name in page.fields && page.fields[name] == Object(map[])
    ensures Get(page, [name, next]).None?
  {
    assert [name, next][1..] == [next];
  }

  lemma FirstCopied(page: Json, a: string, x: string)
    requires page.Object? && a in page.fields && page.fields[a] == Object(map[])
    ensures Applied(page, RuleOf([a], [x])) == Success(Object(Opening(page).fields[x := Object(map[])]))
  {
    assert Applied(page, []) == Success(Opening(page));
    AppliedNext(page, [], Rule([a], [x]));
    assert [] + [Rule([a], [x])] == RuleOf([a], [x]);
    GetOne(page, a);
    SetOne(Opening(page), x, Object(map[]));
  }

  lemma CopiedMisses(page: Json, a: string, b: string, c: string, x: string, z: string)
    requires page.Object? && a in page.fields && page.fields[a] == Object(map[]) && b in page.fields
    requires z !in Opening(page).fields && x != z
    ensures var copied := Applied(page, SmallRules(a, b, c, x, z)); copied.Success? && z !in copied.value.fields
  {
    FirstCopied(page, a, x);
    AppliedNext(page, RuleOf([a], [x]), Rule([b], [x, c]));
    GetOne(page, b);
    SetTwo(Object(Opening(page).fields[x := Object(map[])]), x, c, page.fields[b]);
    AppliedNext(page, RuleOf([a], [x]) + RuleOf([b], [x, c]), Rule([a, c], [z]));
    GetTwo(page, a, c);
  }

  lemma SmallShows(a: string, b: string, text: string)
    requires a != b
    ensures Shows(SmallHeap(a, b, text), Link(0), SmallPage(a, b, text))
  {
    var heap := SmallHeap(a, b, text);
    assert Shows(heap, Link(1), Object(map[])) && Shows(heap, Text(text), Leaf(text));
  }

  /** On the page's own objects the third rule finds a value, on copies it is skipped. */
  lemma SharingShows(a: string, b: string, c: string, x: string, z: string, text: string)
    requires a != b && x != z && z != "id"
    ensures Shows(SmallHeap(a, b, text), Link(0), SmallPage(a, b, text))
    ensures var shared := Run(SmallHeap(a, b, text), 0, SmallRules(a, b, c, x, z));
            shared.Success? && z in shared.value.output.fields
    ensures var copied := Applied(SmallPage(a, b, text), SmallRules(a, b, c, x, z));
            copied.Success? && z !in copied.value.fields
  {
    SmallShows(a, b, text);
    SharedFinds(SmallHeap(a, b, text), a, b, c, x, z);
    CopiedMisses(SmallPage(a, b, text), a, b, c, x, z);
  }
}
