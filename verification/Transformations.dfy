/** Content transformation: reading and writing dotted paths in nested objects, and applying rules to pages. */
module Transformations {
  import opened Wrappers

  /** A JSON value as far as paths see it. */
  datatype Json = Object(fields: map<string, Json>) | Leaf(text: string)

  /** A dotted path, split at its dots; never empty. */
  type Parts = parts: seq<string> | parts != [] witness [""]

  const NULL := Leaf("null")

  datatype TransformError = TargetConflict

  /** `_get_path`. */
  function Get(value: Json, parts: seq<string>): Option<Json> {
    if parts == [] then Some(value)
    else if value.Object? && parts[0] in value.fields then Get(value.fields[parts[0]], parts[1..])
    else None
  }

  /** `_set_path`: missing objects on the way are created, anything else on the way is a conflict. */
  function Set(value: Json, parts: Parts, content: Json): Result<Json, TransformError>
    requires value.Object?
    ensures Set(value, parts, content).Success? ==> Set(value, parts, content).value.Object?
    decreases |parts|
  {
    if |parts| == 1 then Success(Object(value.fields[parts[0] := content]))
    else
      var child := if parts[0] in value.fields then value.fields[parts[0]] else Object(map[]);
      if !child.Object? then Failure(TargetConflict)
      else
        match Set(child, parts[1..], content)
        case Failure(e) => Failure(e)
        case Success(child') => Success(Object(value.fields[parts[0] := child']))
  }

  /** One path leads through or to the other. */
  predicate Related(a: seq<string>, b: seq<string>) {
    a <= b || b <= a
  }

  // ---- laws ----

  lemma {:induction false} GetSet(value: Json, parts: Parts, content: Json)
    requires value.Object? && Set(value, parts, content).Success?
    ensures Get(Set(value, parts, content).value, parts) == Some(content)
    decreases |parts|
  {
    if |parts| == 1 {
      assert parts[1..] == [];
    } else {
      var child := if parts[0] in value.fields then value.fields[parts[0]] else Object(map[]);
      GetSet(child, parts[1..], content);
    }
  }

  lemma RelatedTails(a: seq<string>, b: seq<string>)
    requires a != [] && b != [] && a[0] == b[0]
    ensures Related(a, b) <==> Related(a[1..], b[1..])
  {
    assert a == [a[0]] + a[1..] && b == [b[0]] + b[1..];
  }

  lemma NothingInEmpty(parts: seq<string>)
    requires parts != []
    ensures Get(Object(map[]), parts) == None
  {
  }

  /** Writing one path leaves every unrelated path as it was. */
  lemma {:induction false} GetOther(value: Json, parts: Parts, content: Json, other: seq<string>)
    requires value.Object? && Set(value, parts, content).Success? && !Related(parts, other)
    ensures Get(Set(value, parts, content).value, other) == Get(value, other)
    decreases |parts|
  {
    if other[0] == parts[0] {
      RelatedTails(parts, other);
      var child := if parts[0] in value.fields then value.fields[parts[0]] else Object(map[]);
      if |parts| > 1 {
        GetOther(child, parts[1..], content, other[1..]);
        if parts[0] !in value.fields {
          NothingInEmpty(other[1..]);
        }
      }
    }
  }

  /** Writing succeeds exactly when nothing but objects lies on the way. */
  lemma {:induction false} SetSucceeds(value: Json, parts: Parts, content: Json)
    requires value.Object?
    ensures Set(value, parts, content).Success? <==>
              forall n :: 0 < n < |parts| ==> Get(value, parts[..n]).None? || Get(value, parts[..n]).value.Object?
    decreases |parts|
  {
    if |parts| > 1 {
      var child := if parts[0] in value.fields then value.fields[parts[0]] else Object(map[]);
      assert parts[..1][1..] == [];
      forall n | 0 < n < |parts| ensures parts[..n][0] == parts[0] && parts[..n][1..] == parts[1..][..n - 1] {}
      if child.Object? {
        SetSucceeds(child, parts[1..], content);
        WayAhead(value, parts, child);
      } else {
        assert Get(value, parts[..1]) == Some(child);
      }
    }
  }

  /** The way to a path lies clear from the root exactly when it does from the first step on. */
  lemma WayAhead(value: Json, parts: Parts, child: Json)
    requires value.Object? && |parts| > 1 && child.Object?
    requires child == if parts[0] in value.fields then value.fields[parts[0]] else Object(map[])
    ensures (forall n :: 0 < n < |parts| ==> Get(value, parts[..n]).None? || Get(value, parts[..n]).value.Object?) <==>
            (forall n :: 0 < n < |parts[1..]| ==>
               Get(child, parts[1..][..n]).None? || Get(child, parts[1..][..n]).value.Object?)
  {
    forall n | 0 < n < |parts[1..]|
      ensures Get(value, parts[..n + 1]).None? || Get(value, parts[..n + 1]).value.Object? <==>
              Get(child, parts[1..][..n]).None? || Get(child, parts[1..][..n]).value.Object?
    {
      assert parts[..n + 1][1..] == parts[1..][..n];
    }
    forall n | 0 < n < |parts|
      ensures n > 1 ==> (Get(value, parts[..n]).None? || Get(value, parts[..n]).value.Object? <==>
                         Get(child, parts[1..][..n - 1]).None? || Get(child, parts[1..][..n - 1]).value.Object?)
    {
      assert parts[..n][1..] == parts[1..][..n - 1];
    }
    assert parts[..1][1..] == [];
    assert Get(value, parts[..1]).None? || Get(value, parts[..1]).value.Object?;
  }

  /** A write elsewhere puts nothing in the way. */
  lemma UnrelatedKeepsClear(value: Json, parts: Parts, content: Json, other: Parts, more: Json)
    requires value.Object? && Set(value, parts, content).Success? && Set(value, other, more).Success? && !Related(parts, other)
    ensures Set(Set(value, parts, content).value, other, more).Success?
  {
    var after := Set(value, parts, content).value;
    SetSucceeds(value, other, more);
    SetSucceeds(after, other, more);
    forall n | 0 < n < |other| ensures Get(after, other[..n]).None? || Get(after, other[..n]).value.Object? {
      if Related(parts, other[..n]) {
        assert other[..n] <= parts && other[..n] != parts;
        OnTheWayIsObject(value, parts, content, n);
        assert other[..n] == parts[..n];
      } else {
        GetOther(value, parts, content, other[..n]);
      }
    }
  }

  /** What lies on the way to a written path is an object afterwards. */
  lemma {:induction false} OnTheWayIsObject(value: Json, parts: Parts, content: Json, n: nat)
    requires value.Object? && Set(value, parts, content).Success? && n < |parts|
    ensures Get(Set(value, parts, content).value, parts[..n]).Some?
    ensures Get(Set(value, parts, content).value, parts[..n]).value.Object?
    decreases |parts|
  {
    if n > 0 {
      var child := if parts[0] in value.fields then value.fields[parts[0]] else Object(map[]);
      OnTheWayIsObject(child, parts[1..], content, n - 1);
      assert parts[..n][1..] == parts[1..][..n - 1];
    }
  }

  function Child(value: Json, name: string): Json
    requires value.Object?
  {
    if name in value.fields then value.fields[name] else Object(map[])
  }

  /** A longer path is written through the child. */
  lemma SetThroughChild(value: Json, parts: Parts, content: Json)
    requires value.Object? && |parts| > 1 && Set(value, parts, content).Success?
    ensures Child(value, parts[0]).Object? && Set(Child(value, parts[0]), parts[1..], content).Success?
    ensures Set(value, parts, content).value
         == Object(value.fields[parts[0] := Set(Child(value, parts[0]), parts[1..], content).value])
  {
  }

  /** What the write makes of the path's first field depends on that field alone. */
  ghost predicate Rewrites(value: Json, parts: Parts, content: Json, child: Json)
    requires value.Object?
  {
    forall other: Json :: other.Object? && Child(other, parts[0]) == Child(value, parts[0]) ==>
      Set(other, parts, content) == Success(Object(other.fields[parts[0] := child]))
  }

  lemma SetRewrites(value: Json, parts: Parts, content: Json) returns (child: Json)
    requires value.Object? && Set(value, parts, content).Success?
    ensures Rewrites(value, parts, content, child)
    ensures Set(value, parts, content) == Success(Object(value.fields[parts[0] := child]))
  {
    child := Set(value, parts, content).value.fields[parts[0]];
  }

  lemma SetsCommuteApart(value: Json, a: Parts, x: Json, b: Parts, y: Json)
    requires value.Object? && Set(value, a, x).Success? && Set(value, b, y).Success? && a[0] != b[0]
    ensures Set(Set(value, a, x).value, b, y).Success?
    ensures Set(Set(value, a, x).value, b, y) == Set(Set(value, b, y).value, a, x)
  {
    var p := SetRewrites(value, a, x);
    var q := SetRewrites(value, b, y);
    assert value.fields[a[0] := p][b[0] := q] == value.fields[b[0] := q][a[0] := p];
  }

  /** Writes to unrelated paths commute. */
  lemma {:induction false} SetsCommute(value: Json, a: Parts, x: Json, b: Parts, y: Json)
    requires value.Object? && Set(value, a, x).Success? && Set(value, b, y).Success? && !Related(a, b)
    ensures Set(Set(value, a, x).value, b, y).Success?
    ensures Set(Set(value, a, x).value, b, y) == Set(Set(value, b, y).value, a, x)
    decreases |a|
  {
    if a[0] != b[0] {
      SetsCommuteApart(value, a, x, b, y);
    } else {
      RelatedTails(a, b);
      SetThroughChild(value, a, x);
      SetThroughChild(value, b, y);
      SetsCommute(Child(value, a[0]), a[1..], x, b[1..], y);
      SetTwiceThroughChild(value, a, x, b, y);
      SetTwiceThroughChild(value, b, y, a, x);
    }
  }

  /** Two writes through the same child. */
  lemma SetTwiceThroughChild(value: Json, a: Parts, x: Json, b: Parts, y: Json)
    requires value.Object? && Set(value, a, x).Success? && Set(value, b, y).Success? && !Related(a, b) && a[0] == b[0]
    requires |a| > 1 && |b| > 1 && Child(value, a[0]).Object?
    requires Set(Child(value, a[0]), a[1..], x).Success? && Set(Set(Child(value, a[0]), a[1..], x).value, b[1..], y).Success?
    ensures Set(Set(value, a, x).value, b, y)
         == Success(Object(value.fields[a[0] := Set(Set(Child(value, a[0]), a[1..], x).value, b[1..], y).value]))
  {
    var after := Set(value, a, x).value;
    var child := Set(Child(value, a[0]), a[1..], x).value;
    SetThroughChild(value, a, x);
    assert after == Object(value.fields[a[0] := child]) && Child(after, b[0]) == child;
    UnrelatedKeepsClear(value, a, x, b, y);
    SetThroughChild(after, b, y);
    assert value.fields[a[0] := child][a[0] := Set(child, b[1..], y).value] == value.fields[a[0] := Set(child, b[1..], y).value];
  }

  // ---- rules ----

  datatype Rule = Rule(source: Parts, target: Parts)

  /** A page without the value a rule asks for. */
  datatype Skip = Skip(id: Json, rule: Rule)

  const ID: Parts := ["id"]

  function IdOf(page: Json): Json
    requires page.Object?
  {
    if "id" in page.fields then page.fields["id"] else NULL
  }

  function Opening(page: Json): Json
    requires page.Object?
  {
    Object(map["id" := IdOf(page)])
  }

  /** The page's output after some rules. */
  function Applied(page: Json, rules: seq<Rule>): (r: Result<Json, TransformError>)
    requires page.Object?
    ensures r.Success? ==> r.value.Object?
    decreases |rules|
  {
    if rules == [] then Success(Opening(page))
    else
      var last := rules[|rules| - 1];
      match Applied(page, rules[..|rules| - 1])
      case Failure(e) => Failure(e)
      case Success(output) =>
        match Get(page, last.source)
        case None => Success(output)
        case Some(content) => Set(output, last.target, content)
  }

  function Skipped(page: Json, rules: seq<Rule>): seq<Skip>
    requires page.Object?
  {
    if rules == [] then []
    else
      var last := rules[|rules| - 1];
      Skipped(page, rules[..|rules| - 1]) + if Get(page, last.source).None? then [Skip(IdOf(page), last)] else []
  }

  function AllSkipped(pages: seq<Json>, rules: seq<Rule>): seq<Skip>
    requires forall i :: 0 <= i < |pages| ==> pages[i].Object?
  {
    if pages == [] then [] else AllSkipped(pages[..|pages| - 1], rules) + Skipped(pages[|pages| - 1], rules)
  }

  datatype Transformed = Transformed(pages: seq<Json>, skipped: seq<Skip>)

  /** `transform_content`, for pages that are objects and rules with both paths. */
  method TransformContent(pages: seq<Json>, rules: seq<Rule>) returns (r: Result<Transformed, TransformError>, applied: nat)
    requires forall i :: 0 <= i < |pages| ==> pages[i].Object?
    ensures r.Success? <==> forall i :: 0 <= i < |pages| ==> Applied(pages[i], rules).Success?
    ensures r.Success? ==>
              && |r.value.pages| == |pages|
              && (forall i :: 0 <= i < |pages| ==> Success(r.value.pages[i]) == Applied(pages[i], rules))
              && r.value.skipped == AllSkipped(pages, rules)
              && applied + |r.value.skipped| == |pages| * |rules|
  {
    var outputs: seq<Json> := [];
    var skipped: seq<Skip> := [];
    applied := 0;
    for n := 0 to |pages|
      invariant |outputs| == n
      invariant forall i :: 0 <= i < n ==> Success(outputs[i]) == Applied(pages[i], rules)
      invariant skipped == AllSkipped(pages[..n], rules)
      invariant applied + |skipped| == n * |rules|
    {
      assert pages[..n + 1][..n] == pages[..n];
      OneMorePage(n, |rules|);
      var one, missing, count := TransformPage(pages[n], rules);
      if one.Failure? {
        return Failure(one.error), applied;
      }
      outputs := outputs + [one.value];
      skipped := skipped + missing;
      applied := applied + count;
    }
    assert pages[..|pages|] == pages;
    r := Success(Transformed(outputs, skipped));
  }

  lemma OneMorePage(pages: nat, rules: nat)
    ensures (pages + 1) * rules == pages * rules + rules
  {
  }

  method TransformPage(page: Json, rules: seq<Rule>)
    returns (output: Result<Json, TransformError>, skipped: seq<Skip>, applied: nat)
    requires page.Object?
    ensures output == Applied(page, rules)
    ensures output.Success? ==> skipped == Skipped(page, rules) && applied + |skipped| == |rules|
  {
    var current := Opening(page);
    skipped := [];
    applied := 0;
    for n := 0 to |rules|
      invariant current.Object? && Applied(page, rules[..n]) == Success(current)
      invariant skipped == Skipped(page, rules[..n])
      invariant applied + |skipped| == n
    {
      assert rules[..n + 1][..n] == rules[..n];
      var content := Get(page, rules[n].source);
      if content.None? {
        skipped := skipped + [Skip(IdOf(page), rules[n])];
        continue;
      }
      var written := Set(current, rules[n].target, content.value);
      if written.Failure? {
        FailsForGood(page, rules, n + 1);
        return written, skipped, applied;
      }
      current := written.value;
      applied := applied + 1;
    }
    assert rules[..|rules|] == rules;
    output := Success(current);
  }

  lemma {:induction false} FailsForGood(page: Json, rules: seq<Rule>, n: nat)
    requires page.Object? && n <= |rules| && Applied(page, rules[..n]).Failure?
    ensures Applied(page, rules) == Applied(page, rules[..n])
    decreases |rules|
  {
    if n == |rules| {
      assert rules[..n] == rules;
    } else {
      assert rules[..|rules| - 1][..n] == rules[..n];
      FailsForGood(page, rules[..|rules| - 1], n);
    }
  }

  /** No target leads to or through another one, or through the identifier. */
  ghost predicate Independent(rules: seq<Rule>) {
    && (forall i :: 0 <= i < |rules| ==> !Related(rules[i].target, ID))
    && (forall i, j :: 0 <= i < j < |rules| ==> !Related(rules[i].target, rules[j].target))
  }

  /** The identifier and every present source value are where they belong. */
  ghost predicate Delivered(page: Json, rules: seq<Rule>, output: Json)
    requires page.Object?
  {
    Get(output, ID) == Some(IdOf(page)) && forall i :: 0 <= i < |rules| ==> Holds(page, output, rules[i])
  }

  /** A present source value is at its target. */
  predicate Holds(page: Json, output: Json, rule: Rule) {
    Get(page, rule.source).Some? ==> Get(output, rule.target) == Get(page, rule.source)
  }

  predicate Apart(rules: seq<Rule>, path: seq<string>) {
    path != [] && !Related(ID, path) && forall i :: 0 <= i < |rules| ==> !Related(rules[i].target, path)
  }

  /** Nothing else is in the output. */
  ghost predicate NothingElse(rules: seq<Rule>, output: Json) {
    forall path: seq<string> :: Apart(rules, path) ==> Get(output, path) == None
  }

  predicate NotBelow(rules: seq<Rule>, path: seq<string>) {
    path != [] && !(ID <= path) && forall i :: 0 <= i < |rules| ==> !(rules[i].target <= path)
  }

  /** Above the targets there are only objects. */
  ghost predicate Clear(rules: seq<Rule>, output: Json) {
    forall path: seq<string> :: NotBelow(rules, path) ==> Get(output, path).None? || Get(output, path).value.Object?
  }

  /** What a page's output holds after independent rules. */
  ghost predicate Rendered(page: Json, rules: seq<Rule>, output: Json)
    requires page.Object?
  {
    Delivered(page, rules, output) && NothingElse(rules, output) && Clear(rules, output)
  }

  lemma FewerRules(rules: seq<Rule>)
    requires rules != [] && Independent(rules)
    ensures Independent(rules[..|rules| - 1])
    ensures !Related(rules[|rules| - 1].target, ID)
    ensures forall i :: 0 <= i < |rules| - 1 ==> !Related(rules[i].target, rules[|rules| - 1].target)
  {
  }

  lemma SkippedRule(page: Json, rules: seq<Rule>, output: Json)
    requires page.Object? && rules != [] && Get(page, rules[|rules| - 1].source).None?
    requires Rendered(page, rules[..|rules| - 1], output)
    ensures Rendered(page, rules, output)
  {
    var n := |rules| - 1;
    forall path: seq<string> ensures Apart(rules, path) ==> Apart(rules[..n], path) {}
    forall path: seq<string> ensures NotBelow(rules, path) ==> NotBelow(rules[..n], path) {}
    forall i | 0 <= i < n ensures rules[..n][i] == rules[i] {}
  }

  /** Independent targets never conflict, and each holds its source's value afterwards; nothing else appears. */
  lemma {:induction false} IndependentRulesDeliver(page: Json, rules: seq<Rule>)
    requires page.Object? && Independent(rules)
    ensures Applied(page, rules).Success?
    ensures Rendered(page, rules, Applied(page, rules).value)
    decreases |rules|
  {
    if rules == [] {
      OpeningDelivers(page);
    } else {
      var n := |rules| - 1;
      FewerRules(rules);
      IndependentRulesDeliver(page, rules[..n]);
      if Get(page, rules[n].source).Some? {
        RuleDelivers(page, rules, Applied(page, rules[..n]).value);
      } else {
        SkippedRule(page, rules, Applied(page, rules[..n]).value);
      }
    }
  }

  lemma RuleDelivers(page: Json, rules: seq<Rule>, before: Json)
    requires page.Object? && before.Object? && rules != [] && Independent(rules)
    requires Rendered(page, rules[..|rules| - 1], before) && Get(page, rules[|rules| - 1].source).Some?
    ensures var last := rules[|rules| - 1];
            var after := Set(before, last.target, Get(page, last.source).value);
            after.Success? && Rendered(page, rules, after.value)
  {
    var content := Get(page, rules[|rules| - 1].source).value;
    TargetIsClear(rules, before, content);
    ValueArrives(page, rules, before, content);
    NothingElseArrives(rules, before, content);
    StaysClear(rules, before, content);
  }

  lemma OpeningDelivers(page: Json)
    requires page.Object?
    ensures Delivered(page, [], Opening(page)) && NothingElse([], Opening(page)) && Clear([], Opening(page))
  {
    assert ID[1..] == [];
    forall path: seq<string> | path != [] && path[0] == "id" ensures ID <= path {}
  }

  lemma TargetIsClear(rules: seq<Rule>, before: Json, content: Json)
    requires before.Object? && rules != [] && Independent(rules) && Clear(rules[..|rules| - 1], before)
    ensures Set(before, rules[|rules| - 1].target, content).Success?
  {
    var n := |rules| - 1;
    var target := rules[n].target;
    SetSucceeds(before, target, content);
    forall k | 0 < k < |target| ensures Get(before, target[..k]).None? || Get(before, target[..k]).value.Object? {
      assert !Related(target, ID);
      assert NotBelow(rules[..n], target[..k]) by {
        assert ID <= target[..k] ==> ID <= target;
        forall i | 0 <= i < n ensures !(rules[..n][i].target <= target[..k]) {
          assert !Related(rules[i].target, rules[n].target);
        }
      }
    }
  }

  lemma RuleApart(rules: seq<Rule>, i: nat)
    requires rules != [] && i < |rules| - 1 && Independent(rules)
    ensures !Related(rules[|rules| - 1].target, rules[i].target)
  {
    assert !Related(rules[i].target, rules[|rules| - 1].target);
  }

  lemma ValueStays(page: Json, rules: seq<Rule>, before: Json, content: Json, i: nat)
    requires before.Object? && rules != [] && i < |rules| - 1 && Independent(rules)
    requires Set(before, rules[|rules| - 1].target, content).Success?
    requires Holds(page, before, rules[i])
    ensures Holds(page, Set(before, rules[|rules| - 1].target, content).value, rules[i])
  {
    RuleApart(rules, i);
    GetOther(before, rules[|rules| - 1].target, content, rules[i].target);
  }

  lemma IdStays(rules: seq<Rule>, before: Json, content: Json)
    requires before.Object? && rules != [] && Independent(rules)
    requires Set(before, rules[|rules| - 1].target, content).Success?
    ensures Get(Set(before, rules[|rules| - 1].target, content).value, ID) == Get(before, ID)
  {
    GetOther(before, rules[|rules| - 1].target, content, ID);
  }

  lemma WasDelivered(page: Json, rules: seq<Rule>, before: Json, i: nat)
    requires page.Object? && i < |rules| - 1 && Delivered(page, rules[..|rules| - 1], before)
    ensures Holds(page, before, rules[i])
  {
    assert rules[..|rules| - 1][i] == rules[i];
  }

  lemma DeliveredToAll(page: Json, rules: seq<Rule>, output: Json)
    requires page.Object? && Get(output, ID) == Some(IdOf(page))
    requires forall i :: 0 <= i < |rules| ==> Holds(page, output, rules[i])
    ensures Delivered(page, rules, output)
  {
  }

  lemma HoldsAfter(page: Json, rules: seq<Rule>, before: Json, content: Json, i: nat)
    requires page.Object? && before.Object? && i < |rules| && Independent(rules)
    requires Delivered(page, rules[..|rules| - 1], before)
    requires Get(page, rules[|rules| - 1].source) == Some(content)
    requires Set(before, rules[|rules| - 1].target, content).Success?
    ensures Holds(page, Set(before, rules[|rules| - 1].target, content).value, rules[i])
  {
    if i < |rules| - 1 {
      WasDelivered(page, rules, before, i);
      ValueStays(page, rules, before, content, i);
    } else {
      GetSet(before, rules[i].target, content);
    }
  }

  lemma ValueArrives(page: Json, rules: seq<Rule>, before: Json, content: Json)
    requires page.Object? && before.Object? && rules != [] && Independent(rules)
    requires Delivered(page, rules[..|rules| - 1], before)
    requires Get(page, rules[|rules| - 1].source) == Some(content)
    requires Set(before, rules[|rules| - 1].target, content).Success?
    ensures Delivered(page, rules, Set(before, rules[|rules| - 1].target, content).value)
  {
    var after := Set(before, rules[|rules| - 1].target, content).value;
    IdStays(rules, before, content);
    forall i | 0 <= i < |rules| ensures Holds(page, after, rules[i]) {
      HoldsAfter(page, rules, before, content, i);
    }
    DeliveredToAll(page, rules, after);
  }

  lemma NothingElseArrives(rules: seq<Rule>, before: Json, content: Json)
    requires before.Object? && rules != [] && NothingElse(rules[..|rules| - 1], before)
    requires Set(before, rules[|rules| - 1].target, content).Success?
    ensures NothingElse(rules, Set(before, rules[|rules| - 1].target, content).value)
  {
    var n := |rules| - 1;
    var after := Set(before, rules[n].target, content).value;
    forall path: seq<string> | Apart(rules, path) ensures Get(after, path) == None {
      assert Apart(rules[..n], path);
      assert !Related(rules[n].target, path);
      GetOther(before, rules[n].target, content, path);
    }
  }

  lemma StaysClear(rules: seq<Rule>, before: Json, content: Json)
    requires before.Object? && rules != [] && Clear(rules[..|rules| - 1], before)
    requires Set(before, rules[|rules| - 1].target, content).Success?
    ensures Clear(rules, Set(before, rules[|rules| - 1].target, content).value)
  {
    var n := |rules| - 1;
    var target := rules[n].target;
    var after := Set(before, target, content).value;
    forall path: seq<string> | NotBelow(rules, path) ensures Get(after, path).None? || Get(after, path).value.Object? {
      assert !(rules[n].target <= path);
      if path <= target {
        OnTheWayIsObject(before, target, content, |path|);
        assert target[..|path|] == path;
      } else {
        assert NotBelow(rules[..n], path);
        GetOther(before, target, content, path);
      }
    }
  }

  function Write(page: Json, output: Json, rule: Rule): (r: Result<Json, TransformError>)
    requires output.Object?
    ensures r.Success? ==> r.value.Object?
  {
    match Get(page, rule.source)
    case None => Success(output)
    case Some(content) => Set(output, rule.target, content)
  }

  lemma AppliedNext(page: Json, rules: seq<Rule>, rule: Rule)
    requires page.Object? && Applied(page, rules).Success?
    ensures Applied(page, rules + [rule]) == Write(page, Applied(page, rules).value, rule)
  {
    assert (rules + [rule])[..|rules|] == rules;
  }

  lemma WritesCommute(page: Json, output: Json, a: Rule, b: Rule)
    requires output.Object? && !Related(a.target, b.target)
    requires Write(page, output, a).Success? && Write(page, output, b).Success?
    ensures Write(page, Write(page, output, a).value, b).Success?
    ensures Write(page, Write(page, output, a).value, b) == Write(page, Write(page, output, b).value, a)
  {
    if Get(page, a.source).Some? && Get(page, b.source).Some? {
      SetsCommute(output, a.target, Get(page, a.source).value, b.target, Get(page, b.source).value);
    }
  }

  lemma IndependentPrefix(rules: seq<Rule>, more: seq<Rule>)
    requires Independent(rules + more)
    ensures Independent(rules)
  {
    assert forall i :: 0 <= i < |rules| ==> (rules + more)[i] == rules[i];
  }

  lemma LastTwoCommute(page: Json, front: seq<Rule>, a: Rule, b: Rule)
    requires page.Object? && Independent(front + [a] + [b])
    ensures Applied(page, front + [a] + [b]) == Applied(page, front + [b] + [a])
  {
    IndependentPrefix(front + [a], [b]);
    IndependentPrefix(front, [a]);
    WithoutMiddle(front, a, b);
    IndependentRulesDeliver(page, front);
    IndependentRulesDeliver(page, front + [a]);
    IndependentRulesDeliver(page, front + [b]);
    AppliedNext(page, front, a);
    AppliedNext(page, front, b);
    AppliedNext(page, front + [a], b);
    AppliedNext(page, front + [b], a);
    WritesCommute(page, Applied(page, front).value, a, b);
  }

  lemma WithoutMiddle(front: seq<Rule>, a: Rule, b: Rule)
    requires Independent(front + [a] + [b])
    ensures Independent(front + [b]) && !Related(a.target, b.target)
  {
    var all := front + [a] + [b];
    assert all[|front|] == a && all[|front| + 1] == b;
    assert forall i :: 0 <= i < |front| ==> all[i] == front[i] == (front + [b])[i];
  }

  /** The order of independent rules does not matter: any two neighbours may change places. */
  lemma {:induction false} RuleOrderDoesNotMatter(page: Json, front: seq<Rule>, a: Rule, b: Rule, back: seq<Rule>)
    requires page.Object? && Independent(front + [a] + [b] + back)
    ensures Applied(page, front + [a] + [b] + back) == Applied(page, front + [b] + [a] + back)
    decreases |back|
  {
    if back == [] {
      assert front + [a] + [b] + back == front + [a] + [b];
      assert front + [b] + [a] + back == front + [b] + [a];
      LastTwoCommute(page, front, a, b);
    } else {
      var n := |back| - 1;
      var left := front + [a] + [b] + back[..n];
      var right := front + [b] + [a] + back[..n];
      assert back == back[..n] + [back[n]];
      assert front + [a] + [b] + back == left + [back[n]];
      assert front + [b] + [a] + back == right + [back[n]];
      IndependentPrefix(left, [back[n]]);
      RuleOrderDoesNotMatter(page, front, a, b, back[..n]);
      SameNext(page, left, right, back[n]);
    }
  }

  lemma SameNext(page: Json, rules: seq<Rule>, rules': seq<Rule>, rule: Rule)
    requires page.Object? && Applied(page, rules) == Applied(page, rules')
    ensures Applied(page, rules + [rule]) == Applied(page, rules' + [rule])
  {
    assert (rules + [rule])[..|rules|] == rules;
    assert (rules' + [rule])[..|rules'|] == rules';
  }
}
