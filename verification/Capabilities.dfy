/** Capability manifests, their provider bindings, and the "who produces what I need" graph. */
module Capabilities {
  import opened Ordering
  import opened Wrappers

  datatype Binding = Binding(
    skill: string, provider: string, consumes: map<string, string>, produces: map<string, string>)

  datatype Manifest = Manifest(
    name: string, version: string, inputs: seq<string>, outputs: seq<string>,
    bindings: seq<Binding>, providers: seq<string>)

  datatype Metadata = Metadata(binding: Option<Binding>, needs: seq<string>, makes: seq<string>)

  predicate KeyLess(a: Binding, b: Binding) {
    Less(a.skill, b.skill) || (a.skill == b.skill && Less(a.provider, b.provider))
  }

  predicate SameKey(a: Binding, b: Binding) {
    a.skill == b.skill && a.provider == b.provider
  }

  /** Head of the stable sort by (skill, provider). */
  function FirstBinding(bindings: seq<Binding>): Binding
    requires bindings != []
  {
    if |bindings| == 1 then bindings[0]
    else
      var rest := FirstBinding(bindings[1..]);
      if KeyLess(rest, bindings[0]) then rest else bindings[0]
  }

  function IndexOf(s: string, c: char): (i: nat)
    ensures i <= |s|
    ensures i < |s| ==> s[i] == c
    ensures c !in s[..i]
  {
    if s == "" || s[0] == c then 0
    else
      var rest := IndexOf(s[1..], c);
      assert s[..1 + rest] == [s[0]] + s[1..][..rest];
      1 + rest
  }

  function Identity(names: seq<string>): map<string, string> {
    map name | name in names :: name
  }

  /** A single declared binding, a legacy `skill.provider` name, or none; `Failure` when ambiguous. */
  function ResolveProviderBinding(m: Manifest): Result<Option<Binding>, ()> {
    LessIsStrictTotal();
    if m.bindings != [] then
      var first := FirstBinding(m.bindings);
      if exists i, j :: 0 <= i < j < |m.bindings| && SameKey(m.bindings[i], first) && SameKey(m.bindings[j], first)
      then Failure(())
      else Success(Some(first))
    else if m.providers == [] then Success(None)
    else
      var names := set p | p in m.providers;
      assert m.providers[0] in names;
      var legacy := Least(Less, names);
      var dot := IndexOf(legacy, '.');
      if dot == |legacy| then Success(None)
      else Success(Some(Binding(legacy[..dot], legacy[dot + 1..], Identity(m.inputs), Identity(m.outputs))))
  }

  function ExecutionMetadata(m: Manifest): Result<Metadata, ()> {
    match ResolveProviderBinding(m)
    case Failure(_) => Failure(())
    case Success(binding) =>
      Success(Metadata(
        binding,
        if binding.Some? && binding.value.consumes != map[] then SortedNames(binding.value.consumes.Values) else m.inputs,
        if binding.Some? && binding.value.produces != map[] then SortedNames(binding.value.produces.Values) else m.outputs))
  }

  /** A declared binding resolves exactly when its (skill, provider) is strictly below every other one's. */
  lemma ResolvedBindingIsUniqueLeast(m: Manifest)
    requires m.bindings != []
    ensures
      exists k :: 0 <= k < |m.bindings| && m.bindings[k] == FirstBinding(m.bindings) &&
        (ResolveProviderBinding(m).Success? <==>
          forall i :: 0 <= i < |m.bindings| && i != k ==> KeyLess(m.bindings[k], m.bindings[i]))
  {
    FirstBindingIsLeast(m.bindings);
    var k :| 0 <= k < |m.bindings| && m.bindings[k] == FirstBinding(m.bindings);
    if exists i, j :: TiesWithFirst(m, i, j) {
      TieIsNotLess(m, k);
    } else {
      NoTieIsLess(m, k);
    }
  }

  /** Two bindings have the first one's key. */
  ghost predicate TiesWithFirst(m: Manifest, i: int, j: int)
    requires m.bindings != []
  {
    && 0 <= i < j < |m.bindings|
    && SameKey(m.bindings[i], FirstBinding(m.bindings)) && SameKey(m.bindings[j], FirstBinding(m.bindings))
  }

  lemma TieIsNotLess(m: Manifest, k: nat)
    requires k < |m.bindings| && m.bindings[k] == FirstBinding(m.bindings) && exists i, j :: TiesWithFirst(m, i, j)
    ensures exists i :: 0 <= i < |m.bindings| && i != k && !KeyLess(m.bindings[k], m.bindings[i])
    ensures ResolveProviderBinding(m).Failure?
  {
    LessIsStrictTotal();
    var i, j :| TiesWithFirst(m, i, j);
    var other := if i == k then j else i;
    assert !KeyLess(m.bindings[k], m.bindings[other]);
  }

  lemma NoTieIsLess(m: Manifest, k: nat)
    requires k < |m.bindings| && m.bindings[k] == FirstBinding(m.bindings) && !exists i, j :: TiesWithFirst(m, i, j)
    ensures forall i :: 0 <= i < |m.bindings| && i != k ==> KeyLess(m.bindings[k], m.bindings[i])
    ensures ResolveProviderBinding(m).Success?
  {
    FirstBindingIsLeast(m.bindings);
    forall i | 0 <= i < |m.bindings| && i != k ensures KeyLess(m.bindings[k], m.bindings[i]) {
      assert !TiesWithFirst(m, if i < k then i else k, if i < k then k else i);
    }
    forall i, j ensures !(0 <= i < j < |m.bindings| && SameKey(m.bindings[i], m.bindings[k]) && SameKey(m.bindings[j], m.bindings[k])) {
      assert !TiesWithFirst(m, i, j);
    }
  }

  lemma {:induction false} FirstBindingIsLeast(bindings: seq<Binding>)
    requires bindings != []
    ensures
      var first := FirstBinding(bindings);
      first in bindings && forall b :: b in bindings ==> SameKey(b, first) || KeyLess(first, b)
  {
    LessIsStrictTotal();
    if |bindings| > 1 {
      FirstBindingIsLeast(bindings[1..]);
      assert bindings == [bindings[0]] + bindings[1..];
    }
  }

  /** The installed manifests by name, with the goal's score of each. */
  datatype Registry = Registry(installed: map<string, Manifest>, scores: map<string, int>) {

    predicate Ambiguous(name: string) {
      name in installed && ExecutionMetadata(installed[name]).Failure?
    }

    predicate Resolvable() {
      forall n :: n in installed ==> !Ambiguous(n)
    }

    /** Metadata of a capability; empty for an unresolved one, which stops planning anyway. */
    function Meta(name: string): Metadata {
      if name in installed then
        match ExecutionMetadata(installed[name])
        case Success(meta) => meta
        case Failure(_) => Metadata(None, [], [])
      else Metadata(None, [], [])
    }

    function Score(name: string): int {
      if name in scores then scores[name] else 0
    }

    /** The sort key (-score, name); names are unique, so the version never decides. */
    predicate Better(a: string, b: string) {
      Score(a) > Score(b) || (Score(a) == Score(b) && Less(a, b))
    }

    lemma BetterIsStrictTotal()
      ensures StrictTotal(Better)
    {
      LessIsStrictTotal();
    }

    function Producers(name: string, need: string): set<string> {
      set p | p in installed && p != name && need in Meta(p).makes
    }

    function Producer(name: string, need: string): (p: Option<string>)
      ensures p.None? <==> Producers(name, need) == {}
      ensures p.Some? ==> IsLeast(Better, p.value, Producers(name, need))
    {
      BetterIsStrictTotal();
      var producers := Producers(name, need);
      if producers == {} then None else Some(Least(Better, producers))
    }

    /** `from` takes some artifact from its chosen producer `to`. */
    ghost predicate Edge(from: string, to: string) {
      exists need :: need in Meta(from).needs && Producer(from, need) == Some(to)
    }

    ghost predicate IsPath(p: seq<string>) {
      p != [] && Chain((x, y) => Edge(x, y), p)
    }

    ghost predicate Reaches(from: string, to: string) {
      exists p :: IsPath(p) && p[0] == from && p[|p| - 1] == to
    }

    /** A path from `from` that comes back to one of its own nodes. */
    ghost predicate Loops(from: string, p: seq<string>) {
      IsPath(p) && p[0] == from && p[|p| - 1] in p[..|p| - 1]
    }

    ghost predicate CycleFrom(from: string) {
      exists p :: Loops(from, p)
    }

    /** `name` needs `need`, and nothing installed makes it. */
    predicate Unmet(name: string, need: string) {
      need in Meta(name).needs && Producer(name, need).None?
    }

    /** Every producer of an entry stands strictly before that entry, and nothing stands twice. */
    ghost predicate Topological(order: seq<string>) {
      && (forall i, j :: 0 <= i < j < |order| ==> order[i] != order[j])
      && (forall i, p :: 0 <= i < |order| && Edge(order[i], p) ==> p in order[..i])
    }

    lemma ReachesSelf(a: string)
      ensures Reaches(a, a)
    {
      assert IsPath([a]);
    }

    lemma ReachesStep(a: string, b: string, c: string)
      requires Edge(a, b) && Reaches(b, c)
      ensures Reaches(a, c)
    {
      var p :| IsPath(p) && p[0] == b && p[|p| - 1] == c;
      PathPrepends(a, p);
      var longer := [a] + p;
      assert longer[0] == a && longer[|longer| - 1] == c;
      assert IsPath(longer);
    }

    lemma PathPrepends(a: string, p: seq<string>)
      requires IsPath(p) && Edge(a, p[0])
      ensures IsPath([a] + p)
    {
      ChainPrepends((x, y) => Edge(x, y), a, p);
    }

    lemma PathAppends(p: seq<string>, n: string)
      requires IsPath(p) && Edge(p[|p| - 1], n)
      ensures IsPath(p + [n])
    {
      ChainAppends((x, y) => Edge(x, y), p, n);
    }

    /** Along a path that starts in a topological order, positions strictly descend. */
    lemma {:induction false} PathDescends(order: seq<string>, p: seq<string>, k: nat, i: nat)
      requires Topological(order) && IsPath(p) && k < |p| && i < |order| && order[i] == p[0]
      ensures p[k] in order[..i + 1]
      ensures k > 0 ==> p[k] in order[..i]
      decreases k
    {
      if k > 0 {
        PathDescends(order, p, k - 1, i);
        var j :| 0 <= j <= i && order[j] == p[k - 1];
        assert Edge(order[j], p[k]);
        assert order[..j] <= order[..i];
      }
    }

    lemma TopologicalIsClosed(order: seq<string>, i: nat, n: string)
      requires Topological(order) && i < |order| && Reaches(order[i], n)
      ensures n in order[..i + 1]
    {
      var p :| IsPath(p) && p[0] == order[i] && p[|p| - 1] == n;
      PathDescends(order, p, |p| - 1, i);
    }

    lemma SuffixIsPath(p: seq<string>, k: nat)
      requires IsPath(p) && k < |p|
      ensures IsPath(p[k..])
    {
      forall i | 0 <= i < |p[k..]| - 1 ensures Edge(p[k..][i], p[k..][i + 1]) {
        assert Edge(p[k + i], p[k + i + 1]);
      }
    }

    /** A closed path through a place of a topological order would lie strictly before itself. */
    lemma NoClosedPath(order: seq<string>, j: nat, p: seq<string>)
      requires Topological(order) && j < |order| && IsPath(p) && |p| > 1 && p[0] == order[j]
      ensures p[|p| - 1] != order[j]
    {
      PathDescends(order, p, |p| - 1, j);
    }

    /** A path from place `i` that is at the same node at `k` and at its end. */
    lemma NoReturn(order: seq<string>, i: nat, p: seq<string>, k: nat)
      requires Topological(order) && i < |order| && IsPath(p) && p[0] == order[i]
      requires k < |p| - 1
      ensures p[k] != p[|p| - 1]
    {
      PathDescends(order, p, k, i);
      var j :| 0 <= j <= i && order[j] == p[k];
      SuffixIsPath(p, k);
      NoClosedPath(order, j, p[k..]);
    }

    lemma TopologicalIsAcyclic(order: seq<string>, i: nat, p: seq<string>)
      requires Topological(order) && i < |order|
      ensures !Loops(order[i], p)
    {
      if IsPath(p) && p[0] == order[i] {
        forall k | 0 <= k < |p| - 1 ensures p[k] != p[|p| - 1] {
          NoReturn(order, i, p, k);
        }
      }
    }
  }
}
