/** Slash-separated repository paths, as strings and as component lists. */
module Paths {
  type Path = string

  /** `path == root or path.startswith(f"{root}/")`. */
  predicate Under(path: Path, root: Path) {
    path == root || root + "/" <= path
  }

  /** Components between slashes; never empty. */
  function Split(path: Path): (q: seq<string>)
    ensures q != []
  {
    if path == "" then [""]
    else
      var rest := Split(path[1..]);
      if path[0] == '/' then [""] + rest else [[path[0]] + rest[0]] + rest[1..]
  }

  function Join(components: seq<string>): Path
    requires components != []
  {
    if |components| == 1 then components[0] else components[0] + "/" + Join(components[1..])
  }

  lemma {:induction false} JoinSplit(path: Path)
    ensures Join(Split(path)) == path
  {
    if path != "" {
      JoinSplit(path[1..]);
      var rest := Split(path[1..]);
      if path[0] == '/' {
        assert ([""] + rest)[1..] == rest;
      } else {
        var q := [[path[0]] + rest[0]] + rest[1..];
        assert q[1..] == rest[1..];
        assert path == [path[0]] + path[1..];
      }
    }
  }

  lemma {:induction false} SplitConcat(a: Path, b: Path)
    ensures Split(a + "/" + b) == Split(a) + Split(b)
  {
    if a == "" {
      assert a + "/" + b == "/" + b;
      assert ("/" + b)[1..] == b;
    } else {
      var whole := a + "/" + b;
      assert whole[1..] == a[1..] + "/" + b;
      SplitConcat(a[1..], b);
    }
  }

  /** The string test is exactly "`root`'s components begin `path`'s". */
  lemma UnderIsComponentPrefix(path: Path, root: Path)
    ensures Under(path, root) <==> Split(root) <= Split(path)
  {
    if root + "/" <= path {
      var rest := path[|root| + 1..];
      assert path == root + "/" + rest;
      SplitConcat(root, rest);
    }
    if Split(root) <= Split(path) {
      var rest := Split(path)[|Split(root)|..];
      JoinSplit(path);
      JoinSplit(root);
      if rest == [] {
        assert Split(root) == Split(path);
      } else {
        assert Split(path) == Split(root) + rest;
        JoinConcat(Split(root), rest);
      }
    }
  }

  lemma {:induction false} JoinConcat(a: seq<string>, b: seq<string>)
    requires a != [] && b != []
    ensures Join(a + b) == Join(a) + "/" + Join(b)
  {
    assert (a + b)[1..] == a[1..] + b;
    if |a| > 1 {
      JoinConcat(a[1..], b);
    }
  }

  /** Equal, ancestor or descendant. */
  predicate Overlap(a: Path, b: Path) {
    Under(a, b) || Under(b, a)
  }

  /** Two sets of paths without any equal, ancestor or descendant pair. */
  ghost predicate Clear(a: set<Path>, b: set<Path>) {
    forall p, q :: p in a && q in b ==> !Overlap(p, q)
  }

  /** Every path of `inner` is, or lies under, a path of `outer`. */
  ghost predicate Covers(outer: set<Path>, inner: set<Path>) {
    forall p :: p in inner ==> exists q :: q in outer && Under(p, q)
  }

  /** Whatever overlaps a path overlaps each of its ancestors. */
  lemma OverlapClimbs(p: Path, ancestor: Path, other: Path)
    requires Under(p, ancestor) && Overlap(p, other)
    ensures Overlap(ancestor, other)
  {
    UnderIsComponentPrefix(p, ancestor);
    UnderIsComponentPrefix(p, other);
    UnderIsComponentPrefix(other, p);
    UnderIsComponentPrefix(ancestor, other);
    UnderIsComponentPrefix(other, ancestor);
  }

  /** Longer than every path of the set. */
  ghost function Longest(paths: set<Path>): (n: nat)
    ensures forall p :: p in paths ==> |p| <= n
  {
    if paths == {} then 0
    else
      var p :| p in paths;
      var n := Longest(paths - {p});
      if |p| <= n then n else |p|
  }

  /** A child of `p` longer than anything in `paths` overlaps only ancestors of `p` there. */
  lemma LongChildOverlapsAncestorsOnly(p: Path, paths: set<Path>, child: string, q: Path)
    requires q in paths && |child| > Longest(paths) && '/' !in child
    requires Overlap(p + "/" + child, q)
    ensures Under(p, q)
  {
    var long := p + "/" + child;
    assert !Under(q, long);
    assert Under(long, q) && long != q;
    UnderIsComponentPrefix(long, q);
    SplitConcat(p, child);
    SplitWord(child);
    UnderIsComponentPrefix(p, q);
    if Split(q) == Split(long) {
      JoinSplit(q);
      JoinSplit(long);
    }
  }

  lemma {:induction false} SplitWord(word: string)
    requires '/' !in word
    ensures Split(word) == [word]
  {
    if word != "" {
      assert word[0] in word;
      SplitWord(word[1..]);
      assert word == [word[0]] + word[1..];
    }
  }

  function Repeat(c: char, n: nat): string {
    seq(n, i => c)
  }

  /** Clearing `outer` of every possible neighbour clears `inner` too exactly when `outer` covers `inner`. */
  lemma CoverIsExact(outer: set<Path>, inner: set<Path>)
    ensures (forall other: set<Path> :: Clear(outer, other) ==> Clear(inner, other)) <==> Covers(outer, inner)
  {
    if Covers(outer, inner) {
      forall other: set<Path> | Clear(outer, other) ensures Clear(inner, other) {
        forall p, q | p in inner && q in other ensures !Overlap(p, q) {
          var r :| r in outer && Under(p, r);
          if Overlap(p, q) {
            OverlapClimbs(p, r, q);
          }
        }
      }
    } else {
      var p :| p in inner && forall q :: q in outer ==> !Under(p, q);
      var child := Repeat('x', Longest(outer) + 1);
      var long := p + "/" + child;
      forall r, q | r in outer && q in {long} ensures !Overlap(r, q) {
        if Overlap(r, q) {
          LongChildOverlapsAncestorsOnly(p, outer, child, r);
        }
      }
      assert Clear(outer, {long});
      assert Overlap(p, long);
      assert !Clear(inner, {long});
    }
  }
}
