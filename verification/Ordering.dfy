/** Python's string order, and `sorted` / `min` over a finite set by a strict total order. */
module Ordering {

  ghost predicate StrictTotal<T(!new)>(less: (T, T) -> bool) {
    && (forall a :: !less(a, a))
    && (forall a, b :: less(a, b) || a == b || less(b, a))
    && (forall a, b, c :: less(a, b) && less(b, c) ==> less(a, c))
  }

  /** Lexicographic order by code point. */
  predicate Less(a: string, b: string) {
    if b == "" then false
    else if a == "" then true
    else if a[0] != b[0] then a[0] < b[0]
    else Less(a[1..], b[1..])
  }

  lemma {:induction false} LessConnected(a: string, b: string)
    ensures Less(a, b) || a == b || Less(b, a)
  {
    if a != "" && b != "" && a[0] == b[0] {
      LessConnected(a[1..], b[1..]);
      assert a[1..] == b[1..] ==> [a[0]] + a[1..] == [b[0]] + b[1..];
    }
  }

  lemma {:induction false} LessIrreflexive(a: string)
    ensures !Less(a, a)
  {
    if a != "" {
      LessIrreflexive(a[1..]);
    }
  }

  lemma {:induction false} LessTransitive(a: string, b: string, c: string)
    requires Less(a, b) && Less(b, c)
    ensures Less(a, c)
  {
    if a != "" && a[0] == b[0] && b[0] == c[0] {
      LessTransitive(a[1..], b[1..], c[1..]);
    }
  }

  lemma LessIsStrictTotal()
    ensures StrictTotal(Less)
  {
    forall a, b ensures Less(a, b) || a == b || Less(b, a) { LessConnected(a, b); }
    forall a ensures !Less(a, a) { LessIrreflexive(a); }
    forall a, b, c | Less(a, b) && Less(b, c) ensures Less(a, c) { LessTransitive(a, b, c); }
  }

  ghost predicate IsLeast<T(!new)>(less: (T, T) -> bool, m: T, s: set<T>) {
    m in s && forall x :: x in s ==> x == m || less(m, x)
  }

  lemma {:induction false} LeastExists<T(!new)>(less: (T, T) -> bool, s: set<T>)
    requires StrictTotal(less) && s != {}
    ensures exists m :: IsLeast(less, m, s)
    decreases |s|
  {
    var x :| x in s;
    var rest := s - {x};
    if rest == {} {
      assert s == {x};
      assert IsLeast(less, x, s);
    } else {
      LeastExists(less, rest);
      var m :| IsLeast(less, m, rest);
      assert s == rest + {x};
      assert IsLeast(less, if less(m, x) then m else x, s);
    }
  }

  /** `sorted(s)[0]`. */
  function Least<T(==,!new)>(less: (T, T) -> bool, s: set<T>): (m: T)
    requires StrictTotal(less) && s != {}
    ensures IsLeast(less, m, s)
  {
    LeastExists(less, s);
    assert forall m, n :: IsLeast(less, m, s) && IsLeast(less, n, s) ==> m == n;
    assert exists m :: m in s && forall x :: x in s ==> x == m || less(m, x) by {
      var m :| IsLeast(less, m, s);
    }
    var m :| m in s && forall x :: x in s ==> x == m || less(m, x);
    m
  }

  ghost predicate Ascending<T(!new)>(less: (T, T) -> bool, q: seq<T>) {
    forall i, j :: 0 <= i < j < |q| ==> less(q[i], q[j])
  }

  /** `sorted(s)` for a set: every element once, in ascending order. */
  function Sorted<T(==,!new)>(less: (T, T) -> bool, s: set<T>): (q: seq<T>)
    requires StrictTotal(less)
    ensures forall x :: x in q <==> x in s
    ensures Ascending(less, q)
    ensures |q| == |s|
    decreases |s|
  {
    if s == {} then []
    else
      var m := Least(less, s);
      [m] + Sorted(less, s - {m})
  }

  function SortedNames(names: set<string>): (q: seq<string>)
    ensures forall x :: x in q <==> x in names
    ensures Ascending(Less, q)
  {
    LessIsStrictTotal();
    Sorted(Less, names)
  }

  /** Neighbours are related. */
  ghost predicate Chain<T(!new)>(r: (T, T) -> bool, p: seq<T>) {
    forall i :: 0 <= i < |p| - 1 ==> r(p[i], p[i + 1])
  }

  lemma ChainPrepends<T(!new)>(r: (T, T) -> bool, first: T, p: seq<T>)
    requires p != [] && Chain(r, p) && r(first, p[0])
    ensures Chain(r, [first] + p)
  {
  }

  lemma ChainAppends<T(!new)>(r: (T, T) -> bool, p: seq<T>, last: T)
    requires p != [] && Chain(r, p) && r(p[|p| - 1], last)
    ensures Chain(r, p + [last])
  {
  }
}
