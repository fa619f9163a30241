/** Strict total orders and the sorted listing of a finite set. */
module Ordering {

  ghost predicate StrictTotal<T(!new)>(less: (T, T) -> bool) {
    && (forall x :: !less(x, x))
    && (forall x, y :: x != y ==> less(x, y) || less(y, x))
    && (forall x, y, z :: less(x, y) && less(y, z) ==> less(x, z))
  }

  ghost predicate SortedBy<T>(s: seq<T>, less: (T, T) -> bool) {
    forall i, j :: 0 <= i < j < |s| ==> less(s[i], s[j])
  }

  /** Byte-wise string order, as Go's and Lua's comparison operators use it. */
  predicate StringLess(a: string, b: string) {
    if b == "" then false
    else if a == "" then true
    else if a[0] != b[0] then a[0] < b[0]
    else StringLess(a[1..], b[1..])
  }

  lemma {:induction false} StringLessTransitive(a: string, b: string, c: string)
    requires StringLess(a, b) && StringLess(b, c)
    ensures StringLess(a, c)
  {
    if a != "" && a[0] == b[0] && b[0] == c[0] {
      StringLessTransitive(a[1..], b[1..], c[1..]);
    }
  }

  lemma {:induction false} StringLessTrichotomy(a: string, b: string)
    ensures !(StringLess(a, b) && StringLess(b, a))
    ensures a == b <==> !StringLess(a, b) && !StringLess(b, a)
  {
    if a != "" && b != "" {
      StringLessTrichotomy(a[1..], b[1..]);
      assert a == [a[0]] + a[1..] && b == [b[0]] + b[1..];
    }
  }

  lemma StringLessTotal()
    ensures StrictTotal(StringLess)
  {
    forall a, b { StringLessTrichotomy(a, b); }
    forall a, b, c | StringLess(a, b) && StringLess(b, c) { StringLessTransitive(a, b, c); }
  }

  ghost predicate IsLeast<T(!new)>(x: T, s: set<T>, less: (T, T) -> bool) {
    x in s && forall y :: y in s && y != x ==> less(x, y)
  }

  lemma {:induction false} LeastExists<T(!new)>(s: set<T>, less: (T, T) -> bool)
    requires StrictTotal(less) && s != {}
    ensures exists x :: IsLeast(x, s, less)
    decreases |s|
  {
    var x :| x in s;
    var rest := s - {x};
    assert forall y :: y in s ==> y == x || y in rest;
    if rest == {} {
      assert IsLeast(x, s, less);
    } else {
      LeastExists(rest, less);
      var y :| IsLeast(y, rest, less);
      if less(x, y) {
        assert IsLeast(x, s, less);
      } else {
        assert IsLeast(y, s, less);
      }
    }
  }

  function Least<T(==, !new)>(s: set<T>, less: (T, T) -> bool): (x: T)
    requires StrictTotal(less) && s != {}
    ensures IsLeast(x, s, less)
  {
    LeastExists(s, less);
    var x :| x in s && forall y :: y in s && y != x ==> less(x, y);
    x
  }

  /** The members of a set in increasing order. */
  function Sorted<T(==, !new)>(s: set<T>, less: (T, T) -> bool): (r: seq<T>)
    requires StrictTotal(less)
    ensures SortedBy(r, less)
    ensures forall x :: x in r <==> x in s
    ensures |r| == |s|
    decreases |s|
  {
    if s == {} then []
    else
      var x := Least(s, less);
      [x] + Sorted(s - {x}, less)
  }

  lemma SortedIsInjective<T(!new)>(s: seq<T>, less: (T, T) -> bool, i: nat, j: nat)
    requires StrictTotal(less) && SortedBy(s, less) && i < |s| && j < |s|
    ensures s[i] == s[j] <==> i == j
  {
    assert i < j ==> less(s[i], s[j]);
    assert j < i ==> less(s[j], s[i]);
  }

  /** A strictly increasing sequence is determined by its members. */
  lemma {:induction false} SortedUnique<T(!new)>(a: seq<T>, b: seq<T>, less: (T, T) -> bool)
    requires StrictTotal(less) && SortedBy(a, less) && SortedBy(b, less)
    requires forall x :: x in a <==> x in b
    ensures a == b
    decreases |a|
  {
    if a + b != [] {
      var x := (a + b)[0];
      assert x in a || x in b;
      assert x in a && x in b;
      assert a[0] in b && b[0] in a;
      var i :| 0 <= i < |b| && b[i] == a[0];
      var j :| 0 <= j < |a| && a[j] == b[0];
      assert a[0] == b[0];
      forall x
        ensures x in a[1..] <==> x in b[1..]
      {
        if x in a[1..] {
          var k :| 1 <= k < |a| && a[k] == x;
          assert less(a[0], x) && x in b;
          var l :| 0 <= l < |b| && b[l] == x;
          assert l != 0;
          assert b[1..][l - 1] == x;
        }
        if x in b[1..] {
          var k :| 1 <= k < |b| && b[k] == x;
          assert less(b[0], x) && x in a;
          var l :| 0 <= l < |a| && a[l] == x;
          assert l != 0;
          assert a[1..][l - 1] == x;
        }
      }
      SortedUnique(a[1..], b[1..], less);
    }
  }

  lemma SortedIsUnique<T(!new)>(s: set<T>, r: seq<T>, less: (T, T) -> bool)
    requires StrictTotal(less) && SortedBy(r, less)
    requires forall x :: x in r <==> x in s
    ensures Sorted(s, less) == r
  {
    SortedUnique(Sorted(s, less), r, less);
  }

  /** The first n members in order: distinct, and each below every member left out. */
  lemma HeadOfSorted<T(!new)>(s: set<T>, n: nat, less: (T, T) -> bool)
    requires StrictTotal(less) && n <= |s|
    ensures var head := Sorted(s, less)[..n];
            && (forall i :: 0 <= i < n ==> head[i] in s)
            && (forall i, j :: 0 <= i < j < n ==> head[i] != head[j])
            && (forall x, y :: x in head && y in s && y !in head ==> less(x, y))
  {
    var all := Sorted(s, less);
    var head := all[..n];
    forall i | 0 <= i < n ensures head[i] in s { assert all[i] in all; }
    assert forall m :: 0 <= m < n ==> all[m] == head[m] && head[m] in head;
    forall x, y | x in head && y in s && y !in head
      ensures less(x, y)
    {
      var i :| 0 <= i < n && head[i] == x;
      assert y in all;
      var j :| 0 <= j < |all| && all[j] == y;
      assert less(all[i], all[j]);
    }
  }
}
