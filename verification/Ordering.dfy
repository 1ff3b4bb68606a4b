/** Listing a finite set in a strict total order. */
module Ordering {
  ghost predicate StrictTotal<T(!new)>(less: (T, T) -> bool) {
    && (forall a :: !less(a, a))
    && (forall a, b :: a == b || less(a, b) || less(b, a))
    && (forall a, b, c :: less(a, b) && less(b, c) ==> less(a, c))
  }

  ghost predicate IsFirst<T(!new)>(s: set<T>, less: (T, T) -> bool, m: T) {
    m in s && forall x :: x in s && x != m ==> less(m, x)
  }

  lemma {:induction false} HasFirst<T(!new)>(s: set<T>, less: (T, T) -> bool)
    requires StrictTotal(less) && s != {}
    ensures exists m :: IsFirst(s, less, m)
  {
    var x :| x in s;
    var rest := s - {x};
    if rest == {} {
      assert s == {x};
      assert IsFirst(s, less, x);
    } else {
      HasFirst(rest, less);
      var m :| IsFirst(rest, less, m);
      var first := if less(x, m) then x else m;
      forall y | y in s && y != first ensures less(first, y) {
        assert y == x || y in rest;
      }
      assert IsFirst(s, less, first);
    }
  }

  ghost function First<T(!new)>(s: set<T>, less: (T, T) -> bool): (m: T)
    requires StrictTotal(less) && s != {}
    ensures IsFirst(s, less, m)
  {
    HasFirst(s, less);
    var m :| IsFirst(s, less, m);
    m
  }

  /** The elements of s, each once, in order. */
  ghost function Sorted<T(!new)>(s: set<T>, less: (T, T) -> bool): (out: seq<T>)
    requires StrictTotal(less)
    ensures |out| == |s|
    ensures forall x :: x in out <==> x in s
  {
    if s == {} then []
    else
      var m := First(s, less);
      [m] + Sorted(s - {m}, less)
  }

  ghost predicate InOrder<T(!new)>(out: seq<T>, less: (T, T) -> bool) {
    forall i, j :: 0 <= i < j < |out| ==> less(out[i], out[j])
  }

  lemma {:induction false} SortedInOrder<T(!new)>(s: set<T>, less: (T, T) -> bool)
    requires StrictTotal(less)
    ensures InOrder(Sorted(s, less), less)
  {
    if s != {} {
      var m := First(s, less);
      SortedInOrder(s - {m}, less);
    }
  }

  /** Only one sequence lists a given set in order. */
  lemma {:induction false} OrderIsUnique<T(!new)>(a: seq<T>, b: seq<T>, less: (T, T) -> bool)
    requires StrictTotal(less) && InOrder(a, less) && InOrder(b, less)
    requires forall x :: x in a <==> x in b
    ensures a == b
  {
    if a == [] {
      NoElements(b);
    } else {
      assert a[0] in b;
      assert b != [];
      assert b[0] in a;
      forall x ensures x in a[1..] <==> x in b[1..] {
        HeadOnce(a, less, x);
        HeadOnce(b, less, x);
      }
      OrderIsUnique(a[1..], b[1..], less);
      assert a == [a[0]] + a[1..] && b == [b[0]] + b[1..];
    }
  }

  lemma NoElements<T>(s: seq<T>)
    ensures s == [] || s[0] in s
  {
  }

  lemma HeadOnce<T(!new)>(a: seq<T>, less: (T, T) -> bool, x: T)
    requires StrictTotal(less) && InOrder(a, less) && a != []
    ensures x in a[1..] <==> x in a && x != a[0]
  {
    assert a == [a[0]] + a[1..];
    if x in a[1..] {
      var i :| 0 <= i < |a| - 1 && a[1..][i] == x;
      assert a[i + 1] == x;
    }
  }
}
