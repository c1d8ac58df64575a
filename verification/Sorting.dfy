/** Ordered iteration: the ascending sequence of a finite set, as ordered maps and sorts give it. */
module Sorting {

  /** `less` is a strict total order on `s`. */
  ghost predicate StrictTotal<T(!new)>(s: set<T>, less: (T, T) -> bool) {
    && (forall x :: x in s ==> !less(x, x))
    && (forall x, y :: x in s && y in s && x != y ==> less(x, y) || less(y, x))
    && (forall x, y, z :: x in s && y in s && z in s && less(x, y) && less(y, z) ==> less(x, z))
  }

  ghost predicate Ascending<T>(r: seq<T>, less: (T, T) -> bool) {
    forall i, j :: 0 <= i < j < |r| ==> less(r[i], r[j])
  }

  lemma FirstIn<T(!new)>(s: set<T>, less: (T, T) -> bool) returns (first: T)
    requires s != {} && StrictTotal(s, less)
    ensures first in s && forall x :: x in s && x != first ==> less(first, x)
  {
    first :| first in s;
    var rest := s - {first};
    assert forall x :: x in s ==> x == first || x in rest;
    if rest != {} {
      var f := FirstIn(rest, less);
      if less(f, first) { first := f; }
    }
  }

  function First<T(!new)>(s: set<T>, less: (T, T) -> bool): (first: T)
    requires s != {} && StrictTotal(s, less)
    ensures first in s && forall x :: x in s && x != first ==> less(first, x)
  {
    assert exists f :: f in s && forall x :: x in s && x != f ==> less(f, x) by { var f := FirstIn(s, less); }
    var f :| f in s && forall x :: x in s && x != f ==> less(f, x);
    f
  }

  /** The elements of `s` in ascending order. */
  function Sorted<T(!new)>(s: set<T>, less: (T, T) -> bool): (r: seq<T>)
    requires StrictTotal(s, less)
    ensures |r| == |s|
    ensures forall x :: x in r <==> x in s
    ensures Ascending(r, less)
  {
    if s == {} then []
    else
      var first := First(s, less);
      var rest := Sorted(s - {first}, less);
      assert s == (s - {first}) + {first};
      [first] + rest
  }

  /** An ascending sequence is determined by its elements. */
  lemma {:induction false} AscendingIsSorted<T(!new)>(r: seq<T>, s: set<T>, less: (T, T) -> bool)
    requires StrictTotal(s, less) && Ascending(r, less)
    requires forall x :: x in r <==> x in s
    ensures r == Sorted(s, less)
    decreases s
  {
    if r == [] {
      assert s == {};
    } else {
      var head, tail := r[0], r[1..];
      assert r == [head] + tail && head in s;
      forall x | x in s && x != head ensures less(head, x) {
        var i :| 0 <= i < |r| && r[i] == x;
      }
      FirstUnique(s, less, head);
      assert forall i :: 0 <= i < |tail| ==> less(head, tail[i]);
      AscendingIsSorted(tail, s - {head}, less);
    }
  }

  lemma FirstUnique<T(!new)>(s: set<T>, less: (T, T) -> bool, head: T)
    requires StrictTotal(s, less) && head in s
    requires forall x :: x in s && x != head ==> less(head, x)
    ensures head == First(s, less)
  {
  }

  predicate NatLess(a: nat, b: nat) {
    a < b
  }
}
