/** What a step relation reaches from some roots, and worklists that find exactly that. */
module Reachability {

  /** A path from one of the roots, each node a successor of the one before. */
  ghost predicate IsPath<T(!new)>(step: T -> set<T>, roots: set<T>, path: seq<T>) {
    path != [] && path[0] in roots && forall i :: 0 <= i < |path| - 1 ==> path[i + 1] in step(path[i])
  }

  ghost predicate Reachable<T(!new)>(step: T -> set<T>, roots: set<T>, x: T) {
    exists path :: IsPath(step, roots, path) && path[|path| - 1] == x
  }

  lemma RootReachable<T(!new)>(step: T -> set<T>, roots: set<T>, x: T)
    requires x in roots
    ensures Reachable(step, roots, x)
  {
    assert IsPath(step, roots, [x]);
  }

  lemma StepReachable<T(!new)>(step: T -> set<T>, roots: set<T>, x: T, y: T)
    requires Reachable(step, roots, x) && y in step(x)
    ensures Reachable(step, roots, y)
  {
    var path :| IsPath(step, roots, path) && path[|path| - 1] == x;
    var more := path + [y];
    forall i | 0 <= i < |more| - 1 ensures more[i + 1] in step(more[i]) {
      if i < |path| - 1 { assert path[i + 1] in step(path[i]); }
    }
    assert IsPath(step, roots, more) && more[|more| - 1] == y;
  }

  ghost predicate Closed<T(!new)>(step: T -> set<T>, roots: set<T>, s: set<T>) {
    roots <= s && forall x :: x in s ==> step(x) <= s
  }

  lemma {:induction false} PathStays<T(!new)>(step: T -> set<T>, roots: set<T>, s: set<T>, path: seq<T>, i: nat)
    requires Closed(step, roots, s) && IsPath(step, roots, path) && i < |path|
    ensures path[i] in s
  {
    if i > 0 { PathStays(step, roots, s, path, i - 1); }
  }

  /** A closed set whose members are all reachable is exactly what is reachable. */
  lemma ClosedIsReachable<T(!new)>(step: T -> set<T>, roots: set<T>, s: set<T>)
    requires Closed(step, roots, s) && forall x :: x in s ==> Reachable(step, roots, x)
    ensures forall x :: x in s <==> Reachable(step, roots, x)
  {
    forall x | Reachable(step, roots, x) ensures x in s {
      var path :| IsPath(step, roots, path) && path[|path| - 1] == x;
      PathStays(step, roots, s, path, |path| - 1);
    }
  }

  lemma MoreRoots<T(!new)>(step: T -> set<T>, a: set<T>, b: set<T>, x: T)
    requires a <= b && Reachable(step, a, x)
    ensures Reachable(step, b, x)
  {
    var path :| IsPath(step, a, path) && path[|path| - 1] == x;
    assert IsPath(step, b, path);
  }

  /** What two sets of roots reach together is what either reaches. */
  lemma EitherRoots<T(!new)>(step: T -> set<T>, a: set<T>, b: set<T>, x: T)
    ensures Reachable(step, a + b, x) <==> Reachable(step, a, x) || Reachable(step, b, x)
  {
    if Reachable(step, a, x) { MoreRoots(step, a, a + b, x); }
    if Reachable(step, b, x) { MoreRoots(step, b, a + b, x); }
    if Reachable(step, a + b, x) {
      var path :| IsPath(step, a + b, path) && path[|path| - 1] == x;
      assert if path[0] in a then IsPath(step, a, path) else IsPath(step, b, path);
    }
  }

  // ---------------------------------------------------------------- worklists

  /** Reached so far: everything is reachable, and what is not expanded yet is pending. */
  ghost predicate Walking<T(!new)>(step: T -> set<T>, roots: set<T>, seen: set<T>, pending: set<T>) {
    && (forall x :: x in seen + pending ==> Reachable(step, roots, x))
    && roots <= seen + pending
    && (forall x :: x in seen ==> step(x) <= seen + pending)
  }

  lemma WalkStart<T(!new)>(step: T -> set<T>, roots: set<T>)
    ensures Walking(step, roots, {}, roots)
  {
    forall x | x in roots ensures Reachable(step, roots, x) { RootReachable(step, roots, x); }
  }

  lemma WalkStep<T(!new)>(step: T -> set<T>, roots: set<T>, seen: set<T>, before: set<T>, after: set<T>, x: T)
    requires Walking(step, roots, seen, before) && x in before
    requires before - {x} <= after && step(x) <= after && after <= before + step(x)
    ensures Walking(step, roots, seen + {x}, after)
  {
    forall y | y in seen + {x} + after ensures Reachable(step, roots, y) {
      if y !in seen + before { StepReachable(step, roots, x, y); }
    }
  }

  lemma WalkDone<T(!new)>(step: T -> set<T>, roots: set<T>, seen: set<T>)
    requires Walking(step, roots, seen, {})
    ensures forall x :: x in seen <==> Reachable(step, roots, x)
  {
    assert seen + {} == seen;
    ClosedIsReachable(step, roots, seen);
  }

  // ---------------------------------------------------------------- sets of sequences

  function Elements<T(==)>(s: seq<T>): set<T> {
    set x | x in s
  }

  lemma ElementsOfConcat<T>(a: seq<T>, b: seq<T>)
    ensures Elements(a + b) == Elements(a) + Elements(b)
  {
  }

  lemma ElementsOfStack<T>(s: seq<T>)
    requires s != []
    ensures Elements(s) == Elements(s[..|s| - 1]) + {s[|s| - 1]}
  {
    assert s == s[..|s| - 1] + [s[|s| - 1]];
    ElementsOfConcat(s[..|s| - 1], [s[|s| - 1]]);
  }
}
