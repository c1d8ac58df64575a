/**
 Validation of a backup's object graph: the commit walk, and the whole validator, which accepts
 exactly the well-formed graphs whose listed objects are the reachable ones.
 */
module GitValidation {
  import opened Base
  import opened Reachability
  import opened GitGraph
  import opened GitRefs
  import opened GitTrees

  // ---------------------------------------------------------------- enumerations of commits

  /** A sequence that lists a set, each element once. */
  ghost predicate Enumerates(order: seq<Oid>, s: set<Oid>) {
    Elements(order) == s && |order| == |s|
  }

  lemma {:induction false} ListedOnce(order: seq<Oid>, s: set<Oid>)
    requires Enumerates(order, s)
    ensures multiset(order) == multiset(s)
    decreases |order|
  {
    if order != [] {
      var front, last := order[..|order| - 1], order[|order| - 1];
      assert order == front + [last];
      ElementsOfStack(order);
      ElementsAreFew(front);
      assert last in Elements(front) ==> Elements(front) == s;
      assert Elements(front) == s - {last};
      ListedOnce(front, s - {last});
    }
  }

  lemma {:induction false} ElementsAreFew(s: seq<Oid>)
    ensures |Elements(s)| <= |s|
  {
    if s != [] {
      ElementsOfStack(s);
      ElementsAreFew(s[..|s| - 1]);
    }
  }

  /** The trees of listed commits, in order. */
  function TreesFor(g: Git, order: seq<Oid>): (r: seq<Oid>)
    requires forall x :: x in order ==> x in g.commits
    ensures |r| == |order| && forall i :: 0 <= i < |r| ==> r[i] == g.commits[order[i]].tree
  {
    seq(|order|, i requires 0 <= i < |order| => g.commits[order[i]].tree)
  }

  function Rooted(trees: seq<Oid>): (r: seq<Place>)
    ensures |r| == |trees| && forall i :: 0 <= i < |r| ==> r[i] == Place([], trees[i])
  {
    seq(|trees|, i requires 0 <= i < |trees| => Place([], trees[i]))
  }

  lemma {:induction false} TreesInAnyOrder(g: Git, a: seq<Oid>, b: seq<Oid>)
    requires multiset(a) == multiset(b) && forall x :: x in multiset(a) ==> x in g.commits
    ensures (forall x :: x in a ==> x in g.commits) && (forall x :: x in b ==> x in g.commits)
    ensures multiset(TreesFor(g, a)) == multiset(TreesFor(g, b))
    decreases |b|
  {
    forall x | x in a ensures x in g.commits { assert x in multiset(a); }
    forall x | x in b ensures x in g.commits { assert x in multiset(b); }
    if b == [] {
      assert |a| == |multiset(a)| == 0;
    } else {
      var n := |b| - 1;
      var i := WithoutLast(a, b);
      var rest := a[..i] + a[i + 1..];
      assert forall x :: x in multiset(rest) ==> x in multiset(b[..n]);
      assert b == b[..n] + [b[n]];
      TreesInAnyOrder(g, rest, b[..n]);
      TakenOut(g, a, i);
      TakenOut(g, b, n);
      assert b[..n] + b[n + 1..] == b[..n];
    }
  }

  lemma TakenOut(g: Git, a: seq<Oid>, i: nat)
    requires i < |a| && forall x :: x in a ==> x in g.commits
    ensures forall x :: x in a[..i] + a[i + 1..] ==> x in g.commits
    ensures multiset(TreesFor(g, a)) == multiset(TreesFor(g, a[..i] + a[i + 1..])) + multiset{g.commits[a[i]].tree}
  {
    var t, rest := TreesFor(g, a), a[..i] + a[i + 1..];
    forall x | x in rest ensures x in g.commits { assert x in a; }
    assert TreesFor(g, rest) == t[..i] + t[i + 1..];
    assert t == t[..i] + [t[i]] + t[i + 1..];
  }

  // ---------------------------------------------------------------- what is accepted

  /** Every tree below the commits can be stored, and all the visits are within bounds. */
  ghost predicate TreesOk(g: Git, kinds: map<Oid, Kind>, lengths: map<Oid, nat>, commits: set<Oid>) {
    exists order :: TreesOkBy(g, kinds, lengths, commits, order)
  }

  ghost predicate TreesOkBy(g: Git, kinds: map<Oid, Kind>, lengths: map<Oid, nat>, commits: set<Oid>, order: seq<Oid>) {
    && Enumerates(order, commits) && (forall x :: x in order ==> x in g.commits)
    && WalkOk(g, kinds, lengths, Rooted(TreesFor(g, order)))
  }

  lemma SameRoots(a: seq<Oid>, b: seq<Oid>)
    requires multiset(a) == multiset(b)
    ensures Elements(Rooted(a)) <= Elements(Rooted(b))
  {
    forall x | x in Rooted(a) ensures x in Rooted(b) {
      var i :| 0 <= i < |a| && Rooted(a)[i] == x;
      assert a[i] in multiset(b);
      var j :| 0 <= j < |b| && b[j] == a[i];
      assert Rooted(b)[j] == x;
    }
  }

  lemma WalkInAnyOrder(g: Git, kinds: map<Oid, Kind>, lengths: map<Oid, nat>, a: seq<Oid>, b: seq<Oid>)
    requires multiset(a) == multiset(b) && WalkOk(g, kinds, lengths, Rooted(a))
    ensures WalkOk(g, kinds, lengths, Rooted(b))
  {
    SameRoots(a, b);
    SameRoots(b, a);
    assert Elements(Rooted(a)) == Elements(Rooted(b));
    var n: nat :| n <= MAX_OBJECTS && Unfolds(g, Oids(Rooted(a)), n);
    assert Oids(Rooted(a)) == a && Oids(Rooted(b)) == b;
    UnfoldsInAnyOrder(g, a, b, n);
  }

  /** Any enumeration of the commits decides. */
  lemma TreesOkIff(g: Git, kinds: map<Oid, Kind>, lengths: map<Oid, nat>, commits: set<Oid>, order: seq<Oid>)
    requires Enumerates(order, commits) && forall x :: x in order ==> x in g.commits
    ensures TreesOk(g, kinds, lengths, commits) <==> WalkOk(g, kinds, lengths, Rooted(TreesFor(g, order)))
  {
    if WalkOk(g, kinds, lengths, Rooted(TreesFor(g, order))) {
      assert TreesOkBy(g, kinds, lengths, commits, order);
    }
    if TreesOk(g, kinds, lengths, commits) {
      var other :| TreesOkBy(g, kinds, lengths, commits, other);
      ListedOnce(order, commits);
      ListedOnce(other, commits);
      TreesInAnyOrder(g, other, order);
      WalkInAnyOrder(g, kinds, lengths, TreesFor(g, other), TreesFor(g, order));
    }
  }

  /** The graphs that validation accepts. */
  ghost predicate GraphOk(g: Git, formatVersion: nat, objects: seq<Listed>, refs: seq<Ref>, head: Bytes,
                          lengths: map<Oid, nat>) {
    && ListingOk(objects, formatVersion)
    && var kinds := KindMap(objects, formatVersion);
    && RefsOk(g, kinds, refs) && NamesApart(refs) && HeadOk(formatVersion, refs, head)
    && CommitsOk(g, kinds, Heads(g, kinds, refs))
    && TreesOk(g, kinds, lengths, OfKind(kinds, Commit)) && Exact(g, kinds, refs, lengths.Keys)
  }

  // ---------------------------------------------------------------- commits

  /** The commit walk between two iterations. */
  ghost predicate CommitWalk(g: Git, kinds: map<Oid, Kind>, roots: set<Oid>, order: seq<Oid>, pending: seq<Oid>) {
    && Elements(order) <= OfKind(kinds, Commit) && Elements(order) <= g.commits.Keys && |order| == |Elements(order)|
    && Walking(ParentStep(g), roots, Elements(order), Elements(pending))
  }

  lemma CommitSkip(g: Git, kinds: map<Oid, Kind>, roots: set<Oid>, order: seq<Oid>, pending: seq<Oid>)
    requires CommitWalk(g, kinds, roots, order, pending) && pending != [] && pending[|pending| - 1] in order
    ensures CommitWalk(g, kinds, roots, order, pending[..|pending| - 1])
  {
    ElementsOfStack(pending);
    assert Elements(order) + Elements(pending) == Elements(order) + Elements(pending[..|pending| - 1]);
  }

  lemma OrderGrows(order: seq<Oid>, x: Oid)
    requires x !in order && |order| == |Elements(order)|
    ensures Elements(order + [x]) == Elements(order) + {x} && |order + [x]| == |Elements(order + [x])|
  {
    ElementsOfStack(order + [x]);
    assert (order + [x])[..|order|] == order;
  }

  lemma StackGrows(g: Git, pending: seq<Oid>, x: Oid)
    requires pending != [] && pending[|pending| - 1] == x && x in g.commits
    ensures var after := Elements(pending[..|pending| - 1] + g.commits[x].parents);
            Elements(pending) - {x} <= after && ParentStep(g)(x) <= after
            && after <= Elements(pending) + ParentStep(g)(x)
  {
    ElementsOfStack(pending);
    ElementsOfConcat(pending[..|pending| - 1], g.commits[x].parents);
    assert Elements(g.commits[x].parents) == Parents(g, x);
  }

  lemma CommitVisit(g: Git, kinds: map<Oid, Kind>, roots: set<Oid>, order: seq<Oid>, pending: seq<Oid>, x: Oid)
    requires CommitWalk(g, kinds, roots, order, pending) && pending != [] && pending[|pending| - 1] == x && x !in order
    requires x in OfKind(kinds, Commit) && x in g.commits
    ensures CommitWalk(g, kinds, roots, order + [x], pending[..|pending| - 1] + g.commits[x].parents)
    ensures Elements(order + [x]) == Elements(order) + {x}
  {
    var next := pending[..|pending| - 1] + g.commits[x].parents;
    OrderGrows(order, x);
    StackGrows(g, pending, x);
    assert x in Elements(pending);
    WalkStep(ParentStep(g), roots, Elements(order), Elements(pending), Elements(next), x);
  }

  lemma BadCommit(g: Git, kinds: map<Oid, Kind>, roots: set<Oid>, order: seq<Oid>, pending: seq<Oid>, x: Oid)
    requires CommitWalk(g, kinds, roots, order, pending) && x in pending
    requires !(x in OfKind(kinds, Commit) && x in g.commits)
    ensures !CommitsOk(g, kinds, roots)
  {
    assert x in Elements(pending);
  }

  lemma CommitsDone(g: Git, kinds: map<Oid, Kind>, roots: set<Oid>, order: seq<Oid>)
    requires CommitWalk(g, kinds, roots, order, [])
    ensures CommitsOk(g, kinds, roots) && Enumerates(order, Elements(order))
    ensures forall x :: x in Elements(order) <==> Reachable(ParentStep(g), roots, x)
  {
    assert Elements<Oid>([]) == {};
    WalkDone(ParentStep(g), roots, Elements(order));
  }

  /** `CommitWalk`, folded. */
  ghost predicate Climbing(g: Git, kinds: map<Oid, Kind>, roots: set<Oid>, order: seq<Oid>, pending: seq<Oid>) {
    forall p {:trigger CommitWalk(g, kinds, roots, order, p)} :: p == pending ==> CommitWalk(g, kinds, roots, order, p)
  }

  /** The commits met so far, in order, and their trees. */
  ghost predicate Noted(g: Git, order: seq<Oid>, seen: set<Oid>, trees: seq<Oid>) {
    seen == Elements(order) && (forall x :: x in order ==> x in g.commits) && trees == TreesFor(g, order)
  }

  lemma NoteOne(g: Git, order: seq<Oid>, seen: set<Oid>, trees: seq<Oid>, x: Oid)
    requires Noted(g, order, seen, trees) && x in g.commits
    ensures Noted(g, order + [x], seen + {x}, trees + [g.commits[x].tree])
  {
    ElementsOfStack(order + [x]);
    assert (order + [x])[..|order|] == order;
  }

  lemma NoteNone(g: Git, order: seq<Oid>)
    requires order == []
    ensures Noted(g, order, {}, [])
  {
    assert Elements(order) == {};
  }

  lemma ClimbStart(g: Git, kinds: map<Oid, Kind>, heads: seq<Oid>, order: seq<Oid>)
    requires order == []
    ensures Climbing(g, kinds, Elements(heads), order, heads)
  {
    assert Elements(order) == {};
    WalkStart(ParentStep(g), Elements(heads));
    assert CommitWalk(g, kinds, Elements(heads), order, heads);
  }

  lemma ClimbSkip(g: Git, kinds: map<Oid, Kind>, roots: set<Oid>, order: seq<Oid>, pending: seq<Oid>)
    requires Climbing(g, kinds, roots, order, pending) && pending != [] && pending[|pending| - 1] in order
    ensures Climbing(g, kinds, roots, order, pending[..|pending| - 1])
  {
    assert CommitWalk(g, kinds, roots, order, pending);
    CommitSkip(g, kinds, roots, order, pending);
  }

  lemma ClimbVisit(g: Git, kinds: map<Oid, Kind>, roots: set<Oid>, order: seq<Oid>, pending: seq<Oid>, x: Oid)
    requires Climbing(g, kinds, roots, order, pending) && pending != [] && pending[|pending| - 1] == x
    requires x !in order && x in OfKind(kinds, Commit) && x in g.commits
    ensures Climbing(g, kinds, roots, order + [x], pending[..|pending| - 1] + g.commits[x].parents)
    ensures |order + [x]| <= |kinds|
  {
    assert CommitWalk(g, kinds, roots, order, pending);
    CommitVisit(g, kinds, roots, order, pending, x);
    SubsetIsSmaller(Elements(order + [x]), kinds.Keys);
  }

  lemma ClimbStops(g: Git, kinds: map<Oid, Kind>, roots: set<Oid>, order: seq<Oid>, pending: seq<Oid>, x: Oid)
    requires Climbing(g, kinds, roots, order, pending) && x in pending
             && !(x in OfKind(kinds, Commit) && x in g.commits)
    ensures !CommitsOk(g, kinds, roots)
  {
    assert CommitWalk(g, kinds, roots, order, pending);
    BadCommit(g, kinds, roots, order, pending, x);
  }

  lemma ClimbEnds(g: Git, kinds: map<Oid, Kind>, roots: set<Oid>, order: seq<Oid>)
    requires Climbing(g, kinds, roots, order, [])
    ensures CommitsOk(g, kinds, roots) && Enumerates(order, Elements(order)) && Elements(order) <= OfKind(kinds, Commit)
    ensures forall x :: x in Elements(order) <==> Reachable(ParentStep(g), roots, x)
  {
    assert CommitWalk(g, kinds, roots, order, []);
    CommitsDone(g, kinds, roots, order);
  }

  /** Walks the ancestors of the heads, each commit once, even when the parents form a cycle. */
  method WalkCommits(g: Git, kinds: map<Oid, Kind>, heads: seq<Oid>)
    returns (ok: bool, seen: set<Oid>, trees: seq<Oid>, ghost order: seq<Oid>)
    ensures ok <==> CommitsOk(g, kinds, Elements(heads))
    ensures ok ==> Enumerates(order, seen) && seen <= OfKind(kinds, Commit)
    ensures ok ==> (forall x :: x in order ==> x in g.commits) && trees == TreesFor(g, order)
    ensures ok ==> forall x :: x in seen <==> Reachable(ParentStep(g), Elements(heads), x)
  {
    seen, trees, order := {}, [], [];
    var pending := heads;
    ClimbStart(g, kinds, heads, order);
    NoteNone(g, order);
    while pending != []
      invariant Climbing(g, kinds, Elements(heads), order, pending) && Noted(g, order, seen, trees)
                && |order| <= |kinds|
      decreases |kinds| - |order|, |pending|
    {
      var oid := pending[|pending| - 1];
      if oid in seen {
        ClimbSkip(g, kinds, Elements(heads), order, pending);
        pending := pending[..|pending| - 1];
        continue;
      }
      if oid !in kinds || kinds[oid] != Commit || oid !in g.commits {
        ClimbStops(g, kinds, Elements(heads), order, pending, oid);
        return false, seen, trees, order;
      }
      ClimbVisit(g, kinds, Elements(heads), order, pending, oid);
      NoteOne(g, order, seen, trees, oid);
      var commit := g.commits[oid];
      seen, trees, pending := seen + {oid}, trees + [commit.tree], pending[..|pending| - 1] + commit.parents;
      order := order + [oid];
    }
    ClimbEnds(g, kinds, Elements(heads), order);
    return true, seen, trees, order;
  }

  // ---------------------------------------------------------------- the whole validation

  lemma HeadsAreFound(g: Git, kinds: map<Oid, Kind>, refs: seq<Ref>, tags: set<Oid>, heads: set<Oid>)
    requires Found(g, kinds, refs, tags, heads)
    ensures heads == Heads(g, kinds, refs)
    ensures forall x :: x in tags <==> Named(g, kinds, refs, x) && x in OfKind(kinds, Tag)
    ensures forall x :: Named(g, kinds, refs, x) ==> x in kinds && kinds[x] != Tree
  {
    forall x ensures (x in heads <==> x in Heads(g, kinds, refs))
      && (x in tags <==> Named(g, kinds, refs, x) && x in OfKind(kinds, Tag))
    {
      assert x in tags + heads <==> Named(g, kinds, refs, x);
    }
  }

  lemma RootTrees(g: Git, order: seq<Oid>, commits: set<Oid>)
    requires Enumerates(order, commits) && forall x :: x in order ==> x in g.commits
    ensures Elements(Oids(Rooted(TreesFor(g, order)))) == TreesOf(g, commits)
  {
    var trees := TreesFor(g, order);
    assert Oids(Rooted(trees)) == trees;
    forall t | t in Elements(trees) ensures t in TreesOf(g, commits) {
      var i :| 0 <= i < |trees| && trees[i] == t;
      assert order[i] in Elements(order);
    }
    forall t | t in TreesOf(g, commits) ensures t in Elements(trees) {
      var c :| c in commits && c in g.commits && g.commits[c].tree == t;
      assert c in order;
      var i :| 0 <= i < |order| && order[i] == c;
      assert trees[i] == t;
    }
  }

  /** What the three walks found, seen from the specification. */
  ghost predicate Walked(g: Git, kinds: map<Oid, Kind>, refs: seq<Ref>, tags: set<Oid>, commits: set<Oid>,
                         trees: set<Oid>) {
    && tags <= OfKind(kinds, Tag) && commits <= OfKind(kinds, Commit) && trees <= OfKind(kinds, Tree)
    && (forall x :: Named(g, kinds, refs, x) ==> x in kinds && kinds[x] != Tree)
    && (forall x :: x in tags <==> Named(g, kinds, refs, x) && x in OfKind(kinds, Tag))
    && (forall x :: x in commits <==> Reachable(ParentStep(g), Heads(g, kinds, refs), x))
    && (forall x :: x in trees <==> Reachable(SubtreeStep(g), TreesOf(g, commits), x))
  }

  /** The count of the seen objects decides whether the listing is exact. */
  lemma CountDecides(g: Git, kinds: map<Oid, Kind>, refs: seq<Ref>, tags: set<Oid>, commits: set<Oid>, trees: set<Oid>,
                     blobs: set<Oid>)
    requires Walked(g, kinds, refs, tags, commits, trees)
    ensures |commits| + |trees| + |tags| == |kinds| && blobs == AllBlobs(g, trees) <==> Exact(g, kinds, refs, blobs)
    ensures Exact(g, kinds, refs, blobs) ==> commits == OfKind(kinds, Commit) && trees == OfKind(kinds, Tree)
  {
    if |commits| + |trees| + |tags| == |kinds| { CountsSuffice(kinds, commits, trees, tags); }
    if Exact(g, kinds, refs, blobs) {
      assert commits == OfKind(kinds, Commit) && tags == OfKind(kinds, Tag);
      assert trees == OfKind(kinds, Tree);
      KindsPartition(kinds);
    }
  }

  /** An exact listing lists every commit the walk found, so a failed tree walk refutes the graph. */
  lemma TreesRefute(g: Git, formatVersion: nat, objects: seq<Listed>, refs: seq<Ref>, head: Bytes,
                    lengths: map<Oid, nat>, commits: set<Oid>)
    requires forall x :: x in commits <==> Reachable(ParentStep(g), Heads(g, KindMap(objects, formatVersion), refs), x)
    requires !TreesOk(g, KindMap(objects, formatVersion), lengths, commits)
    ensures !GraphOk(g, formatVersion, objects, refs, head, lengths)
  {
    var kinds := KindMap(objects, formatVersion);
    assert Exact(g, kinds, refs, lengths.Keys) ==> commits == OfKind(kinds, Commit);
  }

  /**
   `GraphView::validate`. It ends on every input, cyclic ones included, and accepts exactly the
   graphs whose listed objects and declared blobs are the reachable ones and can be stored. The
   result is the set of blobs used as symlink targets.
   */
  method ValidateGraph(g: Git, formatVersion: nat, objects: seq<Listed>, refs: seq<Ref>, head: Bytes,
                       lengths: map<Oid, nat>)
    returns (r: Result<set<Oid>, GraphError>)
    ensures r.Ok? <==> GraphOk(g, formatVersion, objects, refs, head, lengths)
    ensures r.Ok? ==> r.value == AllLinks(g, OfKind(KindMap(objects, formatVersion), Tree))
  {
    var listed, kinds := ListKinds(objects, formatVersion);
    if !listed { return Err(InvalidGraph); }
    var followed, tags, heads := FollowRefs(g, kinds, refs);
    if !followed { return Err(InvalidGraph); }
    var named := CheckNames(refs, formatVersion, head);
    if !named { return Err(InvalidGraph); }
    HeadsAreFound(g, kinds, refs, tags, Elements(heads));
    var climbed, commits, roots, order := WalkCommits(g, kinds, heads);
    if !climbed { return Err(InvalidGraph); }
    TreesOkIff(g, kinds, lengths, commits, order);
    RootTrees(g, order, commits);
    var descended, trees, blobs, links := WalkTrees(g, kinds, lengths, Rooted(roots));
    if !descended {
      TreesRefute(g, formatVersion, objects, refs, head, lengths, commits);
      return Err(InvalidGraph);
    }
    assert Walked(g, kinds, refs, tags, commits, trees);
    CountDecides(g, kinds, refs, tags, commits, trees, lengths.Keys);
    if |commits| + |trees| + |tags| != |kinds| || blobs != lengths.Keys { return Err(InvalidGraph); }
    return Ok(links);
  }
}
