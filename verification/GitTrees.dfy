/**
 The trees of a backup. A tree is read again each time it is met, under another path, so the
 walk visits the whole unfolding of the trees: it is accepted only if that has a bounded size.
 */
module GitTrees {
  import opened Base
  import opened Reachability
  import opened GitGraph

  // ---------------------------------------------------------------- places and their trees

  /** An entry the checkout can store: a subtree, or a declared blob with a plain mode. */
  predicate EntryOk(g: Git, lengths: map<Oid, nat>, prefix: Bytes, e: Entry) {
    && g.pathOk(prefix + e.name)
    && match e.kind
       case Subtree => e.mode == MODE_TREE
       case BlobEntry =>
         && (e.mode == MODE_FILE || e.mode == MODE_EXECUTABLE || e.mode == MODE_SYMLINK) && e.id in lengths
         && (e.mode == MODE_SYMLINK ==> 1 <= lengths[e.id] <= 4095)
       case OtherEntry => false
  }

  const SLASH: uint8 := 47

  /** A tree met under a path prefix. */
  datatype Place = Place(prefix: Bytes, oid: Oid)

  /** The places below a tree's entries, in order. */
  function Below(prefix: Bytes, entries: seq<Entry>): seq<Place> {
    if entries == [] then []
    else
      var front, last := Below(prefix, entries[..|entries| - 1]), entries[|entries| - 1];
      if last.kind == Subtree then front + [Place(prefix + last.name + [SLASH], last.id)] else front
  }

  function Children(g: Git, place: Place): seq<Place> {
    if place.oid in g.trees then Below(place.prefix, g.trees[place.oid]) else []
  }

  ghost function PlaceStep(g: Git): Place -> set<Place> {
    place => Elements(Children(g, place))
  }

  function Oids(places: seq<Place>): (r: seq<Oid>)
    ensures |r| == |places| && forall i :: 0 <= i < |r| ==> r[i] == places[i].oid
  {
    seq(|places|, i requires 0 <= i < |places| => places[i].oid)
  }

  /** A listed tree that parses, all of whose entries can be stored under the prefix. */
  predicate PlaceOk(g: Git, kinds: map<Oid, Kind>, lengths: map<Oid, nat>, place: Place) {
    && place.oid in kinds && kinds[place.oid] == Tree && place.oid in g.trees
    && forall e :: e in g.trees[place.oid] ==> EntryOk(g, lengths, place.prefix, e)
  }

  function BlobsTo(entries: seq<Entry>): set<Oid> {
    set i | 0 <= i < |entries| && entries[i].kind == BlobEntry :: entries[i].id
  }

  function LinksTo(entries: seq<Entry>): set<Oid> {
    set i | 0 <= i < |entries| && entries[i].kind == BlobEntry && entries[i].mode == MODE_SYMLINK :: entries[i].id
  }

  lemma EntriesMore(prefix: Bytes, entries: seq<Entry>, i: nat)
    requires i < |entries|
    ensures var e, front, more := entries[i], entries[..i], entries[..i + 1];
            && Below(prefix, more)
               == Below(prefix, front) + (if e.kind == Subtree then [Place(prefix + e.name + [SLASH], e.id)] else [])
            && BlobsTo(more) == BlobsTo(front) + (if e.kind == BlobEntry then {e.id} else {})
            && LinksTo(more) == LinksTo(front) + (if e.kind == BlobEntry && e.mode == MODE_SYMLINK then {e.id} else {})
  {
    var e, front, more := entries[i], entries[..i], entries[..i + 1];
    assert more[..i] == front && more[i] == e;
    assert forall k :: 0 <= k < i ==> more[k] == front[k];
  }

  /** The entries of one tree: subtrees to visit, blobs and symlinks seen. */
  method ReadTree(g: Git, lengths: map<Oid, nat>, prefix: Bytes, entries: seq<Entry>)
    returns (ok: bool, more: seq<Place>, blobs: set<Oid>, links: set<Oid>)
    ensures ok <==> forall e :: e in entries ==> EntryOk(g, lengths, prefix, e)
    ensures ok ==> more == Below(prefix, entries) && blobs == BlobsTo(entries) && links == LinksTo(entries)
  {
    more, blobs, links := [], {}, {};
    for i := 0 to |entries|
      invariant more == Below(prefix, entries[..i]) && blobs == BlobsTo(entries[..i]) && links == LinksTo(entries[..i])
      invariant forall k :: 0 <= k < i ==> EntryOk(g, lengths, prefix, entries[k])
    {
      var e := entries[i];
      EntriesMore(prefix, entries, i);
      if !EntryOk(g, lengths, prefix, e) { return false, more, blobs, links; }
      if e.kind == Subtree {
        more := more + [Place(prefix + e.name + [SLASH], e.id)];
      } else {
        blobs := blobs + {e.id};
        if e.mode == MODE_SYMLINK { links := links + {e.id}; }
      }
    }
    assert entries[..|entries|] == entries;
    return true, more, blobs, links;
  }

  /** One visit: a listed tree, read under its prefix. */
  method VisitPlace(g: Git, kinds: map<Oid, Kind>, lengths: map<Oid, nat>, place: Place)
    returns (ok: bool, more: seq<Place>, blobs: set<Oid>, links: set<Oid>)
    ensures ok <==> PlaceOk(g, kinds, lengths, place)
    ensures ok ==>
              more == Children(g, place) && blobs == BlobsTo(g.trees[place.oid]) && links == LinksTo(g.trees[place.oid])
  {
    if place.oid !in kinds || kinds[place.oid] != Tree || place.oid !in g.trees { return false, [], {}, {}; }
    ok, more, blobs, links := ReadTree(g, lengths, place.prefix, g.trees[place.oid]);
  }

  // ---------------------------------------------------------------- the size of an unfolding

  function ChildOids(g: Git, x: Oid): seq<Oid>
    requires x in g.trees
  {
    Oids(Below([], g.trees[x]))
  }

  lemma {:induction false} BelowOids(a: Bytes, b: Bytes, entries: seq<Entry>)
    ensures Oids(Below(a, entries)) == Oids(Below(b, entries))
  {
    if entries != [] { BelowOids(a, b, entries[..|entries| - 1]); }
  }

  /** Unfolding these trees, each as often as it is met, takes exactly `n` visits. */
  ghost predicate Unfolds(g: Git, trees: seq<Oid>, n: nat)
    decreases n, |trees|, 1
  {
    if trees == [] then n == 0 else exists k: nat :: LastTakes(g, trees, n, k)
  }

  /** The last tree takes `k` visits, itself included, and the others take the rest. */
  ghost predicate LastTakes(g: Git, trees: seq<Oid>, n: nat, k: nat)
    requires trees != []
    decreases n, |trees|, 0
  {
    && 1 <= k <= n && trees[|trees| - 1] in g.trees
    && Unfolds(g, ChildOids(g, trees[|trees| - 1]), k - 1) && Unfolds(g, trees[..|trees| - 1], n - k)
  }

  ghost predicate Parts(g: Git, a: seq<Oid>, b: seq<Oid>, n: nat, m: nat) {
    m <= n && Unfolds(g, a, n - m) && Unfolds(g, b, m)
  }

  lemma {:induction false} JoinUnfolds(g: Git, a: seq<Oid>, b: seq<Oid>, m: nat, n: nat)
    requires Unfolds(g, a, m) && Unfolds(g, b, n)
    ensures Unfolds(g, a + b, m + n)
    decreases |b|
  {
    if b == [] {
      assert a + b == a;
    } else {
      var k: nat :| LastTakes(g, b, n, k);
      JoinUnfolds(g, a, b[..|b| - 1], m, n - k);
      assert (a + b)[..|a + b| - 1] == a + b[..|b| - 1] && (a + b)[|a + b| - 1] == b[|b| - 1];
      assert LastTakes(g, a + b, m + n, k);
    }
  }

  lemma {:induction false} SplitUnfolds(g: Git, a: seq<Oid>, b: seq<Oid>, n: nat) returns (m: nat)
    requires Unfolds(g, a + b, n)
    ensures Parts(g, a, b, n, m)
    decreases |b|
  {
    if b == [] {
      assert a + b == a;
      m := 0;
    } else {
      var k: nat :| LastTakes(g, a + b, n, k);
      assert (a + b)[..|a + b| - 1] == a + b[..|b| - 1] && (a + b)[|a + b| - 1] == b[|b| - 1];
      m := SplitUnfolds(g, a, b[..|b| - 1], n - k);
      m := m + k;
      assert LastTakes(g, b, m, k);
    }
  }

  lemma LastSize(g: Git, trees: seq<Oid>, n: nat) returns (k: nat)
    requires trees != [] && Unfolds(g, trees, n)
    ensures LastTakes(g, trees, n, k)
  {
    k :| LastTakes(g, trees, n, k);
  }

  /** Visiting the top of a stack: one visit, then its children in its place. */
  lemma UnfoldsTop(g: Git, rest: seq<Oid>, x: Oid, n: nat)
    ensures Unfolds(g, rest + [x], n) <==> n >= 1 && x in g.trees && Unfolds(g, rest + ChildOids(g, x), n - 1)
  {
    var all := rest + [x];
    assert all[..|all| - 1] == rest && all[|all| - 1] == x;
    if Unfolds(g, all, n) {
      var k := LastSize(g, all, n);
      JoinUnfolds(g, rest, ChildOids(g, x), n - k, k - 1);
    }
    if n >= 1 && x in g.trees && Unfolds(g, rest + ChildOids(g, x), n - 1) {
      var m := SplitUnfolds(g, rest, ChildOids(g, x), n - 1);
      assert LastTakes(g, all, n, m + 1);
    }
  }

  /** Taking one tree out of a list takes its visits out. */
  lemma UnfoldsWithout(g: Git, a: seq<Oid>, i: nat, n: nat) returns (k: nat)
    requires i < |a| && Unfolds(g, a, n)
    ensures k <= n && Unfolds(g, [a[i]], k) && Unfolds(g, a[..i] + a[i + 1..], n - k)
  {
    var pre, post := a[..i], a[i + 1..];
    assert a == pre + ([a[i]] + post);
    var m := SplitUnfolds(g, pre, [a[i]] + post, n);
    var l := SplitUnfolds(g, [a[i]], post, m);
    k := m - l;
    JoinUnfolds(g, pre, post, n - m, l);
  }

  lemma OneOut(s: seq<Oid>, i: nat)
    requires i < |s|
    ensures multiset(s[..i] + s[i + 1..]) == multiset(s) - multiset{s[i]}
  {
    assert s == s[..i] + [s[i]] + s[i + 1..];
  }

  lemma WithoutLast(a: seq<Oid>, b: seq<Oid>) returns (i: nat)
    requires multiset(a) == multiset(b) && b != []
    ensures i < |a| && a[i] == b[|b| - 1] && multiset(a[..i] + a[i + 1..]) == multiset(b[..|b| - 1])
  {
    var n := |b| - 1;
    assert b[n] in multiset(a);
    i :| 0 <= i < |a| && a[i] == b[n];
    OneOut(a, i);
    OneOut(b, n);
    assert b[..n] + b[n + 1..] == b[..n];
  }

  lemma JoinLast(g: Git, b: seq<Oid>, n: nat, k: nat)
    requires b != [] && Unfolds(g, b[..|b| - 1], n) && Unfolds(g, [b[|b| - 1]], k)
    ensures Unfolds(g, b, n + k)
  {
    JoinUnfolds(g, b[..|b| - 1], [b[|b| - 1]], n, k);
    assert b[..|b| - 1] + [b[|b| - 1]] == b;
  }

  /** The size does not depend on the order of the trees. */
  lemma {:induction false} UnfoldsInAnyOrder(g: Git, a: seq<Oid>, b: seq<Oid>, n: nat)
    requires multiset(a) == multiset(b) && Unfolds(g, a, n)
    ensures Unfolds(g, b, n)
    decreases |b|
  {
    if b == [] {
      assert |a| == |multiset(a)| == 0;
    } else {
      var i := WithoutLast(a, b);
      var k := UnfoldsWithout(g, a, i, n);
      UnfoldsInAnyOrder(g, a[..i] + a[i + 1..], b[..|b| - 1], n - k);
      JoinLast(g, b, n - k, k);
    }
  }

  // ---------------------------------------------------------------- no cycles

  lemma {:induction false} MemberUnfolds(g: Git, trees: seq<Oid>, n: nat, x: Oid) returns (k: nat)
    requires Unfolds(g, trees, n) && x in trees
    ensures 1 <= k <= n && Unfolds(g, [x], k)
    decreases |trees|
  {
    var front, last := trees[..|trees| - 1], trees[|trees| - 1];
    var j: nat :| LastTakes(g, trees, n, j);
    if x == last {
      k := j;
      assert [x][..0] == [] && LastTakes(g, [x], j, j);
    } else {
      assert x in front;
      k := MemberUnfolds(g, front, n - j, x);
    }
  }

  lemma SubtreeIsChild(g: Git, x: Oid, y: Oid)
    requires x in g.trees && y in Subtrees(g, x)
    ensures y in ChildOids(g, x)
  {
    var entries := g.trees[x];
    var i :| 0 <= i < |entries| && entries[i].kind == Subtree && entries[i].id == y;
    ChildListed([], entries, i);
  }

  lemma {:induction false} ChildListed(prefix: Bytes, entries: seq<Entry>, i: nat)
    requires i < |entries| && entries[i].kind == Subtree
    ensures entries[i].id in Oids(Below(prefix, entries))
  {
    var front := entries[..|entries| - 1];
    var below := Below(prefix, entries);
    if i == |entries| - 1 {
      assert Oids(below)[|below| - 1] == entries[i].id;
    } else {
      ChildListed(prefix, front, i);
      var k :| 0 <= k < |Oids(Below(prefix, front))| && Oids(Below(prefix, front))[k] == entries[i].id;
      assert Oids(below)[k] == entries[i].id;
    }
  }

  lemma ChildIsSmaller(g: Git, x: Oid, y: Oid, n: nat) returns (j: nat)
    requires Unfolds(g, [x], n) && y in Subtrees(g, x)
    ensures j < n && Unfolds(g, [y], j)
  {
    var k := LastSize(g, [x], n);
    SubtreeIsChild(g, x, y);
    j := MemberUnfolds(g, ChildOids(g, x), k - 1, y);
  }

  /** Going down a path of subtrees, the size falls. */
  lemma {:induction false} SizeFalls(g: Git, path: seq<Oid>, n: nat) returns (k: nat)
    requires path != [] && Unfolds(g, [path[0]], n)
    requires forall i :: 0 <= i < |path| - 1 ==> path[i + 1] in Subtrees(g, path[i])
    ensures Unfolds(g, [path[|path| - 1]], k) && k + |path| <= n + 1
    decreases |path|
  {
    if |path| == 1 {
      k := n;
    } else {
      var j := ChildIsSmaller(g, path[0], path[1], n);
      k := SizeFalls(g, path[1..], j);
    }
  }

  /** A tree that contains itself, at any depth, has no size: the walk never accepts it. */
  lemma {:induction false} CycleHasNoSize(g: Git, path: seq<Oid>, n: nat)
    requires |path| > 1 && path[0] == path[|path| - 1]
    requires forall i :: 0 <= i < |path| - 1 ==> path[i + 1] in Subtrees(g, path[i])
    ensures !Unfolds(g, [path[0]], n)
    decreases n
  {
    if Unfolds(g, [path[0]], n) {
      var k := SizeFalls(g, path, n);
      CycleHasNoSize(g, path, k);
    }
  }

  // ---------------------------------------------------------------- the walk

  /** Every place below the roots is fit, and the unfolding is within bounds. */
  ghost predicate WalkOk(g: Git, kinds: map<Oid, Kind>, lengths: map<Oid, nat>, roots: seq<Place>) {
    && (forall x :: Reachable(PlaceStep(g), Elements(roots), x) ==> PlaceOk(g, kinds, lengths, x))
    && exists n: nat :: n <= MAX_OBJECTS && Unfolds(g, Oids(roots), n)
  }

  /** The visits made and the visits left make up the size. */
  ghost predicate VisitsLeft(g: Git, roots: seq<Oid>, visits: nat, pending: seq<Oid>) {
    forall t: nat {:trigger Unfolds(g, roots, t)} :: Unfolds(g, roots, t) <==>
      t >= visits && Unfolds(g, pending, t - visits)
  }

  lemma OidsOfConcat(a: seq<Place>, b: seq<Place>)
    ensures Oids(a + b) == Oids(a) + Oids(b)
  {
  }

  lemma OidsOfStack(s: seq<Place>)
    requires s != []
    ensures Oids(s) == Oids(s[..|s| - 1]) + [s[|s| - 1].oid]
  {
    assert s == s[..|s| - 1] + [s[|s| - 1]];
    OidsOfConcat(s[..|s| - 1], [s[|s| - 1]]);
  }

  lemma VisitOne(g: Git, roots: seq<Oid>, visits: nat, pending: seq<Place>)
    requires pending != [] && pending[|pending| - 1].oid in g.trees && VisitsLeft(g, roots, visits, Oids(pending))
    ensures VisitsLeft(g, roots, visits + 1, Oids(pending[..|pending| - 1] + Children(g, pending[|pending| - 1])))
  {
    var rest, place := pending[..|pending| - 1], pending[|pending| - 1];
    OidsOfStack(pending);
    OidsOfConcat(rest, Children(g, place));
    BelowOids(place.prefix, [], g.trees[place.oid]);
    forall t: nat
      ensures Unfolds(g, roots, t) <==>
              t >= visits + 1 && Unfolds(g, Oids(rest) + ChildOids(g, place.oid), t - (visits + 1))
    {
      if t >= visits { UnfoldsTop(g, Oids(rest), place.oid, t - visits); }
    }
  }

  lemma TooManyVisits(g: Git, roots: seq<Oid>, visits: nat, pending: seq<Oid>, n: nat)
    requires VisitsLeft(g, roots, visits, pending) && pending != [] && n <= visits
    ensures !Unfolds(g, roots, n)
  {
    if Unfolds(g, roots, n) {
      var k := LastSize(g, pending, n - visits);
    }
  }

  /** What the walk has collected: the trees, blobs and symlinks of the places seen. */
  ghost predicate Collected(g: Git, places: set<Place>, trees: set<Oid>, blobs: set<Oid>, links: set<Oid>) {
    && trees == (set x | x in places :: x.oid) && blobs == AllBlobs(g, trees) && links == AllLinks(g, trees)
  }

  lemma CollectOne(g: Git, places: set<Place>, trees: set<Oid>, blobs: set<Oid>, links: set<Oid>, x: Place)
    requires Collected(g, places, trees, blobs, links) && x.oid in g.trees
    ensures Collected(g, places + {x}, trees + {x.oid}, blobs + BlobsTo(g.trees[x.oid]),
                      links + LinksTo(g.trees[x.oid]))
  {
    BlobsMore(g, trees, x.oid);
    var more := set y | y in places + {x} :: y.oid;
    assert x in places + {x};
    forall o | o in trees ensures o in more {
      var y :| y in places && y.oid == o;
      assert y in places + {x};
    }
  }

  lemma BlobsMore(g: Git, seen: set<Oid>, oid: Oid)
    ensures AllBlobs(g, seen + {oid}) == AllBlobs(g, seen) + BlobsIn(g, oid)
    ensures AllLinks(g, seen + {oid}) == AllLinks(g, seen) + LinksIn(g, oid)
  {
    assert oid in seen + {oid};
    forall b | b in AllBlobs(g, seen) ensures b in AllBlobs(g, seen + {oid}) {
      var t :| t in seen && b in BlobsIn(g, t);
      assert t in seen + {oid};
    }
    forall b | b in AllLinks(g, seen) ensures b in AllLinks(g, seen + {oid}) {
      var t :| t in seen && b in LinksIn(g, t);
      assert t in seen + {oid};
    }
  }

  /** The walk between two visits. */
  ghost predicate TreeWalk(g: Git, kinds: map<Oid, Kind>, lengths: map<Oid, nat>, roots: seq<Place>, places: set<Place>,
                           pending: seq<Place>)
  {
    && Walking(PlaceStep(g), Elements(roots), places, Elements(pending))
    && forall x :: x in places ==> PlaceOk(g, kinds, lengths, x)
  }

  lemma TreeVisit(g: Git, kinds: map<Oid, Kind>, lengths: map<Oid, nat>, roots: seq<Place>, places: set<Place>,
                  pending: seq<Place>)
    requires TreeWalk(g, kinds, lengths, roots, places, pending) && pending != []
    requires PlaceOk(g, kinds, lengths, pending[|pending| - 1])
    ensures var x := pending[|pending| - 1];
            TreeWalk(g, kinds, lengths, roots, places + {x}, pending[..|pending| - 1] + Children(g, x))
  {
    var x, rest := pending[|pending| - 1], pending[..|pending| - 1];
    ElementsOfStack(pending);
    ElementsOfConcat(rest, Children(g, x));
    WalkStep(PlaceStep(g), Elements(roots), places, Elements(pending), Elements(rest + Children(g, x)), x);
  }

  lemma UnfitPlace(g: Git, kinds: map<Oid, Kind>, lengths: map<Oid, nat>, roots: seq<Place>, places: set<Place>,
                   pending: seq<Place>, x: Place)
    requires TreeWalk(g, kinds, lengths, roots, places, pending) && x in pending && !PlaceOk(g, kinds, lengths, x)
    ensures !WalkOk(g, kinds, lengths, roots)
  {
    assert x in Elements(pending);
  }

  lemma AllVisited(g: Git, kinds: map<Oid, Kind>, lengths: map<Oid, nat>, roots: seq<Place>, places: set<Place>,
                   visits: nat)
    requires TreeWalk(g, kinds, lengths, roots, places, []) && VisitsLeft(g, Oids(roots), visits, [])
             && visits <= MAX_OBJECTS
    ensures WalkOk(g, kinds, lengths, roots)
    ensures forall x :: x in places <==> Reachable(PlaceStep(g), Elements(roots), x)
  {
    assert Elements<Place>([]) == {};
    WalkDone(PlaceStep(g), Elements(roots), places);
    assert Unfolds(g, Oids(roots), visits);
  }

  /** Everything the walk knows between two visits. */
  ghost predicate Underway(g: Git, kinds: map<Oid, Kind>, lengths: map<Oid, nat>, roots: seq<Place>, places: set<Place>,
                           pending: seq<Place>, visits: nat, seen: set<Oid>, blobs: set<Oid>, links: set<Oid>)
  {
    forall p {:trigger TreeWalk(g, kinds, lengths, roots, places, p)} :: p == pending ==>
      && TreeWalk(g, kinds, lengths, roots, places, p) && Collected(g, places, seen, blobs, links)
      && VisitsLeft(g, Oids(roots), visits, Oids(p))
  }

  lemma WalkVisit(g: Git, kinds: map<Oid, Kind>, lengths: map<Oid, nat>, roots: seq<Place>, places: set<Place>,
                  pending: seq<Place>, visits: nat, seen: set<Oid>, blobs: set<Oid>, links: set<Oid>)
    requires Underway(g, kinds, lengths, roots, places, pending, visits, seen, blobs, links)
    requires pending != [] && PlaceOk(g, kinds, lengths, pending[|pending| - 1])
    ensures var x := pending[|pending| - 1];
            Underway(g, kinds, lengths, roots, places + {x}, pending[..|pending| - 1] + Children(g, x), visits + 1,
                     seen + {x.oid}, blobs + BlobsTo(g.trees[x.oid]), links + LinksTo(g.trees[x.oid]))
  {
    assert TreeWalk(g, kinds, lengths, roots, places, pending);
    TreeVisit(g, kinds, lengths, roots, places, pending);
    VisitOne(g, Oids(roots), visits, pending);
    CollectOne(g, places, seen, blobs, links, pending[|pending| - 1]);
  }

  lemma WalkStops(g: Git, kinds: map<Oid, Kind>, lengths: map<Oid, nat>, roots: seq<Place>, places: set<Place>,
                  pending: seq<Place>, visits: nat, seen: set<Oid>, blobs: set<Oid>, links: set<Oid>)
    requires Underway(g, kinds, lengths, roots, places, pending, visits, seen, blobs, links) && pending != []
    requires visits >= MAX_OBJECTS || !PlaceOk(g, kinds, lengths, pending[|pending| - 1])
    ensures !WalkOk(g, kinds, lengths, roots)
  {
    assert TreeWalk(g, kinds, lengths, roots, places, pending);
    if visits >= MAX_OBJECTS {
      forall n: nat | n <= MAX_OBJECTS ensures !Unfolds(g, Oids(roots), n) {
        TooManyVisits(g, Oids(roots), visits, Oids(pending), n);
      }
    } else {
      UnfitPlace(g, kinds, lengths, roots, places, pending, pending[|pending| - 1]);
    }
  }

  lemma WalkBegins(g: Git, kinds: map<Oid, Kind>, lengths: map<Oid, nat>, roots: seq<Place>)
    ensures Underway(g, kinds, lengths, roots, {}, roots, 0, {}, {}, {})
  {
    WalkStart(PlaceStep(g), Elements(roots));
    assert TreeWalk(g, kinds, lengths, roots, {}, roots) && Collected(g, {}, {}, {}, {});
  }

  lemma WalkEnds(g: Git, kinds: map<Oid, Kind>, lengths: map<Oid, nat>, roots: seq<Place>, places: set<Place>,
                 visits: nat, seen: set<Oid>, blobs: set<Oid>, links: set<Oid>)
    requires Underway(g, kinds, lengths, roots, places, [], visits, seen, blobs, links) && visits <= MAX_OBJECTS
    ensures WalkOk(g, kinds, lengths, roots) && blobs == AllBlobs(g, seen) && links == AllLinks(g, seen)
    ensures seen <= OfKind(kinds, Tree)
            && forall x :: x in seen <==> Reachable(SubtreeStep(g), Elements(Oids(roots)), x)
  {
    assert TreeWalk(g, kinds, lengths, roots, places, []);
    AllVisited(g, kinds, lengths, roots, places, visits);
    SeenTrees(g, kinds, lengths, roots, places, seen);
  }

  /**
   Walks the trees below the roots, each place once for every way to it. It ends on every input:
   a tree that contains itself has no size, and the visits are bounded.
   */
  method WalkTrees(g: Git, kinds: map<Oid, Kind>, lengths: map<Oid, nat>, roots: seq<Place>)
    returns (ok: bool, seen: set<Oid>, blobs: set<Oid>, links: set<Oid>)
    ensures ok <==> WalkOk(g, kinds, lengths, roots)
    ensures ok ==> blobs == AllBlobs(g, seen) && links == AllLinks(g, seen) && seen <= OfKind(kinds, Tree)
    ensures ok ==> forall x :: x in seen <==> Reachable(SubtreeStep(g), Elements(Oids(roots)), x)
  {
    seen, blobs, links := {}, {}, {};
    ghost var places: set<Place> := {};
    var pending, visits := roots, 0;
    WalkBegins(g, kinds, lengths, roots);
    while pending != []
      invariant Underway(g, kinds, lengths, roots, places, pending, visits, seen, blobs, links) && visits <= MAX_OBJECTS
      decreases MAX_OBJECTS - visits
    {
      var place := pending[|pending| - 1];
      var fit, more, found, linked := VisitPlace(g, kinds, lengths, place);
      if visits + 1 > MAX_OBJECTS || !fit {
        WalkStops(g, kinds, lengths, roots, places, pending, visits, seen, blobs, links);
        return false, seen, blobs, links;
      }
      WalkVisit(g, kinds, lengths, roots, places, pending, visits, seen, blobs, links);
      places, visits := places + {place}, visits + 1;
      seen, pending, blobs, links := seen + {place.oid}, pending[..|pending| - 1] + more, blobs + found, links + linked;
    }
    WalkEnds(g, kinds, lengths, roots, places, visits, seen, blobs, links);
    return true, seen, blobs, links;
  }

  // ---------------------------------------------------------------- places and their ids

  lemma {:induction false} BelowAt(prefix: Bytes, entries: seq<Entry>, x: Place)
    requires x in Below(prefix, entries)
    ensures exists i :: 0 <= i < |entries| && entries[i].kind == Subtree && entries[i].id == x.oid
  {
    var n := |entries| - 1;
    var front := entries[..n];
    if x in Below(prefix, front) {
      BelowAt(prefix, front, x);
      var i :| 0 <= i < |front| && front[i].kind == Subtree && front[i].id == x.oid;
      assert entries[i] == front[i];
    } else {
      assert entries[n].kind == Subtree && entries[n].id == x.oid;
    }
  }

  /** The ids of the children of a place are the subtrees of its tree. */
  lemma ChildrenAreSubtrees(g: Git, x: Place, y: Place)
    requires y in Children(g, x)
    ensures y.oid in Subtrees(g, x.oid)
  {
    BelowAt(x.prefix, g.trees[x.oid], y);
  }

  lemma SubtreeHasPlace(g: Git, x: Place, o: Oid) returns (y: Place)
    requires o in Subtrees(g, x.oid)
    ensures y in Children(g, x) && y.oid == o
  {
    SubtreeIsChild(g, x.oid, o);
    BelowOids(x.prefix, [], g.trees[x.oid]);
    var k :| 0 <= k < |Oids(Children(g, x))| && Oids(Children(g, x))[k] == o;
    y := Children(g, x)[k];
  }

  /** The trees of the places reached are the trees reached. */
  lemma SeenTrees(g: Git, kinds: map<Oid, Kind>, lengths: map<Oid, nat>, roots: seq<Place>, places: set<Place>,
                  seen: set<Oid>)
    requires seen == (set x | x in places :: x.oid) && (forall x :: x in places ==> PlaceOk(g, kinds, lengths, x))
    requires forall x :: x in places <==> Reachable(PlaceStep(g), Elements(roots), x)
    ensures seen <= OfKind(kinds, Tree)
            && forall x :: x in seen <==> Reachable(SubtreeStep(g), Elements(Oids(roots)), x)
  {
    forall o | o in Elements(Oids(roots)) ensures o in seen {
      var k :| 0 <= k < |Oids(roots)| && Oids(roots)[k] == o;
      RootReachable(PlaceStep(g), Elements(roots), roots[k]);
    }
    forall o | o in seen ensures SubtreeStep(g)(o) <= seen {
      var x :| x in places && x.oid == o;
      forall p | p in Subtrees(g, o) ensures p in seen {
        var y := SubtreeHasPlace(g, x, p);
        StepReachable(PlaceStep(g), Elements(roots), x, y);
      }
    }
    forall o | o in seen ensures Reachable(SubtreeStep(g), Elements(Oids(roots)), o) {
      var x :| x in places && x.oid == o;
      var path :| IsPath(PlaceStep(g), Elements(roots), path) && path[|path| - 1] == x;
      PlacePath(g, roots, path, |path| - 1);
    }
    ClosedIsReachable(SubtreeStep(g), Elements(Oids(roots)), seen);
  }

  lemma {:induction false} PlacePath(g: Git, roots: seq<Place>, path: seq<Place>, i: nat)
    requires IsPath(PlaceStep(g), Elements(roots), path) && i < |path|
    ensures Reachable(SubtreeStep(g), Elements(Oids(roots)), path[i].oid)
  {
    if i == 0 {
      var k :| 0 <= k < |roots| && roots[k] == path[0];
      assert Oids(roots)[k] == path[0].oid;
      RootReachable(SubtreeStep(g), Elements(Oids(roots)), path[0].oid);
    } else {
      PlacePath(g, roots, path, i - 1);
      assert path[i] in PlaceStep(g)(path[i - 1]);
      ChildrenAreSubtrees(g, path[i - 1], path[i]);
      StepReachable(SubtreeStep(g), Elements(Oids(roots)), path[i - 1].oid, path[i].oid);
    }
  }

  /** No accepted tree contains itself, at any depth. */
  lemma AcceptedIsAcyclic(g: Git, kinds: map<Oid, Kind>, lengths: map<Oid, nat>, roots: seq<Place>, path: seq<Oid>,
                          cycle: seq<Oid>)
    requires WalkOk(g, kinds, lengths, roots) && IsPath(SubtreeStep(g), Elements(Oids(roots)), path)
    requires |cycle| > 1 && cycle[0] == path[|path| - 1]
    requires forall i :: 0 <= i < |cycle| - 1 ==> cycle[i + 1] in Subtrees(g, cycle[i])
    ensures cycle[|cycle| - 1] != cycle[0]
  {
    var n: nat :| n <= MAX_OBJECTS && Unfolds(g, Oids(roots), n);
    var k := MemberUnfolds(g, Oids(roots), n, path[0]);
    assert forall i :: 0 <= i < |path| - 1 ==> path[i + 1] in SubtreeStep(g)(path[i]);
    var j := SizeFalls(g, path, k);
    if cycle[|cycle| - 1] == cycle[0] { CycleHasNoSize(g, cycle, j); }
  }
}
