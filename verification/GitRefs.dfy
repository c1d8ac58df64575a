/** Listing the objects of a backup and following its references to commits. */
module GitRefs {
  import opened Base
  import opened Reachability
  import opened GitGraph

  // ---------------------------------------------------------------- listing

  lemma ListingMore(front: seq<Listed>, formatVersion: nat, x: Listed)
    requires ListingOk(front, formatVersion)
    ensures ListingOk(front + [x], formatVersion) <==>
            x.intact && KindOf(x.code, formatVersion).Some? && x.oid !in KindMap(front, formatVersion)
  {
    var more := front + [x];
    KindMapIs(front, formatVersion);
    assert more[|front|] == x && forall k :: 0 <= k < |front| ==> more[k] == front[k];
    if j :| 0 <= j < |front| && front[j].oid == x.oid { assert more[j].oid == more[|front|].oid; }
  }

  lemma ListingPrefix(objects: seq<Listed>, formatVersion: nat, n: nat)
    requires n <= |objects| && ListingOk(objects, formatVersion)
    ensures ListingOk(objects[..n], formatVersion)
  {
  }

  lemma PrefixListing(objects: seq<Listed>, formatVersion: nat, i: nat)
    requires i < |objects| && ListingOk(objects[..i], formatVersion)
    ensures ListingOk(objects[..i + 1], formatVersion) <==>
            && objects[i].intact && KindOf(objects[i].code, formatVersion).Some?
            && objects[i].oid !in KindMap(objects[..i], formatVersion)
    ensures !ListingOk(objects[..i + 1], formatVersion) ==> !ListingOk(objects, formatVersion)
    ensures KindOf(objects[i].code, formatVersion).Some? ==>
              KindMap(objects[..i + 1], formatVersion)
              == KindMap(objects[..i], formatVersion)[objects[i].oid := KindOf(objects[i].code, formatVersion).value]
  {
    assert objects[..i + 1] == objects[..i] + [objects[i]] && objects[..i + 1][..i] == objects[..i];
    ListingMore(objects[..i], formatVersion, objects[i]);
    if ListingOk(objects, formatVersion) { ListingPrefix(objects, formatVersion, i + 1); }
  }

  /** The kind of every listed object; none may be listed twice. */
  method ListKinds(objects: seq<Listed>, formatVersion: nat) returns (ok: bool, kinds: map<Oid, Kind>)
    ensures ok <==> ListingOk(objects, formatVersion)
    ensures ok ==> kinds == KindMap(objects, formatVersion)
  {
    kinds := map[];
    for i := 0 to |objects|
      invariant ListingOk(objects[..i], formatVersion) && kinds == KindMap(objects[..i], formatVersion)
    {
      var kind := KindOf(objects[i].code, formatVersion);
      PrefixListing(objects, formatVersion, i);
      if kind.None? || !objects[i].intact || objects[i].oid in kinds { return false, kinds; }
      kinds := kinds[objects[i].oid := kind.value];
    }
    assert objects[..|objects|] == objects;
    return true, kinds;
  }

  // ---------------------------------------------------------------- tag chains

  /** Hops are determined by the reference, so what resolves it begins with every run of hops. */
  lemma {:induction false} HopsAgree(g: Git, kinds: map<Oid, Kind>, r: Ref, path: seq<Oid>, all: seq<Oid>, i: nat)
    requires Hops(g, kinds, r, path) && ResolvesBy(g, kinds, r, all) && i < |path|
    ensures i < |all| && path[i] == all[i]
  {
    if i > 0 {
      HopsAgree(g, kinds, r, path, all, i - 1);
      assert HopOk(g, kinds, r, path[i - 1], i - 1 == 0);
    }
  }

  lemma {:induction false} HopsRepeat(g: Git, kinds: map<Oid, Kind>, r: Ref, path: seq<Oid>, i: nat, j: nat, k: nat)
    requires Hops(g, kinds, r, path) && i < j && j + k < |path| && path[i] == path[j]
    ensures path[i + k] == path[j + k]
  {
    if k > 0 {
      HopsRepeat(g, kinds, r, path, i, j, k - 1);
      assert HopOk(g, kinds, r, path[i + k - 1], i + k - 1 == 0) && path[i + k] == g.tags[path[i + k - 1]].target;
      assert HopOk(g, kinds, r, path[j + k - 1], j + k - 1 == 0) && path[j + k] == g.tags[path[j + k - 1]].target;
    }
  }

  /** Hops that end at a commit never meet an object twice. */
  lemma ResolvedIsDistinct(g: Git, kinds: map<Oid, Kind>, r: Ref, path: seq<Oid>, i: nat, j: nat)
    requires ResolvesBy(g, kinds, r, path) && i < j < |path|
    ensures path[i] != path[j]
  {
    if path[i] == path[j] {
      var k := |path| - 1 - j;
      HopsRepeat(g, kinds, r, path, i, j, k);
    }
  }

  lemma Unresolved(g: Git, kinds: map<Oid, Kind>, r: Ref, path: seq<Oid>)
    requires Hops(g, kinds, r, path)
    requires || (exists j :: 0 <= j < |path| - 1 && path[j] == path[|path| - 1])
             || |path| > MAX_OBJECTS
             || (!HopOk(g, kinds, r, path[|path| - 1], |path| == 1)
                 && !(path[|path| - 1] in kinds && kinds[path[|path| - 1]] == Commit))
    ensures !Resolves(g, kinds, r)
  {
    if all :| ResolvesBy(g, kinds, r, all) {
      var n := |path| - 1;
      forall i | 0 <= i < |path| ensures i < |all| && path[i] == all[i] { HopsAgree(g, kinds, r, path, all, i); }
      if j :| 0 <= j < n && path[j] == path[n] { ResolvedIsDistinct(g, kinds, r, all, j, n); }
    }
  }

  lemma {:induction false} HopIsReachable(g: Git, kinds: map<Oid, Kind>, r: Ref, path: seq<Oid>, i: nat)
    requires Hops(g, kinds, r, path) && i < |path|
    ensures Reachable(TagStep(g, kinds), {r.oid}, path[i])
  {
    if i == 0 {
      RootReachable(TagStep(g, kinds), {r.oid}, r.oid);
    } else {
      HopIsReachable(g, kinds, r, path, i - 1);
      assert HopOk(g, kinds, r, path[i - 1], i - 1 == 0);
      StepReachable(TagStep(g, kinds), {r.oid}, path[i - 1], path[i]);
    }
  }

  /** What a resolved reference names: the tags on the way and the commit at the end. */
  lemma ResolvedNames(g: Git, kinds: map<Oid, Kind>, r: Ref, path: seq<Oid>)
    requires ResolvesBy(g, kinds, r, path)
    ensures Elements(path[..|path| - 1]) <= OfKind(kinds, Tag) && path[|path| - 1] in OfKind(kinds, Commit)
    ensures forall x :: x in Elements(path) <==> Reachable(TagStep(g, kinds), {r.oid}, x)
  {
    var n := |path| - 1;
    forall x | x in path[..n] ensures x in OfKind(kinds, Tag) {
      var i :| 0 <= i < n && path[..n][i] == x;
      assert HopOk(g, kinds, r, path[i], i == 0);
    }
    forall x | x in Elements(path)
      ensures Reachable(TagStep(g, kinds), {r.oid}, x) && TagStep(g, kinds)(x) <= Elements(path)
    {
      var i :| 0 <= i < |path| && path[i] == x;
      HopIsReachable(g, kinds, r, path, i);
      if i < n { assert HopOk(g, kinds, r, path[i], i == 0) && TagTargets(g, kinds, x) == {path[i + 1]}; }
    }
    ClosedIsReachable(TagStep(g, kinds), {r.oid}, Elements(path));
  }

  lemma OneMoreHop(g: Git, kinds: map<Oid, Kind>, r: Ref, path: seq<Oid>)
    requires Hops(g, kinds, r, path) && HopOk(g, kinds, r, path[|path| - 1], |path| == 1)
    ensures Hops(g, kinds, r, path + [g.tags[path[|path| - 1]].target])
  {
    var more := path + [g.tags[path[|path| - 1]].target];
    forall i | 0 <= i < |more| - 1
      ensures HopOk(g, kinds, r, more[i], i == 0) && more[i + 1] == g.tags[more[i]].target
    {
      if i < |path| - 1 { assert HopOk(g, kinds, r, path[i], i == 0) && path[i + 1] == g.tags[path[i]].target; }
    }
  }

  /** `chain` holds the objects met so far, each once. */
  ghost predicate Met(path: seq<Oid>, chain: set<Oid>) {
    chain == Elements(path) && |chain| == |path|
  }

  lemma OneMoreMet(path: seq<Oid>, chain: set<Oid>, x: Oid)
    requires Met(path, chain) && x !in chain
    ensures Met(path + [x], chain + {x})
  {
    ElementsOfConcat(path, [x]);
    assert Elements([x]) == {x};
  }

  /** The state of following a reference: the hops so far, and what was met before the last. */
  ghost predicate Following(g: Git, kinds: map<Oid, Kind>, r: Ref, path: seq<Oid>, tags: set<Oid>, chain: set<Oid>,
                            at: Oid) {
    Hops(g, kinds, r, path) && path[|path| - 1] == at && Met(path[..|path| - 1], chain)
      && tags == Elements(path[..|path| - 1])
  }

  lemma FollowStops(g: Git, kinds: map<Oid, Kind>, r: Ref, path: seq<Oid>, tags: set<Oid>, chain: set<Oid>, at: Oid)
    requires Following(g, kinds, r, path, tags, chain, at)
    requires || at in chain || |chain| + 1 > MAX_OBJECTS
             || (!HopOk(g, kinds, r, at, chain == {}) && !(at in kinds && kinds[at] == Commit))
    ensures !Resolves(g, kinds, r)
  {
    assert Hops(g, kinds, r, path);
    if at in chain {
      var front := path[..|path| - 1];
      var j :| 0 <= j < |front| && front[j] == at;
      assert path[j] == at;
    }
    Unresolved(g, kinds, r, path);
  }

  lemma FollowHop(g: Git, kinds: map<Oid, Kind>, r: Ref, path: seq<Oid>, tags: set<Oid>, chain: set<Oid>, at: Oid)
    requires Following(g, kinds, r, path, tags, chain, at) && at !in chain && HopOk(g, kinds, r, at, chain == {})
    ensures Following(g, kinds, r, path + [g.tags[at].target], tags + {at}, chain + {at}, g.tags[at].target)
  {
    assert Hops(g, kinds, r, path);
    var front, more := path[..|path| - 1], path + [g.tags[at].target];
    assert front == [] <==> chain == {} by { assert Met(front, chain); }
    OneMoreHop(g, kinds, r, path);
    FollowMet(path, tags, chain, at);
    assert more[..|more| - 1] == path;
  }

  lemma FollowMet(path: seq<Oid>, tags: set<Oid>, chain: set<Oid>, at: Oid)
    requires path != [] && path[|path| - 1] == at && at !in chain
    requires Met(path[..|path| - 1], chain) && tags == Elements(path[..|path| - 1])
    ensures Met(path, chain + {at}) && tags + {at} == Elements(path)
  {
    var front := path[..|path| - 1];
    assert path == front + [at];
    OneMoreMet(front, chain, at);
    ElementsOfStack(path);
  }

  lemma FollowStart(g: Git, kinds: map<Oid, Kind>, r: Ref)
    ensures Following(g, kinds, r, [r.oid], {}, {}, r.oid)
  {
    assert Hops(g, kinds, r, [r.oid]);
    assert [r.oid][..0] == [] && Elements<Oid>([]) == {};
  }

  /** Follows one reference; it ends on every input, as no object is met twice. */
  method FollowRef(g: Git, kinds: map<Oid, Kind>, r: Ref)
    returns (ok: bool, tags: set<Oid>, commit: Oid, ghost path: seq<Oid>)
    ensures ok <==> Resolves(g, kinds, r)
    ensures ok ==> ResolvesBy(g, kinds, r, path) && tags == Elements(path[..|path| - 1]) && commit == path[|path| - 1]
  {
    commit, path, tags := r.oid, [r.oid], {};
    var chain: set<Oid> := {};
    FollowStart(g, kinds, r);
    while true
      invariant Following(g, kinds, r, path, tags, chain, commit) && |chain| <= MAX_OBJECTS
      decreases MAX_OBJECTS - |chain|
    {
      if commit in chain || |chain| + 1 > MAX_OBJECTS {
        FollowStops(g, kinds, r, path, tags, chain, commit);
        return false, tags, commit, path;
      }
      if commit in kinds && kinds[commit] == Commit {
        FollowEnds(g, kinds, r, path, tags, chain, commit);
        return true, tags, commit, path;
      }
      if !HopOk(g, kinds, r, commit, chain == {}) {
        FollowStops(g, kinds, r, path, tags, chain, commit);
        return false, tags, commit, path;
      }
      FollowHop(g, kinds, r, path, tags, chain, commit);
      chain, tags := chain + {commit}, tags + {commit};
      commit := g.tags[commit].target;
      path := path + [commit];
    }
  }

  lemma FollowEnds(g: Git, kinds: map<Oid, Kind>, r: Ref, path: seq<Oid>, tags: set<Oid>, chain: set<Oid>, at: Oid)
    requires Following(g, kinds, r, path, tags, chain, at) && |chain| < MAX_OBJECTS && at in kinds
             && kinds[at] == Commit
    ensures ResolvesBy(g, kinds, r, path) && tags == Elements(path[..|path| - 1]) && at == path[|path| - 1]
    ensures Resolves(g, kinds, r)
  {
    assert Hops(g, kinds, r, path);
    assert ResolvesBy(g, kinds, r, path);
  }

  // ---------------------------------------------------------------- all references

  /** The tags and commits found from some references are exactly the objects these name. */
  ghost predicate Found(g: Git, kinds: map<Oid, Kind>, refs: seq<Ref>, tags: set<Oid>, heads: set<Oid>) {
    && tags <= OfKind(kinds, Tag) && heads <= OfKind(kinds, Commit)
    && forall x :: x in tags + heads <==> Named(g, kinds, refs, x)
  }

  lemma RefOidsMore(refs: seq<Ref>, i: nat)
    requires i < |refs|
    ensures RefOids(refs[..i + 1]) == RefOids(refs[..i]) + {refs[i].oid}
  {
    var front, more := refs[..i], refs[..i + 1];
    assert forall k :: 0 <= k < i ==> more[k] == front[k];
    assert more[i] == refs[i];
  }

  lemma NamedMore(g: Git, kinds: map<Oid, Kind>, refs: seq<Ref>, i: nat, x: Oid)
    requires i < |refs|
    ensures Named(g, kinds, refs[..i + 1], x)
       <==> Named(g, kinds, refs[..i], x) || Reachable(TagStep(g, kinds), {refs[i].oid}, x)
  {
    RefOidsMore(refs, i);
    EitherRoots(TagStep(g, kinds), RefOids(refs[..i]), {refs[i].oid}, x);
  }

  lemma FoundMore(g: Git, kinds: map<Oid, Kind>, refs: seq<Ref>, i: nat, tags: set<Oid>, heads: set<Oid>,
                  more: set<Oid>, head: Oid)
    requires i < |refs| && Found(g, kinds, refs[..i], tags, heads)
    requires more <= OfKind(kinds, Tag) && head in OfKind(kinds, Commit)
    requires forall x :: x in more + {head} <==> Reachable(TagStep(g, kinds), {refs[i].oid}, x)
    ensures Found(g, kinds, refs[..i + 1], tags + more, heads + {head})
  {
    forall x ensures x in tags + more + (heads + {head}) <==> Named(g, kinds, refs[..i + 1], x) {
      NamedMore(g, kinds, refs, i, x);
      assert x in tags + heads || x in more + {head} <==> x in tags + more + (heads + {head});
    }
  }

  lemma FoundNext(g: Git, kinds: map<Oid, Kind>, refs: seq<Ref>, i: nat, tags: set<Oid>, pending: seq<Oid>,
                  path: seq<Oid>)
    requires i < |refs| && Found(g, kinds, refs[..i], tags, Elements(pending)) && ResolvesBy(g, kinds, refs[i], path)
    ensures Found(g, kinds, refs[..i + 1], tags + Elements(path[..|path| - 1]), Elements(pending + [path[|path| - 1]]))
  {
    ResolvedNames(g, kinds, refs[i], path);
    ElementsOfStack(path);
    FoundMore(g, kinds, refs, i, tags, Elements(pending), Elements(path[..|path| - 1]), path[|path| - 1]);
    assert Elements(pending + [path[|path| - 1]]) == Elements(pending) + {path[|path| - 1]};
  }

  lemma FoundStart(g: Git, kinds: map<Oid, Kind>, refs: seq<Ref>)
    ensures Found(g, kinds, refs[..0], {}, Elements([]))
  {
    assert RefOids(refs[..0]) == {} && Elements<Oid>([]) == {};
  }

  /** The names of the references before position `n` are valid and different, and all resolve. */
  ghost predicate RefsRead(g: Git, kinds: map<Oid, Kind>, refs: seq<Ref>, n: nat, names: set<Bytes>) {
    && n <= |refs| && (forall i :: 0 <= i < n ==> RefOk(g, kinds, refs[i]))
    && (forall i :: 0 <= i < n ==> refs[i].name in names)
    && (forall x :: x in names ==> exists i :: 0 <= i < n && refs[i].name == x)
    && (forall i, j :: 0 <= i < j < n ==> refs[i].name != refs[j].name)
  }

  lemma RefRead(g: Git, kinds: map<Oid, Kind>, refs: seq<Ref>, n: nat, names: set<Bytes>)
    requires RefsRead(g, kinds, refs, n, names) && n < |refs|
    ensures RefOk(g, kinds, refs[n]) && refs[n].name !in names ==>
              RefsRead(g, kinds, refs, n + 1, names + {refs[n].name})
    ensures !(RefOk(g, kinds, refs[n]) && refs[n].name !in names) ==>
              !RefsOk(g, kinds, refs)
  {
  }

  /** Every reference has a valid name of its own and resolves to a commit. */
  method FollowRefs(g: Git, kinds: map<Oid, Kind>, refs: seq<Ref>) returns (ok: bool, tags: set<Oid>, pending: seq<Oid>)
    ensures ok <==> RefsOk(g, kinds, refs)
    ensures ok ==> Found(g, kinds, refs, tags, Elements(pending))
  {
    tags, pending := {}, [];
    FoundStart(g, kinds, refs);
    var names: set<Bytes> := {};
    for i := 0 to |refs|
      invariant Found(g, kinds, refs[..i], tags, Elements(pending)) && RefsRead(g, kinds, refs, i, names)
    {
      RefRead(g, kinds, refs, i, names);
      if !RefNameOk(g, refs[i].name) || refs[i].name in names { return false, tags, pending; }
      var followed, more, commit, path := FollowRef(g, kinds, refs[i]);
      if !followed { return false, tags, pending; }
      FoundNext(g, kinds, refs, i, tags, pending, path);
      names, tags, pending := names + {refs[i].name}, tags + more, pending + [commit];
    }
    assert refs[..|refs|] == refs;
    return true, tags, pending;
  }

  lemma ApartBySlash(refs: seq<Ref>, names: set<Bytes>)
    requires forall x :: x in names <==> exists i :: 0 <= i < |refs| && refs[i].name == x
    ensures NamesApart(refs) <==> forall x :: x in names ==> NoneAbove(names, x)
  {
    if !NamesApart(refs) {
      var i, j :| 0 <= i < |refs| && 0 <= j < |refs| && refs[i].name + [SLASH] <= refs[j].name;
      var x, n := refs[j].name, |refs[i].name|;
      assert x[n] == SLASH && x[..n] == refs[i].name;
      assert x in names && x[..n] in names;
    }
    forall x | x in names && !NoneAbove(names, x) ensures !NamesApart(refs) {
      var n :| 0 <= n < |x| && x[n] == SLASH && x[..n] in names;
      var i :| 0 <= i < |refs| && refs[i].name == x[..n];
      var j :| 0 <= j < |refs| && refs[j].name == x;
      assert refs[i].name + [SLASH] == x[..n + 1] <= refs[j].name;
    }
  }

  /** No part of the name before a slash is a name itself. */
  predicate NoneAbove(names: set<Bytes>, x: Bytes) {
    forall n :: 0 <= n < |x| && x[n] == SLASH ==> x[..n] !in names
  }

  /** The names together: none above another, and the head branch among them. */
  method CheckNames(refs: seq<Ref>, formatVersion: nat, head: Bytes) returns (ok: bool)
    ensures ok <==> NamesApart(refs) && HeadOk(formatVersion, refs, head)
  {
    var names := set i | 0 <= i < |refs| :: refs[i].name;
    ApartBySlash(refs, names);
    if exists x :: x in names && !NoneAbove(names, x) { return false; }
    if (formatVersion == 2 || formatVersion == 3) && refs != [] && HEADS + head !in names { return false; }
    return !(formatVersion >= 2 && refs == []) || head == MAIN;
  }
}
