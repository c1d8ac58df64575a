/**
 The catalog reader: an ordered traversal of the pages below a root, against a fetch callback
 that may return anything. What it emits is always a prefix of the one stream the root commits
 to, it never does more work than the root announces, and it stops.
 */
module CatalogReader {
  import opened Base
  import opened Pages
  import opened CatalogTree
  import opened CatalogBuilder

  /** What storage returns for the n-th request, given the path from the root to the page. */
  type Fetch = (nat, seq<PageRef>) -> Option<Frame>

  // ---------------------------------------------------------------- the stack

  /** Children are pushed last first. */
  function Rev(s: seq<PageRef>): (r: seq<PageRef>)
    ensures |r| == |s|
    ensures forall i :: 0 <= i < |s| ==> r[i] == s[|s| - 1 - i]
  {
    if s == [] then [] else [s[|s| - 1]] + Rev(s[..|s| - 1])
  }

  /** The bytes still to come, top of the stack first. */
  ghost function StackStream(cx: Context, pending: seq<PageRef>): Bytes {
    if pending == [] then [] else Stream(cx, pending[|pending| - 1]) + StackStream(cx, pending[..|pending| - 1])
  }

  lemma {:induction false} SumsOfRev(s: seq<PageRef>)
    ensures SumBytes(Rev(s)) == SumBytes(s) && SumPages(Rev(s)) == SumPages(s)
  {
    if s != [] {
      var front, last := s[..|s| - 1], s[|s| - 1];
      SumsOfRev(front);
      SumsOfConcat([last], Rev(front));
      SumsOfOne(last);
    }
  }

  lemma PushSums(front: seq<PageRef>, children: seq<PageRef>)
    ensures SumBytes(front + Rev(children)) == SumBytes(front) + SumBytes(children)
    ensures SumPages(front + Rev(children)) == SumPages(front) + SumPages(children)
  {
    SumsOfConcat(front, Rev(children));
    SumsOfRev(children);
  }

  lemma RevFirst(s: seq<PageRef>)
    requires s != []
    ensures Rev(s) == Rev(s[1..]) + [s[0]]
  {
  }

  lemma StackTop(cx: Context, stack: seq<PageRef>, rest: seq<PageRef>, top: PageRef)
    requires stack == rest + [top]
    ensures StackStream(cx, stack) == Stream(cx, top) + StackStream(cx, rest)
  {
    assert stack[..|stack| - 1] == rest;
  }

  lemma {:induction false} PushStream(cx: Context, front: seq<PageRef>, children: seq<PageRef>)
    ensures StackStream(cx, front + Rev(children)) == Streams(cx, children) + StackStream(cx, front)
    decreases |children|
  {
    if children == [] {
      assert front + Rev(children) == front;
    } else {
      PushStream(cx, front, children[1..]);
      RevFirst(children);
      assert front + Rev(children) == (front + Rev(children[1..])) + [children[0]];
      StackTop(cx, front + Rev(children), front + Rev(children[1..]), children[0]);
      Reassociate(Stream(cx, children[0]), Streams(cx, children[1..]), StackStream(cx, front));
    }
  }

  lemma Reassociate(a: Bytes, b: Bytes, c: Bytes)
    ensures a + (b + c) == (a + b) + c
  {
  }

  // ---------------------------------------------------------------- geometry of the stack

  /** How far below the root a reference is. */
  ghost function Depth(root: PageRef, r: PageRef): int {
    root.height - r.height
  }

  ghost predicate IsChild(parent: PageRef, child: PageRef) {
    parent.hash.frame.Canonical? && parent.hash.frame.page.body.Index? && child in parent.hash.frame.page.body.children
  }

  /** A path from the root, each page a child of the one before. */
  ghost predicate PathOk(root: PageRef, path: seq<PageRef>) {
    && (path != [] ==> path[0] == root)
    && (forall k :: 0 <= k < |path| ==> path[k].height + k == root.height)
    && (forall k :: 0 <= k < |path| - 1 ==> IsChild(path[k], path[k + 1]))
  }

  /** A pending reference hangs below the path, and not too far up the stack. */
  ghost predicate HangsAt(root: PageRef, path: seq<PageRef>, i: nat, r: PageRef) {
    && RefOk(r) && 0 <= Depth(root, r) <= |path|
    && i <= FANOUT * Depth(root, r)
    && (if Depth(root, r) == 0 then r == root else IsChild(path[Depth(root, r) - 1], r))
  }

  ghost predicate StackOk(root: PageRef, pending: seq<PageRef>, path: seq<PageRef>) {
    && PathOk(root, path)
    && (forall i :: 0 <= i < |pending| ==> HangsAt(root, path, i, pending[i]))
    && (forall i, j :: 0 <= i < j < |pending| ==> pending[i].height >= pending[j].height)
  }

  /** The stack never holds more than a fanout per height, and one. */
  lemma StackBound(root: PageRef, pending: seq<PageRef>, path: seq<PageRef>)
    requires StackOk(root, pending, path)
    ensures |pending| <= FANOUT * root.height + 1
  {
    if pending != [] { assert HangsAt(root, path, |pending| - 1, pending[|pending| - 1]); }
  }

  /** The path to the page on top of the stack. */
  ghost function TopPath(root: PageRef, pending: seq<PageRef>, path: seq<PageRef>): (r: seq<PageRef>)
    requires StackOk(root, pending, path) && pending != []
    ensures |r| == Depth(root, pending[|pending| - 1]) + 1 && r[|r| - 1] == pending[|pending| - 1]
  {
    var top := pending[|pending| - 1];
    assert HangsAt(root, path, |pending| - 1, top);
    path[..Depth(root, top)] + [top]
  }

  lemma PopOk(root: PageRef, pending: seq<PageRef>, path: seq<PageRef>)
    requires StackOk(root, pending, path) && pending != []
    ensures StackOk(root, pending[..|pending| - 1], TopPath(root, pending, path))
  {
    var front, top, next := pending[..|pending| - 1], pending[|pending| - 1], TopPath(root, pending, path);
    var d := Depth(root, top);
    assert HangsAt(root, path, |pending| - 1, top);
    assert next[..d] == path[..d];
    forall k | 0 <= k < |next| - 1 ensures IsChild(next[k], next[k + 1]) {
      if k + 1 < d { assert IsChild(path[k], path[k + 1]); }
    }
    forall i | 0 <= i < |front| ensures HangsAt(root, next, i, front[i]) {
      assert HangsAt(root, path, i, pending[i]);
    }
  }

  /** Where an element of the new stack comes from. */
  lemma PushedAt(front: seq<PageRef>, children: seq<PageRef>, i: nat)
    requires i < |front| + |children|
    ensures (front + Rev(children))[i] == if i < |front| then front[i] else children[|children| - 1 - (i - |front|)]
  {
  }

  ghost predicate ChildrenOk(top: PageRef, children: seq<PageRef>) {
    |children| <= FANOUT
      && forall i :: 0 <= i < |children| ==> ChildOk(top.height, children[i]) && IsChild(top, children[i])
  }

  lemma PushedHangs(root: PageRef, front: seq<PageRef>, path: seq<PageRef>, top: PageRef, children: seq<PageRef>,
                    i: nat)
    requires StackOk(root, front, path) && path != [] && path[|path| - 1] == top && top.height > 0
    requires |front| <= FANOUT * Depth(root, top) && ChildrenOk(top, children) && i < |front| + |children|
    ensures HangsAt(root, path, i, (front + Rev(children))[i])
  {
    PushedAt(front, children, i);
    if i >= |front| {
      var child := children[|children| - 1 - (i - |front|)];
      assert ChildOk(top.height, child) && IsChild(top, child);
    }
  }

  lemma PushedHeight(front: seq<PageRef>, top: PageRef, children: seq<PageRef>, i: nat)
    requires ChildrenOk(top, children) && i < |front| + |children|
    ensures i >= |front| ==> (front + Rev(children))[i].height == top.height - 1
    ensures i < |front| ==> (front + Rev(children))[i] == front[i]
  {
    PushedAt(front, children, i);
  }

  lemma PushOk(root: PageRef, front: seq<PageRef>, path: seq<PageRef>, top: PageRef, children: seq<PageRef>)
    requires StackOk(root, front, path) && path != [] && path[|path| - 1] == top && top.height > 0
    requires |front| <= FANOUT * Depth(root, top) && ChildrenOk(top, children)
    requires forall i :: 0 <= i < |front| ==> front[i].height >= top.height
    ensures StackOk(root, front + Rev(children), path)
  {
    var stack := front + Rev(children);
    forall i | 0 <= i < |stack| ensures HangsAt(root, path, i, stack[i]) {
      PushedHangs(root, front, path, top, children, i);
    }
    forall i, j | 0 <= i < j < |stack| ensures stack[i].height >= stack[j].height {
      PushedHeight(front, top, children, i);
      PushedHeight(front, top, children, j);
    }
  }

  // ---------------------------------------------------------------- what the tree promises

  /** Below the root, and as intact as the root. */
  ghost predicate Under(cx: Context, root: PageRef, r: PageRef) {
    Frames(r) <= Frames(root) && (Intact(cx, root) ==> Intact(cx, r))
  }

  ghost predicate AllUnder(cx: Context, root: PageRef, pending: seq<PageRef>) {
    forall i :: 0 <= i < |pending| ==> Under(cx, root, pending[i])
  }

  lemma {:induction false} FramesOfChild(children: seq<PageRef>, i: nat)
    requires i < |children|
    ensures Frames(children[i]) <= AllFrames(children)
    decreases |children|
  {
    if i > 0 { FramesOfChild(children[1..], i - 1); }
  }

  lemma ChildUnder(cx: Context, root: PageRef, r: PageRef, i: nat)
    requires Under(cx, root, r) && r.hash.frame.Canonical? && PageOf(r).body.Index? && i < |PageOf(r).body.children|
    ensures Under(cx, root, PageOf(r).body.children[i])
  {
    FramesOfChild(PageOf(r).body.children, i);
  }

  lemma PushUnder(cx: Context, root: PageRef, front: seq<PageRef>, r: PageRef)
    requires AllUnder(cx, root, front) && Under(cx, root, r) && r.hash.frame.Canonical? && PageOf(r).body.Index?
    ensures AllUnder(cx, root, front + Rev(PageOf(r).body.children))
  {
    var children := PageOf(r).body.children;
    var stack := front + Rev(children);
    forall i | 0 <= i < |stack| ensures Under(cx, root, stack[i]) {
      if i < |front| {
        assert stack[i] == front[i];
      } else {
        assert stack[i] == children[|children| - 1 - (i - |front|)];
        ChildUnder(cx, root, r, |children| - 1 - (i - |front|));
      }
    }
  }

  // ---------------------------------------------------------------- one visited page

  /** Nothing is lost and nothing is counted twice: emitted and pending add up to the root. */
  ghost predicate Balanced(cx: Context, root: PageRef, pending: seq<PageRef>, visited: nat, byteLen: nat,
                           emitted: Bytes) {
    && visited + SumPages(pending) == root.pages
    && byteLen + SumBytes(pending) == root.byteLen
    && emitted + StackStream(cx, pending) == Stream(cx, root)
  }

  ghost predicate StateOk(cx: Context, root: PageRef, pending: seq<PageRef>, path: seq<PageRef>, visited: nat,
                          byteLen: nat, emitted: Bytes)
  {
    && StackOk(root, pending, path) && AllUnder(cx, root, pending)
    && Balanced(cx, root, pending, visited, byteLen, emitted)
  }

  /** The state of a traversal; spelled for any equal count, so that it opens up only where it is used. */
  ghost predicate Reading(cx: Context, root: PageRef, pending: seq<PageRef>, path: seq<PageRef>, visited: nat,
                          byteLen: nat, emitted: Bytes)
  {
    forall v: nat :: v == visited ==> StateOk(cx, root, pending, path, v, byteLen, emitted)
  }

  lemma SumsOfLast(pending: seq<PageRef>)
    requires pending != []
    ensures SumPages(pending) == SumPages(pending[..|pending| - 1]) + pending[|pending| - 1].pages
    ensures SumBytes(pending) == SumBytes(pending[..|pending| - 1]) + pending[|pending| - 1].byteLen
  {
  }

  /** The facts about a committed page that the traversal uses. */
  lemma CommittedFacts(cx: Context, r: PageRef)
    requires Committed(cx, r)
    ensures r.height == PageOf(r).height && r.byteLen == BodyBytes(PageOf(r).body)
            && r.pages == BodyPages(PageOf(r).body)
    ensures PageOf(r).body.Index? ==>
              && r.height > 0 && |PageOf(r).body.children| <= FANOUT
              && Stream(cx, r) == Streams(cx, PageOf(r).body.children)
              && forall i :: 0 <= i < |PageOf(r).body.children| ==> ChildOk(r.height, PageOf(r).body.children[i])
    ensures PageOf(r).body.Leaf? ==> Stream(cx, r) == PageOf(r).body.bytes
  {
  }

  lemma IndexBalanced(cx: Context, root: PageRef, pending: seq<PageRef>, visited: nat, byteLen: nat, emitted: Bytes)
    requires pending != [] && Balanced(cx, root, pending, visited, byteLen, emitted)
    requires Committed(cx, pending[|pending| - 1]) && PageOf(pending[|pending| - 1]).body.Index?
    ensures Balanced(cx, root, pending[..|pending| - 1] + Rev(PageOf(pending[|pending| - 1]).body.children),
                     visited + 1, byteLen, emitted)
  {
    var front, top := pending[..|pending| - 1], pending[|pending| - 1];
    var children := PageOf(top).body.children;
    CommittedFacts(cx, top);
    SumsOfLast(pending);
    PushSums(front, children);
    PushStream(cx, front, children);
  }

  lemma LeafBalanced(cx: Context, root: PageRef, pending: seq<PageRef>, visited: nat, byteLen: nat, emitted: Bytes)
    requires pending != [] && Balanced(cx, root, pending, visited, byteLen, emitted)
    requires Committed(cx, pending[|pending| - 1]) && PageOf(pending[|pending| - 1]).body.Leaf?
    ensures var bytes := PageOf(pending[|pending| - 1]).body.bytes;
            Balanced(cx, root, pending[..|pending| - 1], visited + 1, byteLen + |bytes|, emitted + bytes)
  {
    var front, top := pending[..|pending| - 1], pending[|pending| - 1];
    var bytes := PageOf(top).body.bytes;
    CommittedFacts(cx, top);
    SumsOfLast(pending);
    assert emitted + (bytes + StackStream(cx, front)) == (emitted + bytes) + StackStream(cx, front);
  }

  lemma IndexStack(cx: Context, root: PageRef, pending: seq<PageRef>, path: seq<PageRef>)
    requires StackOk(root, pending, path) && pending != []
    requires Committed(cx, pending[|pending| - 1]) && PageOf(pending[|pending| - 1]).body.Index?
    ensures StackOk(root, pending[..|pending| - 1] + Rev(PageOf(pending[|pending| - 1]).body.children),
                    TopPath(root, pending, path))
  {
    var front, top := pending[..|pending| - 1], pending[|pending| - 1];
    PopOk(root, pending, path);
    CommittedFacts(cx, top);
    assert HangsAt(root, path, |front|, top);
    PushOk(root, front, TopPath(root, pending, path), top, PageOf(top).body.children);
  }

  /** An index page is replaced by its children. */
  lemma ReadIndex(cx: Context, root: PageRef, pending: seq<PageRef>, path: seq<PageRef>, visited: nat, byteLen: nat,
                  emitted: Bytes)
    requires pending != [] && Reading(cx, root, pending, path, visited, byteLen, emitted)
    requires Committed(cx, pending[|pending| - 1]) && PageOf(pending[|pending| - 1]).body.Index?
    ensures StackOk(root, pending, path)
    ensures Reading(cx, root, pending[..|pending| - 1] + Rev(PageOf(pending[|pending| - 1]).body.children),
                    TopPath(root, pending, path), visited + 1, byteLen, emitted)
  {
    assert StateOk(cx, root, pending, path, visited, byteLen, emitted);
    IndexStack(cx, root, pending, path);
    IndexBalanced(cx, root, pending, visited, byteLen, emitted);
    PushUnder(cx, root, pending[..|pending| - 1], pending[|pending| - 1]);
  }

  /** A leaf is emitted. */
  lemma ReadLeaf(cx: Context, root: PageRef, pending: seq<PageRef>, path: seq<PageRef>, visited: nat, byteLen: nat,
                 emitted: Bytes)
    requires pending != [] && Reading(cx, root, pending, path, visited, byteLen, emitted)
    requires Committed(cx, pending[|pending| - 1]) && PageOf(pending[|pending| - 1]).body.Leaf?
    ensures StackOk(root, pending, path)
    ensures var bytes := PageOf(pending[|pending| - 1]).body.bytes;
            Reading(cx, root, pending[..|pending| - 1], TopPath(root, pending, path), visited + 1, byteLen + |bytes|,
                    emitted + bytes)
  {
    assert StateOk(cx, root, pending, path, visited, byteLen, emitted);
    PopOk(root, pending, path);
    LeafBalanced(cx, root, pending, visited, byteLen, emitted);
  }

  /** None of the reader's own bounds can be exceeded by the page on top. */
  lemma BoundsHold(cx: Context, root: PageRef, pending: seq<PageRef>, path: seq<PageRef>, visited: nat, byteLen: nat,
                   emitted: Bytes)
    requires pending != [] && Reading(cx, root, pending, path, visited, byteLen, emitted)
    ensures visited + 1 <= root.pages && byteLen + pending[|pending| - 1].byteLen <= root.byteLen
    ensures 0 <= Depth(root, pending[|pending| - 1]) <= |path|
  {
    assert StateOk(cx, root, pending, path, visited, byteLen, emitted);
    SumsOfLast(pending);
    assert HangsAt(root, path, |pending| - 1, pending[|pending| - 1]);
  }

  lemma StartReading(cx: Context, root: PageRef)
    requires RefOk(root)
    ensures Reading(cx, root, [root], [], 0, 0, [])
  {
    SumsOfOne(root);
    assert [root][..0] == [];
    assert StateOk(cx, root, [root], [], 0, 0, []);
  }

  // ---------------------------------------------------------------- the reader

  /** The callback let the reader down on a page below the root: no bytes, or bytes that do not verify. */
  ghost predicate Faulty(cx: Context, root: PageRef, fetch: Fetch) {
    exists n: nat, path: seq<PageRef> :: FaultAt(cx, root, fetch, n, path)
  }

  ghost predicate FaultAt(cx: Context, root: PageRef, fetch: Fetch, n: nat, path: seq<PageRef>) {
    && path != [] && PathOk(root, path) && Under(cx, root, path[|path| - 1])
    && (fetch(n, path).None? || VerifyPage(path[|path| - 1], cx, fetch(n, path).value).Err?)
  }

  /** The callback returns every page below the root. */
  ghost predicate Serves(root: PageRef, fetch: Fetch) {
    forall n: nat, path: seq<PageRef> :: path != [] && path[|path| - 1].hash.frame in Frames(root) ==>
      fetch(n, path) == Some(path[|path| - 1].hash.frame)
  }

  /** On an intact tree a serving callback is never faulty. */
  lemma ServedIsNotFaulty(cx: Context, root: PageRef, fetch: Fetch)
    requires Intact(cx, root) && Serves(root, fetch)
    ensures !Faulty(cx, root, fetch)
  {
    forall n: nat, path: seq<PageRef> ensures !FaultAt(cx, root, fetch, n, path) {
      assert path != [] ==> path[|path| - 1].hash.frame in Frames(path[|path| - 1]);
    }
  }

  /** Fetches the page at the end of a path and verifies it. */
  method FetchPage(cx: Context, ghost root: PageRef, path: seq<PageRef>, n: nat, fetch: Fetch)
    returns (r: Result<Page, StreamError>)
    requires path != [] && PathOk(root, path) && Under(cx, root, path[|path| - 1])
    ensures r.Ok? ==> Committed(cx, path[|path| - 1]) && r.value == PageOf(path[|path| - 1])
    ensures r.Err? ==> Faulty(cx, root, fetch)
  {
    var frame := fetch(n, path);
    if frame.None? {
      assert FaultAt(cx, root, fetch, n, path);
      return Err(Storage);
    }
    VerifiedIsCommitted(path[|path| - 1], cx, frame.value);
    var page := VerifyPage(path[|path| - 1], cx, frame.value);
    if page.Err? {
      assert FaultAt(cx, root, fetch, n, path);
      return Err(Catalog(page.error));
    }
    return Ok(page.value);
  }

  class Reader {
    const cx: Context
    const root: PageRef
    var pending: seq<PageRef>
    var path: seq<PageRef>
    var visited: nat
    var byteLen: nat
    var failed: bool
    /** The bytes of the leaves returned so far. */
    ghost var emitted: Bytes

    /** The tallies hold until a failure; what was emitted stays a prefix even then. */
    ghost predicate Valid()
      reads this
    {
      && emitted <= Stream(cx, root)
      && (!failed ==> Reading(cx, root, pending, path, visited, byteLen, emitted))
    }

    constructor (cx: Context, root: PageRef)
      requires RefOk(root) && cx.Valid()
      ensures Valid() && !failed && emitted == [] && this.cx == cx && this.root == root && visited == 0
    {
      this.cx, this.root := cx, root;
      pending, path, visited, byteLen, failed, emitted := [root], [], 0, 0, false, [];
      new;
      StartReading(cx, root);
    }

    /** Fetches the page on top of the stack by its path; the reader's own bounds cannot be exceeded. */
    method FetchTop(fetch: Fetch) returns (r: Result<Page, StreamError>, way: seq<PageRef>)
      requires Reading(cx, root, pending, path, visited, byteLen, emitted) && pending != []
      ensures StackOk(root, pending, path) && way == TopPath(root, pending, path)
      ensures r.Ok? ==> Committed(cx, pending[|pending| - 1]) && r.value == PageOf(pending[|pending| - 1])
      ensures r.Err? ==> Faulty(cx, root, fetch)
    {
      BoundsHold(cx, root, pending, path, visited, byteLen, emitted);
      TopPathOk(cx, root, pending, path, visited, byteLen, emitted);
      var top := pending[|pending| - 1];
      if visited + 1 > root.pages || root.height < top.height || |path| < root.height - top.height { assert false; }
      way := path[..root.height - top.height] + [top];
      r := FetchPage(cx, root, way, visited + 1, fetch);
    }

    /** Replaces the index page on top by its children, first child on top. */
    method Expand(children: seq<PageRef>, way: seq<PageRef>)
      requires Reading(cx, root, pending, path, visited, byteLen, emitted) && pending != []
      requires StackOk(root, pending, path) && way == TopPath(root, pending, path)
      requires Committed(cx, pending[|pending| - 1]) && PageOf(pending[|pending| - 1]).body == Index(children)
      modifies this`pending, this`path, this`visited
      ensures Reading(cx, root, pending, path, visited, byteLen, emitted) && visited == old(visited) + 1
    {
      ReadIndex(cx, root, pending, path, visited, byteLen, emitted);
      pending, path, visited := pending[..|pending| - 1] + Rev(children), way, visited + 1;
    }

    /** Takes the leaf on top. */
    method Emit(bytes: Bytes, way: seq<PageRef>)
      requires Reading(cx, root, pending, path, visited, byteLen, emitted) && pending != []
      requires StackOk(root, pending, path) && way == TopPath(root, pending, path)
      requires Committed(cx, pending[|pending| - 1]) && PageOf(pending[|pending| - 1]).body == Leaf(bytes)
      modifies this`pending, this`path, this`visited, this`byteLen, this`emitted
      ensures Reading(cx, root, pending, path, visited, byteLen, emitted) && visited == old(visited) + 1
      ensures emitted == old(emitted) + bytes
    {
      BoundsHold(cx, root, pending, path, visited, byteLen, emitted);
      ReadLeaf(cx, root, pending, path, visited, byteLen, emitted);
      LeafLength(cx, pending[|pending| - 1]);
      if byteLen + |bytes| > root.byteLen { assert false; }
      pending, path, visited, byteLen := pending[..|pending| - 1], way, visited + 1, byteLen + |bytes|;
      emitted := emitted + bytes;
    }

    /** One page: fetched, verified, and expanded or emitted. */
    method Visit(fetch: Fetch) returns (r: Result<Option<Bytes>, StreamError>)
      requires Reading(cx, root, pending, path, visited, byteLen, emitted) && pending != []
      modifies this`pending, this`path, this`visited, this`byteLen, this`emitted
      ensures r.Ok? ==> Reading(cx, root, pending, path, visited, byteLen, emitted) && visited == old(visited) + 1
      ensures r.Ok? ==> emitted == old(emitted) + if r.value.Some? then r.value.value else []
      ensures r.Err? ==> emitted == old(emitted) && Faulty(cx, root, fetch)
    {
      var page, way := FetchTop(fetch);
      if page.Err? {
        pending, path, visited := pending[..|pending| - 1], way, visited + 1;
        return Err(page.error);
      }
      match page.value.body
      case Index(children) =>
        Expand(children, way);
        return Ok(None);
      case Leaf(bytes) =>
        Emit(bytes, way);
        return Ok(Some(bytes));
    }

    /** The totals at the end, which always agree with the root. */
    method CheckFinished()
      requires Reading(cx, root, pending, path, visited, byteLen, emitted) && pending == []
      ensures visited == root.pages && byteLen == root.byteLen
    {
      Tally(cx, root, pending, path, visited, byteLen, emitted);
      if visited != root.pages || byteLen != root.byteLen { assert false; }
    }

    /** Visits pages until a leaf or the end. */
    method NextInner(fetch: Fetch) returns (r: Result<Option<Bytes>, StreamError>)
      requires Reading(cx, root, pending, path, visited, byteLen, emitted)
      modifies this`pending, this`path, this`visited, this`byteLen, this`emitted
      ensures r.Ok? ==> Reading(cx, root, pending, path, visited, byteLen, emitted)
      ensures r.Ok? ==> emitted == old(emitted) + if r.value.Some? then r.value.value else []
      ensures r.Ok? && r.value.Some? ==> visited > old(visited)
      ensures r.Ok? && r.value.None? ==> pending == []
      ensures r.Err? ==> emitted == old(emitted) && Faulty(cx, root, fetch)
    {
      while pending != []
        invariant Reading(cx, root, pending, path, visited, byteLen, emitted)
        invariant emitted == old(emitted) && visited >= old(visited)
        decreases root.pages - visited
      {
        BoundsHold(cx, root, pending, path, visited, byteLen, emitted);
        var leaf := Visit(fetch);
        if leaf.Err? { return leaf; }
        if leaf.value.Some? {
          if pending == [] { CheckFinished(); }
          return leaf;
        }
      }
      CheckFinished();
      return Ok(None);
    }

    /**
     The next leaf. Only the callback can make it fail: the bounds on pages and bytes, the path
     check and the final tally always hold.
     */
    method NextLeaf(fetch: Fetch) returns (r: Result<Option<Bytes>, StreamError>)
      requires Valid()
      modifies this
      ensures Valid() && failed == r.Err?
      ensures old(failed) ==> r == Err(Failed) && emitted == old(emitted)
      ensures r.Ok? ==> emitted == old(emitted) + if r.value.Some? then r.value.value else []
      ensures r.Ok? && r.value.Some? ==> old(visited) < visited <= root.pages
      ensures r == Ok(None) ==> emitted == Stream(cx, root) && visited == root.pages && byteLen == root.byteLen
      ensures r.Err? && !old(failed) ==> emitted == old(emitted) && Faulty(cx, root, fetch)
      ensures !failed ==> |pending| <= FANOUT * root.height + 1
    {
      if failed { return Err(Failed); }
      r := NextInner(fetch);
      failed := r.Err?;
      if r.Ok? { Tally(cx, root, pending, path, visited, byteLen, emitted); }
    }
  }

  lemma LeafLength(cx: Context, r: PageRef)
    requires Committed(cx, r) && PageOf(r).body.Leaf?
    ensures r.byteLen == |PageOf(r).body.bytes|
  {
  }

  /** The path to the page on top is a path from the root. */
  lemma TopPathOk(cx: Context, root: PageRef, pending: seq<PageRef>, path: seq<PageRef>, visited: nat, byteLen: nat,
                  emitted: Bytes)
    requires pending != [] && Reading(cx, root, pending, path, visited, byteLen, emitted)
    ensures StackOk(root, pending, path) && AllUnder(cx, root, pending)
    ensures PathOk(root, TopPath(root, pending, path))
  {
    assert StateOk(cx, root, pending, path, visited, byteLen, emitted);
    PopOk(root, pending, path);
  }

  /** What the tallies say at any time, and at the end. */
  lemma Tally(cx: Context, root: PageRef, pending: seq<PageRef>, path: seq<PageRef>, visited: nat, byteLen: nat,
              emitted: Bytes)
    requires Reading(cx, root, pending, path, visited, byteLen, emitted)
    ensures emitted <= Stream(cx, root) && visited <= root.pages && |pending| <= FANOUT * root.height + 1
    ensures pending == [] ==> emitted == Stream(cx, root) && visited == root.pages && byteLen == root.byteLen
  {
    assert StateOk(cx, root, pending, path, visited, byteLen, emitted);
    StackBound(root, pending, path);
  }

  /** Reads a root to the end. On an intact tree that is served, the result is the whole stream. */
  method ReadAll(cx: Context, root: PageRef, fetch: Fetch) returns (r: Result<Bytes, StreamError>)
    requires RefOk(root) && cx.Valid()
    ensures r.Ok? ==> r.value == Stream(cx, root)
    ensures r.Err? ==> Faulty(cx, root, fetch)
    ensures Intact(cx, root) && Serves(root, fetch) ==> r == Ok(Stream(cx, root))
  {
    if Intact(cx, root) && Serves(root, fetch) { ServedIsNotFaulty(cx, root, fetch); }
    var reader := new Reader(cx, root);
    var all: Bytes := [];
    while true
      invariant reader.Valid() && !reader.failed && reader.cx == cx && reader.root == root && all == reader.emitted
      invariant reader.visited <= root.pages
      decreases root.pages - reader.visited
    {
      var leaf := reader.NextLeaf(fetch);
      if leaf.Err? { return Err(leaf.error); }
      if leaf.value.None? { return Ok(all); }
      all := all + leaf.value.value;
    }
  }

  /** Whatever was pushed into a builder is read back from the pages it stored. */
  lemma BuiltReadsBack(cx: Context, bytes: Bytes, stored: set<Frame>, fetch: Fetch)
    requires cx.Valid() && |bytes| <= MAX_STREAM_BYTES && Frames(RootOf(cx, bytes)) <= stored
    requires forall n: nat, path: seq<PageRef> :: path != [] && path[|path| - 1].hash.frame in stored ==>
               fetch(n, path) == Some(path[|path| - 1].hash.frame)
    ensures RefOk(RootOf(cx, bytes)) && Intact(cx, RootOf(cx, bytes)) && Serves(RootOf(cx, bytes), fetch)
    ensures Stream(cx, RootOf(cx, bytes)) == bytes
  {
    RootCarriesStream(cx, bytes);
  }
}
