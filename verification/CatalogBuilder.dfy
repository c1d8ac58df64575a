/**
 The streaming catalog builder. It keeps one partial leaf and fewer than a fanout of references
 per height, and it ends with the root of the level-by-level tree over all bytes pushed,
 however they were chunked.
 */
module CatalogBuilder {
  import opened Base
  import opened Pages
  import opened CatalogTree

  datatype StreamError = Catalog(error: CatalogError) | Failed | Storage

  /** Whether the sink accepts the n-th page it is given. */
  type Sink = nat -> bool

  // ---------------------------------------------------------------- appending to a level

  lemma SameGroupAt(refs: seq<PageRef>, r: PageRef, k: nat)
    requires k < Parts(|refs|, FANOUT)
    ensures FANOUT * k + FANOUT <= |refs| && GroupAt(refs + [r], k) == GroupAt(refs, k)
  {
    PartsFit(|refs|, k);
  }

  /** One more reference stays in the open group. */
  lemma AppendStays(cx: Context, height: nat, refs: seq<PageRef>, r: PageRef)
    requires |GroupRest(refs)| + 1 < FANOUT
    ensures GroupRest(refs + [r]) == GroupRest(refs) + [r]
            && FullGroups(cx, height, refs + [r]) == FullGroups(cx, height, refs)
  {
    var more := refs + [r];
    WholeFits(|refs|, 1, FANOUT);
    var a, b := FullGroups(cx, height, more), FullGroups(cx, height, refs);
    forall k | 0 <= k < |b| ensures a[k] == b[k] { SameGroupAt(refs, r, k); }
  }

  lemma LastGroup(refs: seq<PageRef>, r: PageRef)
    requires |GroupRest(refs)| + 1 == FANOUT
    ensures FANOUT * Parts(|refs|, FANOUT) + FANOUT == |refs| + 1
    ensures GroupAt(refs + [r], Parts(|refs|, FANOUT)) == GroupRest(refs) + [r]
  {
    WholeIsParts(|refs|, FANOUT);
  }

  /** One more reference completes the open group. */
  lemma AppendCloses(cx: Context, height: nat, refs: seq<PageRef>, r: PageRef)
    requires |GroupRest(refs)| + 1 == FANOUT
    ensures GroupRest(refs + [r]) == []
    ensures FullGroups(cx, height, refs + [r]) ==
            FullGroups(cx, height, refs) + [IndexRef(cx, height, GroupRest(refs) + [r])]
  {
    var more := refs + [r];
    WholeFits(|refs|, 1, FANOUT);
    LastGroup(refs, r);
    var a, b := FullGroups(cx, height, more), FullGroups(cx, height, refs);
    forall k | 0 <= k < |b| ensures a[k] == b[k] { SameGroupAt(refs, r, k); }
    assert a[|b|] == IndexRef(cx, height, GroupRest(refs) + [r]);
  }

  lemma {:induction false} WholeFits(n: nat, k: nat, size: nat)
    requires size >= 1
    ensures n - Whole(n, size) + k < size ==>
              Whole(n + k, size) == Whole(n, size) && Parts(n + k, size) == Parts(n, size)
    ensures n - Whole(n, size) + k == size ==> Whole(n + k, size) == n + k && Parts(n + k, size) == Parts(n, size) + 1
  {
    if n >= size { WholeFits(n - size, k, size); }
  }

  lemma SameLeafAt(bytes: Bytes, part: Bytes, k: nat)
    requires k < Parts(|bytes|, LEAF_BYTES)
    ensures LEAF_BYTES * k + LEAF_BYTES <= |bytes| && LeafAt(bytes + part, k) == LeafAt(bytes, k)
  {
    LeavesFit(|bytes|, k);
  }

  /** More bytes stay in the open leaf. */
  lemma LeafStays(cx: Context, bytes: Bytes, part: Bytes)
    requires |LeafRest(bytes)| + |part| < LEAF_BYTES
    ensures LeafRest(bytes + part) == LeafRest(bytes) + part && FullLeaves(cx, bytes + part) == FullLeaves(cx, bytes)
  {
    WholeFits(|bytes|, |part|, LEAF_BYTES);
    var a, b := FullLeaves(cx, bytes + part), FullLeaves(cx, bytes);
    forall k | 0 <= k < |b| ensures a[k] == b[k] { SameLeafAt(bytes, part, k); }
  }

  lemma LastLeaf(bytes: Bytes, part: Bytes)
    requires |LeafRest(bytes)| + |part| == LEAF_BYTES
    ensures LEAF_BYTES * Parts(|bytes|, LEAF_BYTES) + LEAF_BYTES == |bytes| + |part|
    ensures LeafAt(bytes + part, Parts(|bytes|, LEAF_BYTES)) == LeafRest(bytes) + part
  {
    WholeIsParts(|bytes|, LEAF_BYTES);
  }

  /** More bytes complete the open leaf. */
  lemma LeafCloses(cx: Context, bytes: Bytes, part: Bytes)
    requires |LeafRest(bytes)| + |part| == LEAF_BYTES
    ensures LeafRest(bytes + part) == []
    ensures FullLeaves(cx, bytes + part) == FullLeaves(cx, bytes) + [LeafRef(cx, LeafRest(bytes) + part)]
  {
    WholeFits(|bytes|, |part|, LEAF_BYTES);
    LastLeaf(bytes, part);
    var a, b := FullLeaves(cx, bytes + part), FullLeaves(cx, bytes);
    forall k | 0 <= k < |b| ensures a[k] == b[k] { SameLeafAt(bytes, part, k); }
    assert a[|b|] == LeafRef(cx, LeafRest(bytes) + part);
  }

  // ---------------------------------------------------------------- the frontier

  /** The whole groups of a level, lifted to a greater height. */
  ghost function Lift(cx: Context, from: nat, refs: seq<PageRef>, height: nat): seq<PageRef>
    requires from <= height
    decreases height
  {
    if height == from then refs else FullGroups(cx, height, Lift(cx, from, refs, height - 1))
  }

  lemma {:induction false} LiftShift(cx: Context, from: nat, refs: seq<PageRef>, height: nat)
    requires from < height
    ensures Lift(cx, from, refs, height) == Lift(cx, from + 1, FullGroups(cx, from + 1, refs), height)
    decreases height
  {
    if height > from + 1 { LiftShift(cx, from, refs, height - 1); }
  }

  /** The open groups from a height on are those of a level. */
  ghost predicate Frontier(cx: Context, levels: seq<seq<PageRef>>, from: nat, refs: seq<PageRef>) {
    |levels| == 4 && forall h :: from <= h < 4 ==> levels[h] == GroupRest(Lift(cx, from, refs, h))
  }

  lemma {:induction false} LiftOk(cx: Context, from: nat, refs: seq<PageRef>, height: nat)
    requires cx.Valid() && from <= height <= MAX_HEIGHT && LevelOk(cx, from, refs)
    ensures LevelOk(cx, height, Lift(cx, from, refs, height))
    decreases height
  {
    if height > from {
      LiftOk(cx, from, refs, height - 1);
      FullGroupsOk(cx, height - 1, Lift(cx, from, refs, height - 1));
    }
  }

  /** Equal from some height on. */
  lemma {:induction false} LiftSame(cx: Context, from: nat, a: seq<PageRef>, b: seq<PageRef>, mid: nat, height: nat)
    requires from <= mid <= height && Lift(cx, from, a, mid) == Lift(cx, from, b, mid)
    ensures Lift(cx, from, a, height) == Lift(cx, from, b, height)
    decreases height
  {
    if height > mid { LiftSame(cx, from, a, b, mid, height - 1); }
  }

  lemma ShortIsRest(refs: seq<PageRef>)
    requires |refs| < FANOUT
    ensures GroupRest(refs) == refs
  {
  }

  lemma {:induction false} LiftTotals(cx: Context, from: nat, refs: seq<PageRef>, height: nat)
    requires from <= height <= MAX_HEIGHT && TotalsOk(from, refs)
    ensures TotalsOk(height, Lift(cx, from, refs, height))
    decreases height
  {
    if height > from {
      LiftTotals(cx, from, refs, height - 1);
      FullGroupsTotals(cx, height - 1, Lift(cx, from, refs, height - 1));
    }
  }

  lemma NoGroupIsShort(cx: Context, height: nat, refs: seq<PageRef>)
    requires FullGroups(cx, height, refs) == []
    ensures |refs| < FANOUT
  {
  }

  /** Nothing open from some height on: there is nothing at that height. */
  lemma {:induction false} EmptyAbove(cx: Context, from: nat, refs: seq<PageRef>, levels: seq<seq<PageRef>>,
                                      height: nat)
    requires from < height <= MAX_HEIGHT && TotalsOk(from, refs) && Frontier(cx, levels, from, refs)
    requires forall h :: height <= h < 4 ==> levels[h] == []
    ensures Lift(cx, from, refs, height) == []
    decreases MAX_HEIGHT - height
  {
    var here := Lift(cx, from, refs, height);
    if height < MAX_HEIGHT {
      EmptyAbove(cx, from, refs, levels, height + 1);
      NoGroupIsShort(cx, height + 1, here);
    } else {
      LiftTotals(cx, from, refs, height);
    }
    ShortIsRest(here);
    assert levels[height] == GroupRest(here);
  }

  lemma {:induction false} SingleLifts(cx: Context, from: nat, refs: seq<PageRef>, height: nat)
    requires from < height && |refs| < FANOUT
    ensures Lift(cx, from, refs, height) == []
    decreases height
  {
    if height > from + 1 { SingleLifts(cx, from, refs, height - 1); }
  }

  /** An acceptable level; spelled for any equal height, so that it opens up only where it is used. */
  ghost predicate Fits(cx: Context, height: nat, refs: seq<PageRef>) {
    forall h: nat :: h == height ==> LevelOk(cx, h, refs)
  }

  // ---------------------------------------------------------------- stored pages

  ghost function FrameSet(sunk: seq<Frame>): set<Frame> {
    set f | f in sunk
  }

  lemma {:induction false} FramesOfConcat(a: seq<PageRef>, b: seq<PageRef>)
    ensures AllFrames(a + b) == AllFrames(a) + AllFrames(b)
    decreases |a|
  {
    if a == [] {
      assert a + b == b;
    } else {
      FramesOfConcat(a[1..], b);
      assert (a + b)[1..] == a[1..] + b && (a + b)[0] == a[0];
    }
  }

  lemma FramesOfOne(r: PageRef)
    ensures AllFrames([r]) == Frames(r)
  {
    assert [r][1..] == [];
  }

  /** Every page below the open references has been stored. */
  ghost predicate AllStored(levels: seq<seq<PageRef>>, sunk: seq<Frame>) {
    forall h :: 0 <= h < |levels| ==> AllFrames(levels[h]) <= FrameSet(sunk)
  }

  lemma StoredMore(levels: seq<seq<PageRef>>, sunk: seq<Frame>, frame: Frame)
    requires AllStored(levels, sunk)
    ensures AllStored(levels, sunk + [frame]) && FrameSet(sunk + [frame]) == FrameSet(sunk) + {frame}
  {
    assert FrameSet(sunk + [frame]) == FrameSet(sunk) + {frame};
  }

  /** A reference to a stored page whose children are stored joins its level. */
  lemma StoredPush(levels: seq<seq<PageRef>>, sunk: seq<Frame>, h: nat, r: PageRef)
    requires AllStored(levels, sunk) && h < |levels| && Frames(r) <= FrameSet(sunk)
    ensures AllStored(levels[h := levels[h] + [r]], sunk)
  {
    FramesOfConcat(levels[h], [r]);
    FramesOfOne(r);
  }

  // ---------------------------------------------------------------- the builder

  /** The open leaf and groups are those of the bytes, and all pages below them are stored. */
  ghost predicate StateOf(cx: Context, bytes: Bytes, leaf: Bytes, levels: seq<seq<PageRef>>, sunk: seq<Frame>) {
    && cx.Valid() && leaf == LeafRest(bytes) && Frontier(cx, levels, 0, FullLeaves(cx, bytes))
       && AllStored(levels, sunk)
  }

  class Builder {
    const cx: Context
    var leaf: Bytes
    var levels: seq<seq<PageRef>>
    var byteLen: nat
    var failed: bool
    /** The pages handed to the sink and accepted by it. */
    var sunk: seq<Frame>
    /** The bytes pushed so far. */
    ghost var contents: Bytes

    /** All of the state follows from the bytes pushed, not from how they were chunked. */
    ghost predicate Follows(total: nat)
      reads this
    {
      !failed && byteLen == total <= MAX_STREAM_BYTES && |contents| <= total
        && StateOf(cx, contents, leaf, levels, sunk)
    }

    ghost predicate Valid()
      reads this
    {
      cx.Valid() && |levels| == 4 && (!failed ==> Follows(|contents|))
    }

    constructor (cx: Context)
      requires cx.Valid()
      ensures Valid() && !failed && contents == [] && this.cx == cx && sunk == []
    {
      this.cx := cx;
      var none: seq<seq<PageRef>> := seq(MAX_HEIGHT + 1, _ => []);
      NothingYet(cx, [], [], none, []);
      leaf, levels, byteLen, failed, sunk, contents := [], none, 0, false, [], [];
    }

    /** Encodes a page and gives it to the sink. */
    method Store(page: Page, sink: Sink) returns (r: Result<PageRef, StreamError>)
      modifies this`sunk
      ensures r.Ok? <==> Encodable(page) && sink(|old(sunk)|)
      ensures r.Ok? ==> r.value == RefTo(page) && sunk == old(sunk) + [Canonical(page)]
      ensures r.Err? ==> sunk == old(sunk)
      ensures Encodable(page) && r.Err? ==> r.error == Storage
    {
      if !CountsOk(page) { return Err(Catalog(CountsError(page))); }
      if PageSize(page) > PAGE_BYTES { return Err(Catalog(Bounds)); }
      if !sink(|sunk|) { return Err(Storage); }
      sunk := sunk + [Canonical(page)];
      return Ok(RefTo(page));
    }

    /** Adds a reference to its level, closing every group that becomes full. */
    method Append(first: PageRef, from: nat, ghost refs: seq<PageRef>, sink: Sink) returns (r: Result<(), StreamError>)
      requires cx.Valid() && from <= MAX_HEIGHT && first.height == from && Frames(first) <= FrameSet(sunk)
      requires Fits(cx, from, refs + [first]) && Frontier(cx, levels, from, refs) && AllStored(levels, sunk)
      modifies this`levels, this`sunk
      ensures |levels| == 4 && old(sunk) <= sunk
      ensures r.Ok? ==> Frontier(cx, levels, from, refs + [first]) && AllStored(levels, sunk)
      ensures r.Err? ==> r.error == Storage && exists k: nat :: !sink(k)
    {
      var reference, height := first, from;
      while true
        invariant from <= height <= MAX_HEIGHT && reference.height == height && old(sunk) <= sunk
        invariant Climbing(cx, levels, from, refs, first, height, reference)
        invariant AllStored(levels, sunk) && Frames(reference) <= FrameSet(sunk)
        decreases MAX_HEIGHT - height
      {
        var open := levels[height] + [reference];
        StoredPush(levels, sunk, height, reference);
        if |open| < FANOUT {
          ClimbEnds(cx, levels, from, refs, first, height, reference);
          levels := levels[height := open];
          return Ok(());
        }
        ClimbFits(cx, levels, from, refs, first, height, reference);
        if height == MAX_HEIGHT { assert false; }
        ClimbGoesOn(cx, levels, from, refs, first, height, reference);
        var page := IndexPage(cx, height + 1, open);
        StoredClose(levels, height, sunk, reference, page);
        levels := levels[height := []];
        var stored := Store(page, sink);
        if stored.Err? { return Err(stored.error); }
        reference, height := stored.value, height + 1;
      }
    }

    /** Stores the open leaf and appends it. */
    method FlushLeaf(ghost refs: seq<PageRef>, sink: Sink) returns (r: Result<(), StreamError>)
      requires cx.Valid() && |leaf| <= LEAF_BYTES && Fits(cx, 0, refs + [LeafRef(cx, leaf)])
      requires Frontier(cx, levels, 0, refs) && AllStored(levels, sunk)
      modifies this`leaf, this`levels, this`sunk
      ensures |levels| == 4 && leaf == [] && old(sunk) <= sunk
      ensures r.Ok? ==> Frontier(cx, levels, 0, refs + [LeafRef(cx, old(leaf))]) && AllStored(levels, sunk)
      ensures r.Err? ==> r.error == Storage && exists k: nat :: !sink(k)
    {
      var page := LeafPage(cx, leaf);
      LeafIsIntact(cx, leaf);
      leaf := [];
      StoredMore(levels, sunk, Canonical(page));
      var stored := Store(page, sink);
      if stored.Err? { return Err(stored.error); }
      r := Append(stored.value, 0, refs, sink);
    }

    /** Takes bytes into the open leaf and flushes it when it is full. */
    method TakePart(part: Bytes, ghost total: nat, sink: Sink) returns (r: Result<(), StreamError>)
      requires Follows(total) && |leaf| + |part| <= LEAF_BYTES && |contents| + |part| <= total
      modifies this`leaf, this`levels, this`sunk, this`contents
      ensures |levels| == 4 && old(sunk) <= sunk
      ensures r.Ok? ==> Follows(total) && contents == old(contents) + part
      ensures r.Err? ==> r.error == Storage && exists k: nat :: !sink(k)
    {
      leaf := leaf + part;
      if |leaf| == LEAF_BYTES {
        LeafFills(cx, contents, part);
        r := FlushLeaf(FullLeaves(cx, contents), sink);
        if r.Err? { return; }
      } else {
        LeafStays(cx, contents, part);
        r := Ok(());
      }
      contents := contents + part;
    }

    /** Takes in bytes, a leaf at a time. */
    method PushInner(bytes: Bytes, sink: Sink) returns (r: Result<(), StreamError>)
      requires Follows(|contents|)
      modifies this`leaf, this`levels, this`byteLen, this`sunk, this`contents
      ensures |levels| == 4 && old(sunk) <= sunk
      ensures r.Ok? ==> Follows(|contents|) && contents == old(contents) + bytes
      ensures r.Err? ==> r.error == Catalog(Bounds) || (r.error == Storage && exists k: nat :: !sink(k))
      ensures r == Err(Catalog(Bounds)) <==> |old(contents)| + |bytes| > MAX_STREAM_BYTES
    {
      byteLen := byteLen + |bytes|;
      if byteLen > MAX_STREAM_BYTES { return Err(Catalog(Bounds)); }
      var at := 0;
      while at < |bytes|
        invariant 0 <= at <= |bytes| && old(sunk) <= sunk
        invariant contents == old(contents) + bytes[..at] && Follows(|old(contents)| + |bytes|)
      {
        var take := if |bytes| - at <= LEAF_BYTES - |leaf| then |bytes| - at else LEAF_BYTES - |leaf|;
        var part := bytes[at..at + take];
        assert bytes[..at + take] == bytes[..at] + part;
        var taken := TakePart(part, byteLen, sink);
        if taken.Err? { return taken; }
        at := at + take;
      }
      assert bytes[..|bytes|] == bytes;
      return Ok(());
    }

    /** Takes in bytes; after a failure every further call fails. */
    method Push(bytes: Bytes, sink: Sink) returns (r: Result<(), StreamError>)
      requires Valid()
      modifies this
      ensures Valid() && failed == r.Err?
      ensures r.Ok? ==> !old(failed) && contents == old(contents) + bytes
      ensures old(failed) ==> r == Err(Failed)
      ensures !old(failed) && |old(contents)| + |bytes| <= MAX_STREAM_BYTES && (forall k: nat :: sink(k)) ==> r.Ok?
      ensures !failed ==> |leaf| < LEAF_BYTES && forall h :: 0 <= h < 4 ==> |levels[h]| < FANOUT
    {
      if failed { return Err(Failed); }
      r := PushInner(bytes, sink);
      failed := r.Err?;
    }

    /** Makes the open group of one height a page of the next. */
    method CloseGroup(height: nat, ghost level: seq<PageRef>, ghost root: PageRef, sink: Sink)
      returns (r: Result<(), StreamError>)
      requires cx.Valid() && Closing(cx, levels, height, level, root) && AllStored(levels, sunk) && levels[height] != []
      requires |level| >= 2 && height < MAX_HEIGHT
      modifies this`levels, this`sunk
      ensures |levels| == 4
      ensures r.Ok? ==> Closing(cx, levels, height + 1, Group(cx, height + 1, level), root) && AllStored(levels, sunk)
      ensures r.Err? ==> r.error == Storage && exists k: nat :: !sink(k)
    {
      CloseOpen(cx, levels, height, level, root);
      var page := IndexPage(cx, height + 1, levels[height]);
      StoredOpen(levels, height, sunk, page);
      levels := levels[height := []];
      var stored := Store(page, sink);
      if stored.Err? { return Err(stored.error); }
      r := Append(stored.value, height + 1, FullGroups(cx, height + 1, level), sink);
    }

    /** Closes every open group, lowest first, until one page is left. */
    method CloseLevels(ghost bytes: Bytes, sink: Sink) returns (r: Result<PageRef, StreamError>)
      requires cx.Valid() && |bytes| <= MAX_STREAM_BYTES
      requires Frontier(cx, levels, 0, AllLeaves(cx, bytes)) && AllStored(levels, sunk)
      modifies this`levels, this`sunk
      ensures r.Ok? ==> r.value == RootOf(cx, bytes) && Frames(r.value) <= FrameSet(sunk)
      ensures r.Err? ==> r.error == Storage && exists k: nat :: !sink(k)
    {
      var height := 0;
      ghost var level, root := AllLeaves(cx, bytes), RootOf(cx, bytes);
      StartClosing(cx, bytes, levels);
      while true
        invariant Closing(cx, levels, height, level, root) && AllStored(levels, sunk)
        decreases MAX_HEIGHT - height
      {
        if levels[height] == [] {
          CloseWhole(cx, levels, height, level, root);
        } else {
          if |levels[height]| == 1 && EmptyFrom(levels, height + 1) {
            CloseLast(cx, levels, height, level, root);
            StoredLast(levels, sunk, height);
            return Ok(levels[height][0]);
          }
          CloseMany(cx, levels, height, level, root);
          if height == MAX_HEIGHT { assert false; }
          var closed := CloseGroup(height, level, root, sink);
          if closed.Err? { return Err(closed.error); }
        }
        level, height := Group(cx, height + 1, level), height + 1;
      }
    }

    /** Ends the stream. The root depends on the bytes alone, and every page below it is stored. */
    method Finish(sink: Sink) returns (r: Result<PageRef, StreamError>)
      requires Valid()
      modifies this
      ensures r.Ok? ==> !old(failed) && r.value == RootOf(cx, old(contents)) && Frames(r.value) <= FrameSet(sunk)
      ensures r.Err? ==> if old(failed) then r.error == Failed else r.error == Storage && exists k: nat :: !sink(k)
    {
      if failed { return Err(Failed); }
      if leaf != [] || byteLen == 0 {
        LastLeafFits(cx, contents);
        var flushed := FlushLeaf(FullLeaves(cx, contents), sink);
        if flushed.Err? { return Err(flushed.error); }
      } else {
        assert AllLeaves(cx, contents) == FullLeaves(cx, contents);
      }
      r := CloseLevels(contents, sink);
    }
  }

  // ---------------------------------------------------------------- closing level by level

  predicate EmptyFrom(levels: seq<seq<PageRef>>, height: nat) {
    forall h :: height <= h < |levels| ==> levels[h] == []
  }

  /** The level that is being closed: acceptable, under the final root, and open as the builder holds it. */
  ghost predicate Closing(cx: Context, levels: seq<seq<PageRef>>, height: nat, level: seq<PageRef>, root: PageRef) {
    && height <= MAX_HEIGHT && level != [] && Fits(cx, height, level) && Frontier(cx, levels, height, level)
    && RootFrom(cx, height, level) == root
  }

  lemma FrontierShift(cx: Context, levels: seq<seq<PageRef>>, height: nat, level: seq<PageRef>)
    requires Frontier(cx, levels, height, level) && height < MAX_HEIGHT
    ensures Frontier(cx, levels, height + 1, FullGroups(cx, height + 1, level))
  {
    forall h | height + 1 <= h < 4
      ensures levels[h] == GroupRest(Lift(cx, height + 1, FullGroups(cx, height + 1, level), h))
    {
      LiftShift(cx, height, level, h);
    }
  }

  /** The last page left is the root. */
  lemma CloseLast(cx: Context, levels: seq<seq<PageRef>>, height: nat, level: seq<PageRef>, root: PageRef)
    requires Closing(cx, levels, height, level, root) && |levels[height]| == 1 && EmptyFrom(levels, height + 1)
    ensures levels[height][0] == root
  {
    assert LevelOk(cx, height, level);
    if height < MAX_HEIGHT {
      EmptyAbove(cx, height, level, levels, height + 1);
      NoGroupIsShort(cx, height + 1, level);
    }
    ShortIsRest(level);
  }

  /** Otherwise more than one page is left, and the format has a height above. */
  lemma CloseMany(cx: Context, levels: seq<seq<PageRef>>, height: nat, level: seq<PageRef>, root: PageRef)
    requires Closing(cx, levels, height, level, root) && !(|levels[height]| == 1 && EmptyFrom(levels, height + 1))
    ensures |level| >= 2 && height < MAX_HEIGHT
  {
    assert LevelOk(cx, height, level);
    if |level| == 1 {
      ShortIsRest(level);
      forall h | height + 1 <= h < 4 ensures levels[h] == [] { SingleLifts(cx, height, level, h); }
    }
  }

  lemma NextFits(cx: Context, height: nat, level: seq<PageRef>)
    requires cx.Valid() && Fits(cx, height, level) && |level| >= 2 && height < MAX_HEIGHT
    ensures Fits(cx, height + 1, Group(cx, height + 1, level))
  {
    assert LevelOk(cx, height, level);
    GroupOk(cx, height, level);
  }

  /** No open group here: the next level is already complete. */
  lemma CloseWhole(cx: Context, levels: seq<seq<PageRef>>, height: nat, level: seq<PageRef>, root: PageRef)
    requires cx.Valid() && Closing(cx, levels, height, level, root) && levels[height] == []
    ensures height < MAX_HEIGHT && Closing(cx, levels, height + 1, Group(cx, height + 1, level), root)
  {
    CloseMany(cx, levels, height, level, root);
    NextFits(cx, height, level);
    FrontierShift(cx, levels, height, level);
    assert Group(cx, height + 1, level) == FullGroups(cx, height + 1, level);
  }

  /** An open group becomes one more page of the next level. */
  lemma CloseOpen(cx: Context, levels: seq<seq<PageRef>>, height: nat, level: seq<PageRef>, root: PageRef)
    requires cx.Valid() && Closing(cx, levels, height, level, root) && levels[height] != []
    requires |level| >= 2 && height < MAX_HEIGHT
    ensures Encodable(IndexPage(cx, height + 1, levels[height]))
    ensures var up := FullGroups(cx, height + 1, level) + [IndexRef(cx, height + 1, levels[height])];
            up == Group(cx, height + 1, level) && Fits(cx, height + 1, up) && RootFrom(cx, height + 1, up) == root
    ensures Frontier(cx, levels[height := []], height + 1, FullGroups(cx, height + 1, level))
  {
    OpenEncodes(cx, height, level);
    assert levels[height] == GroupRest(Lift(cx, height, level, height)) == GroupRest(level);
    NextFits(cx, height, level);
    FrontierShift(cx, levels, height, level);
  }

  lemma OpenEncodes(cx: Context, height: nat, level: seq<PageRef>)
    requires cx.Valid() && Fits(cx, height, level) && |level| >= 2 && height < MAX_HEIGHT && GroupRest(level) != []
    ensures Encodable(IndexPage(cx, height + 1, GroupRest(level)))
  {
    assert LevelOk(cx, height, level);
    PartOfLevelOk(cx, height, level, GroupPart(|level|), |level|);
    assert level[GroupPart(|level|)..|level|] == GroupRest(level);
  }

  lemma StoredLast(levels: seq<seq<PageRef>>, sunk: seq<Frame>, h: nat)
    requires AllStored(levels, sunk) && h < |levels| && |levels[h]| == 1
    ensures Frames(levels[h][0]) <= FrameSet(sunk)
  {
    assert levels[h] == [levels[h][0]];
    FramesOfOne(levels[h][0]);
  }

  lemma StoredOpen(levels: seq<seq<PageRef>>, h: nat, sunk: seq<Frame>, page: Page)
    requires h < |levels| && AllStored(levels, sunk) && page.body == Index(levels[h])
    ensures AllStored(levels[h := []], sunk + [Canonical(page)])
    ensures Frames(RefTo(page)) <= FrameSet(sunk + [Canonical(page)])
  {
    StoredMore(levels, sunk, Canonical(page));
  }

  /** The leaves, closed by the last short one, under their root. */
  lemma StartClosing(cx: Context, bytes: Bytes, levels: seq<seq<PageRef>>)
    requires cx.Valid() && |bytes| <= MAX_STREAM_BYTES && Frontier(cx, levels, 0, AllLeaves(cx, bytes))
    ensures Closing(cx, levels, 0, AllLeaves(cx, bytes), RootOf(cx, bytes))
  {
    AllLeavesOk(cx, bytes);
  }

  lemma LastLeafFits(cx: Context, bytes: Bytes)
    requires cx.Valid() && |bytes| <= MAX_STREAM_BYTES && (LeafRest(bytes) != [] || bytes == [])
    ensures Fits(cx, 0, FullLeaves(cx, bytes) + [LeafRef(cx, LeafRest(bytes))])
    ensures AllLeaves(cx, bytes) == FullLeaves(cx, bytes) + [LeafRef(cx, LeafRest(bytes))]
  {
    AllLeavesOk(cx, bytes);
  }

  /** While a reference climbs: below it all levels are final, from it on they are as before. */
  ghost predicate Climbing(cx: Context, levels: seq<seq<PageRef>>, from: nat, refs: seq<PageRef>, first: PageRef,
                           height: nat, reference: PageRef)
  {
    && from <= height <= MAX_HEIGHT && |levels| == 4
    && Lift(cx, from, refs + [first], height) == Lift(cx, from, refs, height) + [reference]
    && (forall h :: from <= h < height ==> levels[h] == GroupRest(Lift(cx, from, refs + [first], h)))
    && (forall h :: height <= h < 4 ==> levels[h] == GroupRest(Lift(cx, from, refs, h)))
  }

  lemma ClimbEnds(cx: Context, levels: seq<seq<PageRef>>, from: nat, refs: seq<PageRef>, first: PageRef,
                  height: nat, reference: PageRef)
    requires Climbing(cx, levels, from, refs, first, height, reference) && |levels[height]| + 1 < FANOUT
    ensures Frontier(cx, levels[height := levels[height] + [reference]], from, refs + [first])
  {
    var more, after := refs + [first], levels[height := levels[height] + [reference]];
    AppendStays(cx, height + 1, Lift(cx, from, refs, height), reference);
    forall h | from <= h < 4 ensures after[h] == GroupRest(Lift(cx, from, more, h)) {
      if height < h { LiftSame(cx, from, more, refs, height + 1, h); }
    }
  }

  /** The format's capacity: no group fills up at the greatest height, and every full group encodes. */
  lemma ClimbFits(cx: Context, levels: seq<seq<PageRef>>, from: nat, refs: seq<PageRef>, first: PageRef,
                  height: nat, reference: PageRef)
    requires cx.Valid() && Fits(cx, from, refs + [first])
    requires Climbing(cx, levels, from, refs, first, height, reference) && |levels[height]| + 1 == FANOUT
    ensures height < MAX_HEIGHT && Encodable(IndexPage(cx, height + 1, levels[height] + [reference]))
  {
    assert LevelOk(cx, from, refs + [first]);
    LiftOk(cx, from, refs + [first], height);
    ClosedGroup(cx, height, Lift(cx, from, refs, height), reference);
  }

  lemma ClimbGoesOn(cx: Context, levels: seq<seq<PageRef>>, from: nat, refs: seq<PageRef>, first: PageRef,
                    height: nat, reference: PageRef)
    requires Climbing(cx, levels, from, refs, first, height, reference) && |levels[height]| + 1 == FANOUT
    requires height < MAX_HEIGHT
    ensures Climbing(cx, levels[height := []], from, refs, first, height + 1,
                     IndexRef(cx, height + 1, levels[height] + [reference]))
  {
    AppendCloses(cx, height + 1, Lift(cx, from, refs, height), reference);
  }

  lemma LeafFills(cx: Context, bytes: Bytes, part: Bytes)
    requires cx.Valid() && |LeafRest(bytes)| + |part| == LEAF_BYTES && |bytes| + |part| <= MAX_STREAM_BYTES
    ensures LeafRest(bytes + part) == []
    ensures FullLeaves(cx, bytes + part) == FullLeaves(cx, bytes) + [LeafRef(cx, LeafRest(bytes) + part)]
    ensures Fits(cx, 0, FullLeaves(cx, bytes) + [LeafRef(cx, LeafRest(bytes) + part)])
  {
    LeafCloses(cx, bytes, part);
    FullLeavesOk(cx, bytes + part);
  }

  lemma NothingAbove(cx: Context, refs: seq<PageRef>, levels: seq<seq<PageRef>>)
    requires |refs| == 0 && |levels| == 4 && forall h :: 0 <= h < 4 ==> |levels[h]| == 0
    ensures Frontier(cx, levels, 0, refs)
  {
    forall h | 0 <= h < 4 ensures levels[h] == GroupRest(Lift(cx, 0, refs, h)) {
      if h > 0 { SingleLifts(cx, 0, refs, h); }
    }
  }

  lemma NothingYet(cx: Context, bytes: Bytes, leaf: Bytes, levels: seq<seq<PageRef>>, sunk: seq<Frame>)
    requires cx.Valid() && |bytes| == 0 && |leaf| == 0
    requires |levels| == 4 && forall h :: 0 <= h < 4 ==> |levels[h]| == 0
    ensures StateOf(cx, bytes, leaf, levels, sunk)
  {
    NoLeaves(cx, bytes);
    NothingAbove(cx, FullLeaves(cx, bytes), levels);
    NothingStored(levels, sunk);
  }

  lemma NoLeaves(cx: Context, bytes: Bytes)
    requires |bytes| == 0
    ensures |FullLeaves(cx, bytes)| == 0 && |LeafRest(bytes)| == 0
  {
  }

  lemma NothingStored(levels: seq<seq<PageRef>>, sunk: seq<Frame>)
    requires forall h :: 0 <= h < |levels| ==> |levels[h]| == 0
    ensures AllStored(levels, sunk)
  {
  }

  /** A group that fills up at some height makes an acceptable page. */
  lemma ClosedGroup(cx: Context, height: nat, level: seq<PageRef>, r: PageRef)
    requires cx.Valid() && LevelOk(cx, height, level + [r]) && |GroupRest(level)| + 1 == FANOUT
    ensures height < MAX_HEIGHT && Encodable(IndexPage(cx, height + 1, GroupRest(level) + [r]))
  {
    var more, n := level + [r], GroupPart(|level|);
    PartOfLevelOk(cx, height, more, n, |more|);
    assert more[n..|more|] == GroupRest(level) + [r];
  }

  /** Closing a group leaves everything stored, the new page included. */
  lemma StoredClose(levels: seq<seq<PageRef>>, h: nat, sunk: seq<Frame>, r: PageRef, page: Page)
    requires h < |levels| && AllStored(levels, sunk) && Frames(r) <= FrameSet(sunk)
             && page.body == Index(levels[h] + [r])
    ensures AllStored(levels[h := []], sunk + [Canonical(page)])
    ensures Frames(RefTo(page)) <= FrameSet(sunk + [Canonical(page)])
  {
    StoredMore(levels, sunk, Canonical(page));
    FramesOfConcat(levels[h], [r]);
    FramesOfOne(r);
  }
}
