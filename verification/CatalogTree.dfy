/**
 The tree of a byte stream, level by level: leaves of a fixed size, then groups of a fixed
 fanout until one page is left. It carries the whole stream and always fits the format.
 */
module CatalogTree {
  import opened Base
  import opened Pages

  // ---------------------------------------------------------------- totals of concatenations

  lemma {:induction false} SumsOfConcat(a: seq<PageRef>, b: seq<PageRef>)
    ensures SumBytes(a + b) == SumBytes(a) + SumBytes(b)
    ensures SumPages(a + b) == SumPages(a) + SumPages(b)
    ensures RefsSize(a + b) == RefsSize(a) + RefsSize(b)
    decreases |b|
  {
    if b == [] {
      assert a + b == a;
    } else {
      var front, whole := b[..|b| - 1], a + b;
      SumsOfConcat(a, front);
      assert whole[..|whole| - 1] == a + front && whole[|whole| - 1] == b[|b| - 1];
    }
  }

  lemma {:induction false} StreamsOfConcat(cx: Context, a: seq<PageRef>, b: seq<PageRef>)
    ensures Streams(cx, a + b) == Streams(cx, a) + Streams(cx, b)
    decreases |a|
  {
    if a == [] {
      assert a + b == b;
    } else {
      StreamsOfConcat(cx, a[1..], b);
      assert (a + b)[1..] == a[1..] + b && (a + b)[0] == a[0];
    }
  }

  lemma StreamsOfOne(cx: Context, r: PageRef)
    ensures Streams(cx, [r]) == Stream(cx, r)
  {
    assert [r][1..] == [];
  }

  lemma SumsOfOne(r: PageRef)
    ensures SumBytes([r]) == r.byteLen && SumPages([r]) == r.pages
  {
    assert [r][..0] == [];
  }

  // ---------------------------------------------------------------- whole parts of a length

  /** The largest multiple of `size` that is at most `n`. */
  function Whole(n: nat, size: nat): (r: nat)
    requires size >= 1
    ensures r <= n < r + size
  {
    if n < size then 0 else size + Whole(n - size, size)
  }

  /** How many parts of `size` fit. */
  function Parts(n: nat, size: nat): nat
    requires size >= 1
  {
    if n < size then 0 else 1 + Parts(n - size, size)
  }

  lemma {:induction false} PartsBound(n: nat, size: nat, k: nat, rest: nat)
    requires size >= 1 && n == k * size + rest && rest < size
    ensures Parts(n, size) == k
    decreases k
  {
    if k > 0 {
      assert k * size == (k - 1) * size + size;
      PartsBound(n - size, size, k - 1, rest);
    }
  }

  lemma PartsIsDiv(n: nat, size: nat)
    requires size >= 1
    ensures Parts(n, size) == n / size
  {
    assert n == n / size * size + n % size;
    PartsBound(n, size, n / size, n % size);
  }

  lemma {:induction false} WholeIsParts(n: nat, size: nat)
    requires size >= 1
    ensures Whole(n, size) == Parts(n, size) * size
  {
    if n >= size {
      WholeIsParts(n - size, size);
      var k := Parts(n - size, size);
      assert (k + 1) * size == k * size + size;
    }
  }

  // ---------------------------------------------------------------- leaves

  function LeafPage(cx: Context, bytes: Bytes): Page {
    Page(1, cx.scope, cx.section, 0, Leaf(bytes))
  }

  function LeafRef(cx: Context, bytes: Bytes): PageRef {
    RefTo(LeafPage(cx, bytes))
  }

  /** The length of the whole leaves at the front of a stream. */
  function LeafPart(n: nat): (r: nat)
    ensures r <= n < r + LEAF_BYTES && (n >= LEAF_BYTES ==> r >= LEAF_BYTES)
  {
    Whole(n, LEAF_BYTES)
  }

  /** The k-th whole leaf. */
  function LeafAt(bytes: Bytes, k: nat): Bytes
    requires LEAF_BYTES * k + LEAF_BYTES <= |bytes|
  {
    bytes[LEAF_BYTES * k..LEAF_BYTES * k + LEAF_BYTES]
  }

  lemma LeavesFit(n: nat, k: nat)
    requires k < Parts(n, LEAF_BYTES)
    ensures LEAF_BYTES * k + LEAF_BYTES <= n
  {
    WholeIsParts(n, LEAF_BYTES);
  }

  /** The references of the whole leaves. */
  function FullLeaves(cx: Context, bytes: Bytes): (r: seq<PageRef>)
    ensures |r| == Parts(|bytes|, LEAF_BYTES)
  {
    seq(Parts(|bytes|, LEAF_BYTES), k requires 0 <= k < Parts(|bytes|, LEAF_BYTES) =>
      LeavesFit(|bytes|, k);
      LeafRef(cx, LeafAt(bytes, k)))
  }

  /** The bytes after the last whole leaf. */
  function LeafRest(bytes: Bytes): Bytes {
    bytes[LeafPart(|bytes|)..]
  }

  /** All leaves: the last one may be short, and an empty stream has one empty leaf. */
  function AllLeaves(cx: Context, bytes: Bytes): (r: seq<PageRef>)
    ensures r != []
  {
    FullLeaves(cx, bytes) + if LeafRest(bytes) != [] || bytes == [] then [LeafRef(cx, LeafRest(bytes))] else []
  }

  // ---------------------------------------------------------------- groups

  function IndexPage(cx: Context, height: nat, children: seq<PageRef>): Page {
    Page(1, cx.scope, cx.section, height, Index(children))
  }

  function IndexRef(cx: Context, height: nat, children: seq<PageRef>): PageRef {
    RefTo(IndexPage(cx, height, children))
  }

  function GroupPart(n: nat): (r: nat)
    ensures r <= n < r + FANOUT && (n >= FANOUT ==> r >= FANOUT)
  {
    Whole(n, FANOUT)
  }

  /** The k-th whole group. */
  function GroupAt(refs: seq<PageRef>, k: nat): seq<PageRef>
    requires FANOUT * k + FANOUT <= |refs|
  {
    refs[FANOUT * k..FANOUT * k + FANOUT]
  }

  lemma {:induction false} PartsFit(n: nat, k: nat)
    requires k < Parts(n, FANOUT)
    ensures FANOUT * k + FANOUT <= n
  {
    WholeIsParts(n, FANOUT);
  }

  /** One index page per whole group. */
  function FullGroups(cx: Context, height: nat, refs: seq<PageRef>): (r: seq<PageRef>)
    ensures |r| == Parts(|refs|, FANOUT)
  {
    seq(Parts(|refs|, FANOUT), k requires 0 <= k < Parts(|refs|, FANOUT) =>
      PartsFit(|refs|, k);
      IndexRef(cx, height, GroupAt(refs, k)))
  }

  /** The references after the last whole group. */
  function GroupRest(refs: seq<PageRef>): (r: seq<PageRef>)
    ensures |r| < FANOUT
  {
    refs[GroupPart(|refs|)..]
  }

  /** The next level up. */
  function Group(cx: Context, height: nat, refs: seq<PageRef>): (r: seq<PageRef>)
    ensures refs != [] ==> r != []
    ensures |refs| >= 2 ==> |r| < |refs|
    ensures |r| <= Parts(|refs|, FANOUT) + 1
  {
    PartsIsDiv(|refs|, FANOUT);
    FullGroups(cx, height, refs) + if GroupRest(refs) != [] then [IndexRef(cx, height, GroupRest(refs))] else []
  }

  /** The single page above a level. */
  function RootFrom(cx: Context, height: nat, refs: seq<PageRef>): PageRef
    requires refs != []
    decreases |refs|
  {
    if |refs| == 1 then refs[0] else RootFrom(cx, height + 1, Group(cx, height + 1, refs))
  }

  /** The root of a stream. It depends on the bytes alone. */
  function RootOf(cx: Context, bytes: Bytes): PageRef {
    RootFrom(cx, 0, AllLeaves(cx, bytes))
  }

  // ---------------------------------------------------------------- a level fits the format

  /** References that one level may hold when the stream is as long as allowed. */
  function LevelCount(height: nat): nat {
    if height == 0 then 279621 else if height == 1 then 2185 else if height == 2 then 18 else 1
  }

  /** Pages at or below one level. */
  function LevelPages(height: nat): nat {
    if height == 0 then 279621 else if height == 1 then 281806 else if height == 2 then 281824 else 281825
  }

  /** Grouping a full level fills the next one. */
  lemma CountShrinks(height: nat, n: nat)
    requires height < MAX_HEIGHT && n <= LevelCount(height)
    ensures Parts(n, FANOUT) + 1 <= LevelCount(height + 1)
    ensures LevelPages(height) + LevelCount(height + 1) <= LevelPages(height + 1)
  {
    PartsIsDiv(n, FANOUT);
  }

  ghost predicate RefAt(cx: Context, height: nat, r: PageRef) {
    RefOk(r) && r.height == height && Intact(cx, r)
  }

  /** The totals of one level stay within the format. */
  predicate TotalsOk(height: nat, refs: seq<PageRef>) {
    && height <= MAX_HEIGHT && |refs| <= LevelCount(height)
    && SumBytes(refs) <= MAX_STREAM_BYTES && SumPages(refs) <= LevelPages(height)
  }

  /** The references of one level: intact, of that height, and not empty unless alone. */
  ghost predicate RefsOk(cx: Context, height: nat, refs: seq<PageRef>) {
    && (forall i :: 0 <= i < |refs| ==> RefAt(cx, height, refs[i]))
    && (|refs| >= 2 ==> forall i :: 0 <= i < |refs| ==> refs[i].byteLen != 0)
  }

  ghost predicate LevelOk(cx: Context, height: nat, refs: seq<PageRef>) {
    TotalsOk(height, refs) && RefsOk(cx, height, refs)
  }

  lemma {:induction false} ManyRefs(refs: seq<PageRef>)
    requires forall i :: 0 <= i < |refs| ==> RefOk(refs[i])
    ensures |refs| <= SumPages(refs)
    ensures (exists i :: 0 <= i < |refs| && refs[i].byteLen != 0) ==> SumBytes(refs) > 0
    ensures RefsSize(refs) <= 46 * |refs|
  {
    if refs != [] {
      var last := refs[|refs| - 1];
      ManyRefs(refs[..|refs| - 1]);
      VarintBound(last.encodedLen);
      VarintBound(last.byteLen);
      VarintBound(last.pages);
      if i :| 0 <= i < |refs| - 1 && refs[i].byteLen != 0 { assert refs[..|refs| - 1][i].byteLen != 0; }
    }
  }

  /** A group of children of one level makes an acceptable page one level up. */
  lemma IndexIsIntact(cx: Context, height: nat, children: seq<PageRef>)
    requires cx.Valid() && height < MAX_HEIGHT && 0 < |children| <= FANOUT
    requires forall i :: 0 <= i < |children| ==> RefAt(cx, height, children[i]) && children[i].byteLen != 0
    requires SumBytes(children) <= MAX_STREAM_BYTES && 1 + SumPages(children) <= MAX_PAGES
    ensures Encodable(IndexPage(cx, height + 1, children))
    ensures RefAt(cx, height + 1, IndexRef(cx, height + 1, children)) && IndexRef(cx, height + 1, children).byteLen != 0
    ensures Stream(cx, IndexRef(cx, height + 1, children)) == Streams(cx, children)
  {
    var page := IndexPage(cx, height + 1, children);
    ManyRefs(children);
    VarintBound(1);
    VarintBound(|children|);
    assert children[0].byteLen != 0;
    assert CountsOk(page);
    assert Encodable(page);
    EncodedIsCommitted(cx, page);
  }

  lemma LeafIsIntact(cx: Context, bytes: Bytes)
    requires cx.Valid() && |bytes| <= LEAF_BYTES
    ensures Encodable(LeafPage(cx, bytes)) && RefAt(cx, 0, LeafRef(cx, bytes))
    ensures Stream(cx, LeafRef(cx, bytes)) == bytes && LeafRef(cx, bytes).byteLen == |bytes|
  {
    VarintBound(1);
    VarintBound(|bytes|);
    EncodedIsCommitted(cx, LeafPage(cx, bytes));
  }

  // ---------------------------------------------------------------- leaves make a level

  lemma FullLeavesRefs(cx: Context, bytes: Bytes, i: nat)
    requires cx.Valid() && i < |FullLeaves(cx, bytes)|
    ensures RefAt(cx, 0, FullLeaves(cx, bytes)[i]) && FullLeaves(cx, bytes)[i].byteLen == LEAF_BYTES
    ensures FullLeaves(cx, bytes)[i].pages == 1
  {
    LeavesFit(|bytes|, i);
    LeafIsIntact(cx, LeafAt(bytes, i));
  }

  lemma {:induction false} UniformSums(refs: seq<PageRef>, bytes: nat)
    requires forall i :: 0 <= i < |refs| ==> refs[i].byteLen == bytes && refs[i].pages == 1
    ensures SumBytes(refs) == |refs| * bytes && SumPages(refs) == |refs|
  {
    if refs != [] { UniformSums(refs[..|refs| - 1], bytes); }
  }

  ghost predicate HoldsLeaf(cx: Context, bytes: Bytes, k: nat, r: PageRef) {
    LEAF_BYTES * k + LEAF_BYTES <= |bytes| && Stream(cx, r) == LeafAt(bytes, k)
  }

  lemma {:induction false} LeavesStream(cx: Context, bytes: Bytes, refs: seq<PageRef>, n: nat)
    requires n <= |refs| && forall k :: 0 <= k < |refs| ==> HoldsLeaf(cx, bytes, k, refs[k])
    ensures LEAF_BYTES * n <= |bytes| && Streams(cx, refs[..n]) == bytes[..LEAF_BYTES * n]
  {
    if n > 0 {
      LeavesStream(cx, bytes, refs, n - 1);
      assert HoldsLeaf(cx, bytes, n - 1, refs[n - 1]);
      AppendOne(cx, refs[..n - 1], refs[n - 1], bytes[..LEAF_BYTES * (n - 1)], LeafAt(bytes, n - 1));
      assert refs[..n] == refs[..n - 1] + [refs[n - 1]];
      assert bytes[..LEAF_BYTES * n] == bytes[..LEAF_BYTES * (n - 1)] + LeafAt(bytes, n - 1);
    }
  }

  lemma FullLeavesStreams(cx: Context, bytes: Bytes)
    requires cx.Valid()
    ensures Streams(cx, FullLeaves(cx, bytes)) == bytes[..LeafPart(|bytes|)]
  {
    var refs := FullLeaves(cx, bytes);
    forall k | 0 <= k < |refs| ensures HoldsLeaf(cx, bytes, k, refs[k]) {
      LeavesFit(|bytes|, k);
      LeafStream(cx, LeafAt(bytes, k));
    }
    LeavesStream(cx, bytes, refs, |refs|);
    WholeIsParts(|bytes|, LEAF_BYTES);
    assert refs[..|refs|] == refs;
  }

  lemma LeafStream(cx: Context, bytes: Bytes)
    requires cx.Valid() && |bytes| <= LEAF_BYTES
    ensures Stream(cx, LeafRef(cx, bytes)) == bytes
  {
    LeafIsIntact(cx, bytes);
  }

  lemma AppendOne(cx: Context, up: seq<PageRef>, r: PageRef, front: Bytes, last: Bytes)
    requires Streams(cx, up) == front && Stream(cx, r) == last
    ensures Streams(cx, up + [r]) == front + last
  {
    StreamsOfConcat(cx, up, [r]);
    StreamsOfOne(cx, r);
  }

  lemma AppendOneSums(up: seq<PageRef>, r: PageRef)
    ensures SumBytes(up + [r]) == SumBytes(up) + r.byteLen && SumPages(up + [r]) == SumPages(up) + r.pages
  {
    SumsOfConcat(up, [r]);
    SumsOfOne(r);
  }

  /** The whole leaves of any stream the format allows are an acceptable lowest level. */
  lemma FullLeavesOk(cx: Context, bytes: Bytes)
    requires cx.Valid() && |bytes| <= MAX_STREAM_BYTES
    ensures LevelOk(cx, 0, FullLeaves(cx, bytes)) && SumBytes(FullLeaves(cx, bytes)) == LeafPart(|bytes|)
    ensures SumPages(FullLeaves(cx, bytes)) == |FullLeaves(cx, bytes)|
  {
    var refs := FullLeaves(cx, bytes);
    forall i | 0 <= i < |refs| ensures RefAt(cx, 0, refs[i]) && refs[i].byteLen == LEAF_BYTES && refs[i].pages == 1 {
      FullLeavesRefs(cx, bytes, i);
    }
    UniformSums(refs, LEAF_BYTES);
    PartsIsDiv(|bytes|, LEAF_BYTES);
    WholeIsParts(|bytes|, LEAF_BYTES);
  }

  lemma TotalsMore(height: nat, refs: seq<PageRef>, r: PageRef)
    requires TotalsOk(height, refs) && |refs| < LevelCount(height)
    requires SumBytes(refs) + r.byteLen <= MAX_STREAM_BYTES && SumPages(refs) + r.pages <= LevelPages(height)
    ensures TotalsOk(height, refs + [r])
  {
    AppendOneSums(refs, r);
  }

  lemma RefsMore(cx: Context, height: nat, refs: seq<PageRef>, r: PageRef)
    requires RefsOk(cx, height, refs) && RefAt(cx, height, r)
    requires refs != [] ==> r.byteLen != 0 && refs[0].byteLen != 0
    ensures RefsOk(cx, height, refs + [r])
  {
    var more := refs + [r];
    forall i | 0 <= i < |more| ensures RefAt(cx, height, more[i]) && (|more| >= 2 ==> more[i].byteLen != 0) {
      if i < |refs| { assert more[i] == refs[i]; } else { assert more[i] == r; }
    }
  }

  /** One more reference on a level. */
  lemma LevelMore(cx: Context, height: nat, refs: seq<PageRef>, r: PageRef)
    requires LevelOk(cx, height, refs) && RefAt(cx, height, r) && |refs| < LevelCount(height)
    requires SumBytes(refs) + r.byteLen <= MAX_STREAM_BYTES && SumPages(refs) + r.pages <= LevelPages(height)
    requires refs != [] ==> r.byteLen != 0 && refs[0].byteLen != 0
    ensures LevelOk(cx, height, refs + [r])
  {
    TotalsMore(height, refs, r);
    RefsMore(cx, height, refs, r);
  }

  /** All leaves of any stream the format allows are an acceptable lowest level. */
  lemma AllLeavesOk(cx: Context, bytes: Bytes)
    requires cx.Valid() && |bytes| <= MAX_STREAM_BYTES
    ensures LevelOk(cx, 0, AllLeaves(cx, bytes)) && SumBytes(AllLeaves(cx, bytes)) == |bytes|
  {
    FullLeavesOk(cx, bytes);
    PartsIsDiv(|bytes|, LEAF_BYTES);
    var refs := FullLeaves(cx, bytes);
    if LeafRest(bytes) != [] || bytes == [] {
      var last := LeafRef(cx, LeafRest(bytes));
      LeafIsIntact(cx, LeafRest(bytes));
      if refs != [] { FullLeavesRefs(cx, bytes, 0); }
      LevelMore(cx, 0, refs, last);
      AppendOneSums(refs, last);
    } else {
      assert AllLeaves(cx, bytes) == refs;
    }
  }

  lemma AllLeavesStreams(cx: Context, bytes: Bytes)
    requires cx.Valid()
    ensures Streams(cx, AllLeaves(cx, bytes)) == bytes
  {
    FullLeavesStreams(cx, bytes);
    if LeafRest(bytes) != [] || bytes == [] {
      LeafStream(cx, LeafRest(bytes));
      AppendOne(cx, FullLeaves(cx, bytes), LeafRef(cx, LeafRest(bytes)), bytes[..LeafPart(|bytes|)], LeafRest(bytes));
      assert bytes[..LeafPart(|bytes|)] + LeafRest(bytes) == bytes;
    } else {
      assert bytes[..LeafPart(|bytes|)] == bytes;
      assert AllLeaves(cx, bytes) == FullLeaves(cx, bytes);
    }
  }

  // ---------------------------------------------------------------- groups make the next level

  lemma SubSums(refs: seq<PageRef>, lo: nat, hi: nat)
    requires lo <= hi <= |refs|
    ensures SumBytes(refs[lo..hi]) <= SumBytes(refs) && SumPages(refs[lo..hi]) <= SumPages(refs)
  {
    assert refs == refs[..lo] + refs[lo..hi] + refs[hi..];
    SumsOfConcat(refs[..lo] + refs[lo..hi], refs[hi..]);
    SumsOfConcat(refs[..lo], refs[lo..hi]);
  }

  /** Any run of at most a fanout of references of one level makes an acceptable page. */
  lemma PartOfLevelOk(cx: Context, height: nat, refs: seq<PageRef>, lo: nat, hi: nat)
    requires cx.Valid() && LevelOk(cx, height, refs) && height < MAX_HEIGHT && |refs| >= 2
    requires lo < hi <= |refs| && hi - lo <= FANOUT
    ensures Encodable(IndexPage(cx, height + 1, refs[lo..hi]))
    ensures RefAt(cx, height + 1, IndexRef(cx, height + 1, refs[lo..hi]))
    ensures IndexRef(cx, height + 1, refs[lo..hi]).byteLen != 0
    ensures Stream(cx, IndexRef(cx, height + 1, refs[lo..hi])) == Streams(cx, refs[lo..hi])
  {
    SubSums(refs, lo, hi);
    var part := refs[lo..hi];
    forall i | 0 <= i < |part|
      ensures RefAt(cx, height, part[i]) && part[i].byteLen != 0
    {
      assert part[i] == refs[lo + i];
    }
    IndexIsIntact(cx, height, part);
  }

  /** A page carries the bytes of the `i`-th whole group. */
  ghost predicate Above(cx: Context, refs: seq<PageRef>, i: nat, r: PageRef) {
    FANOUT * i + FANOUT <= |refs| && Stream(cx, r) == Streams(cx, refs[FANOUT * i..FANOUT * i + FANOUT])
  }

  lemma {:induction false} StreamsAbove(cx: Context, refs: seq<PageRef>, up: seq<PageRef>, k: nat)
    requires k <= |up| && forall i :: 0 <= i < |up| ==> Above(cx, refs, i, up[i])
    ensures FANOUT * k <= |refs| && Streams(cx, up[..k]) == Streams(cx, refs[..FANOUT * k])
  {
    if k > 0 {
      StreamsAbove(cx, refs, up, k - 1);
      assert Above(cx, refs, k - 1, up[k - 1]);
      assert up[..k] == up[..k - 1] + [up[k - 1]];
      var front, group := refs[..FANOUT * (k - 1)], refs[FANOUT * (k - 1)..FANOUT * (k - 1) + FANOUT];
      assert refs[..FANOUT * k] == front + group;
      AppendStreams(cx, up[..k - 1], up[k - 1], front, group);
    }
  }

  lemma GroupIsAbove(cx: Context, height: nat, refs: seq<PageRef>, i: nat)
    requires cx.Valid() && LevelOk(cx, height, refs) && height < MAX_HEIGHT && i < |FullGroups(cx, height + 1, refs)|
    ensures Above(cx, refs, i, FullGroups(cx, height + 1, refs)[i])
  {
    FullGroupAt(cx, height + 1, refs, i);
    PartOfLevelOk(cx, height, refs, FANOUT * i, FANOUT * i + FANOUT);
  }

  lemma FullGroupsStreams(cx: Context, height: nat, refs: seq<PageRef>)
    requires cx.Valid() && LevelOk(cx, height, refs) && height < MAX_HEIGHT
    ensures Streams(cx, FullGroups(cx, height + 1, refs)) == Streams(cx, refs[..GroupPart(|refs|)])
  {
    var up := FullGroups(cx, height + 1, refs);
    forall i | 0 <= i < |up| ensures Above(cx, refs, i, up[i]) { GroupIsAbove(cx, height, refs, i); }
    WholeIsParts(|refs|, FANOUT);
    StreamsAboveAll(cx, refs, up, GroupPart(|refs|));
  }

  lemma StreamsAboveAll(cx: Context, refs: seq<PageRef>, up: seq<PageRef>, n: nat)
    requires n <= |refs| && n == FANOUT * |up| && forall i :: 0 <= i < |up| ==> Above(cx, refs, i, up[i])
    ensures Streams(cx, up) == Streams(cx, refs[..n])
  {
    StreamsAbove(cx, refs, up, |up|);
    assert up[..|up|] == up;
  }

  lemma RestStream(cx: Context, height: nat, refs: seq<PageRef>)
    requires cx.Valid() && LevelOk(cx, height, refs) && height < MAX_HEIGHT && |refs| >= 2 && GroupRest(refs) != []
    ensures Stream(cx, IndexRef(cx, height + 1, GroupRest(refs))) == Streams(cx, GroupRest(refs))
  {
    PartOfLevelOk(cx, height, refs, GroupPart(|refs|), |refs|);
    assert refs[GroupPart(|refs|)..|refs|] == GroupRest(refs);
  }

  /** The next level up carries the same bytes. */
  lemma GroupStreams(cx: Context, height: nat, refs: seq<PageRef>)
    requires cx.Valid() && LevelOk(cx, height, refs) && height < MAX_HEIGHT && |refs| >= 2
    ensures Streams(cx, Group(cx, height + 1, refs)) == Streams(cx, refs)
  {
    FullGroupsStreams(cx, height, refs);
    if GroupRest(refs) != [] { RestStream(cx, height, refs); }
    JoinGroups(cx, refs, FullGroups(cx, height + 1, refs), IndexRef(cx, height + 1, GroupRest(refs)));
  }

  lemma JoinGroups(cx: Context, refs: seq<PageRef>, up: seq<PageRef>, r: PageRef)
    requires Streams(cx, up) == Streams(cx, refs[..GroupPart(|refs|)])
    requires GroupRest(refs) != [] ==> Stream(cx, r) == Streams(cx, GroupRest(refs))
    ensures Streams(cx, up + if GroupRest(refs) != [] then [r] else []) == Streams(cx, refs)
  {
    var front, rest := refs[..GroupPart(|refs|)], GroupRest(refs);
    assert refs == front + rest;
    if rest != [] {
      AppendStreams(cx, up, r, front, rest);
    } else {
      assert front == refs && up + [] == up;
    }
  }

  lemma AppendStreams(cx: Context, up: seq<PageRef>, r: PageRef, front: seq<PageRef>, group: seq<PageRef>)
    requires Streams(cx, up) == Streams(cx, front) && Stream(cx, r) == Streams(cx, group)
    ensures Streams(cx, up + [r]) == Streams(cx, front + group)
  {
    StreamsOfConcat(cx, up, [r]);
    StreamsOfOne(cx, r);
    StreamsOfConcat(cx, front, group);
  }

  lemma AppendSums(up: seq<PageRef>, r: PageRef, front: seq<PageRef>, group: seq<PageRef>)
    requires SumBytes(up) == SumBytes(front) && r.byteLen == SumBytes(group) && r.pages == 1 + SumPages(group)
    ensures SumBytes(up + [r]) == SumBytes(front + group)
    ensures SumPages(up + [r]) == SumPages(up) + 1 + SumPages(group)
    ensures SumPages(front + group) == SumPages(front) + SumPages(group)
  {
    SumsOfConcat(up, [r]);
    SumsOfOne(r);
    SumsOfConcat(front, group);
  }

  ghost predicate SumsUp(refs: seq<PageRef>, i: nat, r: PageRef) {
    && FANOUT * i + FANOUT <= |refs|
    && r.byteLen == SumBytes(refs[FANOUT * i..FANOUT * i + FANOUT])
    && r.pages == 1 + SumPages(refs[FANOUT * i..FANOUT * i + FANOUT])
  }

  lemma {:induction false} SumsAbove(refs: seq<PageRef>, up: seq<PageRef>, k: nat)
    requires k <= |up| && forall i :: 0 <= i < |up| ==> SumsUp(refs, i, up[i])
    ensures FANOUT * k <= |refs| && SumBytes(up[..k]) == SumBytes(refs[..FANOUT * k])
    ensures SumPages(up[..k]) == SumPages(refs[..FANOUT * k]) + k
  {
    if k > 0 {
      SumsAbove(refs, up, k - 1);
      assert SumsUp(refs, k - 1, up[k - 1]);
      assert up[..k] == up[..k - 1] + [up[k - 1]];
      var front, group := refs[..FANOUT * (k - 1)], refs[FANOUT * (k - 1)..FANOUT * (k - 1) + FANOUT];
      assert refs[..FANOUT * k] == front + group;
      AppendSums(up[..k - 1], up[k - 1], front, group);
    }
  }

  lemma GroupSumsUp(cx: Context, height: nat, refs: seq<PageRef>, i: nat)
    requires i < |FullGroups(cx, height, refs)|
    ensures SumsUp(refs, i, FullGroups(cx, height, refs)[i])
  {
    FullGroupAt(cx, height, refs, i);
  }

  lemma FullGroupsSums(cx: Context, height: nat, refs: seq<PageRef>)
    ensures var up := FullGroups(cx, height, refs); var part := refs[..GroupPart(|refs|)];
            SumBytes(up) == SumBytes(part) && SumPages(up) == SumPages(part) + |up|
  {
    var up := FullGroups(cx, height, refs);
    forall i | 0 <= i < |up| ensures SumsUp(refs, i, up[i]) { GroupSumsUp(cx, height, refs, i); }
    WholeIsParts(|refs|, FANOUT);
    SumsAboveAll(refs, up, GroupPart(|refs|));
  }

  lemma SumsAboveAll(refs: seq<PageRef>, up: seq<PageRef>, n: nat)
    requires n <= |refs| && n == FANOUT * |up| && forall i :: 0 <= i < |up| ==> SumsUp(refs, i, up[i])
    ensures SumBytes(up) == SumBytes(refs[..n]) && SumPages(up) == SumPages(refs[..n]) + |up|
  {
    SumsAbove(refs, up, |up|);
    assert up[..|up|] == up;
  }

  lemma JoinGroupSums(refs: seq<PageRef>, up: seq<PageRef>, r: PageRef, whole: seq<PageRef>)
    requires SumBytes(up) == SumBytes(refs[..GroupPart(|refs|)])
    requires SumPages(up) == SumPages(refs[..GroupPart(|refs|)]) + |up|
    requires r.byteLen == SumBytes(GroupRest(refs)) && r.pages == 1 + SumPages(GroupRest(refs))
    requires whole == up + if GroupRest(refs) != [] then [r] else []
    ensures SumBytes(whole) == SumBytes(refs) && SumPages(whole) == SumPages(refs) + |whole|
  {
    var front, rest := refs[..GroupPart(|refs|)], GroupRest(refs);
    assert refs == front + rest;
    if rest != [] {
      AppendSums(up, r, front, rest);
    } else {
      assert front == refs && whole == up;
    }
  }

  /** The next level up holds the same bytes in one more page per group. */
  lemma GroupSums(cx: Context, height: nat, refs: seq<PageRef>)
    ensures SumBytes(Group(cx, height, refs)) == SumBytes(refs)
    ensures SumPages(Group(cx, height, refs)) == SumPages(refs) + |Group(cx, height, refs)|
  {
    FullGroupsSums(cx, height, refs);
    JoinGroupSums(refs, FullGroups(cx, height, refs), IndexRef(cx, height, GroupRest(refs)), Group(cx, height, refs));
  }

  lemma FullGroupAt(cx: Context, height: nat, refs: seq<PageRef>, i: nat)
    requires i < |FullGroups(cx, height, refs)|
    ensures FANOUT * i + FANOUT <= |refs|
    ensures FullGroups(cx, height, refs)[i] == IndexRef(cx, height, refs[FANOUT * i..FANOUT * i + FANOUT])
  {
    PartsFit(|refs|, i);
  }

  lemma FullGroupsRefs(cx: Context, height: nat, refs: seq<PageRef>, i: nat)
    requires cx.Valid() && LevelOk(cx, height, refs) && height < MAX_HEIGHT && i < |FullGroups(cx, height + 1, refs)|
    ensures RefAt(cx, height + 1, FullGroups(cx, height + 1, refs)[i])
            && FullGroups(cx, height + 1, refs)[i].byteLen != 0
  {
    FullGroupAt(cx, height + 1, refs, i);
    PartOfLevelOk(cx, height, refs, FANOUT * i, FANOUT * i + FANOUT);
  }

  lemma FullGroupsTotals(cx: Context, height: nat, refs: seq<PageRef>)
    requires TotalsOk(height, refs) && height < MAX_HEIGHT
    ensures TotalsOk(height + 1, FullGroups(cx, height + 1, refs))
  {
    CountShrinks(height, |refs|);
    FullGroupsSums(cx, height + 1, refs);
    SubSums(refs, 0, GroupPart(|refs|));
    assert refs[0..GroupPart(|refs|)] == refs[..GroupPart(|refs|)];
  }

  /** Whole groups of an acceptable level are acceptable. */
  lemma FullGroupsOk(cx: Context, height: nat, refs: seq<PageRef>)
    requires cx.Valid() && LevelOk(cx, height, refs) && height < MAX_HEIGHT
    ensures LevelOk(cx, height + 1, FullGroups(cx, height + 1, refs))
  {
    FullGroupsTotals(cx, height, refs);
    FullGroupsRefsOk(cx, height, refs);
  }

  lemma FullGroupsRefsOk(cx: Context, height: nat, refs: seq<PageRef>)
    requires cx.Valid() && LevelOk(cx, height, refs) && height < MAX_HEIGHT
    ensures RefsOk(cx, height + 1, FullGroups(cx, height + 1, refs))
  {
    var up, over := FullGroups(cx, height + 1, refs), height + 1;
    forall i | 0 <= i < |up|
      ensures RefAt(cx, over, up[i]) && up[i].byteLen != 0
    {
      FullGroupsRefs(cx, height, refs, i);
    }
  }

  lemma GroupRefs(cx: Context, height: nat, refs: seq<PageRef>, i: nat)
    requires cx.Valid() && LevelOk(cx, height, refs) && height < MAX_HEIGHT && |refs| >= 2
             && i < |Group(cx, height + 1, refs)|
    ensures RefAt(cx, height + 1, Group(cx, height + 1, refs)[i]) && Group(cx, height + 1, refs)[i].byteLen != 0
  {
    if i < |FullGroups(cx, height + 1, refs)| {
      FullGroupsRefs(cx, height, refs, i);
    } else {
      PartOfLevelOk(cx, height, refs, GroupPart(|refs|), |refs|);
      assert refs[GroupPart(|refs|)..|refs|] == GroupRest(refs);
    }
  }

  lemma GroupTotals(cx: Context, height: nat, refs: seq<PageRef>)
    requires TotalsOk(height, refs) && height < MAX_HEIGHT
    ensures TotalsOk(height + 1, Group(cx, height + 1, refs))
  {
    CountShrinks(height, |refs|);
    GroupSums(cx, height + 1, refs);
  }

  lemma GroupRefsOk(cx: Context, height: nat, refs: seq<PageRef>)
    requires cx.Valid() && LevelOk(cx, height, refs) && height < MAX_HEIGHT && |refs| >= 2
    ensures RefsOk(cx, height + 1, Group(cx, height + 1, refs))
  {
    var up, over := Group(cx, height + 1, refs), height + 1;
    forall i | 0 <= i < |up| ensures RefAt(cx, over, up[i]) && up[i].byteLen != 0 { GroupRefs(cx, height, refs, i); }
  }

  /** The next level up is acceptable. */
  lemma GroupOk(cx: Context, height: nat, refs: seq<PageRef>)
    requires cx.Valid() && LevelOk(cx, height, refs) && height < MAX_HEIGHT && |refs| >= 2
    ensures LevelOk(cx, height + 1, Group(cx, height + 1, refs))
  {
    GroupTotals(cx, height, refs);
    GroupRefsOk(cx, height, refs);
  }

  // ---------------------------------------------------------------- the root

  /** What a root satisfies. */
  ghost predicate RootOk(cx: Context, root: PageRef) {
    RefOk(root) && Intact(cx, root) && root.height <= MAX_HEIGHT && root.pages <= LevelPages(MAX_HEIGHT)
  }

  lemma LastIsRoot(cx: Context, height: nat, refs: seq<PageRef>)
    requires LevelOk(cx, height, refs) && |refs| == 1
    ensures RootOk(cx, refs[0])
  {
    SumsOfOne(refs[0]);
    assert refs == [refs[0]];
    assert RefAt(cx, height, refs[0]);
  }

  /** Whatever grouping keeps from level to level holds of the last level, the root alone. */
  lemma {:induction false} LevelInduction(cx: Context, height: nat, refs: seq<PageRef>,
                                          kept: (nat, seq<PageRef>) -> bool)
    returns (top: nat)
    requires refs != [] && kept(height, refs)
    requires forall h: nat, level :: kept(h, level) && |level| >= 2 ==> kept(h + 1, Group(cx, h + 1, level))
    ensures kept(top, [RootFrom(cx, height, refs)])
    decreases |refs|
  {
    if |refs| == 1 {
      assert refs == [refs[0]];
      top := height;
    } else {
      top := LevelInduction(cx, height + 1, Group(cx, height + 1, refs), kept);
    }
  }

  /** The level is acceptable and carries the stream. */
  ghost predicate LevelOf(cx: Context, bytes: Bytes, height: nat, refs: seq<PageRef>) {
    LevelOk(cx, height, refs) && SumBytes(refs) == |bytes| && Streams(cx, refs) == bytes
  }

  lemma LevelOfGroup(cx: Context, bytes: Bytes, height: nat, refs: seq<PageRef>)
    requires cx.Valid() && LevelOf(cx, bytes, height, refs) && |refs| >= 2
    ensures LevelOf(cx, bytes, height + 1, Group(cx, height + 1, refs))
  {
    GroupOk(cx, height, refs);
    GroupSums(cx, height + 1, refs);
    GroupStreams(cx, height, refs);
  }

  ghost function Carrying(cx: Context, bytes: Bytes): (nat, seq<PageRef>) -> bool {
    (height: nat, refs: seq<PageRef>) => LevelOf(cx, bytes, height, refs)
  }

  lemma GroupKeeps(cx: Context, bytes: Bytes)
    requires cx.Valid()
    ensures forall h: nat, level :: Carrying(cx, bytes)(h, level) && |level| >= 2 ==>
              Carrying(cx, bytes)(h + 1, Group(cx, h + 1, level))
  {
    forall h: nat, level | Carrying(cx, bytes)(h, level) && |level| >= 2
      ensures Carrying(cx, bytes)(h + 1, Group(cx, h + 1, level))
    {
      LevelOfGroup(cx, bytes, h, level);
    }
  }

  lemma LastLevel(cx: Context, bytes: Bytes, height: nat, root: PageRef)
    requires LevelOf(cx, bytes, height, [root])
    ensures RootOk(cx, root) && Stream(cx, root) == bytes && root.byteLen == |bytes|
  {
    SumsOfOne(root);
    StreamsOfOne(cx, root);
    LastIsRoot(cx, height, [root]);
  }

  /**
   Every stream the format allows has a root: intact, at most three levels high, of fewer than a
   million pages, and committing to exactly the stream.
   */
  lemma RootCarriesStream(cx: Context, bytes: Bytes)
    requires cx.Valid() && |bytes| <= MAX_STREAM_BYTES
    ensures var root := RootOf(cx, bytes);
            && RefOk(root) && Intact(cx, root) && root.height <= MAX_HEIGHT && root.pages <= 281825 < MAX_PAGES
            && Stream(cx, root) == bytes && root.byteLen == |bytes|
  {
    AllLeavesOk(cx, bytes);
    AllLeavesStreams(cx, bytes);
    GroupKeeps(cx, bytes);
    var top := LevelInduction(cx, 0, AllLeaves(cx, bytes), Carrying(cx, bytes));
    LastLevel(cx, bytes, top, RootOf(cx, bytes));
  }

  /** Different streams have different roots. */
  lemma RootIsInjective(cx: Context, a: Bytes, b: Bytes)
    requires cx.Valid() && |a| <= MAX_STREAM_BYTES && |b| <= MAX_STREAM_BYTES && RootOf(cx, a) == RootOf(cx, b)
    ensures a == b
  {
    RootCarriesStream(cx, a);
    RootCarriesStream(cx, b);
  }
}
