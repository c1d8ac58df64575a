/**
 The operations of the Merkle suite, as loops over levels and siblings, each proved
 against the specification functions of `Merkle`.
 */
module MerkleSuite {
  import opened Base
  import opened Merkle

  // ---------------------------------------------------------------- commitments and openings

  /** All levels of the tree, leaves first. */
  method MerkleLevels(bytes: Bytes) returns (levels: seq<seq<Digest>>)
    ensures |levels| >= 1 && |levels[|levels| - 1]| <= 1
    ensures forall k :: 0 <= k < |levels| ==> levels[k] == Level(LeafNodes(bytes), k)
    ensures forall k :: 0 <= k < |levels| - 1 ==> |levels[k]| > 1
  {
    levels := [LeafNodes(bytes)];
    while |levels[|levels| - 1]| > 1
      invariant |levels| >= 1
      invariant forall k :: 0 <= k < |levels| ==> levels[k] == Level(LeafNodes(bytes), k)
      invariant forall k :: 0 <= k < |levels| - 1 ==> |levels[k]| > 1
      decreases |levels[|levels| - 1]|
    {
      LevelStep(LeafNodes(bytes), |levels| - 1);
      levels := levels + [PairUp(levels[|levels| - 1])];
    }
  }

  lemma LevelCount(nodes: seq<Digest>, top: nat)
    requires IsPow2(|nodes|)
    requires |Level(nodes, top)| <= 1
    requires forall k {:trigger Level(nodes, k)} :: 0 <= k < top ==> |Level(nodes, k)| > 1
    ensures top == Log2(|nodes|) && |Level(nodes, top)| == 1 && Level(nodes, top)[0] == Root(nodes)
  {
    var h := Log2(|nodes|);
    Pow2OfLog2(|nodes|);
    LevelLength(nodes, h);
    LevelLength(nodes, top);
    MulDiv(|nodes|, 1);
    assert |nodes| == (|nodes| / Pow2(top)) * Pow2(top) + |nodes| % Pow2(top) < 2 * Pow2(top);
    Pow2Less(h, top + 1);
    RootOfLevel(nodes, h);
  }

  lemma Pow2Less(a: nat, b: nat)
    requires Pow2(a) < Pow2(b)
    ensures a < b
  {
    if b <= a { Pow2Monotone(b, a); }
  }

  lemma {:induction false} LevelsArePow2(nodes: seq<Digest>, k: nat)
    requires IsPow2(|nodes|) && k <= Log2(|nodes|)
    ensures IsPow2(|Level(nodes, k)|) && Log2(|Level(nodes, k)|) == Log2(|nodes|) - k
    decreases k
  {
    if k > 0 { LevelsArePow2(PairUp(nodes), k - 1); }
  }

  method Commit(bytes: Bytes) returns (r: Result<Commitment, MerkleError>)
    ensures r == CommitSpec(bytes)
  {
    if !ValidDataLength(|bytes|) { return Err(InvalidDataLength); }
    var levels := MerkleLevels(bytes);
    LeafCountIsPow2(|bytes|);
    LevelCount(LeafNodes(bytes), |levels| - 1);
    var treeRoot := levels[|levels| - 1][0];
    r := Ok(Commitment(SUITE_V1, LEAF_SIZE, |bytes|, RootHash(|bytes|, treeRoot)));
  }

  /** Each level pairs up into the next, down to a single node. */
  ghost predicate StackedAt(levels: seq<seq<Digest>>, k: nat)
    requires k < |levels|
  {
    && IsPow2(|levels[k]|)
    && (if k + 1 < |levels| then |levels[k]| > 1 && levels[k + 1] == PairUp(levels[k]) else |levels[k]| == 1)
  }

  lemma LevelsAreStacked(nodes: seq<Digest>, levels: seq<seq<Digest>>)
    requires IsPow2(|nodes|) && |levels| == Log2(|nodes|) + 1
    requires forall k :: 0 <= k < |levels| ==> levels[k] == Level(nodes, k)
    ensures forall k: nat :: k < |levels| ==> StackedAt(levels, k)
  {
    forall k: nat | k < |levels| ensures StackedAt(levels, k) {
      LevelsArePow2(nodes, k);
      LevelStep(nodes, k);
    }
  }

  /** The sibling walk both openings share. */
  method CollectSiblings(levels: seq<seq<Digest>>, level: nat, index: nat) returns (siblings: seq<Digest>)
    requires level < |levels| && (forall k: nat :: k < |levels| ==> StackedAt(levels, k))
    requires index < |levels[level]|
    ensures IsPow2(|levels[level]|) && siblings == Siblings(levels[level], index)
  {
    siblings := [];
    var nodeIndex: nat := index;
    assert StackedAt(levels, level);
    for k := level to |levels| - 1
      invariant nodeIndex < |levels[k]| && StackedAt(levels, k)
      invariant siblings + Siblings(levels[k], nodeIndex) == Siblings(levels[level], index)
    {
      SiblingsStep(levels[k], nodeIndex, siblings);
      assert StackedAt(levels, k + 1);
      var sibling := if nodeIndex % 2 == 0 then nodeIndex + 1 else nodeIndex - 1;
      siblings := siblings + [levels[k][sibling]];
      nodeIndex := nodeIndex / 2;
    }
  }

  lemma SiblingsStep(nodes: seq<Digest>, i: nat, before: seq<Digest>)
    requires i < |nodes| && IsPow2(|nodes|) && |nodes| > 1
    ensures IsPow2(|PairUp(nodes)|) && i / 2 < |PairUp(nodes)|
    ensures var sibling := if i % 2 == 0 then i + 1 else i - 1;
            0 <= sibling < |nodes|
              && before + Siblings(nodes, i) == (before + [nodes[sibling]]) + Siblings(PairUp(nodes), i / 2)
  {
  }

  /** Where a run's opening is found among all levels. */
  lemma OpeningPlace(nodes: seq<Digest>, levels: seq<seq<Digest>>, start: nat, count: nat)
    requires IsPow2(|nodes|) && ValidRange(start, count, |nodes|)
    requires |levels| >= 1 && |levels[|levels| - 1]| <= 1
    requires forall k :: 0 <= k < |levels| ==> levels[k] == Level(nodes, k)
    requires forall k :: 0 <= k < |levels| - 1 ==> |levels[k]| > 1
    ensures forall k: nat :: k < |levels| ==> StackedAt(levels, k)
    ensures Log2(count) < |levels| && start / count < |levels[Log2(count)]| && IsPow2(|levels[Log2(count)]|)
    ensures RunNode(nodes, start, count) == levels[Log2(count)][start / count]
    ensures RunSiblings(nodes, start, count) == Siblings(levels[Log2(count)], start / count)
  {
    LevelCount(nodes, |levels| - 1);
    LevelsAreStacked(nodes, levels);
    RunPlace(nodes, start, count);
  }

  method OpenSubtree(bytes: Bytes, start: nat, count: nat) returns (r: Result<SubtreeProof, MerkleError>)
    ensures r == OpenSubtreeSpec(bytes, start, count)
  {
    if !ValidDataLength(|bytes|) { return Err(InvalidDataLength); }
    if !ValidRange(start, count, |bytes| / LEAF_SIZE) { return Err(InvalidRange); }
    var levels := MerkleLevels(bytes);
    LeafCountIsPow2(|bytes|);
    OpeningPlace(LeafNodes(bytes), levels, start, count);
    var siblings := CollectSiblings(levels, Log2(count), start / count);
    r := Ok(SubtreeProof(SUITE_V1, start, count, levels[Log2(count)][start / count], siblings));
  }

  method OpenRange(bytes: Bytes, start: nat, count: nat) returns (r: Result<RangeProof, MerkleError>)
    ensures r == OpenRangeSpec(bytes, start, count)
  {
    var p := OpenSubtree(bytes, start, count);
    if p.Err? { return Err(p.error); }
    r := Ok(RangeProof(SUITE_V1, start, Leaves(bytes)[start..start + count], p.value.siblings));
  }

  /** The climb both verifiers share. */
  method ClimbSiblings(node: Digest, index: nat, siblings: seq<Digest>) returns (current: Digest)
    ensures current == Climb(node, index, siblings)
  {
    current := node;
    var nodeIndex := index;
    for k := 0 to |siblings|
      invariant Climb(current, nodeIndex, siblings[k..]) == Climb(node, index, siblings)
    {
      assert siblings[k..][0] == siblings[k] && siblings[k..][1..] == siblings[k + 1..];
      current := if nodeIndex % 2 == 0 then NodeHash(current, siblings[k]) else NodeHash(siblings[k], current);
      nodeIndex := nodeIndex / 2;
    }
  }

  method VerifySubtree(c: Commitment, p: SubtreeProof) returns (r: Result<Digest, MerkleError>)
    ensures r == VerifySubtreeSpec(c, p)
  {
    if c.formatVersion != SUITE_V1 || c.leafSize != LEAF_SIZE || c.root == Zero { return Err(InvalidProof); }
    if !ValidDataLength(c.byteLen) { return Err(InvalidDataLength); }
    var total := c.byteLen / LEAF_SIZE;
    if p.formatVersion != SUITE_V1 || !ValidRange(p.startLeaf, p.leafCount, total) || p.subtreeRoot == Zero {
      return Err(InvalidProof);
    }
    if |p.siblings| != Log2(total) - Log2(p.leafCount) { return Err(InvalidProof); }
    var current := ClimbSiblings(p.subtreeRoot, p.startLeaf / p.leafCount, p.siblings);
    if RootHash(c.byteLen, current) != c.root { return Err(RootMismatch); }
    r := Ok(p.subtreeRoot);
  }

  method VerifyRange(c: Commitment, p: RangeProof) returns (r: Result<Bytes, MerkleError>)
    ensures r == VerifyRangeSpec(c, p)
  {
    if c.formatVersion != SUITE_V1 || c.leafSize != LEAF_SIZE || c.root == Zero { return Err(InvalidProof); }
    if !ValidDataLength(c.byteLen) { return Err(InvalidDataLength); }
    var total, count := c.byteLen / LEAF_SIZE, |p.leaves|;
    if p.formatVersion != SUITE_V1 || !ValidRange(p.startLeaf, count, total) { return Err(InvalidProof); }
    if |p.siblings| != Log2(total) - Log2(count) { return Err(InvalidProof); }
    var nodes := HashLeaves(p.leaves);
    while |nodes| > 1
      invariant |nodes| >= 1 && Root(nodes) == Root(HashLeaves(p.leaves))
      decreases |nodes|
    {
      nodes := PairUp(nodes);
    }
    var current := ClimbSiblings(nodes[0], p.startLeaf / count, p.siblings);
    if RootHash(c.byteLen, current) != c.root { return Err(RootMismatch); }
    r := Ok(Flatten(p.leaves));
  }

  // ---------------------------------------------------------------- virtual zeros

  /** A tree whose 2^h nodes at the bottom are all `d`. */
  function Tower(d: Digest, h: nat): Digest
    decreases h
  {
    if h == 0 then d else Tower(NodeHash(d, d), h - 1)
  }

  lemma {:induction false} TowerStep(d: Digest, h: nat)
    ensures Tower(d, h + 1) == NodeHash(Tower(d, h), Tower(d, h))
    decreases h
  {
    if h > 0 { TowerStep(NodeHash(d, d), h - 1); }
  }

  ghost predicate Constant(nodes: seq<Digest>, d: Digest) {
    forall i :: 0 <= i < |nodes| ==> nodes[i] == d
  }

  lemma {:induction false} ConstantTree(nodes: seq<Digest>, d: Digest, i: nat)
    requires IsPow2(|nodes|) && Constant(nodes, d) && i < |nodes|
    ensures Root(nodes) == Tower(d, Log2(|nodes|))
    ensures |Siblings(nodes, i)| == Log2(|nodes|)
    ensures forall j :: 0 <= j < Log2(|nodes|) ==> Siblings(nodes, i)[j] == Tower(d, j)
    decreases |nodes|
  {
    if |nodes| > 1 {
      ConstantTree(PairUp(nodes), NodeHash(d, d), i / 2);
      forall j | 0 < j < Log2(|nodes|) ensures Siblings(nodes, i)[j] == Tower(d, j) {
        assert Siblings(nodes, i)[j] == Siblings(PairUp(nodes), i / 2)[j - 1];
      }
    }
  }

  lemma {:induction false} ConstantLevel(nodes: seq<Digest>, d: Digest, k: nat)
    requires Constant(nodes, d)
    ensures Constant(Level(nodes, k), Tower(d, k))
    decreases k
  {
    if k > 0 { ConstantLevel(PairUp(nodes), NodeHash(d, d), k - 1); }
  }

  lemma {:induction false} TowerTower(d: Digest, a: nat, b: nat)
    ensures Tower(Tower(d, a), b) == Tower(d, a + b)
    decreases a
  {
    if a > 0 { TowerTower(NodeHash(d, d), a - 1, b); }
  }

  lemma ZeroLeafNodes(len: nat)
    requires len % LEAF_SIZE == 0
    ensures Constant(LeafNodes(Zeros(len)), LeafHash(Zeros(LEAF_SIZE)))
  {
    forall i | 0 <= i < len / LEAF_SIZE ensures LeafNodes(Zeros(len))[i] == LeafHash(Zeros(LEAF_SIZE)) {
      assert LeafAt(Zeros(len), i) == Zeros(LEAF_SIZE);
    }
  }

  /** The unbound root of an all-zero subtree, without materializing it. */
  method ZeroSubtreeRoot(byteLen: nat) returns (r: Result<Digest, MerkleError>)
    ensures r == if ValidDataLength(byteLen) then Ok(Root(LeafNodes(Zeros(byteLen)))) else Err(InvalidDataLength)
  {
    if !ValidDataLength(byteLen) { return Err(InvalidDataLength); }
    var root := LeafHash(Zeros(LEAF_SIZE));
    var height := Log2(byteLen / LEAF_SIZE);
    for k := 0 to height
      invariant root == Tower(LeafHash(Zeros(LEAF_SIZE)), k)
    {
      TowerStep(LeafHash(Zeros(LEAF_SIZE)), k);
      root := NodeHash(root, root);
    }
    LeafCountIsPow2(byteLen);
    ZeroLeafNodes(byteLen);
    ConstantTree(LeafNodes(Zeros(byteLen)), LeafHash(Zeros(LEAF_SIZE)), 0);
    r := Ok(root);
  }

  method ZeroCommitment(byteLen: nat) returns (r: Result<Commitment, MerkleError>)
    ensures r == CommitSpec(Zeros(byteLen))
  {
    var root := ZeroSubtreeRoot(byteLen);
    if root.Err? { return Err(root.error); }
    r := Ok(Commitment(SUITE_V1, LEAF_SIZE, byteLen, RootHash(byteLen, root.value)));
  }

  /** Opening a virtual zero shard is opening the materialized zero buffer, errors included. */
  method OpenZeroRange(byteLen: nat, start: nat, count: nat) returns (r: Result<RangeProof, MerkleError>)
    ensures r == OpenRangeSpec(Zeros(byteLen), start, count)
  {
    if !ValidDataLength(byteLen) { return Err(InvalidDataLength); }
    var total := byteLen / LEAF_SIZE;
    if !ValidRange(start, count, total) { return Err(InvalidRange); }
    var subtreeLevel, treeHeight := Log2(count), Log2(total);
    var zeroLeaf: Leaf := Zeros(LEAF_SIZE);
    var zeroRoot := LeafHash(zeroLeaf);
    var siblings := [];
    LeafCountIsPow2(byteLen);
    Log2Monotone(count, total);
    for level := 0 to treeHeight
      invariant zeroRoot == Tower(LeafHash(Zeros(LEAF_SIZE)), level)
      invariant |siblings| == if level <= subtreeLevel then 0 else level - subtreeLevel
      invariant forall j :: 0 <= j < |siblings| ==>
                  siblings[j] == Tower(LeafHash(Zeros(LEAF_SIZE)), subtreeLevel + j)
    {
      if level >= subtreeLevel { siblings := siblings + [zeroRoot]; }
      TowerStep(LeafHash(Zeros(LEAF_SIZE)), level);
      zeroRoot := NodeHash(zeroRoot, zeroRoot);
    }
    r := Ok(RangeProof(SUITE_V1, start, seq(count, _ => zeroLeaf), siblings));
    ZeroOpening(byteLen, start, count, r.value);
  }

  /** Sibling `j` of a run at level `k` of a constant tree is a tower of height `k + j`. */
  ghost predicate TowerSiblings(siblings: seq<Digest>, d: Digest, k: nat, height: nat) {
    && k + |siblings| == height
    && forall j :: 0 <= j < |siblings| ==> siblings[j] == Tower(d, k + j)
  }

  lemma ConstantLevelSiblings(nodes: seq<Digest>, d: Digest, k: nat, i: nat)
    requires IsPow2(|nodes|) && k <= Log2(|nodes|) && Constant(nodes, d) && i < |Level(nodes, k)|
    ensures IsPow2(|Level(nodes, k)|)
    ensures TowerSiblings(Siblings(Level(nodes, k), i), d, k, Log2(|nodes|))
  {
    LevelsArePow2(nodes, k);
    ConstantLevel(nodes, d, k);
    ConstantTree(Level(nodes, k), Tower(d, k), i);
    forall j: nat ensures Tower(Tower(d, k), j) == Tower(d, k + j) { TowerTower(d, k, j); }
  }

  lemma TowerSiblingsUnique(a: seq<Digest>, b: seq<Digest>, d: Digest, k: nat, height: nat)
    requires TowerSiblings(a, d, k, height) && TowerSiblings(b, d, k, height)
    ensures a == b
  {
  }

  lemma ZeroSiblings(byteLen: nat, start: nat, count: nat, siblings: seq<Digest>)
    requires ValidDataLength(byteLen) && ValidRange(start, count, byteLen / LEAF_SIZE)
    requires TowerSiblings(siblings, LeafHash(Zeros(LEAF_SIZE)), Log2(count), Log2(byteLen / LEAF_SIZE))
    ensures OpenSubtreeSpec(Zeros(byteLen), start, count).value.siblings == siblings
  {
    LeafCountIsPow2(byteLen);
    ZeroLeafNodes(byteLen);
    ConstantRun(LeafNodes(Zeros(byteLen)), LeafHash(Zeros(LEAF_SIZE)), start, count, siblings);
  }

  lemma ConstantRun(nodes: seq<Digest>, d: Digest, start: nat, count: nat, siblings: seq<Digest>)
    requires IsPow2(|nodes|) && ValidRange(start, count, |nodes|) && Constant(nodes, d)
    requires TowerSiblings(siblings, d, Log2(count), Log2(|nodes|))
    ensures RunSiblings(nodes, start, count) == siblings
  {
    RunPlace(nodes, start, count);
    ConstantLevelSiblings(nodes, d, Log2(count), start / count);
    TowerSiblingsUnique(siblings, RunSiblings(nodes, start, count), d, Log2(count), Log2(|nodes|));
  }

  lemma ZeroOpening(byteLen: nat, start: nat, count: nat, p: RangeProof)
    requires ValidDataLength(byteLen) && ValidRange(start, count, byteLen / LEAF_SIZE)
    requires p.formatVersion == SUITE_V1 && p.startLeaf == start && |p.leaves| == count
    requires forall i :: 0 <= i < count ==> p.leaves[i] == Zeros(LEAF_SIZE)
    requires TowerSiblings(p.siblings, LeafHash(Zeros(LEAF_SIZE)), Log2(count), Log2(byteLen / LEAF_SIZE))
    ensures OpenRangeSpec(Zeros(byteLen), start, count) == Ok(p)
  {
    ZeroSiblings(byteLen, start, count, p.siblings);
    ZeroLeaves(byteLen);
    assert Leaves(Zeros(byteLen))[start..start + count] == p.leaves;
  }

  lemma ZeroLeaves(byteLen: nat)
    ensures forall i :: 0 <= i < byteLen / LEAF_SIZE ==> Leaves(Zeros(byteLen))[i] == Zeros(LEAF_SIZE)
  {
    forall i | 0 <= i < byteLen / LEAF_SIZE ensures Leaves(Zeros(byteLen))[i] == Zeros(LEAF_SIZE) {
      assert LeafAt(Zeros(byteLen), i) == Zeros(LEAF_SIZE);
    }
  }

  // ---------------------------------------------------------------- the subtree accumulator

  /** Slot `i` of the binary-counter frontier after the given subtrees were pushed. */
  function FrontierAt(pushed: seq<Digest>, i: nat): Option<Digest>
    decreases i
  {
    if i > 0 then FrontierAt(PairUp(pushed), i - 1)
    else if |pushed| % 2 == 1 then Some(pushed[|pushed| - 1])
    else None
  }

  /** The start of the block that slot `i` covers: `n` with its low `i + 1` bits cleared. */
  function BlockStart(n: nat, i: nat): nat {
    ModAtMost(n, Pow2(i + 1));
    n - n % Pow2(i + 1)
  }

  lemma ModAtMost(n: nat, d: nat)
    requires d >= 1
    ensures n % d <= n
  {
    if n < d { DivUnique(n, d, 0, n); }
  }

  lemma ModDouble(n: nat, p: nat)
    requires p >= 1
    ensures n % (2 * p) == 2 * ((n / 2) % p) + n % 2
  {
    var q := (n / 2) / p;
    var r := 2 * ((n / 2) % p) + n % 2;
    assert n / 2 == q * p + (n / 2) % p;
    assert n == q * (2 * p) + r;
    DivUnique(n, 2 * p, q, r);
  }

  /** Slot `i` is occupied exactly when bit `i` is set and holds the root of its block. */
  lemma {:induction false} FrontierMeaning(pushed: seq<Digest>, i: nat)
    ensures FrontierAt(pushed, i).Some? <==> (|pushed| / Pow2(i)) % 2 == 1
    ensures FrontierAt(pushed, i).Some? ==>
              BlockStart(|pushed|, i) + Pow2(i) <= |pushed|
              && FrontierAt(pushed, i).value == Root(pushed[BlockStart(|pushed|, i)..BlockStart(|pushed|, i) + Pow2(i)])
    decreases i
  {
    var n := |pushed|;
    if i == 0 {
      if n % 2 == 1 { assert pushed[n - 1..n] == [pushed[n - 1]]; }
    } else {
      var p := Pow2(i - 1);
      FrontierMeaning(PairUp(pushed), i - 1);
      DivDiv(n, p);
      ModDouble(n, 2 * p);
      var half := BlockStart(n / 2, i - 1);
      assert BlockStart(n, i) == 2 * half;
      if FrontierAt(pushed, i).Some? {
        PairUpSlice(pushed, half, half + p);
      }
    }
  }

  /** Once 2^h subtrees were pushed, slot `h` holds the root of all of them. */
  lemma {:induction false} FrontierFull(pushed: seq<Digest>, h: nat)
    requires |pushed| == Pow2(h)
    ensures FrontierAt(pushed, h) == Some(Root(pushed))
    decreases h
  {
    if h > 0 { FrontierFull(PairUp(pushed), h - 1); }
  }

  /** Pushing onto an even count fills slot 0 and leaves the other slots alone. */
  lemma FrontierFill(pushed: seq<Digest>, root: Digest)
    requires |pushed| % 2 == 0
    ensures forall i: nat :: FrontierAt(pushed + [root], i) == if i == 0 then Some(root) else FrontierAt(pushed, i)
  {
    assert PairUp(pushed + [root]) == PairUp(pushed);
  }

  /** The slots of a frontier from `level` up are those of the nodes of that level. */
  ghost predicate HoldsFrom(f: seq<Option<Digest>>, level: nat, below: seq<Digest>) {
    forall i: nat :: level <= i < |f| ==> f[i] == FrontierAt(below, i - level)
  }

  lemma HoldsUp(f: seq<Option<Digest>>, g: seq<Option<Digest>>, level: nat, below: seq<Digest>)
    requires level < |f| && HoldsFrom(f, level, below) && g == f[level := None]
    ensures HoldsFrom(g, level + 1, PairUp(below))
  {
    forall i: nat | level + 1 <= i < |g| ensures g[i] == FrontierAt(PairUp(below), i - level - 1) {
      assert f[i] == FrontierAt(below, i - level);
    }
  }

  lemma HalfBelow(n: nat, e: nat)
    requires n % 2 == 1 && n < Pow2(e)
    ensures e >= 1 && n / 2 < Pow2(e - 1)
  {
  }

  /** The slots from `level` up hold what `rest`, the nodes of that level, leave there. */
  ghost predicate CarriedTo(target: seq<Digest>, level: nat, rest: seq<Digest>) {
    forall i: nat :: level <= i < FRONTIER_SLOTS ==> FrontierAt(target, i) == FrontierAt(rest, i - level)
  }

  lemma CarryOn(target: seq<Digest>, level: nat, below: seq<Digest>, root: Digest)
    requires level < FRONTIER_SLOTS && |below| % 2 == 1 && CarriedTo(target, level, below + [root])
    ensures FrontierAt(target, level) == None
    ensures CarriedTo(target, level + 1, PairUp(below) + [NodeHash(below[|below| - 1], root)])
  {
    var more, up := below + [root], PairUp(below) + [NodeHash(below[|below| - 1], root)];
    assert PairUp(more) == up;
    assert FrontierAt(target, level) == FrontierAt(more, 0);
    forall i: nat | level + 1 <= i < FRONTIER_SLOTS ensures FrontierAt(target, i) == FrontierAt(up, i - level - 1) {
      assert FrontierAt(target, i) == FrontierAt(more, i - level);
    }
  }

  lemma FilledAt(target: seq<Digest>, level: nat, below: seq<Digest>, root: Digest, i: nat)
    requires level <= i < FRONTIER_SLOTS && |below| % 2 == 0 && CarriedTo(target, level, below + [root])
    ensures FrontierAt(target, i) == if i == level then Some(root) else FrontierAt(below, i - level)
  {
    FrontierFill(below, root);
    assert FrontierAt(target, i) == FrontierAt(below + [root], i - level);
  }

  function CommitSubtreesSpec(byteLen: nat, subtreeLen: nat, roots: seq<Digest>): Result<Commitment, MerkleError> {
    if !ValidDataLength(byteLen) || !ValidDataLength(subtreeLen) then Err(InvalidDataLength)
    else if subtreeLen > byteLen || |roots| != byteLen / subtreeLen || Zero in roots then Err(InvalidProof)
    else
      WidthIsPow2(byteLen, subtreeLen);
      Ok(Commitment(SUITE_V1, LEAF_SIZE, byteLen, RootHash(byteLen, Root(roots))))
  }

  /** The exponent of a valid length and of its leaf count differ by four. */
  lemma LeafLog2(len: nat)
    requires ValidDataLength(len)
    ensures 4 <= Log2(len) <= 22
    ensures IsPow2(len / LEAF_SIZE) && Log2(len / LEAF_SIZE) == Log2(len) - 4
    ensures len == LEAF_SIZE * Pow2(Log2(len) - 4)
  {
    FourHalvings(len);
    LeafCountIsPow2(len);
    Pow2OfLog2(len / LEAF_SIZE);
    LengthBound(len);
  }

  lemma FourHalvings(len: nat)
    requires len >= LEAF_SIZE
    ensures Log2(len) == 4 + Log2(len / LEAF_SIZE)
  {
    var half, quarter := len / 2, len / 4;
    assert quarter == half / 2 && len / LEAF_SIZE == quarter / 2 / 2;
    assert Log2(len) == 1 + Log2(half) && Log2(half) == 1 + Log2(quarter);
    assert Log2(quarter) == 1 + Log2(quarter / 2) && Log2(quarter / 2) == 1 + Log2(quarter / 2 / 2);
  }

  lemma LengthBound(len: nat)
    requires 1 <= len <= MAX_MERKLE_BYTES
    ensures Log2(len) <= 22
  {
    assert Pow2(11) == 2048;
    Pow2Add(11, 11);
    Log2OfPow2(22);
    Log2Monotone(len, Pow2(22));
  }

  lemma WidthBound(w: nat)
    requires w < FRONTIER_SLOTS
    ensures IsPow2(Pow2(w)) && 1 <= Pow2(w) <= Pow2(FRONTIER_SLOTS - 1)
  {
    Log2OfPow2(w);
    Pow2Monotone(w, FRONTIER_SLOTS - 1);
  }

  lemma WidthIsPow2(byteLen: nat, subtreeLen: nat)
    requires ValidDataLength(byteLen) && ValidDataLength(subtreeLen) && subtreeLen <= byteLen
    ensures byteLen % subtreeLen == 0
    ensures Log2(subtreeLen / LEAF_SIZE) <= Log2(byteLen / LEAF_SIZE)
    ensures byteLen / subtreeLen == Pow2(Log2(byteLen / LEAF_SIZE) - Log2(subtreeLen / LEAF_SIZE))
    ensures IsPow2(byteLen / subtreeLen) && 1 <= byteLen / subtreeLen <= Pow2(FRONTIER_SLOTS - 1)
  {
    Pow2Quotient(byteLen, subtreeLen);
    LeafLog2(byteLen);
    LeafLog2(subtreeLen);
    WidthBound(Log2(byteLen) - Log2(subtreeLen));
  }

  /** The ordered roots of the equal subtrees of a buffer. */
  function SubtreeRoots(bytes: Bytes, subtreeLen: nat): (r: seq<Digest>)
    requires ValidDataLength(|bytes|) && ValidDataLength(subtreeLen) && subtreeLen <= |bytes|
    ensures |r| == |bytes| / subtreeLen
  {
    seq(|bytes| / subtreeLen, i requires 0 <= i < |bytes| / subtreeLen =>
      SliceInside(|bytes|, subtreeLen, i);
      Root(LeafNodes(bytes[i * subtreeLen..i * subtreeLen + subtreeLen])))
  }

  lemma SliceInside(len: nat, part: nat, i: nat)
    requires part >= 1 && i < len / part
    ensures 0 <= i * part && i * part + part <= len
  {
    var q := len / part;
    assert q * part <= len;
    assert (q - i - 1) * part == q * part - i * part - part;
    NonNegative(q - i - 1, part);
    NonNegative(i, part);
  }

  /** Composing a buffer's subtree roots gives the buffer's own commitment, at every width. */
  lemma SubtreesComposeToCommitment(bytes: Bytes, subtreeLen: nat)
    requires ValidDataLength(|bytes|) && ValidDataLength(subtreeLen) && subtreeLen <= |bytes|
    ensures CommitSubtreesSpec(|bytes|, subtreeLen, SubtreeRoots(bytes, subtreeLen)) == CommitSpec(bytes)
  {
    var nodes, k := LeafNodes(bytes), Log2(subtreeLen / LEAF_SIZE);
    var roots := SubtreeRoots(bytes, subtreeLen);
    WidthIsPow2(|bytes|, subtreeLen);
    LeafLog2(subtreeLen);
    RootsAreLevel(bytes, subtreeLen, k);
    LeafCountIsPow2(|bytes|);
    TopOfLevel(nodes, k);
  }

  lemma TopOfLevel(nodes: seq<Digest>, k: nat)
    requires IsPow2(|nodes|) && k <= Log2(|nodes|)
    ensures |Level(nodes, k)| == Pow2(Log2(|nodes|) - k) && Root(Level(nodes, k)) == Root(nodes)
  {
    Pow2OfLog2(|nodes|);
    Pow2Monotone(k, Log2(|nodes|));
    LevelsArePow2(nodes, k);
    Pow2OfLog2(|Level(nodes, k)|);
    RootOfLevel(nodes, k);
  }

  lemma RootsAreLevel(bytes: Bytes, subtreeLen: nat, k: nat)
    requires ValidDataLength(|bytes|) && ValidDataLength(subtreeLen) && subtreeLen <= |bytes|
    requires subtreeLen == LEAF_SIZE * Pow2(k) && k <= Log2(|bytes| / LEAF_SIZE)
    requires |bytes| / subtreeLen == Pow2(Log2(|bytes| / LEAF_SIZE) - k)
    ensures SubtreeRoots(bytes, subtreeLen) == Level(LeafNodes(bytes), k) && Zero !in SubtreeRoots(bytes, subtreeLen)
  {
    var roots := SubtreeRoots(bytes, subtreeLen);
    LeafCountIsPow2(|bytes|);
    TopOfLevel(LeafNodes(bytes), k);
    forall i | 0 <= i < |roots| ensures roots[i] == Level(LeafNodes(bytes), k)[i] && roots[i] != Zero {
      SubtreeIsLevelNode(bytes, subtreeLen, k, i);
    }
  }

  lemma SubtreeIsLevelNode(bytes: Bytes, subtreeLen: nat, k: nat, i: nat)
    requires ValidDataLength(|bytes|) && ValidDataLength(subtreeLen) && subtreeLen <= |bytes|
    requires subtreeLen == LEAF_SIZE * Pow2(k) && i < |bytes| / subtreeLen
    ensures i < |Level(LeafNodes(bytes), k)|
    ensures SubtreeRoots(bytes, subtreeLen)[i] == Level(LeafNodes(bytes), k)[i]
    ensures SubtreeRoots(bytes, subtreeLen)[i] != Zero
  {
    var count := Pow2(k);
    var start := i * count;
    SubtreePlace(|bytes|, subtreeLen, count, i);
    SliceOfLeafNodes(bytes, start, count);
    BlockNode(LeafNodes(bytes), k, i, start, count);
    RootNeverZero(LeafNodes(bytes)[start..start + count]);
  }

  lemma SubtreePlace(len: nat, subtreeLen: nat, count: nat, i: nat)
    requires count >= 1 && subtreeLen == LEAF_SIZE * count && i < len / subtreeLen
    ensures i * subtreeLen == LEAF_SIZE * (i * count) && i * subtreeLen + subtreeLen == LEAF_SIZE * (i * count + count)
    ensures i * subtreeLen + subtreeLen <= len && i * count + count <= len / LEAF_SIZE
  {
    SliceInside(len, subtreeLen, i);
    assert i * subtreeLen == LEAF_SIZE * (i * count);
  }

  /** Composes equal, ordered subtrees with a fixed frontier; invalid input fences reuse. */
  class MerkleSubtreeAccumulator {
    const byteLen: nat
    const width: nat
    var consumed: nat
    const frontier: array<Option<Digest>>
    var failed: bool
    ghost var pushed: seq<Digest>

    ghost predicate Valid()
      reads this, frontier
    {
      && ValidDataLength(byteLen)
      && IsPow2(width) && width <= Pow2(FRONTIER_SLOTS - 1)
      && frontier.Length == FRONTIER_SLOTS
      && consumed == |pushed| <= width
      && Zero !in pushed
      && forall i :: 0 <= i < FRONTIER_SLOTS ==> frontier[i] == FrontierAt(pushed, i)
    }

    constructor (byteLen: nat, subtreeLen: nat)
      requires ValidDataLength(byteLen) && ValidDataLength(subtreeLen) && subtreeLen <= byteLen
      ensures Valid() && fresh(frontier)
      ensures this.byteLen == byteLen && width == byteLen / subtreeLen && pushed == [] && !failed
    {
      this.byteLen := byteLen;
      width := byteLen / subtreeLen;
      consumed := 0;
      frontier := new Option<Digest>[FRONTIER_SLOTS](_ => None);
      failed := false;
      pushed := [];
      new;
      WidthIsPow2(byteLen, subtreeLen);
      forall i | 0 <= i < FRONTIER_SLOTS ensures FrontierAt([], i) == None { EmptyFrontier(i); }
    }

    static method New(byteLen: nat, subtreeLen: nat) returns (r: Result<MerkleSubtreeAccumulator, MerkleError>)
      ensures r.Err? <==> !ValidDataLength(byteLen) || !ValidDataLength(subtreeLen) || subtreeLen > byteLen
      ensures r.Err? ==> r.error == if ValidDataLength(byteLen) && ValidDataLength(subtreeLen) then InvalidProof
                                    else InvalidDataLength
      ensures r.Ok? ==> fresh(r.value) && fresh(r.value.frontier) && r.value.Valid() && !r.value.failed
                        && r.value.pushed == [] && r.value.byteLen == byteLen && r.value.width == byteLen / subtreeLen
    {
      if !ValidDataLength(byteLen) || !ValidDataLength(subtreeLen) { return Err(InvalidDataLength); }
      if subtreeLen > byteLen { return Err(InvalidProof); }
      var a := new MerkleSubtreeAccumulator(byteLen, subtreeLen);
      r := Ok(a);
    }

    method Push(root0: Digest) returns (r: Result<(), MerkleError>)
      requires Valid()
      modifies this, frontier
      ensures Valid()
      ensures r.Ok? <==> !old(failed) && |old(pushed)| < width && root0 != Zero
      ensures r.Ok? ==> pushed == old(pushed) + [root0] && !failed
      ensures r.Err? ==> r.error == InvalidProof && failed && pushed == old(pushed)
    {
      if failed || consumed == width || root0 == Zero {
        failed := true;
        return Err(InvalidProof);
      }
      var root, level, position := root0, 0, consumed;
      ghost var below, target, room := pushed, pushed + [root0], FRONTIER_SLOTS - 1;
      while position % 2 != 0
        invariant 0 <= level < FRONTIER_SLOTS && level + room == FRONTIER_SLOTS - 1 && position < Pow2(room)
        invariant |below| == position && CarriedTo(target, level, below + [root])
        invariant forall i :: 0 <= i < level ==> frontier[i] == None == FrontierAt(target, i)
        invariant HoldsFrom(frontier[..], level, below)
        decreases position
        modifies frontier
      {
        var left := frontier[level];
        ghost var f := frontier[..];
        CarryOn(target, level, below, root);
        assert f[level] == FrontierAt(below, 0);
        HalfBelow(position, room);
        room := room - 1;
        frontier[level] := None;
        HoldsUp(f, frontier[..], level, below);
        root := NodeHash(left.value, root);
        position := position / 2;
        below := PairUp(below);
        level := level + 1;
      }
      forall i | level <= i < FRONTIER_SLOTS
        ensures FrontierAt(target, i) == if i == level then Some(root) else frontier[i]
      {
        FilledAt(target, level, below, root, i);
        assert frontier[..][i] == frontier[i];
      }
      frontier[level] := Some(root);
      consumed := consumed + 1;
      pushed := pushed + [root0];
      r := Ok(());
    }

    method Finish() returns (r: Result<Commitment, MerkleError>)
      requires Valid()
      ensures r == if failed || |pushed| != width then Err(InvalidProof)
                   else Ok(Commitment(SUITE_V1, LEAF_SIZE, byteLen, RootHash(byteLen, Root(pushed))))
    {
      if failed || consumed != width { return Err(InvalidProof); }
      Pow2OfLog2(width);
      FrontierFull(pushed, Log2(width));
      Log2OfPow2(FRONTIER_SLOTS - 1);
      Log2Monotone(width, Pow2(FRONTIER_SLOTS - 1));
      var root := frontier[Log2(width)];
      if root.None? { return Err(InvalidProof); }
      r := Ok(Commitment(SUITE_V1, LEAF_SIZE, byteLen, RootHash(byteLen, root.value)));
    }
  }

  lemma {:induction false} EmptyFrontier(i: nat)
    ensures FrontierAt([], i) == None
  {
    if i > 0 {
      assert PairUp([]) == [];
      EmptyFrontier(i - 1);
    }
  }

  /** The accumulator, run over a list of roots, computes the specification. */
  method CommitSubtrees(byteLen: nat, subtreeLen: nat, roots: seq<Digest>) returns (r: Result<Commitment, MerkleError>)
    ensures r == CommitSubtreesSpec(byteLen, subtreeLen, roots)
  {
    var created := MerkleSubtreeAccumulator.New(byteLen, subtreeLen);
    if created.Err? { return Err(created.error); }
    var builder := created.value;
    WidthIsPow2(byteLen, subtreeLen);
    for k := 0 to |roots|
      invariant builder.Valid() && !builder.failed && builder.pushed == roots[..k]
      invariant fresh(builder) && fresh(builder.frontier)
    {
      var pushed := builder.Push(roots[k]);
      if pushed.Err? { return Err(pushed.error); }
    }
    assert roots[..|roots|] == roots;
    r := builder.Finish();
  }
}
