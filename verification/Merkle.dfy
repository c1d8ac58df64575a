/**
 The version-one Merkle suite: commitments over 16-byte leaves, openings of aligned
 power-of-two ranges and subtrees, virtual-zero shortcuts and the subtree accumulator.
 Hashes are ideal: a digest is the term that was hashed, so distinct inputs and distinct
 hash domains give distinct digests and no hash output is the all-zero sentinel.
 */
module Merkle {
  import opened Base

  const LEAF_SIZE: nat := 16
  const SUITE_V1: nat := 1
  const MAX_MERKLE_BYTES: nat := 4 * 1024 * 1024
  /** One more than log2(MAX_MERKLE_BYTES / LEAF_SIZE). */
  const FRONTIER_SLOTS: nat := 19

  /** A 32-byte value: the zero sentinel, a value that is no hash output, or a hash. */
  datatype Digest =
    | Zero
    | Raw(value: nat)
    | LeafHash(leaf: Bytes)
    | NodeHash(left: Digest, right: Digest)
    | RootHash(byteLen: nat, tree: Digest)
    | FlatHash(bytes: Bytes)

  type Leaf = b: Bytes | |b| == LEAF_SIZE witness Zeros(LEAF_SIZE)

  datatype MerkleError = InvalidDataLength | InvalidRange | InvalidProof | RootMismatch

  datatype Commitment = Commitment(formatVersion: nat, leafSize: nat, byteLen: nat, root: Digest)

  datatype RangeProof = RangeProof(formatVersion: nat, startLeaf: nat, leaves: seq<Leaf>, siblings: seq<Digest>)

  datatype SubtreeProof = SubtreeProof(formatVersion: nat, startLeaf: nat, leafCount: nat,
                                       subtreeRoot: Digest, siblings: seq<Digest>)

  // ---------------------------------------------------------------- powers of two

  function Pow2(n: nat): (r: nat)
    ensures r >= 1
  {
    if n == 0 then 1 else 2 * Pow2(n - 1)
  }

  predicate IsPow2(n: nat) {
    n == 1 || (n >= 2 && n % 2 == 0 && IsPow2(n / 2))
  }

  /** A power of two; it stays folded until `IsPow2` of the number is asked for. */
  predicate PowerOfTwo(n: nat) {
    forall k: nat :: k == n ==> IsPow2(k)
  }

  /** The position of the highest set bit. */
  function Log2(n: nat): nat
    requires n >= 1
  {
    if n == 1 then 0 else 1 + Log2(n / 2)
  }

  lemma {:induction false} Pow2OfLog2(n: nat)
    requires IsPow2(n)
    ensures n == Pow2(Log2(n))
  {
    if n > 1 { Pow2OfLog2(n / 2); }
  }

  lemma {:induction false} Log2OfPow2(k: nat)
    ensures IsPow2(Pow2(k)) && Log2(Pow2(k)) == k
  {
    if k > 0 { Log2OfPow2(k - 1); }
  }

  lemma {:induction false} Pow2Monotone(a: nat, b: nat)
    requires a <= b
    ensures Pow2(a) <= Pow2(b)
  {
    if a < b { Pow2Monotone(a, b - 1); }
  }

  lemma {:induction false} Pow2Add(a: nat, b: nat)
    ensures Pow2(a + b) == Pow2(a) * Pow2(b)
  {
    if a > 0 { Pow2Add(a - 1, b); }
  }

  lemma SmallMultipleIsZero(k: int, d: nat)
    requires -(d as int) < k * d < d
    ensures k == 0
  {
  }

  lemma PositiveFactor(k: int, d: nat)
    requires k * d >= 1
    ensures k >= 1
  {
  }

  lemma NonNegative(k: nat, d: nat)
    ensures k * d >= 0
  {
  }

  /** Quotient and remainder are determined by `n == q * d + r` with `r < d`. */
  lemma DivUnique(n: nat, d: nat, q: nat, r: nat)
    requires d >= 1 && n == q * d + r && r < d
    ensures n / d == q && n % d == r
  {
    var q', r' := n / d, n % d;
    assert (q - q') * d == q * d - q' * d == r' - r;
    SmallMultipleIsZero(q - q', d);
  }

  /** Dividing powers of two subtracts exponents; a power of two divides every larger one. */
  lemma Pow2Quotient(total: nat, count: nat)
    requires IsPow2(total) && IsPow2(count) && count <= total
    ensures Log2(count) <= Log2(total)
    ensures total % count == 0 && total / count == Pow2(Log2(total) - Log2(count))
  {
    Pow2OfLog2(total);
    Pow2OfLog2(count);
    Log2Monotone(count, total);
    Pow2Add(Log2(count), Log2(total) - Log2(count));
    MulDiv(count, Pow2(Log2(total) - Log2(count)));
  }

  lemma {:induction false} Log2Monotone(a: nat, b: nat)
    requires 1 <= a <= b
    ensures Log2(a) <= Log2(b)
  {
    if a > 1 { Log2Monotone(a / 2, b / 2); }
  }

  lemma MulDiv(c: nat, q: nat)
    requires c >= 1
    ensures (c * q) / c == q && (c * q) % c == 0
  {
    DivUnique(c * q, c, q, 0);
  }

  // ---------------------------------------------------------------- the tree

  /** The next level up; like `as_chunks::<2>`, an odd last node is dropped. */
  function PairUp(nodes: seq<Digest>): (r: seq<Digest>)
    ensures |r| == |nodes| / 2
    ensures forall i :: 0 <= i < |r| ==> r[i] == NodeHash(nodes[2 * i], nodes[2 * i + 1])
  {
    seq(|nodes| / 2, i requires 0 <= i < |nodes| / 2 => NodeHash(nodes[2 * i], nodes[2 * i + 1]))
  }

  /** `k` levels above `nodes`. */
  function Level(nodes: seq<Digest>, k: nat): seq<Digest>
    decreases k
  {
    if k == 0 then nodes else Level(PairUp(nodes), k - 1)
  }

  /** The single node that remains when levels are paired up to the top. */
  function Root(nodes: seq<Digest>): Digest
    requires |nodes| >= 1
    decreases |nodes|
  {
    if |nodes| == 1 then nodes[0] else Root(PairUp(nodes))
  }

  /** The textbook tree: split in the middle, hash the two halves. */
  function TreeRoot(nodes: seq<Digest>, h: nat): Digest
    requires |nodes| == Pow2(h)
  {
    if h == 0 then nodes[0]
    else NodeHash(TreeRoot(nodes[..Pow2(h - 1)], h - 1), TreeRoot(nodes[Pow2(h - 1)..], h - 1))
  }

  /** The sibling at every level on the way from node `i` to the top. */
  function Siblings(nodes: seq<Digest>, i: nat): seq<Digest>
    requires i < |nodes| && IsPow2(|nodes|)
    decreases |nodes|
  {
    if |nodes| == 1 then []
    else [nodes[if i % 2 == 0 then i + 1 else i - 1]] + Siblings(PairUp(nodes), i / 2)
  }

  /** Fold a node with its siblings toward the top. */
  function Climb(current: Digest, i: nat, siblings: seq<Digest>): Digest
    decreases |siblings|
  {
    if siblings == [] then current
    else Climb(if i % 2 == 0 then NodeHash(current, siblings[0]) else NodeHash(siblings[0], current),
               i / 2, siblings[1..])
  }

  function LeafAt(bytes: Bytes, i: nat): Leaf
    requires LEAF_SIZE * i + LEAF_SIZE <= |bytes|
  {
    bytes[LEAF_SIZE * i..LEAF_SIZE * i + LEAF_SIZE]
  }

  function Leaves(bytes: Bytes): (r: seq<Leaf>)
    ensures |r| == |bytes| / LEAF_SIZE
  {
    seq(|bytes| / LEAF_SIZE, i requires 0 <= i < |bytes| / LEAF_SIZE => LeafAt(bytes, i))
  }

  function HashLeaves(leaves: seq<Leaf>): (r: seq<Digest>)
    ensures |r| == |leaves|
  {
    seq(|leaves|, i requires 0 <= i < |leaves| => LeafHash(leaves[i]))
  }

  /** The hashed leaf level of a buffer. */
  function LeafNodes(bytes: Bytes): (r: seq<Digest>)
    ensures |r| == |bytes| / LEAF_SIZE
  {
    HashLeaves(Leaves(bytes))
  }

  function Flatten(leaves: seq<Leaf>): (r: Bytes)
    ensures |r| == LEAF_SIZE * |leaves|
  {
    if leaves == [] then [] else leaves[0] + Flatten(leaves[1..])
  }

  lemma {:induction false} FlattenAt(leaves: seq<Leaf>, i: nat)
    requires i < |leaves|
    ensures LeafAt(Flatten(leaves), i) == leaves[i]
  {
    if i > 0 {
      FlattenAt(leaves[1..], i - 1);
      var rest := Flatten(leaves[1..]);
      assert LeafAt(Flatten(leaves), i) == LeafAt(rest, i - 1);
    }
  }

  /** Cutting whole leaves out of a buffer and joining them gives the bytes back. */
  lemma {:induction false} FlattenSlice(bytes: Bytes, a: nat, b: nat)
    requires |bytes| % LEAF_SIZE == 0
    requires a <= b <= |bytes| / LEAF_SIZE
    ensures Flatten(Leaves(bytes)[a..b]) == bytes[LEAF_SIZE * a..LEAF_SIZE * b]
    decreases b - a
  {
    if a < b {
      var s := Leaves(bytes)[a..b];
      FlattenSlice(bytes, a + 1, b);
      assert s[1..] == Leaves(bytes)[a + 1..b];
      assert s[0] == LeafAt(bytes, a);
    }
  }

  // ---------------------------------------------------------------- facts about the tree

  lemma {:induction false} PairUpSlice(nodes: seq<Digest>, a: nat, b: nat)
    requires a <= b && 2 * b <= |nodes|
    ensures PairUp(nodes[2 * a..2 * b]) == PairUp(nodes)[a..b]
  {
  }

  lemma {:induction false} LevelLength(nodes: seq<Digest>, k: nat)
    ensures |Level(nodes, k)| == |nodes| / Pow2(k)
    decreases k
  {
    if k > 0 {
      LevelLength(PairUp(nodes), k - 1);
      DivDiv(|nodes|, Pow2(k - 1));
    }
  }

  lemma DivDiv(n: nat, p: nat)
    requires p >= 1
    ensures (n / 2) / p == n / (2 * p)
  {
    var q := (n / 2) / p;
    assert n / 2 == q * p + (n / 2) % p;
    var r := 2 * ((n / 2) % p) + n % 2;
    assert n == q * (2 * p) + r;
    DivUnique(n, 2 * p, q, r);
  }

  lemma {:induction false} LevelStep(nodes: seq<Digest>, k: nat)
    ensures Level(nodes, k + 1) == PairUp(Level(nodes, k))
    decreases k
  {
    if k > 0 { LevelStep(PairUp(nodes), k - 1); }
  }

  /** A node `k` levels up is the root of the block of 2^k nodes below it. */
  lemma {:induction false} LevelIsBlockRoot(nodes: seq<Digest>, k: nat, i: nat)
    requires i * Pow2(k) + Pow2(k) <= |nodes|
    ensures i < |Level(nodes, k)|
    ensures Level(nodes, k)[i] == Root(nodes[i * Pow2(k)..i * Pow2(k) + Pow2(k)])
    decreases k
  {
    if k == 0 {
      assert nodes[i..i + 1] == [nodes[i]];
    } else {
      var p := Pow2(k - 1);
      var a := i * p;
      assert i * Pow2(k) == 2 * a;
      LevelIsBlockRoot(PairUp(nodes), k - 1, i);
      PairUpSlice(nodes, a, a + p);
    }
  }

  /** Pairing up to the top does not depend on how many levels were paired first. */
  lemma {:induction false} RootOfLevel(nodes: seq<Digest>, k: nat)
    requires |nodes| >= 1 && Pow2(k) <= |nodes|
    ensures |Level(nodes, k)| >= 1 && Root(Level(nodes, k)) == Root(nodes)
    decreases k
  {
    if k > 0 {
      RootOfLevel(PairUp(nodes), k - 1);
    }
  }

  /** The level-by-level tree is the textbook recursive tree. */
  lemma {:induction false} LevelByLevelIsRecursive(nodes: seq<Digest>, h: nat)
    requires |nodes| == Pow2(h)
    ensures Root(nodes) == TreeRoot(nodes, h)
  {
    if h > 0 {
      var m := Pow2(h - 1);
      LevelIsBlockRoot(nodes, h - 1, 0);
      LevelIsBlockRoot(nodes, h - 1, 1);
      RootOfLevel(nodes, h - 1);
      LevelLength(nodes, h - 1);
      MulDiv(m, 2);
      var top := Level(nodes, h - 1);
      assert |top| == 2 && Root(top) == NodeHash(top[0], top[1]);
      assert nodes[0..m] == nodes[..m] && nodes[m..m + m] == nodes[m..];
      LevelByLevelIsRecursive(nodes[..m], h - 1);
      LevelByLevelIsRecursive(nodes[m..], h - 1);
    }
  }

  /** Ideal hashing makes a root bind every node of a level of known size. */
  lemma {:induction false} RootInjective(a: seq<Digest>, b: seq<Digest>)
    requires |a| == |b| && IsPow2(|a|)
    requires Root(a) == Root(b)
    ensures a == b
    decreases |a|
  {
    if |a| > 1 {
      RootInjective(PairUp(a), PairUp(b));
      forall i | 0 <= i < |a| ensures a[i] == b[i] {
        assert PairUp(a)[i / 2] == PairUp(b)[i / 2];
      }
    }
  }

  lemma SplitFirst(s: seq<Digest>, first: Digest, rest: seq<Digest>)
    requires s != []
    ensures s == [first] + rest <==> s[0] == first && s[1..] == rest
  {
    assert s == [s[0]] + s[1..];
    assert ([first] + rest)[1..] == rest;
  }

  /** A climb reaches the root from exactly the right node with exactly its siblings. */
  lemma {:induction false} ClimbReachesRootIff(nodes: seq<Digest>, i: nat, current: Digest, siblings: seq<Digest>)
    requires IsPow2(|nodes|) && |nodes| == Pow2(|siblings|) && i < |nodes|
    ensures Climb(current, i, siblings) == Root(nodes) <==> current == nodes[i] && siblings == Siblings(nodes, i)
    decreases |siblings|
  {
    if siblings != [] {
      var up := PairUp(nodes);
      var other := if i % 2 == 0 then i + 1 else i - 1;
      var parent := if i % 2 == 0 then NodeHash(current, siblings[0]) else NodeHash(siblings[0], current);
      ClimbReachesRootIff(up, i / 2, parent, siblings[1..]);
      assert parent == up[i / 2] <==> current == nodes[i] && siblings[0] == nodes[other];
      SplitFirst(siblings, nodes[other], Siblings(up, i / 2));
    }
  }

  lemma {:induction false} SiblingsLength(nodes: seq<Digest>, i: nat)
    requires i < |nodes| && IsPow2(|nodes|)
    ensures |Siblings(nodes, i)| == Log2(|nodes|)
    decreases |nodes|
  {
    if |nodes| > 1 { SiblingsLength(PairUp(nodes), i / 2); }
  }

  lemma LeafNodesInjective(a: Bytes, b: Bytes)
    requires |a| == |b| && |a| % LEAF_SIZE == 0
    requires LeafNodes(a) == LeafNodes(b)
    ensures a == b
  {
    forall i | 0 <= i < |a| ensures a[i] == b[i] {
      var k := i / LEAF_SIZE;
      assert LeafNodes(a)[k] == LeafHash(LeafAt(a, k)) && LeafNodes(b)[k] == LeafHash(LeafAt(b, k));
      assert LeafAt(a, k)[i - LEAF_SIZE * k] == LeafAt(b, k)[i - LEAF_SIZE * k];
    }
  }

  // ---------------------------------------------------------------- validation

  predicate ValidDataLength(len: nat) {
    LEAF_SIZE <= len <= MAX_MERKLE_BYTES && PowerOfTwo(len) && len % LEAF_SIZE == 0
  }

  predicate ValidCommitment(c: Commitment) {
    c.formatVersion == SUITE_V1 && c.leafSize == LEAF_SIZE && c.root != Zero && ValidDataLength(c.byteLen)
  }

  /** A non-empty, aligned, power-of-two run of leaves inside the tree. */
  predicate ValidRange(start: nat, count: nat, total: nat) {
    count > 0 && PowerOfTwo(count) && start % count == 0 && start + count <= total
  }

  lemma LeafCountIsPow2(len: nat)
    requires ValidDataLength(len)
    ensures IsPow2(len / LEAF_SIZE)
  {
    assert IsPow2(16) && IsPow2(len);
    Pow2Quotient(len, LEAF_SIZE);
    Log2OfPow2(Log2(len) - Log2(LEAF_SIZE));
  }

  lemma BigPow2IsLeafMultiple(n: nat)
    requires IsPow2(n) && n >= LEAF_SIZE
    ensures n % LEAF_SIZE == 0
  {
    assert IsPow2(16);
    Pow2Quotient(n, LEAF_SIZE);
  }

  lemma SizeIsDataLength(n: nat)
    requires LEAF_SIZE <= n <= MAX_MERKLE_BYTES && PowerOfTwo(n)
    ensures ValidDataLength(n)
  {
    assert IsPow2(n);
    BigPow2IsLeafMultiple(n);
  }

  /** In a valid range the range's node sits on a power-of-two level above the leaves. */
  lemma RangeGeometry(start: nat, count: nat, total: nat)
    requires IsPow2(total) && ValidRange(start, count, total)
    ensures Log2(count) <= Log2(total) && count == Pow2(Log2(count))
    ensures start == (start / count) * count
    ensures start / count < total / count == Pow2(Log2(total) - Log2(count))
    ensures IsPow2(total / count) && Log2(total / count) == Log2(total) - Log2(count)
  {
    assert IsPow2(count);
    Pow2OfLog2(count);
    Pow2Quotient(total, count);
    Log2OfPow2(Log2(total) - Log2(count));
    QuotientLess(start, count, total);
  }

  lemma QuotientLess(start: nat, count: nat, total: nat)
    requires count >= 1 && start % count == 0 && total % count == 0 && start + count <= total
    ensures start == (start / count) * count && start / count < total / count
  {
    var i, q := start / count, total / count;
    assert (q - i) * count == total - start;
    PositiveFactor(q - i, count);
  }

  // ---------------------------------------------------------------- specification

  function CommitSpec(bytes: Bytes): Result<Commitment, MerkleError> {
    if !ValidDataLength(|bytes|) then Err(InvalidDataLength)
    else Ok(Commitment(SUITE_V1, LEAF_SIZE, |bytes|, RootHash(|bytes|, Root(LeafNodes(bytes)))))
  }

  /** The level of a run's node, and the node's index there. */
  lemma RunPlace(nodes: seq<Digest>, start: nat, count: nat)
    requires IsPow2(|nodes|) && ValidRange(start, count, |nodes|)
    ensures Log2(count) <= Log2(|nodes|) && start / count < |Level(nodes, Log2(count))|
    ensures |Level(nodes, Log2(count))| == Pow2(Log2(|nodes|) - Log2(count)) && IsPow2(|Level(nodes, Log2(count))|)
    ensures Log2(|Level(nodes, Log2(count))|) == Log2(|nodes|) - Log2(count)
  {
    RangeGeometry(start, count, |nodes|);
    LevelLength(nodes, Log2(count));
  }

  /** The node above a run of leaves. */
  function RunNode(nodes: seq<Digest>, start: nat, count: nat): Digest
    requires IsPow2(|nodes|) && ValidRange(start, count, |nodes|)
  {
    RunPlace(nodes, start, count);
    Level(nodes, Log2(count))[start / count]
  }

  /** The siblings on the way from a run's node to the top. */
  function RunSiblings(nodes: seq<Digest>, start: nat, count: nat): seq<Digest>
    requires IsPow2(|nodes|) && ValidRange(start, count, |nodes|)
  {
    RunPlace(nodes, start, count);
    Siblings(Level(nodes, Log2(count)), start / count)
  }

  function OpenSubtreeSpec(bytes: Bytes, start: nat, count: nat): Result<SubtreeProof, MerkleError> {
    if !ValidDataLength(|bytes|) then Err(InvalidDataLength)
    else if !ValidRange(start, count, |bytes| / LEAF_SIZE) then Err(InvalidRange)
    else
      LeafCountIsPow2(|bytes|);
      var nodes := LeafNodes(bytes);
      Ok(SubtreeProof(SUITE_V1, start, count, RunNode(nodes, start, count), RunSiblings(nodes, start, count)))
  }

  function OpenRangeSpec(bytes: Bytes, start: nat, count: nat): Result<RangeProof, MerkleError> {
    match OpenSubtreeSpec(bytes, start, count)
    case Err(e) => Err(e)
    case Ok(p) => Ok(RangeProof(SUITE_V1, start, Leaves(bytes)[start..start + count], p.siblings))
  }

  /** Why a climb from `node` over `siblings` does or does not open the commitment. */
  function OpensSpec(c: Commitment, start: nat, count: nat, node: Digest,
                     siblings: seq<Digest>): Result<(), MerkleError>
    requires ValidCommitment(c) && ValidRange(start, count, c.byteLen / LEAF_SIZE)
  {
    if |siblings| != Log2(c.byteLen / LEAF_SIZE) - Log2(count) then Err(InvalidProof)
    else if RootHash(c.byteLen, Climb(node, start / count, siblings)) != c.root then Err(RootMismatch)
    else Ok(())
  }

  function VerifySubtreeSpec(c: Commitment, p: SubtreeProof): Result<Digest, MerkleError> {
    if !(c.formatVersion == SUITE_V1 && c.leafSize == LEAF_SIZE && c.root != Zero) then Err(InvalidProof)
    else if !ValidDataLength(c.byteLen) then Err(InvalidDataLength)
    else if p.formatVersion != SUITE_V1 || !ValidRange(p.startLeaf, p.leafCount, c.byteLen / LEAF_SIZE)
            || p.subtreeRoot == Zero then Err(InvalidProof)
    else match OpensSpec(c, p.startLeaf, p.leafCount, p.subtreeRoot, p.siblings)
      case Err(e) => Err(e)
      case Ok(_) => Ok(p.subtreeRoot)
  }

  function VerifyRangeSpec(c: Commitment, p: RangeProof): Result<Bytes, MerkleError> {
    if !(c.formatVersion == SUITE_V1 && c.leafSize == LEAF_SIZE && c.root != Zero) then Err(InvalidProof)
    else if !ValidDataLength(c.byteLen) then Err(InvalidDataLength)
    else if p.formatVersion != SUITE_V1 || !ValidRange(p.startLeaf, |p.leaves|, c.byteLen / LEAF_SIZE) then
      Err(InvalidProof)
    else match OpensSpec(c, p.startLeaf, |p.leaves|, Root(HashLeaves(p.leaves)), p.siblings)
      case Err(e) => Err(e)
      case Ok(_) => Ok(Flatten(p.leaves))
  }

  // ---------------------------------------------------------------- completeness and binding

  /** A commitment determines the committed bytes. */
  lemma CommitInjective(a: Bytes, b: Bytes)
    requires CommitSpec(a).Ok? && CommitSpec(a) == CommitSpec(b)
    ensures a == b
  {
    LeafCountIsPow2(|a|);
    RootInjective(LeafNodes(a), LeafNodes(b));
    LeafNodesInjective(a, b);
  }

  /** Only the true node of a run, with its true siblings, climbs to the root. */
  lemma NodeOpensIff(nodes: seq<Digest>, start: nat, count: nat, node: Digest, siblings: seq<Digest>)
    requires IsPow2(|nodes|) && ValidRange(start, count, |nodes|)
    ensures Log2(count) <= Log2(|nodes|)
    ensures |siblings| == Log2(|nodes|) - Log2(count) && Climb(node, start / count, siblings) == Root(nodes) <==>
            node == RunNode(nodes, start, count) && siblings == RunSiblings(nodes, start, count)
  {
    RunPlace(nodes, start, count);
    LevelOpensIff(nodes, Log2(count), start / count, node, siblings);
  }

  lemma LevelOpensIff(nodes: seq<Digest>, k: nat, i: nat, node: Digest, siblings: seq<Digest>)
    requires IsPow2(|nodes|) && k <= Log2(|nodes|)
    requires |Level(nodes, k)| == Pow2(Log2(|nodes|) - k) && IsPow2(|Level(nodes, k)|) && i < |Level(nodes, k)|
    requires Log2(|Level(nodes, k)|) == Log2(|nodes|) - k
    ensures |siblings| == Log2(|nodes|) - k && Climb(node, i, siblings) == Root(nodes) <==>
            node == Level(nodes, k)[i] && siblings == Siblings(Level(nodes, k), i)
  {
    Pow2OfLog2(|nodes|);
    Pow2Monotone(k, Log2(|nodes|));
    RootOfLevel(nodes, k);
    SiblingsLength(Level(nodes, k), i);
    if |siblings| == Log2(|nodes|) - k { ClimbReachesRootIff(Level(nodes, k), i, node, siblings); }
  }

  /** Against an honest commitment exactly the true node with the true siblings opens. */
  lemma OpensIff(bytes: Bytes, start: nat, count: nat, node: Digest, siblings: seq<Digest>)
    requires ValidDataLength(|bytes|) && ValidRange(start, count, |bytes| / LEAF_SIZE)
    ensures OpensSpec(CommitSpec(bytes).value, start, count, node, siblings).Ok? <==>
            node == OpenSubtreeSpec(bytes, start, count).value.subtreeRoot
            && siblings == OpenSubtreeSpec(bytes, start, count).value.siblings
  {
    LeafCountIsPow2(|bytes|);
    NodeOpensIff(LeafNodes(bytes), start, count, node, siblings);
  }

  lemma BlockNode(nodes: seq<Digest>, k: nat, i: nat, start: nat, count: nat)
    requires count == Pow2(k) && start == i * count && start + count <= |nodes|
    ensures i < |Level(nodes, k)| && Level(nodes, k)[i] == Root(nodes[start..start + count])
  {
    LevelIsBlockRoot(nodes, k, i);
  }

  lemma RunNodeIsRoot(nodes: seq<Digest>, start: nat, count: nat)
    requires IsPow2(|nodes|) && ValidRange(start, count, |nodes|)
    ensures RunNode(nodes, start, count) == Root(nodes[start..start + count])
  {
    RangeGeometry(start, count, |nodes|);
    BlockNode(nodes, Log2(count), start / count, start, count);
  }

  /** The node opened by a subtree proof is the root of the bytes below it. */
  lemma SubtreeRootIsRootOfSlice(bytes: Bytes, start: nat, count: nat)
    requires ValidDataLength(|bytes|) && ValidRange(start, count, |bytes| / LEAF_SIZE)
    ensures OpenSubtreeSpec(bytes, start, count).value.subtreeRoot
         == Root(LeafNodes(bytes[LEAF_SIZE * start..LEAF_SIZE * (start + count)]))
  {
    LeafCountIsPow2(|bytes|);
    RunNodeIsRoot(LeafNodes(bytes), start, count);
    SliceOfLeafNodes(bytes, start, count);
  }

  lemma SliceOfSlice(bytes: Bytes, a: nat, b: nat, c: nat, d: nat)
    requires a <= b <= |bytes| && c <= d <= b - a
    ensures bytes[a..b][c..d] == bytes[a + c..a + d]
  {
    var x, y := bytes[a..b][c..d], bytes[a + c..a + d];
    forall i | 0 <= i < d - c ensures x[i] == y[i] { assert x[i] == bytes[a..b][c + i] == bytes[a + c + i]; }
  }

  lemma SliceOfLeafNodes(bytes: Bytes, start: nat, count: nat)
    requires start + count <= |bytes| / LEAF_SIZE
    ensures LeafNodes(bytes)[start..start + count] == LeafNodes(bytes[LEAF_SIZE * start..LEAF_SIZE * (start + count)])
  {
    var a, b := LEAF_SIZE * start, LEAF_SIZE * (start + count);
    var part := bytes[a..b];
    assert |LeafNodes(part)| == count;
    forall i | 0 <= i < count ensures LeafNodes(bytes)[start + i] == LeafNodes(part)[i] {
      SliceOfSlice(bytes, a, b, LEAF_SIZE * i, LEAF_SIZE * i + LEAF_SIZE);
      assert LeafAt(part, i) == LeafAt(bytes, start + i);
    }
  }

  lemma HashedSlice(bytes: Bytes, start: nat, count: nat)
    requires start + count <= |bytes| / LEAF_SIZE
    ensures HashLeaves(Leaves(bytes)[start..start + count]) == LeafNodes(bytes)[start..start + count]
  {
  }

  /** Completeness: every opening verifies and returns exactly the opened bytes. */
  lemma RangeCompleteness(bytes: Bytes, start: nat, count: nat)
    requires ValidDataLength(|bytes|) && ValidRange(start, count, |bytes| / LEAF_SIZE)
    ensures OpenRangeSpec(bytes, start, count).Ok?
    ensures VerifyRangeSpec(CommitSpec(bytes).value, OpenRangeSpec(bytes, start, count).value)
         == Ok(bytes[LEAF_SIZE * start..LEAF_SIZE * (start + count)])
  {
    var p := OpenRangeSpec(bytes, start, count).value;
    SubtreeRootIsRootOfSlice(bytes, start, count);
    SliceOfLeafNodes(bytes, start, count);
    HashedSlice(bytes, start, count);
    OpensIff(bytes, start, count, Root(HashLeaves(p.leaves)), p.siblings);
    FlattenSlice(bytes, start, start + count);
  }

  /** Binding: a proof accepted against an honest commitment carries the committed bytes. */
  lemma RangeBinding(bytes: Bytes, p: RangeProof)
    requires ValidDataLength(|bytes|)
    requires VerifyRangeSpec(CommitSpec(bytes).value, p).Ok?
    ensures p == OpenRangeSpec(bytes, p.startLeaf, |p.leaves|).value
    ensures VerifyRangeSpec(CommitSpec(bytes).value, p).value
         == bytes[LEAF_SIZE * p.startLeaf..LEAF_SIZE * (p.startLeaf + |p.leaves|)]
  {
    var start, count := p.startLeaf, |p.leaves|;
    var slice := Leaves(bytes)[start..start + count];
    OpensIff(bytes, start, count, Root(HashLeaves(p.leaves)), p.siblings);
    SubtreeRootIsRootOfSlice(bytes, start, count);
    SliceOfLeafNodes(bytes, start, count);
    HashedSlice(bytes, start, count);
    RootInjective(HashLeaves(p.leaves), HashLeaves(slice));
    forall i | 0 <= i < count ensures p.leaves[i] == slice[i] {
      assert HashLeaves(p.leaves)[i] == HashLeaves(slice)[i];
    }
    assert p.leaves == slice;
    FlattenSlice(bytes, start, start + count);
  }

  /** Subtree proofs: the accepted ones are exactly the honest openings. */
  lemma SubtreeAcceptedIff(bytes: Bytes, p: SubtreeProof)
    requires ValidDataLength(|bytes|)
    ensures VerifySubtreeSpec(CommitSpec(bytes).value, p).Ok? <==>
            OpenSubtreeSpec(bytes, p.startLeaf, p.leafCount) == Ok(p)
  {
    if ValidRange(p.startLeaf, p.leafCount, |bytes| / LEAF_SIZE) {
      OpensIff(bytes, p.startLeaf, p.leafCount, p.subtreeRoot, p.siblings);
      SubtreeRootIsRootOfSlice(bytes, p.startLeaf, p.leafCount);
      var part := bytes[LEAF_SIZE * p.startLeaf..LEAF_SIZE * (p.startLeaf + p.leafCount)];
      RootNeverZero(LeafNodes(part));
    }
  }

  ghost predicate Hashed(nodes: seq<Digest>) {
    forall i :: 0 <= i < |nodes| ==> nodes[i] != Zero
  }

  lemma {:induction false} RootNeverZero(nodes: seq<Digest>)
    requires |nodes| >= 1 && Hashed(nodes)
    ensures Root(nodes) != Zero
    decreases |nodes|
  {
    if |nodes| > 1 { RootNeverZero(PairUp(nodes)); }
  }
}
