/**
 What a valid checkpoint means: its revisions form one gap-free hash chain per protected root,
 two checkpoints never hold forked chains below a common revision, and in format 3 every
 retained sector survives the loss of any two failure domains.
 */
module CheckpointMeaning {
  import opened Base
  import opened Sectors
  import opened Coding
  import opened Checkpoint
  import opened CheckpointChains
  import opened CheckpointValidation

  // ---------------------------------------------------------------- revision chains

  /** The retained revisions of one chain, in the order listed. */
  function Retained(revisions: seq<Signed<Revision>>, g: Chain): seq<Revision> {
    if revisions == [] then []
    else
      var front, last := revisions[..|revisions| - 1], revisions[|revisions| - 1].value;
      Retained(front, g) + if ChainOf(last) == g then [last] else []
  }

  /** The number the first retained revision of a chain must have, and its parent. */
  ghost function FirstOf(c: Checkpoint, g: Chain): (nat, Option<nat>) {
    if exists t :: t in c.tombstones && GraveOf(t) == g then
      var t :| t in c.tombstones && GraveOf(t) == g;
      (t.throughSequence + 1, Some(t.lastRevisionHash))
    else (1, None)
  }

  lemma {:induction false} TombstonesAscend(c: Checkpoint, i: nat, j: nat)
    requires TombstonesOk(c) && i < j < |c.tombstones|
    ensures ChainBefore(GraveOf(c.tombstones[i]), GraveOf(c.tombstones[j]))
  {
    assert TombstoneOk(c, j);
    if i < j - 1 { TombstonesAscend(c, i, j - 1); }
  }

  lemma OneTombstone(c: Checkpoint, s: Tombstone, t: Tombstone)
    requires TombstonesOk(c) && s in c.tombstones && t in c.tombstones && GraveOf(s) == GraveOf(t)
    ensures s == t
  {
    var i :| 0 <= i < |c.tombstones| && c.tombstones[i] == s;
    var j :| 0 <= j < |c.tombstones| && c.tombstones[j] == t;
    if i < j { TombstonesAscend(c, i, j); } else if j < i { TombstonesAscend(c, j, i); }
  }

  lemma StartIsFirst(c: Checkpoint, r: Revision)
    requires TombstonesOk(c) && StartsChain(c, r)
    ensures (r.sequence, r.parent) == FirstOf(c, ChainOf(r))
  {
    if exists t :: t in c.tombstones && GraveOf(t) == ChainOf(r) {
      var t :| t in c.tombstones && GraveOf(t) == ChainOf(r);
      forall s | s in c.tombstones && GraveOf(s) == ChainOf(r) ensures s == t { OneTombstone(c, s, t); }
    }
  }

  /** One revision's place in its chain: its number, its parent, its fenced writer epoch. */
  ghost predicate LinkAt(h: Hashes, c: Checkpoint, g: Chain, r: seq<Revision>, k: nat)
    requires k < |r|
  {
    && ChainOf(r[k]) == g && Fenced(c, r[k]) && r[k].sequence == FirstOf(c, g).0 + k
    && r[k].parent == (if k == 0 then FirstOf(c, g).1 else Some(h.revision(r[k - 1])))
    && (k > 0 ==> r[k - 1].writerEpoch <= r[k].writerEpoch)
  }

  /** A gap-free hash chain with fenced, non-decreasing writer epochs. */
  ghost predicate HashChain(h: Hashes, c: Checkpoint, g: Chain, r: seq<Revision>) {
    forall k: nat :: k < |r| ==> LinkAt(h, c, g, r, k)
  }

  lemma ExtendChain(h: Hashes, c: Checkpoint, g: Chain, r: seq<Revision>, x: Revision)
    requires HashChain(h, c, g, r) && ChainOf(x) == g && Fenced(c, x)
    requires if r == [] then (x.sequence, x.parent) == FirstOf(c, g) else Follows(h, x, r[|r| - 1])
    ensures HashChain(h, c, g, r + [x])
  {
    var more := r + [x];
    forall k: nat | k < |more| ensures LinkAt(h, c, g, more, k) {
      if k < |r| { assert LinkAt(h, c, g, r, k); } else if r != [] { assert LinkAt(h, c, g, r, |r| - 1); }
    }
  }

  lemma {:induction false} NoneRetained(revisions: seq<Signed<Revision>>, g: Chain)
    requires forall k :: 0 <= k < |revisions| ==> ChainOf(revisions[k].value) != g
    ensures Retained(revisions, g) == []
  {
    if revisions != [] { NoneRetained(revisions[..|revisions| - 1], g); }
  }

  lemma NewChain(revisions: seq<Signed<Revision>>, n: nat)
    requires n < |revisions| && Ordered(revisions)
    requires n > 0 ==> ChainOf(revisions[n - 1].value) != ChainOf(revisions[n].value)
    ensures Retained(revisions[..n], ChainOf(revisions[n].value)) == []
  {
    var front, g := revisions[..n], ChainOf(revisions[n].value);
    forall k | 0 <= k < n ensures ChainOf(front[k].value) != g {
      if ChainOf(front[k].value) == g && k < n - 1 { ChainIsContiguous(revisions, k, n - 1, n); }
    }
    NoneRetained(front, g);
  }

  lemma {:induction false} RetainedIsChain(h: Hashes, c: Checkpoint, g: Chain, n: nat)
    requires TombstonesOk(c) && ChainsOk(h, c) && n <= |c.revisions|
    ensures HashChain(h, c, g, Retained(c.revisions[..n], g))
  {
    if n > 0 {
      var m := n - 1;
      RetainedIsChain(h, c, g, m);
      assert c.revisions[..n][..m] == c.revisions[..m];
      if ChainOf(c.revisions[m].value) == g {
        NextContinues(h, c, m);
        ExtendChain(h, c, g, Retained(c.revisions[..m], g), c.revisions[m].value);
      } else {
        assert Retained(c.revisions[..n], g) == Retained(c.revisions[..m], g);
      }
    }
  }

  /** The next revision of a chain follows the last one retained so far, or is the first. */
  lemma NextContinues(h: Hashes, c: Checkpoint, m: nat)
    requires TombstonesOk(c) && ChainsOk(h, c) && m < |c.revisions|
    ensures var r := c.revisions[m].value;
            var past := Retained(c.revisions[..m], ChainOf(r));
            Fenced(c, r) && if past == [] then (r.sequence, r.parent) == FirstOf(c, ChainOf(r))
                            else Follows(h, r, past[|past| - 1])
  {
    var r := c.revisions[m].value;
    assert ChainStepOk(h, c, m);
    if m > 0 && ChainOf(c.revisions[m - 1].value) == ChainOf(r) {
      assert c.revisions[..m][..m - 1] == c.revisions[..m - 1];
    } else {
      ChainsAreOrdered(h, c);
      NewChain(c.revisions, m);
      StartIsFirst(c, r);
    }
  }

  lemma {:induction false} EpochsRise(h: Hashes, c: Checkpoint, g: Chain, r: seq<Revision>, j: nat, k: nat)
    requires HashChain(h, c, g, r) && j <= k < |r|
    ensures r[j].writerEpoch <= r[k].writerEpoch
  {
    if j < k {
      assert LinkAt(h, c, g, r, k);
      EpochsRise(h, c, g, r, j, k - 1);
    }
  }

  lemma RetainedHas(revisions: seq<Signed<Revision>>, g: Chain)
    requires exists j :: 0 <= j < |revisions| && ChainOf(revisions[j].value) == g
    ensures Retained(revisions, g) != []
  {
    var j :| 0 <= j < |revisions| && ChainOf(revisions[j].value) == g;
    if j < |revisions| - 1 {
      assert revisions[..|revisions| - 1][j] == revisions[j];
      RetainedHas(revisions[..|revisions| - 1], g);
    }
  }

  /**
   The retained revisions of every chain start at number one, or just after the chain's
   tombstone, and go up without a gap, each naming the hash of the one before. The writer
   epochs never fall and each is fenced. A chain with a tombstone has a retained revision.
   */
  lemma ChainsAreGapFree(h: Hashes, c: Checkpoint, g: Chain)
    requires CheckpointOk(h, c)
    ensures HashChain(h, c, g, Retained(c.revisions, g))
    ensures forall j, k :: 0 <= j <= k < |Retained(c.revisions, g)| ==>
              Retained(c.revisions, g)[j].writerEpoch <= Retained(c.revisions, g)[k].writerEpoch
    ensures (exists t :: t in c.tombstones && GraveOf(t) == g) ==> Retained(c.revisions, g) != []
  {
    var r := Retained(c.revisions, g);
    assert c.revisions[..|c.revisions|] == c.revisions;
    RetainedIsChain(h, c, g, |c.revisions|);
    forall j, k | 0 <= j <= k < |r| ensures r[j].writerEpoch <= r[k].writerEpoch { EpochsRise(h, c, g, r, j, k); }
    if exists t :: t in c.tombstones && GraveOf(t) == g { RetainedHas(c.revisions, g); }
  }

  /** Two valid checkpoints that share a revision of a chain share what both retain before it. */
  lemma {:induction false} HistoryIsShared(h: Hashes, a: Checkpoint, b: Checkpoint, g: Chain, i: nat, j: nat, d: nat)
    requires CheckpointOk(h, a) && CheckpointOk(h, b) && forall x, y :: h.revision(x) == h.revision(y) ==> x == y
    requires i < |Retained(a.revisions, g)| && j < |Retained(b.revisions, g)| && d <= i && d <= j
    requires Retained(a.revisions, g)[i] == Retained(b.revisions, g)[j]
    ensures Retained(a.revisions, g)[i - d] == Retained(b.revisions, g)[j - d]
  {
    if d > 0 {
      HistoryIsShared(h, a, b, g, i, j, d - 1);
      ChainsAreGapFree(h, a, g);
      ChainsAreGapFree(h, b, g);
      SharedStep(h, a, b, g, Retained(a.revisions, g), Retained(b.revisions, g), i - d + 1, j - d + 1);
    }
  }

  lemma SharedStep(h: Hashes, a: Checkpoint, b: Checkpoint, g: Chain, r: seq<Revision>, s: seq<Revision>, i: nat,
                   j: nat)
    requires HashChain(h, a, g, r) && HashChain(h, b, g, s) && forall x, y :: h.revision(x) == h.revision(y) ==> x == y
    requires 0 < i < |r| && 0 < j < |s| && r[i] == s[j]
    ensures r[i - 1] == s[j - 1]
  {
    assert LinkAt(h, a, g, r, i) && LinkAt(h, b, g, s, j);
  }

  // ---------------------------------------------------------------- coding groups

  ghost function DomainOf(c: Checkpoint, node: NodeId): Domain
    requires IsMember(c, node)
  {
    var i :| 0 <= i < |c.members| && c.members[i].nodeId == node;
    c.members[i].failureDomain
  }

  /** The failure domain of every shard of a group. */
  ghost function ShardDomains(c: Checkpoint, g: FixedGroup): (r: seq<Domain>)
    requires forall k :: 0 <= k < |g.roles| ==> IsMember(c, g.roles[k].Node())
    ensures |r| == |g.roles| && forall k :: 0 <= k < |r| ==> r[k] == DomainOf(c, g.roles[k].Node())
  {
    seq(|g.roles|, k requires 0 <= k < |g.roles| => DomainOf(c, g.roles[k].Node()))
  }

  /** A valid group keeps three shards, enough to decode, after losing any two failure domains. */
  lemma GroupKeepsThree(h: Hashes, c: Checkpoint, uses: seq<Use>, g: FixedGroup, lost: set<Domain>)
    requires GroupValid(h, c, uses, g) && |lost| <= RS_PARITY_SHARDS
    ensures Surviving(ShardDomains(c, g), lost) >= RS_DATA_SHARDS
  {
    var domains := ShardDomains(c, g);
    forall j, k | 0 <= j < k < |domains| ensures domains[j] != domains[k] {
      assert !SameDomain(c, g.roles[j], g.roles[k]);
    }
    LossIsBounded(domains, lost);
  }

  lemma {:induction false} UseIsListed(revisions: seq<Signed<Revision>>, i: nat, k: nat)
    requires i < |revisions| && k < |revisions[i].value.Sectors()|
    ensures UseAt(revisions[i].value, k) in Uses(revisions)
  {
    var last := revisions[|revisions| - 1].value;
    if i < |revisions| - 1 {
      UseIsListed(revisions[..|revisions| - 1], i, k);
    } else {
      assert UsesOf(last)[k] == UseAt(last, k);
    }
  }

  /** The one place, group and position, that protects a sector. */
  ghost predicate ProtectedAt(c: Checkpoint, owner: NodeId, s: SectorRef, a: nat, p: nat) {
    && a < |c.groups| && p < |c.groups[a].roles| && c.groups[a].roles[p] == InformationShard(owner, s)
    && (forall b, q :: 0 <= b < |c.groups| && 0 <= q < |c.groups[b].roles| && Holds(c.groups[b].roles[q], s.id) ==>
          b == a && q == p)
  }

  predicate Holds(role: Role, id: nat) {
    role.InformationShard? && role.sector.id == id
  }

  lemma SamePlace(h: Hashes, c: Checkpoint, uses: seq<Use>, a: nat, p: nat, b: nat, q: nat)
    requires GroupsOk(h, c, uses) && a < |c.groups| && b < |c.groups| && p < |c.groups[a].roles|
             && q < |c.groups[b].roles|
    requires c.groups[a].roles[p].InformationShard? && c.groups[b].roles[q].InformationShard?
    requires c.groups[a].roles[p].sector.id == c.groups[b].roles[q].sector.id
    ensures a == b && p == q
  {
    var id := c.groups[a].roles[p].sector.id;
    assert id in InformationIds(c.groups[a]) && id in InformationIds(c.groups[b]);
    assert GroupValid(h, c, uses, c.groups[a]) && GroupValid(h, c, uses, c.groups[b]);
    assert RoleFits(p, c.groups[a].roles[p]) && RoleFits(q, c.groups[b].roles[q]);
  }

  lemma OnlyPlace(h: Hashes, c: Checkpoint, uses: seq<Use>, a: nat, p: nat, id: nat)
    requires GroupsOk(h, c, uses) && a < |c.groups| && p < |c.groups[a].roles| && Holds(c.groups[a].roles[p], id)
    ensures forall b, q :: 0 <= b < |c.groups| && 0 <= q < |c.groups[b].roles| && Holds(c.groups[b].roles[q], id) ==>
              b == a && q == p
  {
    forall b, q | 0 <= b < |c.groups| && 0 <= q < |c.groups[b].roles| && Holds(c.groups[b].roles[q], id)
      ensures b == a && q == p
    {
      SamePlace(h, c, uses, a, p, b, q);
    }
  }

  lemma HeldBySome(h: Hashes, c: Checkpoint, uses: seq<Use>, id: nat)
    requires GroupsOk(h, c, uses) && c.formatVersion == 3 && id in SectorIds(uses)
    ensures exists i :: 0 <= i < |c.groups| && id in InformationIds(c.groups[i])
  {
  }

  lemma PlaceIsOwners(h: Hashes, c: Checkpoint, uses: seq<Use>, a: nat, p: nat, u: Use)
    requires GroupsOk(h, c, uses) && a < |c.groups| && p < |c.groups[a].roles| && u in uses
    requires Holds(c.groups[a].roles[p], u.sector.id)
    ensures c.groups[a].roles[p] == InformationShard(u.chain.owner, u.sector) && GroupValid(h, c, uses, c.groups[a])
  {
    assert GroupValid(h, c, uses, c.groups[a]) && Protects(c.groups[a].roles[p], uses);
  }

  lemma SectorIsProtected(h: Hashes, c: Checkpoint, uses: seq<Use>, u: Use) returns (a: nat, p: nat)
    requires GroupsOk(h, c, uses) && c.formatVersion == 3 && u in uses
    ensures ProtectedAt(c, u.chain.owner, u.sector, a, p) && GroupValid(h, c, uses, c.groups[a])
  {
    var n :| 0 <= n < |uses| && uses[n] == u;
    assert u.sector.id in SectorIds(uses);
    HeldBySome(h, c, uses, u.sector.id);
    a, p := FindShard(c.groups, u.sector.id);
    PlaceIsOwners(h, c, uses, a, p, u);
    OnlyPlace(h, c, uses, a, p, u.sector.id);
  }

  /**
   In format 3 every sector of every retained revision lies in exactly one coding group, as
   its owner's shard, and that group keeps three shards after losing any two failure domains.
   */
  lemma SectorSurvives(h: Hashes, c: Checkpoint, i: nat, k: nat) returns (a: nat, p: nat)
    requires CheckpointOk(h, c) && c.formatVersion == 3 && i < |c.revisions| && k < |c.revisions[i].value.Sectors()|
    ensures ProtectedAt(c, c.revisions[i].value.owner, c.revisions[i].value.Sectors()[k], a, p)
    ensures forall j :: 0 <= j < |c.groups[a].roles| ==> IsMember(c, c.groups[a].roles[j].Node())
    ensures forall lost: set<Domain> :: |lost| <= RS_PARITY_SHARDS ==>
              Surviving(ShardDomains(c, c.groups[a]), lost) >= RS_DATA_SHARDS
  {
    UseIsListed(c.revisions, i, k);
    a, p := SectorIsProtected(h, c, Uses(c.revisions), UseAt(c.revisions[i].value, k));
    var g := c.groups[a];
    forall lost: set<Domain> | |lost| <= RS_PARITY_SHARDS
      ensures Surviving(ShardDomains(c, g), lost) >= RS_DATA_SHARDS
    {
      GroupKeepsThree(h, c, Uses(c.revisions), g, lost);
    }
  }

  lemma FindShard(groups: seq<FixedGroup>, id: nat) returns (a: nat, p: nat)
    requires exists i :: 0 <= i < |groups| && id in InformationIds(groups[i])
    ensures a < |groups| && p < |groups[a].roles| && Holds(groups[a].roles[p], id)
  {
    a :| a < |groups| && id in InformationIds(groups[a]);
    p :| p < |groups[a].roles| && Holds(groups[a].roles[p], id);
  }

  // ---------------------------------------------------------------- packed sectors

  /**
   In format 7 the slots of the packing catalog hold every sector of every retained revision,
   exactly one sector's worth of bytes of it, and no other sector.
   */
  lemma SectorIsPacked(h: Hashes, c: Checkpoint, i: nat, k: nat)
    requires CheckpointOk(h, c) && c.formatVersion == 7 && i < |c.revisions| && k < |c.revisions[i].value.Sectors()|
    ensures var r, sources := c.revisions[i].value, c.packingCatalog.value.sources;
            var key := SectorKey(ChainOf(r), r.Sectors()[k].id);
            IsPacked(sources, key) && PackedBytes(sources, key) == SECTOR_SIZE
  {
    var r, uses := c.revisions[i].value, Uses(c.revisions);
    UseIsListed(c.revisions, i, k);
    var n :| 0 <= n < |uses| && uses[n] == UseAt(r, k);
    assert IsUsed(uses, SectorKey(ChainOf(r), r.Sectors()[k].id));
  }
}
