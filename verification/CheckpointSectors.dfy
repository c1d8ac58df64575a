/**
 The sector passes of checkpoint validation: the running indexes of every sector that a
 retained revision uses, and the coding groups checked against them.
 */
module CheckpointSectors {
  import opened Base
  import opened Sectors
  import opened Merkle
  import opened Checkpoint

  // ---------------------------------------------------------------- sectors of revisions

  /** What a sector id stands for: its chain and reference, its flat root and its commitment. */
  datatype Index =
    Index(scoped: map<nat, (Chain, SectorRef)>, flatRoots: map<(Chain, nat), nat>,
          commitments: map<(Chain, nat), Commitment>)

  ghost predicate ScopedExactly(uses: seq<Use>, scoped: map<nat, (Chain, SectorRef)>) {
    scoped.Keys == SectorIds(uses)
      && forall u :: u in uses ==> u.sector.id in scoped && scoped[u.sector.id] == (u.chain, u.sector)
  }

  ghost predicate RootsExactly(uses: seq<Use>, roots: map<(Chain, nat), nat>) {
    && (forall u :: u in uses ==>
          (u.chain, u.sector.id) in roots && roots[(u.chain, u.sector.id)] == u.sector.root)
    && (forall k :: k in roots ==>
          exists u :: u in uses && k == (u.chain, u.sector.id) && roots[k] == u.sector.root)
  }

  ghost predicate CommitmentsExactly(uses: seq<Use>, commitments: map<(Chain, nat), Commitment>) {
    && (forall u :: u in uses && u.commitment.Some? ==>
          (u.chain, u.sector.id) in commitments && commitments[(u.chain, u.sector.id)] == u.commitment.value)
    && (forall k :: k in commitments ==>
          exists u :: u in uses && k == (u.chain, u.sector.id) && u.commitment == Some(commitments[k]))
  }

  ghost predicate Indexed(uses: seq<Use>, index: Index) {
    && ScopedExactly(uses, index.scoped) && RootsExactly(uses, index.flatRoots)
    && CommitmentsExactly(uses, index.commitments)
  }

  /** The checks of one use against the running indexes. */
  predicate AcceptsUse(index: Index, u: Use) {
    var key := (u.chain, u.sector.id);
    && SectorFits(u.sector)
    && (u.sector.id in index.scoped ==> index.scoped[u.sector.id] == (u.chain, u.sector))
    && (key in index.flatRoots ==> index.flatRoots[key] == u.sector.root)
    && (u.commitment.Some? && key in index.commitments ==> index.commitments[key] == u.commitment.value)
  }

  function AddUse(index: Index, u: Use): Index {
    var key := (u.chain, u.sector.id);
    Index(index.scoped[u.sector.id := (u.chain, u.sector)], index.flatRoots[key := u.sector.root],
          if u.commitment.Some? then index.commitments[key := u.commitment.value] else index.commitments)
  }

  lemma IdsMore(uses: seq<Use>, u: Use)
    ensures SectorIds(uses + [u]) == SectorIds(uses) + {u.sector.id}
  {
    var more := uses + [u];
    assert more[|uses|] == u && forall k :: 0 <= k < |uses| ==> more[k] == uses[k];
  }

  lemma ScopedMore(uses: seq<Use>, scoped: map<nat, (Chain, SectorRef)>, u: Use)
    requires ScopedExactly(uses, scoped)
    requires u.sector.id in scoped ==> scoped[u.sector.id] == (u.chain, u.sector)
    ensures ScopedExactly(uses + [u], scoped[u.sector.id := (u.chain, u.sector)])
  {
    IdsMore(uses, u);
  }

  lemma RootsMore(uses: seq<Use>, roots: map<(Chain, nat), nat>, u: Use)
    requires RootsExactly(uses, roots)
    requires (u.chain, u.sector.id) in roots ==> roots[(u.chain, u.sector.id)] == u.sector.root
    ensures RootsExactly(uses + [u], roots[(u.chain, u.sector.id) := u.sector.root])
  {
    assert u in uses + [u];
    forall k | k in roots
      ensures exists v :: v in uses + [u] && k == (v.chain, v.sector.id) && roots[k] == v.sector.root
    {
      var v :| v in uses && k == (v.chain, v.sector.id) && roots[k] == v.sector.root;
      assert v in uses + [u];
    }
  }

  lemma CommitmentsMore(uses: seq<Use>, commitments: map<(Chain, nat), Commitment>, u: Use)
    requires CommitmentsExactly(uses, commitments)
    requires u.commitment.Some? && (u.chain, u.sector.id) in commitments ==>
               commitments[(u.chain, u.sector.id)] == u.commitment.value
    ensures CommitmentsExactly(uses + [u],
                               if u.commitment.Some? then commitments[(u.chain, u.sector.id) := u.commitment.value]
                               else commitments)
  {
    assert u in uses + [u];
    forall k | k in commitments
      ensures exists v :: v in uses + [u] && k == (v.chain, v.sector.id) && v.commitment == Some(commitments[k])
    {
      var v :| v in uses && k == (v.chain, v.sector.id) && v.commitment == Some(commitments[k]);
      assert v in uses + [u];
    }
  }

  lemma UseAdded(uses: seq<Use>, index: Index, u: Use)
    requires Indexed(uses, index) && AcceptsUse(index, u)
    ensures Indexed(uses + [u], AddUse(index, u))
  {
    ScopedMore(uses, index.scoped, u);
    RootsMore(uses, index.flatRoots, u);
    CommitmentsMore(uses, index.commitments, u);
  }

  /** The flat-root check adds nothing: a use passes exactly when it agrees with every earlier one. */
  lemma AcceptsUseIff(uses: seq<Use>, index: Index, u: Use)
    requires Indexed(uses, index)
    ensures AcceptsUse(index, u) <==> SectorFits(u.sector) && forall v :: v in uses ==> Agree(v, u)
  {
    if AcceptsUse(index, u) {
      forall v | v in uses ensures Agree(v, u) {}
    }
    if SectorFits(u.sector) && forall v :: v in uses ==> Agree(v, u) {
      if u.sector.id in index.scoped {
        var k :| 0 <= k < |uses| && uses[k].sector.id == u.sector.id;
        assert uses[k] in uses;
      }
    }
  }

  lemma ConsistentMore(uses: seq<Use>, u: Use)
    ensures Consistent(uses + [u]) <==> Consistent(uses) && forall v :: v in uses ==> Agree(v, u)
  {
    var more := uses + [u];
    assert more[|uses|] == u && forall k :: 0 <= k < |uses| ==> more[k] == uses[k];
    if Consistent(more) {
      forall v | v in uses ensures Agree(v, u) {
        var k :| 0 <= k < |uses| && uses[k] == v;
        assert Agree(more[k], more[|uses|]);
      }
      forall a, b | 0 <= a < b < |uses| ensures Agree(uses[a], uses[b]) { assert Agree(more[a], more[b]); }
    }
  }

  lemma ConsistentPrefix(uses: seq<Use>, n: nat)
    requires n <= |uses| && Consistent(uses)
    ensures Consistent(uses[..n])
  {
  }

  /** The index is that of the uses, and these agree; spelled so that it opens up only where it is used. */
  ghost predicate Tracked(uses: seq<Use>, index: Index) {
    forall x {:trigger Consistent(x)} :: x == uses ==> Indexed(x, index) && Consistent(x)
  }

  lemma TrackStep(uses: seq<Use>, index: Index, u: Use)
    requires Tracked(uses, index)
    ensures AcceptsUse(index, u) ==> SectorFits(u.sector) && Tracked(uses + [u], AddUse(index, u))
    ensures !AcceptsUse(index, u) && SectorFits(u.sector) ==> !Consistent(uses + [u])
  {
    assert Consistent(uses);
    AcceptsUseIff(uses, index, u);
    ConsistentMore(uses, u);
    if AcceptsUse(index, u) { UseAdded(uses, index, u); }
  }

  lemma PrefixAgrees(before: seq<Use>, uses: seq<Use>, k: nat)
    requires k <= |uses|
    ensures Consistent(before + uses) ==> Consistent(before + uses[..k])
  {
    if Consistent(before + uses) {
      ConsistentPrefix(before + uses, |before| + k);
      assert (before + uses)[..|before| + k] == before + uses[..k];
    }
  }

  method CheckSectors(r: Revision, ghost before: seq<Use>, index: Index) returns (ok: bool, next: Index)
    requires Indexed(before, index) && Consistent(before)
    ensures ok <==> (forall s :: s in r.Sectors() ==> SectorFits(s)) && Consistent(before + UsesOf(r))
    ensures ok ==> Indexed(before + UsesOf(r), next)
  {
    next := index;
    var uses := UsesOf(r);
    assert before + uses[..0] == before;
    for k := 0 to |uses|
      invariant Tracked(before + uses[..k], next)
      invariant forall j :: 0 <= j < k ==> SectorFits(r.Sectors()[j])
    {
      TrackStep(before + uses[..k], next, uses[k]);
      assert before + uses[..k + 1] == before + uses[..k] + [uses[k]];
      if !AcceptsUse(next, uses[k]) {
        PrefixAgrees(before, uses, k + 1);
        return false, next;
      }
      next := AddUse(next, uses[k]);
    }
    assert uses[..|uses|] == uses;
    assert Consistent(before + uses);
    return true, next;
  }
}
