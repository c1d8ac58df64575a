/**
 The packing-catalog pass of checkpoint validation: the occupied slots hold every sector that a
 retained revision uses, whole, and nothing else.
 */
module CheckpointPacking {
  import opened Base
  import opened Sectors
  import opened Merkle
  import opened Coding
  import opened Checkpoint
  import opened CheckpointChains
  import opened CheckpointSectors
  import opened CheckpointLegacy

  /** The bytes packed of every sector met in the slots. */
  ghost predicate Summed(sources: seq<PackedSource>, totals: map<SectorKey, nat>) {
    && (forall key :: key in totals <==> IsPacked(sources, key))
    && (forall key :: key in totals ==> totals[key] == PackedBytes(sources, key))
  }

  lemma {:induction false} UnpackedIsZero(sources: seq<PackedSource>, key: SectorKey)
    requires !IsPacked(sources, key)
    ensures PackedBytes(sources, key) == 0
  {
    if sources != [] {
      var front := sources[..|sources| - 1];
      assert forall i :: 0 <= i < |front| ==> front[i] == sources[i];
      assert sources[|sources| - 1].key != key;
      UnpackedIsZero(front, key);
    }
  }

  lemma PackedMore(sources: seq<PackedSource>, s: PackedSource, key: SectorKey)
    ensures IsPacked(sources + [s], key) <==> IsPacked(sources, key) || key == s.key
    ensures PackedBytes(sources + [s], key) == PackedBytes(sources, key) + if key == s.key then s.logicalLen else 0
  {
    var more := sources + [s];
    assert more[..|sources|] == sources && more[|sources|] == s;
    if i :| 0 <= i < |sources| && sources[i].key == key { assert more[i].key == key; }
    if i :| 0 <= i < |more| && more[i].key == key { assert i < |sources| ==> sources[i].key == key; }
  }

  lemma SummedMore(sources: seq<PackedSource>, totals: map<SectorKey, nat>, s: PackedSource)
    requires Summed(sources, totals)
    ensures Summed(sources + [s], totals[s.key := (if s.key in totals then totals[s.key] else 0) + s.logicalLen])
  {
    var next := totals[s.key := (if s.key in totals then totals[s.key] else 0) + s.logicalLen];
    forall key
      ensures key in next <==> IsPacked(sources + [s], key)
      ensures key in next ==> next[key] == PackedBytes(sources + [s], key)
    {
      PackedMore(sources, s, key);
      if key !in totals { UnpackedIsZero(sources, key); }
    }
  }

  /** Sums the packed bytes by sector. */
  method SumSources(sources: seq<PackedSource>) returns (totals: map<SectorKey, nat>)
    ensures Summed(sources, totals)
  {
    totals := map[];
    for i := 0 to |sources|
      invariant Summed(sources[..i], totals)
    {
      var s := sources[i];
      SummedMore(sources[..i], totals, s);
      assert sources[..i + 1] == sources[..i] + [s];
      totals := totals[s.key := (if s.key in totals then totals[s.key] else 0) + s.logicalLen];
    }
    assert sources[..|sources|] == sources;
  }

  lemma UsedByMap(uses: seq<Use>, scoped: map<nat, (Chain, SectorRef)>, key: SectorKey)
    requires ScopedExactly(uses, scoped)
    ensures IsUsed(uses, key) <==> key.id in scoped && scoped[key.id].0 == key.chain
  {
    if i :| 0 <= i < |uses| && uses[i].chain == key.chain && uses[i].sector.id == key.id { assert uses[i] in uses; }
    if key.id in scoped && scoped[key.id].0 == key.chain {
      var i :| 0 <= i < |uses| && uses[i].sector.id == key.id;
      assert uses[i] in uses;
    }
  }

  /** Every proof matches a commitment of a revision. */
  method CheckProofs(proofs: seq<PackedProof>, ghost uses: seq<Use>, commitments: map<(Chain, nat), Commitment>)
    returns (ok: bool)
    requires CommitmentsExactly(uses, commitments)
    ensures ok <==> forall i :: 0 <= i < |proofs| ==> ProofMatches(uses, proofs[i])
  {
    for i := 0 to |proofs|
      invariant forall k :: 0 <= k < i ==> ProofMatches(uses, proofs[k])
    {
      ProofByMap(uses, commitments, proofs[i]);
      var key := (proofs[i].key.chain, proofs[i].key.id);
      if key !in commitments || commitments[key] != proofs[i].commitment { return false; }
    }
    return true;
  }

  /** The keys of the packed sectors are those of the used ones, and each is whole. */
  lemma CoverageIff(view: CatalogView, uses: seq<Use>, totals: map<SectorKey, nat>, expected: set<SectorKey>)
    requires Summed(view.sources, totals) && forall key :: key in expected <==> IsUsed(uses, key)
    ensures totals.Keys == expected && (forall key :: key in totals ==> totals[key] == SECTOR_SIZE) <==>
            && (forall key :: IsPacked(view.sources, key) <==> IsUsed(uses, key))
            && (forall key :: IsPacked(view.sources, key) ==> PackedBytes(view.sources, key) == SECTOR_SIZE)
  {
    if forall key :: IsPacked(view.sources, key) <==> IsUsed(uses, key) {
      assert forall key :: key in totals.Keys <==> key in expected;
    }
  }

  /** The proofs of a packing catalog, by its format. */
  method CheckFormat(c: Checkpoint, view: CatalogView, ghost uses: seq<Use>, index: Index,
                     domains: map<NodeId, Domain>) returns (ok: bool)
    requires Indexed(uses, index) && Placed(c.members, domains)
    ensures ok <==> ProofsOk(c, view, uses)
  {
    if view.formatVersion == 1 { return view.proofs.None?; }
    if view.proofs.None? { return false; }
    if view.formatVersion == 2 || view.formatVersion == 3 {
      ok := CheckProofs(view.proofs.value, uses, index.commitments);
    } else if view.formatVersion == 4 {
      if view.bindings.None? { return false; }
      var bindings := GatherBindings(view.bindings.value);
      ok := CheckLegacy(view.proofs.value, uses, index, bindings, [], map[], 0);
    } else if view.formatVersion == 5 {
      ok := CheckAttested(c, view, uses, index, domains);
    } else {
      ok := false;
    }
  }

  /** The cross-check of a packing catalog against the sectors of the retained revisions. */
  method CheckCatalog(c: Checkpoint, view: CatalogView, ghost uses: seq<Use>, index: Index,
                      domains: map<NodeId, Domain>) returns (ok: bool)
    requires Indexed(uses, index) && Placed(c.members, domains)
    ensures ok <==> PackedOk(c, view, uses)
  {
    var expected := set id | id in index.scoped :: SectorKey(index.scoped[id].0, id);
    forall key ensures key in expected <==> IsUsed(uses, key) { UsedByMap(uses, index.scoped, key); }
    var totals := SumSources(view.sources);
    CoverageIff(view, uses, totals, expected);
    if totals.Keys != expected || !(forall key :: key in totals ==> totals[key] == SECTOR_SIZE) { return false; }
    ok := CheckFormat(c, view, uses, index, domains);
  }
}
