/**
 The legacy part of the packing-catalog pass: proofs of commitments that no revision carries, which
 the owner's bindings or a quorum of attestations tie to the flat roots that revisions do carry.
 */
module CheckpointLegacy {
  import opened Base
  import opened Merkle
  import opened Coding
  import opened Checkpoint
  import opened CheckpointChains
  import opened CheckpointSectors

  // ---------------------------------------------------------------- lookups

  lemma ProofByMap(uses: seq<Use>, commitments: map<(Chain, nat), Commitment>, proof: PackedProof)
    requires CommitmentsExactly(uses, commitments)
    ensures ProofMatches(uses, proof) <==>
            (proof.key.chain, proof.key.id) in commitments
              && commitments[(proof.key.chain, proof.key.id)] == proof.commitment
  {
    var key := (proof.key.chain, proof.key.id);
    if i :| 0 <= i < |uses| && uses[i].chain == proof.key.chain && uses[i].sector.id == proof.key.id
            && uses[i].commitment == Some(proof.commitment) {
      assert uses[i] in uses;
    }
    if key in commitments && commitments[key] == proof.commitment {
      var u :| u in uses && key == (u.chain, u.sector.id) && u.commitment == Some(commitments[key]);
      var i :| 0 <= i < |uses| && uses[i] == u;
    }
  }

  lemma RootByMap(uses: seq<Use>, roots: map<(Chain, nat), nat>, key: SectorKey, root: nat)
    requires RootsExactly(uses, roots)
    ensures HasRoot(uses, key, root) <==> (key.chain, key.id) in roots && roots[(key.chain, key.id)] == root
  {
    if i :| 0 <= i < |uses| && uses[i].chain == key.chain && uses[i].sector.id == key.id
            && uses[i].sector.root == root {
      assert uses[i] in uses;
    }
    if (key.chain, key.id) in roots && roots[(key.chain, key.id)] == root {
      var u :| u in uses && (key.chain, key.id) == (u.chain, u.sector.id) && root == u.sector.root;
      var i :| 0 <= i < |uses| && uses[i] == u;
    }
  }

  // ---------------------------------------------------------------- bindings

  method GatherBindings(bindings: seq<Statement>) returns (r: map<SectorKey, Statement>)
    ensures r == Bound(bindings)
  {
    r := map[];
    for i := 0 to |bindings|
      invariant r == Bound(bindings[..i])
    {
      assert bindings[..i + 1][..i] == bindings[..i];
      r := r[bindings[i].key := bindings[i]];
    }
    assert bindings[..|bindings|] == bindings;
  }

  // ---------------------------------------------------------------- attestations

  /** For every attested sector its statement and its attesters. */
  type Attested = map<SectorKey, (Statement, set<NodeId>)>

  ghost predicate AttestedAt(list: seq<Attestation>, attested: Attested, key: SectorKey) {
    && (key in attested <==> IsAttested(list, key))
    && (key in attested ==> attested[key].1 == Attesters(list, key))
    && (key in attested ==>
          forall i :: 0 <= i < |list| && list[i].statement.key == key ==> list[i].statement == attested[key].0)
  }

  ghost predicate AttestedExactly(list: seq<Attestation>, attested: Attested) {
    forall key :: AttestedAt(list, attested, key)
  }

  function AddAttestation(attested: Attested, a: Attestation): Attested {
    var key := a.statement.key;
    attested[key := if key in attested then (attested[key].0, attested[key].1 + {a.signer})
                    else (a.statement, {a.signer})]
  }

  /** Whether one more attestation goes with those before. */
  predicate GoesWith(attested: Attested, a: Attestation) {
    a.statement.key in attested ==>
      attested[a.statement.key].0 == a.statement && a.signer !in attested[a.statement.key].1
  }

  lemma GoesWithIff(list: seq<Attestation>, attested: Attested, a: Attestation)
    requires AttestedExactly(list, attested)
    ensures GoesWith(attested, a) <==> forall i :: 0 <= i < |list| ==> Compatible(list[i], a)
  {
    var key := a.statement.key;
    assert AttestedAt(list, attested, key);
    if key in attested && !GoesWith(attested, a) {
      if attested[key].0 != a.statement {
        var i :| 0 <= i < |list| && list[i].statement.key == key;
        assert !Compatible(list[i], a);
      } else {
        var i :| 0 <= i < |list| && list[i].statement.key == key && list[i].signer == a.signer;
        assert !Compatible(list[i], a);
      }
    }
  }

  lemma AttestedMore(list: seq<Attestation>, attested: Attested, a: Attestation, key: SectorKey)
    requires AttestedExactly(list, attested) && GoesWith(attested, a)
    ensures AttestedAt(list + [a], AddAttestation(attested, a), key)
  {
    var more := list + [a];
    assert AttestedAt(list, attested, key);
    assert more[|list|] == a && forall i :: 0 <= i < |list| ==> more[i] == list[i];
    if i :| 0 <= i < |list| && list[i].statement.key == key { assert more[i].statement.key == key; }
    if i :| 0 <= i < |more| && more[i].statement.key == key { assert i < |list| ==> list[i].statement.key == key; }
    AttestersMore(list, a, key);
  }

  lemma AttestersMore(list: seq<Attestation>, a: Attestation, key: SectorKey)
    ensures Attesters(list + [a], key) == Attesters(list, key) + if a.statement.key == key then {a.signer} else {}
    ensures !IsAttested(list, key) ==> Attesters(list, key) == {}
  {
    var more := list + [a];
    assert more[|list|] == a && forall i :: 0 <= i < |list| ==> more[i] == list[i];
    forall x | x in Attesters(list, key) ensures x in Attesters(more, key) {
      var i :| 0 <= i < |list| && list[i].statement.key == key && list[i].signer == x;
      assert more[i] == list[i];
    }
  }

  lemma PrefixAttested(c: Checkpoint, epoch: nat, list: seq<Attestation>, i: nat, attested: Attested)
    requires i < |list| && AttestationsOk(c, epoch, list[..i]) && AttestedExactly(list[..i], attested)
    ensures AttestationsOk(c, epoch, list[..i + 1]) <==>
            AttestationOk(c, epoch, list[i]) && GoesWith(attested, list[i])
    ensures !AttestationsOk(c, epoch, list[..i + 1]) ==> !AttestationsOk(c, epoch, list)
  {
    GoesWithIff(list[..i], attested, list[i]);
    var front, more := list[..i], list[..i + 1];
    assert more[i] == list[i] && forall k :: 0 <= k < i ==> more[k] == front[k] == list[k];
    if AttestationOk(c, epoch, list[i]) && GoesWith(attested, list[i]) {
      forall j, k | 0 <= j < k < |more| ensures Compatible(more[j], more[k]) {
        if k < i { assert Compatible(front[j], front[k]); } else { assert Compatible(front[j], list[i]); }
      }
    }
    if AttestationsOk(c, epoch, more) {
      forall k | 0 <= k < |front| ensures Compatible(front[k], list[i]) { assert Compatible(more[k], more[i]); }
    }
  }

  /** Collects the attestations by sector. */
  method GatherAttestations(c: Checkpoint, epoch: nat, list: seq<Attestation>, domains: map<NodeId, Domain>)
    returns (ok: bool, attested: Attested)
    requires Placed(c.members, domains)
    ensures ok <==> AttestationsOk(c, epoch, list)
    ensures ok ==> AttestedExactly(list, attested)
  {
    attested := map[];
    for i := 0 to |list|
      invariant AttestationsOk(c, epoch, list[..i]) && AttestedExactly(list[..i], attested)
    {
      var a := list[i];
      PrefixAttested(c, epoch, list, i, attested);
      MemberIsPlaced(c, domains, a.signer);
      if a.guildId != c.guildId || a.membershipEpoch != epoch || a.signer !in domains || !GoesWith(attested, a) {
        return false, attested;
      }
      forall key ensures AttestedAt(list[..i] + [a], AddAttestation(attested, a), key) {
        AttestedMore(list[..i], attested, a, key);
      }
      assert list[..i + 1] == list[..i] + [a];
      attested := AddAttestation(attested, a);
    }
    assert list[..|list|] == list;
    return true, attested;
  }

  // ---------------------------------------------------------------- proofs

  /** The keys of some proofs that need a statement. */
  ghost predicate NeededKeys(proofs: seq<PackedProof>, uses: seq<Use>, keys: set<SectorKey>) {
    forall key :: key in keys <==> Needed(proofs, uses, key)
  }

  lemma NeededMore(proofs: seq<PackedProof>, uses: seq<Use>, proof: PackedProof, key: SectorKey)
    ensures Needed(proofs + [proof], uses, key) <==>
            Needed(proofs, uses, key) || (key == proof.key && !ProofMatches(uses, proof))
  {
    var more := proofs + [proof];
    assert more[|proofs|] == proof && forall i :: 0 <= i < |proofs| ==> more[i] == proofs[i];
    if i :| 0 <= i < |proofs| && proofs[i].key == key && !ProofMatches(uses, proofs[i]) { assert more[i] == proofs[i]; }
    if i :| 0 <= i < |more| && more[i].key == key && !ProofMatches(uses, more[i]) {
      assert i < |proofs| ==> proofs[i] == more[i];
    }
  }

  /** A statement carries a proof, by the maps. */
  predicate CarriesByMap(roots: map<(Chain, nat), nat>, s: Statement, proof: PackedProof) {
    var key := (proof.key.chain, proof.key.id);
    s.commitment == proof.commitment && key in roots && roots[key] == s.flatRoot
  }

  predicate GoodByMap(bindings: map<SectorKey, Statement>, attested: Attested, required: nat,
                      roots: map<(Chain, nat), nat>, proof: PackedProof) {
    if proof.key in bindings then CarriesByMap(roots, bindings[proof.key], proof)
    else
      && proof.key in attested && CarriesByMap(roots, attested[proof.key].0, proof)
      && |attested[proof.key].1| >= required
  }

  lemma GoodByMapIff(bindings: map<SectorKey, Statement>, list: seq<Attestation>, attested: Attested, required: nat,
                     uses: seq<Use>, roots: map<(Chain, nat), nat>, proof: PackedProof)
    requires AttestedExactly(list, attested) && RootsExactly(uses, roots)
    ensures GoodByMap(bindings, attested, required, roots, proof) <==>
            (if proof.key in bindings then Carries(uses, bindings[proof.key], proof)
             else Vouched(list, required, uses, proof))
  {
    var key := proof.key;
    assert AttestedAt(list, attested, key);
    if key in bindings {
      RootByMap(uses, roots, key, bindings[key].flatRoot);
    } else if key in attested {
      RootByMap(uses, roots, key, attested[key].0.flatRoot);
      var i :| 0 <= i < |list| && list[i].statement.key == key;
      assert list[i].statement == attested[key].0;
    }
  }

  lemma {:induction false} NeedsHaveKeys(bindings: map<SectorKey, Statement>, list: seq<Attestation>, required: nat,
                                         uses: seq<Use>, proofs: seq<PackedProof>, key: SectorKey)
    requires forall i :: 0 <= i < |proofs| ==> LegacyProofOk(bindings, list, required, uses, proofs[i])
    requires Needed(proofs, uses, key)
    ensures key in bindings || IsAttested(list, key)
  {
    var i :| 0 <= i < |proofs| && proofs[i].key == key && !ProofMatches(uses, proofs[i]);
    assert LegacyProofOk(bindings, list, required, uses, proofs[i]);
  }

  lemma SetsDecide(needed: set<SectorKey>, bound: set<SectorKey>, attested: set<SectorKey>)
    requires needed - bound <= attested
    ensures |needed * bound| == |bound| && |needed - bound| == |attested| <==>
            bound <= needed && attested !! bound && attested <= needed
  {
    SubsetIsSmaller(needed * bound, bound);
    SubsetIsSmaller(needed - bound, attested);
    if bound <= needed && attested !! bound && attested <= needed {
      assert needed * bound == bound && needed - bound == attested;
    }
  }

  ghost predicate AllGood(bindings: map<SectorKey, Statement>, list: seq<Attestation>, required: nat, uses: seq<Use>,
                          proofs: seq<PackedProof>) {
    forall i :: 0 <= i < |proofs| ==> LegacyProofOk(bindings, list, required, uses, proofs[i])
  }

  lemma NeedsAreAttested(bindings: map<SectorKey, Statement>, list: seq<Attestation>, attested: Attested, required: nat,
                         uses: seq<Use>, proofs: seq<PackedProof>, needed: set<SectorKey>)
    requires AttestedExactly(list, attested) && NeededKeys(proofs, uses, needed)
    requires AllGood(bindings, list, required, uses, proofs)
    ensures needed - bindings.Keys <= attested.Keys
  {
    forall key | key in needed - bindings.Keys ensures key in attested.Keys {
      NeedsHaveKeys(bindings, list, required, uses, proofs, key);
      assert AttestedAt(list, attested, key);
    }
  }

  lemma LegacyBySets(bindings: map<SectorKey, Statement>, list: seq<Attestation>, attested: Attested, required: nat,
                     uses: seq<Use>, proofs: seq<PackedProof>, needed: set<SectorKey>)
    requires AttestedExactly(list, attested) && NeededKeys(proofs, uses, needed)
    requires AllGood(bindings, list, required, uses, proofs)
    ensures LegacyOk(bindings, list, required, uses, proofs) <==>
            bindings.Keys <= needed && attested.Keys !! bindings.Keys && attested.Keys <= needed
  {
    forall key ensures key in attested.Keys <==> IsAttested(list, key) { assert AttestedAt(list, attested, key); }
  }

  /** Counting the used bindings and attestations decides whether all of them are needed. */
  lemma CountsDecide(bindings: map<SectorKey, Statement>, list: seq<Attestation>, attested: Attested, required: nat,
                     uses: seq<Use>, proofs: seq<PackedProof>, needed: set<SectorKey>)
    requires AttestedExactly(list, attested) && NeededKeys(proofs, uses, needed)
    requires AllGood(bindings, list, required, uses, proofs)
    ensures |needed * bindings.Keys| == |bindings.Keys| && |needed - bindings.Keys| == |attested.Keys| <==>
            LegacyOk(bindings, list, required, uses, proofs)
  {
    NeedsAreAttested(bindings, list, attested, required, uses, proofs, needed);
    SetsDecide(needed, bindings.Keys, attested.Keys);
    LegacyBySets(bindings, list, attested, required, uses, proofs, needed);
  }

  lemma NeededNext(proofs: seq<PackedProof>, uses: seq<Use>, i: nat, needed: set<SectorKey>)
    requires i < |proofs| && NeededKeys(proofs[..i], uses, needed)
    ensures NeededKeys(proofs[..i + 1], uses,
                       if ProofMatches(uses, proofs[i]) then needed else needed + {proofs[i].key})
  {
    assert proofs[..i + 1] == proofs[..i] + [proofs[i]];
    forall key
      ensures Needed(proofs[..i + 1], uses, key) <==>
              Needed(proofs[..i], uses, key) || (key == proofs[i].key && !ProofMatches(uses, proofs[i]))
    {
      NeededMore(proofs[..i], uses, proofs[i], key);
    }
  }

  /** One proof, by the maps. */
  method CheckProof(proof: PackedProof, ghost uses: seq<Use>, index: Index, bindings: map<SectorKey, Statement>,
                    ghost list: seq<Attestation>, attested: Attested, required: nat)
    returns (ok: bool, matches: bool)
    requires Indexed(uses, index) && AttestedExactly(list, attested)
    ensures ok <==> LegacyProofOk(bindings, list, required, uses, proof)
    ensures matches <==> ProofMatches(uses, proof)
  {
    var key := (proof.key.chain, proof.key.id);
    ProofByMap(uses, index.commitments, proof);
    GoodByMapIff(bindings, list, attested, required, uses, index.flatRoots, proof);
    matches := key in index.commitments && index.commitments[key] == proof.commitment;
    ok := matches || GoodByMap(bindings, attested, required, index.flatRoots, proof);
  }

  /** Checks the proofs, noting which statements they need. */
  method CheckLegacy(proofs: seq<PackedProof>, ghost uses: seq<Use>, index: Index, bindings: map<SectorKey, Statement>,
                     ghost list: seq<Attestation>, attested: Attested, required: nat) returns (ok: bool)
    requires Indexed(uses, index) && AttestedExactly(list, attested)
    ensures ok <==> LegacyOk(bindings, list, required, uses, proofs)
  {
    var needed: set<SectorKey> := {};
    for i := 0 to |proofs|
      invariant NeededKeys(proofs[..i], uses, needed)
      invariant forall k :: 0 <= k < i ==> LegacyProofOk(bindings, list, required, uses, proofs[k])
    {
      var good, matches := CheckProof(proofs[i], uses, index, bindings, list, attested, required);
      if !good { return false; }
      NeededNext(proofs, uses, i, needed);
      if !matches { needed := needed + {proofs[i].key}; }
    }
    assert proofs[..|proofs|] == proofs;
    CountsDecide(bindings, list, attested, required, uses, proofs, needed);
    ok := |needed * bindings.Keys| == |bindings.Keys| && |needed - bindings.Keys| == |attested.Keys|;
  }

  /** Catalogs with attestations: these are gathered, and then the proofs checked. */
  method CheckAttested(c: Checkpoint, view: CatalogView, ghost uses: seq<Use>, index: Index,
                       domains: map<NodeId, Domain>) returns (ok: bool)
    requires Indexed(uses, index) && Placed(c.members, domains) && view.proofs.Some?
    ensures ok <==> AttestedOk(c, view, uses)
  {
    if view.bindings.None? || view.attestations.None? || c.authority.None? { return false; }
    var required := Guild.Required(c.authority.value.quorum, |c.members|);
    if required.Err? { return false; }
    var bindings := GatherBindings(view.bindings.value);
    var epoch := c.authority.value.membershipEpoch;
    var gathered, attested := GatherAttestations(c, epoch, view.attestations.value, domains);
    if !gathered { return false; }
    ok := CheckLegacy(view.proofs.value, uses, index, bindings, view.attestations.value, attested, required.value);
  }
}
