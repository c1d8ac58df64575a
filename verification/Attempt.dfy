/**
 Coding attempts: what a coordinator encodes for a plan, and how a verification transcript is
 replayed into a finding. Hashes are ideal (a hash is what was hashed), signatures carry
 whether they verify, and the parity bytes are any function of the data bytes of one column.
 */
module Attempt {
  import opened Base
  import opened Merkle
  import opened Coding

  datatype AttemptError = InvalidPlan | InvalidTranscript | Incomplete | InvalidInformation

  /** One parity byte from the data bytes at the same offset; nothing else is known of the code. */
  type Code = (Profile, nat, Bytes) -> uint8

  /** The 64-bit value drawn from a challenge and a length, before masking. */
  type Draw = (Challenge, nat) -> nat

  /** The parts that replay and encoding take from outside. */
  datatype World = World(groupHash: GroupHash, code: Code, draw: Draw)

  datatype Manifest =
    Manifest(formatVersion: nat, attemptId: nat, planHash: Plan, group: Group,
             informationBytes: Option<seq<Option<Bytes>>>)

  datatype Receipt =
    Receipt(formatVersion: nat, attemptId: nat, planHash: Plan, guildId: nat, groupId: nat, shardIndex: nat,
            holder: NodeId, commitment: Commitment)

  datatype Evidence = Evidence(manifest: Signed<Manifest>, receipts: seq<Signed<Receipt>>)

  datatype HiddenChallenge = HiddenChallenge(planHash: Plan, nonce: nat)

  datatype Challenge = Challenge(planHash: Plan, nonce: nat, evidence: Evidence)

  datatype ChallengeCommitment =
    ChallengeCommitment(formatVersion: nat, attemptId: nat, planHash: Plan, commitment: HiddenChallenge)

  datatype ChallengeReveal =
    ChallengeReveal(formatVersion: nat, attemptId: nat, planHash: Plan, nonce: nat, evidenceHash: Evidence)

  datatype Opening =
    Opening(formatVersion: nat, attemptId: nat, planHash: Plan, verifier: NodeId, challenge: Challenge, shardIndex: nat,
            commitment: Commitment, proof: RangeProof)

  datatype SignedReveal = SignedReveal(value: ChallengeReveal, signer: NodeId, authentic: bool)

  datatype SignedOpening = SignedOpening(value: Opening, signer: NodeId, authentic: bool)

  datatype Transcript =
    Transcript(formatVersion: nat, verifiedAt: nat, plan: Signed<Plan>, manifest: Signed<Manifest>,
               challengeCommitment: Signed<ChallengeCommitment>, receipts: seq<Signed<Receipt>>,
               challengeReveal: SignedReveal, openings: seq<SignedOpening>)

  datatype Finding = Verified | InvalidOpening(holder: NodeId, shardIndex: nat) | InvalidCoding(coordinator: NodeId)

  // ---------------------------------------------------------------- the code

  /** The bytes of all shards at one offset. */
  function Column(shards: seq<Bytes>, t: nat): Bytes
    requires forall i :: 0 <= i < |shards| ==> t < |shards[i]|
  {
    seq(|shards|, i requires 0 <= i < |shards| => shards[i][t])
  }

  function ParityShard(code: Code, p: Profile, data: seq<Bytes>, row: nat): (r: Bytes)
    requires Sized(data, p.shardSize)
    ensures |r| == p.shardSize
  {
    seq(p.shardSize, t requires 0 <= t < p.shardSize => code(p, row, Column(data, t)))
  }

  /** The codeword: the data shards and then one parity shard per row. */
  function Codeword(code: Code, p: Profile, data: seq<Bytes>): (r: seq<Bytes>)
    requires Sized(data, p.shardSize) && |data| == p.dataShards
    ensures |r| == p.TotalShards() && Sized(r, p.shardSize)
    ensures forall i :: 0 <= i < p.dataShards ==> r[i] == data[i]
    ensures forall i :: 0 <= i < p.parityShards ==> r[p.dataShards + i] == ParityShard(code, p, data, i)
  {
    data + seq(p.parityShards, row requires 0 <= row < p.parityShards => ParityShard(code, p, data, row))
  }

  predicate SymbolOk(code: Code, p: Profile, symbols: seq<Bytes>, row: nat, t: nat)
    requires |symbols| == p.TotalShards() && forall i :: 0 <= i < |symbols| ==> |symbols[i]| == LEAF_SIZE
    requires row < p.parityShards && t < LEAF_SIZE
  {
    symbols[p.dataShards + row][t] == code(p, row, Column(symbols[..p.dataShards], t))
  }

  /** `verify_sampled_codeword`: every parity symbol follows from the data symbols above it. */
  predicate SampledCodewordOk(code: Code, p: Profile, symbols: seq<Bytes>)
    requires |symbols| == p.TotalShards() && forall i :: 0 <= i < |symbols| ==> |symbols[i]| == LEAF_SIZE
  {
    forall row, t :: 0 <= row < p.parityShards && 0 <= t < LEAF_SIZE ==> SymbolOk(code, p, symbols, row, t)
  }

  /** The same leaf of every shard. */
  function LeafOf(shards: seq<Bytes>, size: nat, leaf: nat): (r: seq<Bytes>)
    requires (forall i :: 0 <= i < |shards| ==> |shards[i]| == size) && LEAF_SIZE * leaf + LEAF_SIZE <= size
    ensures |r| == |shards| && forall i :: 0 <= i < |r| ==> |r[i]| == LEAF_SIZE
    ensures forall i :: 0 <= i < |r| ==> r[i] == shards[i][LEAF_SIZE * leaf..LEAF_SIZE * leaf + LEAF_SIZE]
  {
    seq(|shards|, i requires 0 <= i < |shards| => shards[i][LEAF_SIZE * leaf..LEAF_SIZE * leaf + LEAF_SIZE])
  }

  lemma SameColumn(a: seq<Bytes>, t: nat, b: seq<Bytes>, at: nat)
    requires |a| == |b| && forall i :: 0 <= i < |a| ==> t < |a[i]| && at < |b[i]| && a[i][t] == b[i][at]
    ensures Column(a, t) == Column(b, at)
  {
  }

  /** One symbol of a sampled leaf, from the whole shards. */
  lemma SymbolOfLeaf(code: Code, p: Profile, data: seq<Bytes>, row: nat, base: nat, t: nat, symbols: seq<Bytes>,
                     parity: Bytes)
    requires Sized(data, p.shardSize) && base + LEAF_SIZE <= p.shardSize && t < LEAF_SIZE && |symbols| == |data|
    requires forall i :: 0 <= i < |data| ==> symbols[i] == data[i][base..base + LEAF_SIZE]
    requires parity == ParityShard(code, p, data, row)[base..base + LEAF_SIZE]
    ensures parity[t] == code(p, row, Column(symbols, t))
  {
    forall i | 0 <= i < |symbols|
      ensures t < |symbols[i]| && base + t < |data[i]| && symbols[i][t] == data[i][base + t]
    {
      assert symbols[i] == data[i][base..base + LEAF_SIZE];
    }
    SameColumn(symbols, t, data, base + t);
  }

  lemma LeafSlices(word: seq<Bytes>, data: seq<Bytes>, size: nat, leaf: nat, symbols: seq<Bytes>)
    requires Sized(word, size) && |data| <= |word| && (forall i :: 0 <= i < |data| ==> word[i] == data[i])
    requires LEAF_SIZE * leaf + LEAF_SIZE <= size && symbols == LeafOf(word, size, leaf)
    ensures forall i :: 0 <= i < |data| ==>
              symbols[..|data|][i] == data[i][LEAF_SIZE * leaf..LEAF_SIZE * leaf + LEAF_SIZE]
  {
  }

  lemma WordSymbol(code: Code, p: Profile, data: seq<Bytes>, word: seq<Bytes>, leaf: nat, symbols: seq<Bytes>,
                   row: nat, t: nat)
    requires Sized(data, p.shardSize) && |data| == p.dataShards && LEAF_SIZE * leaf + LEAF_SIZE <= p.shardSize
    requires |word| == p.TotalShards() && Sized(word, p.shardSize) && row < p.parityShards && t < LEAF_SIZE
    requires (forall i :: 0 <= i < p.dataShards ==> word[i] == data[i])
    requires word[p.dataShards + row] == ParityShard(code, p, data, row)
    requires symbols == LeafOf(word, p.shardSize, leaf)
    ensures SymbolOk(code, p, symbols, row, t)
  {
    LeafSlices(word, data, p.shardSize, leaf, symbols);
    var parity := symbols[p.dataShards + row];
    assert parity == word[p.dataShards + row][LEAF_SIZE * leaf..LEAF_SIZE * leaf + LEAF_SIZE];
    SymbolOfLeaf(code, p, data, row, LEAF_SIZE * leaf, t, symbols[..p.dataShards], parity);
  }

  lemma CodewordSymbol(code: Code, p: Profile, data: seq<Bytes>, leaf: nat, symbols: seq<Bytes>, row: nat, t: nat)
    requires Sized(data, p.shardSize) && |data| == p.dataShards && LEAF_SIZE * leaf + LEAF_SIZE <= p.shardSize
    requires symbols == LeafOf(Codeword(code, p, data), p.shardSize, leaf) && row < p.parityShards && t < LEAF_SIZE
    ensures SymbolOk(code, p, symbols, row, t)
  {
    WordSymbol(code, p, data, Codeword(code, p, data), leaf, symbols, row, t);
  }

  /** One leaf of every shard of a codeword satisfies the sampled equation. */
  lemma LeafOfCodeword(code: Code, p: Profile, data: seq<Bytes>, leaf: nat, symbols: seq<Bytes>)
    requires Sized(data, p.shardSize) && |data| == p.dataShards && LEAF_SIZE * leaf + LEAF_SIZE <= p.shardSize
    requires symbols == LeafOf(Codeword(code, p, data), p.shardSize, leaf)
    ensures SampledCodewordOk(code, p, symbols)
  {
    forall row, t | 0 <= row < p.parityShards && 0 <= t < LEAF_SIZE ensures SymbolOk(code, p, symbols, row, t) {
      CodewordSymbol(code, p, data, leaf, symbols, row, t);
    }
  }

  /** The equation holds at one leaf of committed shards, whoever made them. */
  predicate LeafPasses(code: Code, p: Profile, word: seq<Bytes>, leaf: nat)
    requires |word| == p.TotalShards() && Sized(word, p.shardSize) && LEAF_SIZE * leaf + LEAF_SIZE <= p.shardSize
  {
    SampledCodewordOk(code, p, LeafOf(word, p.shardSize, leaf))
  }

  ghost predicate AllPass(code: Code, p: Profile, word: seq<Bytes>)
    requires |word| == p.TotalShards() && Sized(word, p.shardSize)
  {
    forall leaf: nat :: LEAF_SIZE * leaf + LEAF_SIZE <= p.shardSize ==> LeafPasses(code, p, word, leaf)
  }

  lemma PassedByte(code: Code, p: Profile, word: seq<Bytes>, leaf: nat, row: nat, t: nat)
    requires |word| == p.TotalShards() && Sized(word, p.shardSize) && LEAF_SIZE * leaf + LEAF_SIZE <= p.shardSize
    requires row < p.parityShards && t < LEAF_SIZE && LeafPasses(code, p, word, leaf)
    ensures Sized(word[..p.dataShards], p.shardSize)
    ensures word[p.dataShards + row][LEAF_SIZE * leaf + t] ==
            code(p, row, Column(word[..p.dataShards], LEAF_SIZE * leaf + t))
  {
    var symbols, data := LeafOf(word, p.shardSize, leaf), word[..p.dataShards];
    assert SymbolOk(code, p, symbols, row, t);
    LeafSlices(word, data, p.shardSize, leaf, symbols);
    SameColumn(symbols[..p.dataShards], t, data, LEAF_SIZE * leaf + t);
  }

  lemma PassedShard(code: Code, p: Profile, word: seq<Bytes>, row: nat)
    requires |word| == p.TotalShards() && Sized(word, p.shardSize) && p.shardSize % LEAF_SIZE == 0
    requires AllPass(code, p, word) && row < p.parityShards
    ensures Sized(word[..p.dataShards], p.shardSize)
    ensures word[p.dataShards + row] == ParityShard(code, p, word[..p.dataShards], row)
  {
    var data := word[..p.dataShards];
    forall x | 0 <= x < p.shardSize ensures word[p.dataShards + row][x] == ParityShard(code, p, data, row)[x] {
      var leaf, t := x / LEAF_SIZE, x % LEAF_SIZE;
      LeafInside(leaf, p.shardSize);
      assert LeafPasses(code, p, word, leaf);
      PassedByte(code, p, word, leaf, row, t);
    }
  }

  lemma LeafInside(leaf: nat, size: nat)
    requires leaf < size / LEAF_SIZE || (size % LEAF_SIZE == 0 && LEAF_SIZE * leaf < size)
    ensures LEAF_SIZE * leaf + LEAF_SIZE <= size && LEAF_SIZE * (leaf + 1) == LEAF_SIZE * leaf + LEAF_SIZE
  {
  }

  lemma CodewordPasses(code: Code, p: Profile, data: seq<Bytes>)
    requires Sized(data, p.shardSize) && |data| == p.dataShards
    ensures AllPass(code, p, Codeword(code, p, data))
  {
    var word := Codeword(code, p, data);
    forall leaf: nat | LEAF_SIZE * leaf + LEAF_SIZE <= p.shardSize ensures LeafPasses(code, p, word, leaf) {
      LeafOfCodeword(code, p, data, leaf, LeafOf(word, p.shardSize, leaf));
    }
  }

  lemma IsCodeword(code: Code, p: Profile, word: seq<Bytes>, data: seq<Bytes>)
    requires Sized(data, p.shardSize) && |data| == p.dataShards && |word| == p.TotalShards()
    requires forall i :: 0 <= i < p.dataShards ==> word[i] == data[i]
    requires forall i :: 0 <= i < p.parityShards ==> word[p.dataShards + i] == ParityShard(code, p, data, i)
    ensures word == Codeword(code, p, data)
  {
    var made := Codeword(code, p, data);
    forall i | 0 <= i < |word| ensures word[i] == made[i] {
      if i >= p.dataShards { assert i == p.dataShards + (i - p.dataShards); }
    }
  }

  lemma PassingIsCodeword(code: Code, p: Profile, word: seq<Bytes>)
    requires |word| == p.TotalShards() && Sized(word, p.shardSize) && p.shardSize % LEAF_SIZE == 0
    requires AllPass(code, p, word)
    ensures Sized(word[..p.dataShards], p.shardSize) && word == Codeword(code, p, word[..p.dataShards])
  {
    var data := word[..p.dataShards];
    forall i | 0 <= i < p.parityShards ensures word[p.dataShards + i] == ParityShard(code, p, data, i) {
      PassedShard(code, p, word, i);
    }
    IsCodeword(code, p, word, data);
  }

  /** Sampling misses nothing in the end: shards are a codeword exactly when every leaf of them passes. */
  lemma CodewordIff(code: Code, p: Profile, word: seq<Bytes>)
    requires |word| == p.TotalShards() && Sized(word, p.shardSize) && p.shardSize % LEAF_SIZE == 0
    ensures Sized(word[..p.dataShards], p.shardSize)
    ensures word == Codeword(code, p, word[..p.dataShards]) <==> AllPass(code, p, word)
  {
    if AllPass(code, p, word) { PassingIsCodeword(code, p, word); }
    CodewordPasses(code, p, word[..p.dataShards]);
  }

  // ---------------------------------------------------------------- encoding

  /** What a delegated input must be. */
  predicate InputOk(plan: Plan, i: nat, input: Option<Bytes>)
    requires i < |plan.geometry.information|
    requires plan.informationRoots.Some? ==> |plan.informationRoots.value| == |plan.geometry.information|
  {
    var sector := plan.geometry.information[i].sector;
    && (sector.virtualZero <==> input.None?)
    && var bytes := if sector.virtualZero then Zeros(plan.geometry.profile.shardSize) else input.value;
    && CommitSpec(bytes) == Ok(sector.commitment)
    && (plan.informationRoots.Some? && !sector.virtualZero
        && (plan.formatVersion == 3 || plan.informationRoots.value[i] != sector.commitment.root) ==>
          FlatHash(bytes) == plan.informationRoots.value[i])
  }

  predicate InputsOk(plan: Plan, information: seq<Option<Bytes>>)
    requires PlanOk(plan)
  {
    |information| == |plan.geometry.information|
    && forall i :: 0 <= i < |information| ==> InputOk(plan, i, information[i])
  }

  /** The data shards: the inputs, with zeros for the virtual ones. */
  function DataShards(plan: Plan, information: seq<Option<Bytes>>): (r: seq<Bytes>)
    requires PlanOk(plan) && InputsOk(plan, information)
    ensures |r| == |information|
    ensures forall i :: 0 <= i < |r| ==>
              r[i] == if information[i].None? then Zeros(plan.geometry.profile.shardSize) else information[i].value
  {
    seq(|information|, i requires 0 <= i < |information| =>
      if information[i].None? then Zeros(plan.geometry.profile.shardSize) else information[i].value)
  }

  /** Committed inputs have the length their commitments say. */
  lemma DataShardsSized(plan: Plan, information: seq<Option<Bytes>>)
    requires PlanOk(plan) && InputsOk(plan, information)
    ensures Sized(DataShards(plan, information), plan.geometry.profile.shardSize)
    ensures forall i :: 0 <= i < |information| ==>
              CommitSpec(DataShards(plan, information)[i]) == Ok(plan.geometry.information[i].sector.commitment)
  {
    var data := DataShards(plan, information);
    forall i | 0 <= i < |data|
      ensures CommitSpec(data[i]) == Ok(plan.geometry.information[i].sector.commitment)
              && |data[i]| == plan.geometry.profile.shardSize
    {
      assert InputOk(plan, i, information[i]);
      assert SectorOk(plan.geometry.profile, plan.geometry.information[i].sector);
    }
  }

  /** The information roles and then a committed parity role per placement. */
  function RolesFor(g: Geometry, commitments: seq<Commitment>): (r: seq<ShardRole>)
    requires |commitments| == |g.parity|
    ensures |r| == |g.information| + |g.parity|
    ensures forall i :: 0 <= i < |g.information| ==> r[i] == Information(g.information[i])
    ensures forall i :: 0 <= i < |g.parity| ==>
              r[|g.information| + i]
              == Parity(ParityRole(g.parity[i].holder, g.parity[i].failureDomain, g.parity[i].row, commitments[i]))
  {
    seq(|g.information|, i requires 0 <= i < |g.information| => Information(g.information[i]))
    + seq(|g.parity|, i requires 0 <= i < |g.parity| =>
        Parity(ParityRole(g.parity[i].holder, g.parity[i].failureDomain, g.parity[i].row, commitments[i])))
  }

  function GroupFor(w: World, plan: Plan, commitments: seq<Commitment>): Group
    requires |commitments| == |plan.geometry.parity|
  {
    var roles := RolesFor(plan.geometry, commitments);
    var version := if plan.formatVersion == 3 then 3 else 2;
    Group(w.groupHash(version, plan.geometry.guildId, plan.geometry.profile, roles), version, plan.geometry.guildId,
          plan.geometry.profile, roles)
  }

  function ManifestFor(w: World, plan: Plan, information: seq<Option<Bytes>>, commitments: seq<Commitment>): Manifest
    requires |commitments| == |plan.geometry.parity|
  {
    Manifest(if plan.formatVersion == 3 then 3 else 1, plan.attemptId, plan, GroupFor(w, plan, commitments),
             if plan.formatVersion == 3 then Some(information) else None)
  }

  /** The commitments of the parity shards. */
  ghost predicate ParityCommitted(w: World, plan: Plan, data: seq<Bytes>, commitments: seq<Commitment>)
    requires Sized(data, plan.geometry.profile.shardSize)
  {
    && |commitments| == |plan.geometry.parity|
    && forall i :: 0 <= i < |commitments| ==>
         CommitSpec(ParityShard(w.code, plan.geometry.profile, data, i)) == Ok(commitments[i])
  }

  /** The manifest is what encoding the plan's inputs gives. */
  ghost predicate EncodedFrom(w: World, plan: Plan, information: seq<Option<Bytes>>, manifest: Manifest) {
    && PlanOk(plan) && InputsOk(plan, information)
    && (DataShardsSized(plan, information);
        exists commitments ::
          ParityCommitted(w, plan, DataShards(plan, information), commitments)
          && manifest == ManifestFor(w, plan, information, commitments))
  }

  lemma ShardSizeOk(p: Profile)
    requires ProfileOk(p)
    ensures ValidDataLength(p.shardSize) && p.shardSize / LEAF_SIZE >= 1
  {
    SizeIsDataLength(p.shardSize);
  }

  // ---------------------------------------------------------------- what encoding gives

  lemma CommitmentOk(bytes: Bytes)
    requires CommitSpec(bytes).Ok?
    ensures ValidCommitment(CommitSpec(bytes).value) && CommitSpec(bytes).value.byteLen == |bytes|
  {
  }

  lemma EncodedRoleOk(w: World, plan: Plan, data: seq<Bytes>, commitments: seq<Commitment>, i: nat)
    requires PlanOk(plan) && Sized(data, plan.geometry.profile.shardSize) && ParityCommitted(w, plan, data, commitments)
    requires i < |plan.geometry.information| + |plan.geometry.parity|
    ensures RoleOk(plan.geometry.profile, i, RolesFor(plan.geometry, commitments)[i])
    ensures RolesFor(plan.geometry, commitments)[i].FailureDomain() == plan.geometry.DomainAt(i)
  {
    var g := plan.geometry;
    if i >= |g.information| {
      var row := i - |g.information|;
      assert RolesFor(g, commitments)[|g.information| + row].Parity?;
      CommitmentOk(ParityShard(w.code, g.profile, data, row));
    }
  }

  /** The group that encoding builds is valid and has the plan's roles. */
  lemma EncodedGroupOk(w: World, plan: Plan, data: seq<Bytes>, commitments: seq<Commitment>)
    requires PlanOk(plan) && Sized(data, plan.geometry.profile.shardSize) && ParityCommitted(w, plan, data, commitments)
    ensures MatchesGeometry(w.groupHash, plan.geometry, GroupFor(w, plan, commitments))
  {
    var roles := RolesFor(plan.geometry, commitments);
    forall i | 0 <= i < |roles|
      ensures RoleOk(plan.geometry.profile, i, roles[i]) && roles[i].FailureDomain() == plan.geometry.DomainAt(i)
    {
      EncodedRoleOk(w, plan, data, commitments, i);
    }
    RolesMatch(plan.geometry, commitments);
  }

  lemma RolesMatch(g: Geometry, commitments: seq<Commitment>)
    requires |commitments| == |g.parity|
    ensures forall i :: 0 <= i < |g.parity| ==> RoleMatches(RolesFor(g, commitments)[|g.information| + i], g.parity[i])
  {
    forall i | 0 <= i < |g.parity| ensures RoleMatches(RolesFor(g, commitments)[|g.information| + i], g.parity[i]) {
      var role := RolesFor(g, commitments)[|g.information| + i];
      assert role == Parity(ParityRole(g.parity[i].holder, g.parity[i].failureDomain, g.parity[i].row, commitments[i]));
    }
  }

  // ---------------------------------------------------------------- manifests

  /** The full bytes of one information shard, where a manifest carries them. */
  predicate BytesOk(plan: Plan, i: nat, bytes: Option<Bytes>)
    requires i < |plan.geometry.information|
  {
    var sector := plan.geometry.information[i].sector;
    if sector.virtualZero then bytes.None?
    else
      && bytes.Some? && |bytes.value| == plan.geometry.profile.shardSize
      && CommitSpec(bytes.value) == Ok(sector.commitment)
      && plan.informationRoots.Some? && i < |plan.informationRoots.value|
      && plan.informationRoots.value[i] == FlatHash(bytes.value)
  }

  predicate ManifestFormatOk(plan: Plan, m: Manifest) {
    if plan.formatVersion == 3 then (m.formatVersion == 2 || m.formatVersion == 3) && m.informationBytes.Some?
    else m.formatVersion == 1 && m.informationBytes.None? && m.group.formatVersion == 2
  }

  /** `validate_for_plan`. */
  predicate ManifestOk(w: World, plan: Plan, m: Manifest) {
    && ManifestFormatOk(plan, m) && m.attemptId == plan.attemptId && m.planHash == plan
    && MatchesGeometry(w.groupHash, plan.geometry, m.group)
    && (m.informationBytes.Some? ==>
          && |m.informationBytes.value| == |plan.geometry.information|
          && forall i :: 0 <= i < |m.informationBytes.value| ==> BytesOk(plan, i, m.informationBytes.value[i]))
  }

  lemma InputIsBytes(plan: Plan, information: seq<Option<Bytes>>, i: nat)
    requires PlanOk(plan) && plan.formatVersion == 3 && InputsOk(plan, information) && i < |information|
    ensures BytesOk(plan, i, information[i])
  {
    assert InputOk(plan, i, information[i]);
    DataShardsSized(plan, information);
  }

  /** An encoded manifest is accepted for its plan. */
  lemma EncodedManifestOk(w: World, plan: Plan, information: seq<Option<Bytes>>, m: Manifest)
    requires EncodedFrom(w, plan, information, m)
    ensures ManifestOk(w, plan, m)
  {
    DataShardsSized(plan, information);
    var commitments :| ParityCommitted(w, plan, DataShards(plan, information), commitments)
                       && m == ManifestFor(w, plan, information, commitments);
    EncodedGroupOk(w, plan, DataShards(plan, information), commitments);
    if plan.formatVersion == 3 {
      forall i | 0 <= i < |information| ensures BytesOk(plan, i, information[i]) { InputIsBytes(plan, information, i); }
    }
  }
}
