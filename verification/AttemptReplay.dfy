/**
 Running a coding attempt: encoding, replaying a transcript, and the two promises of the
 protocol. An honest run verifies, and an honestly encoded manifest is never found miscoded.
 */
module AttemptReplay {
  import opened Base
  import opened Merkle
  import MerkleSuite
  import opened Coding
  import opened Attempt

  // ---------------------------------------------------------------- encoding

  datatype Encoded = Encoded(manifest: Signed<Manifest>, parity: seq<Bytes>)

  /** When encoding goes ahead. */
  predicate Encodable(signedPlan: Signed<Plan>, information: seq<Option<Bytes>>, coordinator: NodeId) {
    && signedPlan.authentic && PlanOk(signedPlan.value) && signedPlan.signer == signedPlan.value.delegator
    && coordinator == signedPlan.value.codingCoordinator && InputsOk(signedPlan.value, information)
  }

  /** Checks the delegated inputs one by one. */
  method CheckInputs(plan: Plan, information: seq<Option<Bytes>>) returns (r: Result<seq<Bytes>, AttemptError>)
    requires PlanOk(plan) && |information| == |plan.geometry.information|
    ensures r.Ok? <==> InputsOk(plan, information)
    ensures r.Ok? ==> r.value == DataShards(plan, information)
    ensures r.Err? ==> r.error == InvalidInformation
  {
    var data: seq<Bytes> := [];
    for i := 0 to |information|
      invariant |data| == i
      invariant forall k :: 0 <= k < i ==> InputOk(plan, k, information[k])
      invariant forall k :: 0 <= k < i ==>
                  data[k] == if information[k].None? then Zeros(plan.geometry.profile.shardSize)
                             else information[k].value
    {
      if !InputOk(plan, i, information[i]) { return Err(InvalidInformation); }
      data := data + [if information[i].None? then Zeros(plan.geometry.profile.shardSize) else information[i].value];
    }
    return Ok(data);
  }

  /** Commits to every parity shard. */
  method CommitParity(w: World, plan: Plan, data: seq<Bytes>) returns (parity: seq<Bytes>, commitments: seq<Commitment>)
    requires PlanOk(plan) && Sized(data, plan.geometry.profile.shardSize)
    ensures ParityCommitted(w, plan, data, commitments)
    ensures |parity| == |plan.geometry.parity|
    ensures forall i :: 0 <= i < |parity| ==> parity[i] == ParityShard(w.code, plan.geometry.profile, data, i)
  {
    parity, commitments := [], [];
    ShardSizeOk(plan.geometry.profile);
    for row := 0 to |plan.geometry.parity|
      invariant |parity| == |commitments| == row
      invariant forall i :: 0 <= i < row ==>
                  parity[i] == ParityShard(w.code, plan.geometry.profile, data, i)
                    && CommitSpec(parity[i]) == Ok(commitments[i])
    {
      var shard := ParityShard(w.code, plan.geometry.profile, data, row);
      var commitment := MerkleSuite.Commit(shard);
      parity, commitments := parity + [shard], commitments + [commitment.value];
    }
  }

  /** `encode_coding_attempt`. Once the inputs are accepted, nothing later can fail. */
  method EncodeAttempt(w: World, signedPlan: Signed<Plan>, information: seq<Option<Bytes>>, coordinator: NodeId)
    returns (r: Result<Encoded, AttemptError>)
    ensures r.Ok? <==> Encodable(signedPlan, information, coordinator)
    ensures r.Ok? ==> r.value.manifest == Signed(r.value.manifest.value, coordinator, true)
                      && EncodedFrom(w, signedPlan.value, information, r.value.manifest.value)
    ensures r.Ok? ==> (DataShardsSized(signedPlan.value, information);
                       var p := signedPlan.value.geometry.profile;
                       && |r.value.parity| == p.parityShards
                       && forall i :: 0 <= i < |r.value.parity| ==>
                            r.value.parity[i] == ParityShard(w.code, p, DataShards(signedPlan.value, information), i))
  {
    var plan := signedPlan.value;
    if !signedPlan.authentic || !PlanOk(plan) || signedPlan.signer != plan.delegator
       || coordinator != plan.codingCoordinator
       || |information| != |plan.geometry.information|
    {
      return Err(InvalidPlan);
    }
    var data := CheckInputs(plan, information);
    if data.Err? { return Err(data.error); }
    DataShardsSized(plan, information);
    var parity, commitments := CommitParity(w, plan, data.value);
    var manifest := ManifestFor(w, plan, information, commitments);
    EncodedGroupOk(w, plan, data.value, commitments);
    var valid := ValidateGroup(w.groupHash, manifest.group);
    if !valid { assert false; }
    return Ok(Encoded(Signed(manifest, coordinator, true), parity));
  }

  // ---------------------------------------------------------------- the shape of a transcript

  predicate ReceiptOk(plan: Plan, group: Group, index: nat, r: Signed<Receipt>)
    requires index < |group.roles|
  {
    && r.authentic && group.roles[index].Parity? && r.signer == group.roles[index].parity.holder
    && r.value == Receipt(1, plan.attemptId, plan, group.guildId, group.id, index, r.signer,
                          group.roles[index].parity.commitment)
  }

  predicate ChallengeOk(plan: Plan, t: Transcript) {
    && t.challengeCommitment.authentic && t.challengeReveal.authentic
    && t.challengeCommitment.signer == plan.verificationCoordinator
       && t.challengeReveal.signer == plan.verificationCoordinator
    && t.challengeReveal.value
       == ChallengeReveal(1, plan.attemptId, plan, t.challengeReveal.value.nonce, Evidence(t.manifest, t.receipts))
    && t.challengeCommitment.value
       == ChallengeCommitment(1, plan.attemptId, plan, HiddenChallenge(plan, t.challengeReveal.value.nonce))
  }

  function ChallengeOf(t: Transcript): Challenge {
    Challenge(t.plan.value, t.challengeReveal.value.nonce, Evidence(t.manifest, t.receipts))
  }

  /** Who signed what, before any opening is looked at. */
  predicate FrameOk(w: World, signed: Signed<Transcript>) {
    var t := signed.value;
    var plan := t.plan.value;
    && signed.authentic && PlanOk(plan) && t.formatVersion == 1 && 0 < t.verifiedAt <= plan.expiresAt
    && t.plan.authentic && t.plan.signer == plan.delegator && signed.signer == plan.verificationCoordinator
    && t.manifest.authentic && t.manifest.signer == plan.codingCoordinator && ManifestOk(w, plan, t.manifest.value)
  }

  predicate EvidenceOk(t: Transcript) {
    var plan, group := t.plan.value, t.manifest.value.group;
    && |t.receipts| == group.profile.parityShards && |group.roles| == group.profile.TotalShards()
    && (forall i :: 0 <= i < |t.receipts| ==> ReceiptOk(plan, group, group.profile.dataShards + i, t.receipts[i]))
    && ChallengeOk(plan, t)
    && |t.openings| == |group.roles|
  }

  predicate TranscriptOk(w: World, signed: Signed<Transcript>) {
    FrameOk(w, signed) && EvidenceOk(signed.value)
  }

  /** Why a transcript is not accepted: something is wrong in it, or merely missing. */
  function Flaw(w: World, signed: Signed<Transcript>): AttemptError {
    var t := signed.value;
    if !FrameOk(w, signed) then (if signed.authentic && !PlanOk(t.plan.value) then InvalidPlan else InvalidTranscript)
    else if |t.receipts| != t.manifest.value.group.profile.parityShards then Incomplete
    else if !ReceiptsOk(t) || !ChallengeOk(t.plan.value, t) then InvalidTranscript
    else Incomplete
  }

  predicate ReceiptsOk(t: Transcript) {
    var group := t.manifest.value.group;
    && |t.receipts| + group.profile.dataShards == |group.roles|
    && forall i :: 0 <= i < |t.receipts| ==>
         ReceiptOk(t.plan.value, group, group.profile.dataShards + i, t.receipts[i])
  }

  // ---------------------------------------------------------------- openings

  datatype Verdict = Rejected | Faulty | Accepted(symbol: Bytes)

  /** The leaf a challenge selects; masking by a power of two less one is the remainder. */
  function ChallengedLeaf(w: World, challenge: Challenge, byteLen: nat): (leaf: nat)
    requires byteLen / LEAF_SIZE >= 1
    ensures leaf < byteLen / LEAF_SIZE
  {
    w.draw(challenge, byteLen) % (byteLen / LEAF_SIZE)
  }

  /** What replay makes of one opening. */
  function Judge(w: World, plan: Plan, role: ShardRole, challenge: Challenge, index: nat,
                 o: SignedOpening): (v: Verdict)
    ensures v.Accepted? ==> |v.symbol| == LEAF_SIZE
  {
    var root := role.Root();
    if !o.authentic || o.signer != role.Node() || !ValidCommitment(root) || root.byteLen / LEAF_SIZE < 1 then Rejected
    else if o.value != Opening(1, plan.attemptId, plan, plan.verificationCoordinator, challenge, index, root,
                               o.value.proof)
            || o.value.proof.startLeaf != ChallengedLeaf(w, challenge, root.byteLen) || |o.value.proof.leaves| != 1
    then Faulty
    else
      match VerifyRangeSpec(root, o.value.proof)
      case Err(_) => Faulty
      case Ok(bytes) => if |bytes| != LEAF_SIZE then Faulty else Accepted(bytes)
  }

  function JudgeAt(w: World, t: Transcript, i: nat): Verdict
    requires i < |t.openings| && |t.openings| == |t.manifest.value.group.roles|
  {
    Judge(w, t.plan.value, t.manifest.value.group.roles[i], ChallengeOf(t), i, t.openings[i])
  }

  ghost predicate AllAccepted(w: World, t: Transcript)
    requires |t.openings| == |t.manifest.value.group.roles|
  {
    forall i :: 0 <= i < |t.openings| ==> JudgeAt(w, t, i).Accepted?
  }

  ghost function Symbols(w: World, t: Transcript): (r: seq<Bytes>)
    requires |t.openings| == |t.manifest.value.group.roles| && AllAccepted(w, t)
    ensures |r| == |t.openings| && forall i :: 0 <= i < |r| ==> |r[i]| == LEAF_SIZE
  {
    seq(|t.openings|, i requires 0 <= i < |t.openings| => JudgeAt(w, t, i).symbol)
  }

  /** The first opening that is not accepted. */
  ghost predicate FirstBad(w: World, t: Transcript, i: nat)
    requires |t.openings| == |t.manifest.value.group.roles|
  {
    i < |t.openings| && !JudgeAt(w, t, i).Accepted? && forall k :: 0 <= k < i ==> JudgeAt(w, t, k).Accepted?
  }

  // ---------------------------------------------------------------- replay

  /** Checks the receipts one by one. */
  method CheckReceipts(plan: Plan, group: Group, receipts: seq<Signed<Receipt>>) returns (ok: bool)
    requires |receipts| + group.profile.dataShards == |group.roles|
    ensures ok <==> forall i :: 0 <= i < |receipts| ==>
              ReceiptOk(plan, group, group.profile.dataShards + i, receipts[i])
  {
    for i := 0 to |receipts|
      invariant forall k :: 0 <= k < i ==> ReceiptOk(plan, group, group.profile.dataShards + k, receipts[k])
    {
      if !ReceiptOk(plan, group, group.profile.dataShards + i, receipts[i]) { return false; }
    }
    return true;
  }

  /** Collects the symbols of the openings, up to the first one that is not accepted. */
  method CollectSymbols(w: World, t: Transcript) returns (symbols: seq<Bytes>, bad: Option<nat>)
    requires |t.openings| == |t.manifest.value.group.roles|
    ensures bad.None? <==> AllAccepted(w, t)
    ensures bad.None? ==> symbols == Symbols(w, t)
    ensures bad.Some? ==> FirstBad(w, t, bad.value)
  {
    symbols := [];
    for i := 0 to |t.openings|
      invariant |symbols| == i
      invariant forall k :: 0 <= k < i ==> JudgeAt(w, t, k).Accepted? && symbols[k] == JudgeAt(w, t, k).symbol
    {
      var verdict := JudgeAt(w, t, i);
      if !verdict.Accepted? { return symbols, Some(i); }
      symbols := symbols + [verdict.symbol];
    }
    return symbols, None;
  }

  lemma FrameRoles(w: World, signed: Signed<Transcript>)
    requires FrameOk(w, signed)
    ensures |signed.value.manifest.value.group.roles| == signed.value.manifest.value.group.profile.TotalShards()
  {
  }

  /** Everything about a transcript except what its openings show. */
  method CheckTranscript(w: World, signed: Signed<Transcript>) returns (r: Result<(), AttemptError>)
    ensures r == if TranscriptOk(w, signed) then Ok(()) else Err(Flaw(w, signed))
  {
    var t := signed.value;
    if !FrameOk(w, signed) {
      return Err(if signed.authentic && !PlanOk(t.plan.value) then InvalidPlan else InvalidTranscript);
    }
    FrameRoles(w, signed);
    var plan, group := t.plan.value, t.manifest.value.group;
    if |t.receipts| != group.profile.parityShards { return Err(Incomplete); }
    var receipts := CheckReceipts(plan, group, t.receipts);
    if !receipts || !ChallengeOk(plan, t) { return Err(InvalidTranscript); }
    if |t.openings| != |group.roles| { return Err(Incomplete); }
    return Ok(());
  }

  /** `replay_coding_transcript`. */
  method ReplayTranscript(w: World, signed: Signed<Transcript>) returns (r: Result<Finding, AttemptError>)
    ensures !TranscriptOk(w, signed) ==> r == Err(Flaw(w, signed))
    ensures TranscriptOk(w, signed) && AllAccepted(w, signed.value) ==>
              r == Ok(if SampledCodewordOk(w.code, signed.value.manifest.value.group.profile, Symbols(w, signed.value))
                      then Verified else InvalidCoding(signed.value.plan.value.codingCoordinator))
    ensures TranscriptOk(w, signed) ==> forall i: nat :: FirstBad(w, signed.value, i) ==>
              r == if JudgeAt(w, signed.value, i).Faulty?
                   then Ok(InvalidOpening(signed.value.manifest.value.group.roles[i].Node(), i))
                   else Err(InvalidTranscript)
  {
    var t := signed.value;
    var checked := CheckTranscript(w, signed);
    if checked.Err? { return Err(checked.error); }
    var plan, group := t.plan.value, t.manifest.value.group;
    var symbols, bad := CollectSymbols(w, t);
    if bad.Some? {
      OneFirstBad(w, t, bad.value);
      return if JudgeAt(w, t, bad.value).Faulty? then Ok(InvalidOpening(group.roles[bad.value].Node(), bad.value))
             else Err(InvalidTranscript);
    }
    return Ok(if SampledCodewordOk(w.code, group.profile, symbols) then Verified
              else InvalidCoding(plan.codingCoordinator));
  }

  lemma OneFirstBad(w: World, t: Transcript, i: nat)
    requires |t.openings| == |t.manifest.value.group.roles| && FirstBad(w, t, i)
    ensures forall k: nat :: FirstBad(w, t, k) ==> k == i
    ensures !AllAccepted(w, t)
  {
  }

  // ---------------------------------------------------------------- encoded manifests are never miscoded

  /** The commitments in the roles of an encoded group are those of the codeword's shards. */
  ghost predicate Shards(p: Profile, roles: seq<ShardRole>, word: seq<Bytes>) {
    && |roles| == |word| == p.TotalShards() && Sized(word, p.shardSize)
    && forall i :: 0 <= i < |roles| ==> CommitSpec(word[i]) == Ok(roles[i].Root())
  }

  lemma RoleCommits(w: World, plan: Plan, data: seq<Bytes>, commitments: seq<Commitment>, i: nat)
    requires PlanOk(plan) && Sized(data, plan.geometry.profile.shardSize) && |data| == plan.geometry.profile.dataShards
    requires ParityCommitted(w, plan, data, commitments) && i < plan.geometry.profile.TotalShards()
    requires forall k :: 0 <= k < |data| ==> CommitSpec(data[k]) == Ok(plan.geometry.information[k].sector.commitment)
    ensures CommitSpec(Codeword(w.code, plan.geometry.profile, data)[i]) ==
            Ok(RolesFor(plan.geometry, commitments)[i].Root())
  {
    var g := plan.geometry;
    ShardCommits(w, g, data, commitments, i);
  }

  /** The same, from the shape of the geometry alone. */
  lemma ShardCommits(w: World, g: Geometry, data: seq<Bytes>, commitments: seq<Commitment>, i: nat)
    requires Sized(data, g.profile.shardSize) && |data| == g.profile.dataShards == |g.information|
    requires |commitments| == |g.parity| == g.profile.parityShards && i < g.profile.TotalShards()
    requires forall k :: 0 <= k < |data| ==> CommitSpec(data[k]) == Ok(g.information[k].sector.commitment)
    requires forall k :: 0 <= k < |commitments| ==>
               CommitSpec(ParityShard(w.code, g.profile, data, k)) == Ok(commitments[k])
    ensures CommitSpec(Codeword(w.code, g.profile, data)[i]) == Ok(RolesFor(g, commitments)[i].Root())
  {
    if i < |g.information| {
      InformationShard(w, g, data, commitments, i);
    } else {
      ParityShardAt(w, g, data, commitments, i - |g.information|);
    }
  }

  lemma InformationShard(w: World, g: Geometry, data: seq<Bytes>, commitments: seq<Commitment>, i: nat)
    requires Sized(data, g.profile.shardSize) && |data| == g.profile.dataShards == |g.information| && i < |data|
    requires |commitments| == |g.parity|
    ensures Codeword(w.code, g.profile, data)[i] == data[i]
    ensures RolesFor(g, commitments)[i].Root() == g.information[i].sector.commitment
  {
  }

  lemma ParityShardAt(w: World, g: Geometry, data: seq<Bytes>, commitments: seq<Commitment>, row: nat)
    requires Sized(data, g.profile.shardSize) && |data| == g.profile.dataShards == |g.information|
    requires |commitments| == |g.parity| == g.profile.parityShards && row < |g.parity|
    ensures Codeword(w.code, g.profile, data)[|g.information| + row] == ParityShard(w.code, g.profile, data, row)
    ensures RolesFor(g, commitments)[|g.information| + row].Root() == commitments[row]
  {
  }

  lemma GroupShards(w: World, plan: Plan, data: seq<Bytes>, commitments: seq<Commitment>)
    requires PlanOk(plan) && Sized(data, plan.geometry.profile.shardSize) && |data| == plan.geometry.profile.dataShards
    requires ParityCommitted(w, plan, data, commitments)
    requires forall k :: 0 <= k < |data| ==> CommitSpec(data[k]) == Ok(plan.geometry.information[k].sector.commitment)
    ensures Shards(plan.geometry.profile, RolesFor(plan.geometry, commitments),
                   Codeword(w.code, plan.geometry.profile, data))
  {
    var roles, word := RolesFor(plan.geometry, commitments), Codeword(w.code, plan.geometry.profile, data);
    forall i | 0 <= i < |roles| ensures CommitSpec(word[i]) == Ok(roles[i].Root()) {
      RoleCommits(w, plan, data, commitments, i);
    }
  }

  lemma EncodedCodeword(w: World, plan: Plan, information: seq<Option<Bytes>>, m: Manifest)
    requires EncodedFrom(w, plan, information, m)
    ensures var data := DataShards(plan, information);
            && Sized(data, plan.geometry.profile.shardSize) && |data| == plan.geometry.profile.dataShards
            && Shards(plan.geometry.profile, m.group.roles, Codeword(w.code, plan.geometry.profile, data))
            && m.group.profile == plan.geometry.profile
  {
    DataShardsSized(plan, information);
    var data := DataShards(plan, information);
    var commitments :| ParityCommitted(w, plan, data, commitments)
      && m == ManifestFor(w, plan, information, commitments);
    GroupShards(w, plan, data, commitments);
  }

  /** An accepted opening shows the challenged leaf of its shard. */
  lemma AcceptedIsLeaf(w: World, plan: Plan, role: ShardRole, challenge: Challenge, i: nat, o: SignedOpening,
                       shard: Bytes)
    requires CommitSpec(shard) == Ok(role.Root()) && Judge(w, plan, role, challenge, i, o).Accepted?
    requires |shard| / LEAF_SIZE >= 1
    ensures var leaf := ChallengedLeaf(w, challenge, |shard|);
            && LEAF_SIZE * leaf + LEAF_SIZE <= |shard|
            && Judge(w, plan, role, challenge, i, o).symbol == shard[LEAF_SIZE * leaf..LEAF_SIZE * leaf + LEAF_SIZE]
  {
    RangeBinding(shard, o.value.proof);
    LeafInside(ChallengedLeaf(w, challenge, |shard|), |shard|);
  }

  /** All accepted openings together are one leaf of the codeword. */
  lemma AcceptedIsColumn(w: World, t: Transcript, p: Profile, word: seq<Bytes>)
    requires ProfileOk(p) && Shards(p, t.manifest.value.group.roles, word)
    requires |t.openings| == |t.manifest.value.group.roles| && AllAccepted(w, t)
    ensures p.shardSize / LEAF_SIZE >= 1
    ensures var leaf := ChallengedLeaf(w, ChallengeOf(t), p.shardSize);
            LEAF_SIZE * leaf + LEAF_SIZE <= p.shardSize && Symbols(w, t) == LeafOf(word, p.shardSize, leaf)
  {
    ShardSizeOk(p);
    var leaf := ChallengedLeaf(w, ChallengeOf(t), p.shardSize);
    LeafInside(leaf, p.shardSize);
    forall i | 0 <= i < |t.openings| ensures Symbols(w, t)[i] == LeafOf(word, p.shardSize, leaf)[i] {
      assert JudgeAt(w, t, i).Accepted?;
      AcceptedIsLeaf(w, t.plan.value, t.manifest.value.group.roles[i], ChallengeOf(t), i, t.openings[i], word[i]);
    }
  }

  lemma GroupProfileOk(w: World, signed: Signed<Transcript>)
    requires TranscriptOk(w, signed)
    ensures ProfileOk(signed.value.manifest.value.group.profile)
  {
  }

  /**
   Whoever made the committed shards, and whatever the holders open: once all openings are accepted
   the verdict on the coding is the verdict on the challenged leaf of the committed shards.
   */
  lemma FindingIsLeaf(w: World, signed: Signed<Transcript>, word: seq<Bytes>)
    requires TranscriptOk(w, signed) && AllAccepted(w, signed.value)
    requires Shards(signed.value.manifest.value.group.profile, signed.value.manifest.value.group.roles, word)
    ensures var p := signed.value.manifest.value.group.profile;
            && p.shardSize / LEAF_SIZE >= 1
            && var leaf := ChallengedLeaf(w, ChallengeOf(signed.value), p.shardSize);
            && LEAF_SIZE * leaf + LEAF_SIZE <= p.shardSize
            && (SampledCodewordOk(w.code, p, Symbols(w, signed.value)) <==> LeafPasses(w.code, p, word, leaf))
  {
    GroupProfileOk(w, signed);
    AcceptedIsColumn(w, signed.value, signed.value.manifest.value.group.profile, word);
  }

  /**
   A manifest that came from encoding its plan is never found miscoded, whatever the holders
   open and whatever the challenge is.
   */
  lemma NeverMiscoded(w: World, signed: Signed<Transcript>, information: seq<Option<Bytes>>)
    requires TranscriptOk(w, signed) && AllAccepted(w, signed.value)
    requires EncodedFrom(w, signed.value.plan.value, information, signed.value.manifest.value)
    ensures SampledCodewordOk(w.code, signed.value.manifest.value.group.profile, Symbols(w, signed.value))
  {
    var t := signed.value;
    var p := t.plan.value.geometry.profile;
    EncodedCodeword(w, t.plan.value, information, t.manifest.value);
    ColumnOk(w, t, p, DataShards(t.plan.value, information));
  }

  lemma ColumnOk(w: World, t: Transcript, p: Profile, data: seq<Bytes>)
    requires ProfileOk(p) && Sized(data, p.shardSize) && |data| == p.dataShards
    requires Shards(p, t.manifest.value.group.roles, Codeword(w.code, p, data))
    requires |t.openings| == |t.manifest.value.group.roles| && AllAccepted(w, t)
    ensures SampledCodewordOk(w.code, p, Symbols(w, t))
  {
    AcceptedIsColumn(w, t, p, Codeword(w.code, p, data));
    LeafOfCodeword(w.code, p, data, ChallengedLeaf(w, ChallengeOf(t), p.shardSize), Symbols(w, t));
  }

  // ---------------------------------------------------------------- honest runs verify

  /** Every party plays its part: the coordinator encoded, holders stored and open what they stored. */
  ghost predicate HonestRun(w: World, signed: Signed<Transcript>, information: seq<Option<Bytes>>, word: seq<Bytes>) {
    var t := signed.value;
    var plan, group := t.plan.value, t.manifest.value.group;
    && signed.authentic && signed.signer == plan.verificationCoordinator && t.formatVersion == 1
    && 0 < t.verifiedAt <= plan.expiresAt
    && t.plan == Signed(plan, plan.delegator, true)
    && t.manifest == Signed(t.manifest.value, plan.codingCoordinator, true)
    && EncodedFrom(w, plan, information, t.manifest.value)
    && Shards(plan.geometry.profile, group.roles, word)
    && EvidenceOk(t)
    && forall i :: 0 <= i < |t.openings| ==> HonestOpening(w, t, i, word)
  }

  /** A holder's answer: the challenged leaf of the shard it holds, opened. */
  ghost predicate Answers(w: World, plan: Plan, role: ShardRole, challenge: Challenge, i: nat, shard: Bytes,
                          o: SignedOpening) {
    && |shard| / LEAF_SIZE >= 1
    && var proof := OpenRangeSpec(shard, ChallengedLeaf(w, challenge, |shard|), 1);
    && proof.Ok?
    && o == SignedOpening(
         Opening(1, plan.attemptId, plan, plan.verificationCoordinator, challenge, i, role.Root(), proof.value),
         role.Node(), true)
  }

  ghost predicate HonestOpening(w: World, t: Transcript, i: nat, word: seq<Bytes>)
    requires i < |t.openings| && |t.openings| == |t.manifest.value.group.roles| == |word|
  {
    Answers(w, t.plan.value, t.manifest.value.group.roles[i], ChallengeOf(t), i, word[i], t.openings[i])
  }

  lemma HonestIsAccepted(w: World, t: Transcript, i: nat, word: seq<Bytes>)
    requires i < |t.openings| && |t.openings| == |t.manifest.value.group.roles| == |word|
    requires HonestOpening(w, t, i, word) && CommitSpec(word[i]) == Ok(t.manifest.value.group.roles[i].Root())
    ensures JudgeAt(w, t, i).Accepted?
  {
    var shard := word[i];
    var leaf := ChallengedLeaf(w, ChallengeOf(t), |shard|);
    assert Pow2(0) == 1 && IsPow2(1);
    assert ValidRange(leaf, 1, |shard| / LEAF_SIZE);
    RangeCompleteness(shard, leaf, 1);
    LeafInside(leaf, |shard|);
  }

  /** An honest run always replays to the finding that the group is verified. */
  lemma HonestRunVerifies(w: World, signed: Signed<Transcript>, information: seq<Option<Bytes>>, word: seq<Bytes>)
    requires HonestRun(w, signed, information, word)
    ensures TranscriptOk(w, signed) && AllAccepted(w, signed.value)
    ensures SampledCodewordOk(w.code, signed.value.manifest.value.group.profile, Symbols(w, signed.value))
  {
    var t := signed.value;
    EncodedManifestOk(w, t.plan.value, information, t.manifest.value);
    forall i | 0 <= i < |t.openings| ensures JudgeAt(w, t, i).Accepted? { HonestIsAccepted(w, t, i, word); }
    NeverMiscoded(w, signed, information);
  }

  // ---------------------------------------------------------------- a whole honest run

  /** Every parity holder acknowledges its shard. */
  method StageReceipts(plan: Plan, group: Group) returns (receipts: seq<Signed<Receipt>>)
    requires |group.roles| == group.profile.TotalShards()
    requires forall i :: group.profile.dataShards <= i < |group.roles| ==> group.roles[i].Parity?
    ensures |receipts| == group.profile.parityShards
    ensures forall i :: 0 <= i < |receipts| ==> ReceiptOk(plan, group, group.profile.dataShards + i, receipts[i])
  {
    receipts := [];
    for i := 0 to group.profile.parityShards
      invariant |receipts| == i
      invariant forall k :: 0 <= k < i ==> ReceiptOk(plan, group, group.profile.dataShards + k, receipts[k])
    {
      var index := group.profile.dataShards + i;
      var parity := group.roles[index].parity;
      receipts := receipts + [Signed(Receipt(1, plan.attemptId, plan, group.guildId, group.id, index, parity.holder,
                                             parity.commitment), parity.holder, true)];
    }
  }

  /** A holder opens the challenged leaf of its shard. */
  method OpenShard(w: World, plan: Plan, role: ShardRole, challenge: Challenge, i: nat, shard: Bytes)
    returns (o: SignedOpening)
    requires ValidDataLength(|shard|) && |shard| / LEAF_SIZE >= 1
    ensures Answers(w, plan, role, challenge, i, shard, o)
  {
    var leaf := ChallengedLeaf(w, challenge, |shard|);
    assert Pow2(0) == 1 && IsPow2(1);
    assert ValidRange(leaf, 1, |shard| / LEAF_SIZE);
    RangeCompleteness(shard, leaf, 1);
    var proof := MerkleSuite.OpenRange(shard, leaf, 1);
    o := SignedOpening(
      Opening(1, plan.attemptId, plan, plan.verificationCoordinator, challenge, i, role.Root(), proof.value),
      role.Node(), true);
  }

  /** Every holder opens the challenged leaf of its shard. */
  method OpenShards(w: World, t: Transcript, word: seq<Bytes>) returns (openings: seq<SignedOpening>)
    requires ProfileOk(t.plan.value.geometry.profile)
    requires Shards(t.plan.value.geometry.profile, t.manifest.value.group.roles, word)
    ensures |openings| == |word|
    ensures forall i :: 0 <= i < |openings| ==> HonestOpening(w, t.(openings := openings), i, word)
  {
    var plan, challenge, roles := t.plan.value, ChallengeOf(t), t.manifest.value.group.roles;
    ShardSizeOk(plan.geometry.profile);
    openings := [];
    for i := 0 to |word|
      invariant |openings| == i
      invariant forall k :: 0 <= k < i ==> Answers(w, plan, roles[k], challenge, k, word[k], openings[k])
    {
      var o := OpenShard(w, plan, roles[i], challenge, i, word[i]);
      openings := openings + [o];
    }
  }

  lemma EncodedRoles(w: World, plan: Plan, information: seq<Option<Bytes>>, m: Manifest)
    requires EncodedFrom(w, plan, information, m)
    ensures |m.group.roles| == m.group.profile.TotalShards() && m.group.profile == plan.geometry.profile
    ensures forall i :: m.group.profile.dataShards <= i < |m.group.roles| ==> m.group.roles[i].Parity?
  {
    EncodedManifestOk(w, plan, information, m);
    forall i | m.group.profile.dataShards <= i < |m.group.roles| ensures m.group.roles[i].Parity? {
      assert RoleOk(m.group.profile, i, m.group.roles[i]);
    }
  }

  /** Stages receipts, draws the challenge and opens it, after an honest encoding. */
  method Transcribe(w: World, signedPlan: Signed<Plan>, ghost information: seq<Option<Bytes>>,
                    manifest: Signed<Manifest>, word: seq<Bytes>, nonce: nat, now: nat)
    returns (signed: Signed<Transcript>)
    requires signedPlan == Signed(signedPlan.value, signedPlan.value.delegator, true)
    requires manifest == Signed(manifest.value, signedPlan.value.codingCoordinator, true)
    requires EncodedFrom(w, signedPlan.value, information, manifest.value) && 0 < now <= signedPlan.value.expiresAt
    requires Shards(signedPlan.value.geometry.profile, manifest.value.group.roles, word)
    ensures HonestRun(w, signed, information, word)
  {
    var plan := signedPlan.value;
    EncodedRoles(w, plan, information, manifest.value);
    var receipts := StageReceipts(plan, manifest.value.group);
    var evidence := Evidence(manifest, receipts);
    var t := Transcript(1, now, signedPlan, manifest,
                        Signed(ChallengeCommitment(1, plan.attemptId, plan, HiddenChallenge(plan, nonce)),
                               plan.verificationCoordinator, true),
                        receipts,
                        SignedReveal(ChallengeReveal(1, plan.attemptId, plan, nonce, evidence),
                                     plan.verificationCoordinator, true),
                        []);
    var openings := OpenShards(w, t, word);
    signed := Signed(t.(openings := openings), plan.verificationCoordinator, true);
  }

  /** Encode, stage, challenge, open and replay, all as the protocol asks: the finding is that the group is verified. */
  method RunHonestly(w: World, signedPlan: Signed<Plan>, information: seq<Option<Bytes>>, nonce: nat, now: nat)
    returns (r: Result<Finding, AttemptError>)
    requires Encodable(signedPlan, information, signedPlan.value.codingCoordinator)
             && 0 < now <= signedPlan.value.expiresAt
    ensures r == Ok(Verified)
  {
    var plan := signedPlan.value;
    var encoded := EncodeAttempt(w, signedPlan, information, plan.codingCoordinator);
    var manifest := encoded.value.manifest;
    DataShardsSized(plan, information);
    var word := DataShards(plan, information) + encoded.value.parity;
    WordIsCodeword(w, plan, information, manifest.value, encoded.value.parity, word);
    var signed := Transcribe(w, signedPlan, information, manifest, word, nonce, now);
    HonestRunVerifies(w, signed, information, word);
    r := ReplayTranscript(w, signed);
  }

  lemma WordIsCodeword(w: World, plan: Plan, information: seq<Option<Bytes>>, m: Manifest, parity: seq<Bytes>,
                       word: seq<Bytes>)
    requires EncodedFrom(w, plan, information, m)
    requires Sized(DataShards(plan, information), plan.geometry.profile.shardSize)
    requires |parity| == plan.geometry.profile.parityShards && word == DataShards(plan, information) + parity
    requires forall i :: 0 <= i < |parity| ==>
               parity[i] == ParityShard(w.code, plan.geometry.profile, DataShards(plan, information), i)
    ensures Shards(plan.geometry.profile, m.group.roles, word)
  {
    EncodedCodeword(w, plan, information, m);
    IsCodeword(w.code, plan.geometry.profile, word, DataShards(plan, information));
  }
}
