/**
 Guild checkpoints: which retained revisions, writer fences, tombstones and coding groups
 together make one valid checkpoint. Hashes are given functions, signatures and public keys
 are given as whether they verify. Of a packing catalog the checkpoint sees whether it is
 valid by itself, the source of every occupied slot and the commitments of its proofs.
 */
module Checkpoint {
  import opened Base
  import opened Sectors
  import opened Merkle
  import opened Coding
  import Guild

  const RS_DATA_SHARDS: nat := 3
  const RS_PARITY_SHARDS: nat := 2
  const CIPHER_PROFILE: nat := 1
  const MAX_REVISIONS: nat := 4096
  const MAX_GROUPS: nat := 40000
  const MAX_GENERATION: nat := 0x7fff_ffff_ffff_ffff

  /** Universally unique ids are numbers; zero is the nil id. */
  type Uuid = nat

  datatype Member = Member(nodeId: NodeId, failureDomain: Domain, keysOk: bool)

  datatype WriterFence = WriterFence(owner: NodeId, epoch: nat, publicKey: nat, keyOk: bool)

  datatype Tombstone =
    Tombstone(owner: NodeId, rootId: Uuid, throughSequence: nat, lastRevisionId: Uuid, lastRevisionHash: nat,
              retiredAtGeneration: nat)

  datatype Revision =
    Revision(formatVersion: nat, guildId: nat, rootId: Uuid, cipherProfile: nat, revisionId: Uuid, owner: NodeId,
             writerEpoch: nat, writerKey: nat, writerAuthentic: bool, sequence: nat, parent: Option<nat>,
             metadata: seq<SectorRef>, data: seq<SectorRef>, commitments: Option<seq<Commitment>>)
  {
    /** Metadata sectors, then data sectors. */
    function Sectors(): seq<SectorRef> {
      metadata + data
    }
  }

  datatype Role =
    | InformationShard(owner: NodeId, sector: SectorRef)
    | ParityShard(holder: NodeId, row: nat, root: nat)
  {
    function Node(): NodeId {
      match this
      case InformationShard(owner, _) => owner
      case ParityShard(holder, _, _) => holder
    }
  }

  datatype FixedGroup =
    FixedGroup(id: nat, formatVersion: nat, guildId: nat, dataShards: nat, parityShards: nat, shardSize: nat,
               roles: seq<Role>)

  datatype Authority = Authority(formatVersion: nat, membershipEpoch: nat, quorum: Guild.QuorumPolicy)

  /** A sector as packing names it: the chain that uses it and its id. */
  datatype SectorKey = SectorKey(chain: Chain, id: nat)

  datatype PackedSource = PackedSource(key: SectorKey, logicalLen: nat)

  datatype PackedProof = PackedProof(key: SectorKey, commitment: Commitment)

  /** An older revision's flat root, tied to the commitment that a proof opens. */
  datatype Statement = Statement(key: SectorKey, flatRoot: nat, commitment: Commitment)

  /** A member's word for a statement, under one membership epoch of one guild. */
  datatype Attestation = Attestation(guildId: nat, membershipEpoch: nat, statement: Statement, signer: NodeId)

  /** What a checkpoint reads of a packing catalog. */
  datatype CatalogView =
    CatalogView(formatVersion: nat, valid: bool, sources: seq<PackedSource>, proofs: Option<seq<PackedProof>>,
                bindings: Option<seq<Statement>>, attestations: Option<seq<Attestation>>)

  datatype Checkpoint =
    Checkpoint(formatVersion: nat, guildId: nat, genesisHash: nat, generation: nat, parent: Option<nat>,
               members: seq<Member>, fences: seq<WriterFence>, tombstones: seq<Tombstone>,
               revisions: seq<Signed<Revision>>, groups: seq<FixedGroup>,
               authority: Option<Authority>, packingCatalog: Option<CatalogView>)

  /** The hash of a revision, and of a group's contents. */
  datatype Hashes = Hashes(revision: Revision -> nat, group: FixedGroup -> nat)

  /** One protected root of one owner: the revisions of a chain share it. */
  datatype Chain = Chain(owner: NodeId, rootId: Uuid)

  function ChainOf(r: Revision): Chain {
    Chain(r.owner, r.rootId)
  }

  predicate ChainBefore(a: Chain, b: Chain) {
    a.owner < b.owner || (a.owner == b.owner && a.rootId < b.rootId)
  }

  // ---------------------------------------------------------------- header

  predicate AuthorityOk(authority: Authority, members: nat) {
    authority.formatVersion == 1 && authority.membershipEpoch > 0 && Guild.Required(authority.quorum, members).Ok?
  }

  predicate HeaderOk(c: Checkpoint) {
    && 3 <= c.formatVersion <= 7 && c.genesisHash != 0 && 0 < c.generation <= MAX_GENERATION
    && (c.generation == 1 <==> c.parent.None?)
    && (if c.formatVersion == 3 then |c.members| == 5 else 0 < |c.members| <= 256)
    && 0 < |c.revisions| <= MAX_REVISIONS
    && (c.formatVersion == 3 ==> c.groups != []) && |c.groups| <= MAX_GROUPS
    && (if c.formatVersion <= 4 then c.authority.None? && c.packingCatalog.None?
        else
          && c.authority.Some? && AuthorityOk(c.authority.value, |c.members|)
          && (if c.formatVersion == 7 then c.packingCatalog.Some? && c.packingCatalog.value.valid
              else c.packingCatalog.None?))
  }

  // ---------------------------------------------------------------- members and fences

  predicate MemberOk(members: seq<Member>, i: nat)
    requires i < |members|
  {
    && (i > 0 ==> members[i - 1].nodeId < members[i].nodeId)
    && 0 < |members[i].failureDomain| <= MAX_DOMAIN_BYTES && members[i].keysOk
  }

  predicate MembersOk(members: seq<Member>) {
    forall i: nat :: i < |members| ==> MemberOk(members, i)
  }

  predicate IsMember(c: Checkpoint, node: NodeId) {
    exists i :: 0 <= i < |c.members| && c.members[i].nodeId == node
  }

  /** Fences are listed by owner, and each owner's epochs count up from one. */
  predicate FenceOk(c: Checkpoint, i: nat)
    requires i < |c.fences|
  {
    var f := c.fences[i];
    && (c.formatVersion == 3 ==> IsMember(c, f.owner)) && f.keyOk
    && (i > 0 ==> c.fences[i - 1].owner <= f.owner)
    && f.epoch == if i > 0 && c.fences[i - 1].owner == f.owner then c.fences[i - 1].epoch + 1 else 1
  }

  predicate FencesOk(c: Checkpoint) {
    forall i: nat :: i < |c.fences| ==> FenceOk(c, i)
  }

  predicate LatestFence(c: Checkpoint, i: nat)
    requires i < |c.fences|
  {
    i + 1 == |c.fences| || c.fences[i + 1].owner != c.fences[i].owner
  }

  // ---------------------------------------------------------------- tombstones

  function GraveOf(t: Tombstone): Chain {
    Chain(t.owner, t.rootId)
  }

  predicate TombstoneOk(c: Checkpoint, i: nat)
    requires i < |c.tombstones|
  {
    var t := c.tombstones[i];
    && (c.formatVersion == 3 ==> IsMember(c, t.owner))
    && (i > 0 ==> ChainBefore(GraveOf(c.tombstones[i - 1]), GraveOf(t)))
    && t.rootId != 0 && t.throughSequence != 0 && t.lastRevisionId != 0 && t.lastRevisionHash != 0
    && 2 <= t.retiredAtGeneration <= c.generation
  }

  predicate TombstonesOk(c: Checkpoint) {
    forall i: nat :: i < |c.tombstones| ==> TombstoneOk(c, i)
  }

  // ---------------------------------------------------------------- revisions

  predicate CommitmentOk(commitment: Commitment) {
    commitment.byteLen == SECTOR_SIZE && ValidCommitment(commitment)
  }

  predicate SectorFits(s: SectorRef) {
    0 < s.logicalLen <= SECTOR_SIZE
  }

  /** What one revision's record must satisfy, its sectors aside. */
  predicate RecordOk(c: Checkpoint, signed: Signed<Revision>, member: bool) {
    var r := signed.value;
    && signed.authentic && r.writerAuthentic && r.writerEpoch != 0 && signed.signer == r.owner
    && (c.formatVersion == 3 ==> member)
    && (if r.formatVersion == 3 then r.commitments.None?
        else (r.formatVersion == 4 || r.formatVersion == 5) && r.commitments.Some?)
    && r.guildId == c.guildId && r.rootId != 0 && r.cipherProfile == CIPHER_PROFILE && r.sequence != 0
       && r.metadata != []
    && (r.commitments.Some? ==>
          |r.commitments.value| == |r.Sectors()| && forall x :: x in r.commitments.value ==> CommitmentOk(x))
  }

  /** What one revision must satisfy by itself. */
  predicate RevisionOk(c: Checkpoint, signed: Signed<Revision>) {
    RecordOk(c, signed, IsMember(c, signed.value.owner)) && forall s :: s in signed.value.Sectors() ==> SectorFits(s)
  }

  /** A fence of the checkpoint gives this writer key for this epoch. */
  predicate Fenced(c: Checkpoint, r: Revision) {
    exists i :: 0 <= i < |c.fences| && c.fences[i].owner == r.owner && c.fences[i].epoch == r.writerEpoch
                && c.fences[i].publicKey == r.writerKey
  }

  /** The order in which revisions are listed. */
  predicate RevisionBefore(a: Revision, b: Revision) {
    || ChainBefore(ChainOf(a), ChainOf(b))
    || (ChainOf(a) == ChainOf(b)
        && (a.sequence < b.sequence || (a.sequence == b.sequence && a.revisionId < b.revisionId)))
  }

  predicate Follows(h: Hashes, r: Revision, previous: Revision) {
    r.sequence == previous.sequence + 1 && r.parent == Some(h.revision(previous))
      && r.writerEpoch >= previous.writerEpoch
  }

  /** The first retained revision of a chain: number one, or the one just after its tombstone. */
  predicate StartsChain(c: Checkpoint, r: Revision) {
    if exists t :: t in c.tombstones && GraveOf(t) == ChainOf(r) then
      exists t :: t in c.tombstones && GraveOf(t) == ChainOf(r)
                  && r.sequence == t.throughSequence + 1 && r.parent == Some(t.lastRevisionHash)
    else r.sequence == 1 && r.parent.None?
  }

  /** A revision follows the one listed before it, or starts its chain. */
  predicate Continues(h: Hashes, c: Checkpoint, i: nat)
    requires i < |c.revisions|
  {
    var r := c.revisions[i].value;
    if i > 0 && ChainOf(c.revisions[i - 1].value) == ChainOf(r) then Follows(h, r, c.revisions[i - 1].value)
    else StartsChain(c, r)
  }

  predicate ChainStepOk(h: Hashes, c: Checkpoint, i: nat)
    requires i < |c.revisions|
  {
    && (i > 0 ==> RevisionBefore(c.revisions[i - 1].value, c.revisions[i].value))
    && Fenced(c, c.revisions[i].value) && Continues(h, c, i)
  }

  /** The last retained revision of a chain. */
  predicate ChainHead(c: Checkpoint, i: nat)
    requires i < |c.revisions|
  {
    i + 1 == |c.revisions| || ChainOf(c.revisions[i + 1].value) != ChainOf(c.revisions[i].value)
  }

  predicate ChainsOk(h: Hashes, c: Checkpoint) {
    && (forall i: nat :: i < |c.revisions| ==> RevisionOk(c, c.revisions[i]))
    && (forall i: nat :: i < |c.revisions| ==> ChainStepOk(h, c, i))
    && (forall i, j :: 0 <= i < j < |c.revisions| ==>
          c.revisions[i].value.revisionId != c.revisions[j].value.revisionId)
  }

  /** A chain of the fence's owner ends with a revision written under the fence. */
  predicate HeadUses(c: Checkpoint, j: nat, f: WriterFence)
    requires j < |c.revisions|
  {
    ChainHead(c, j) && c.revisions[j].value.owner == f.owner && c.revisions[j].value.writerEpoch == f.epoch
  }

  /** Every owner's latest writer epoch is in use at the head of one of the owner's chains. */
  predicate LatestInUse(c: Checkpoint) {
    forall i: nat :: i < |c.fences| && LatestFence(c, i) ==>
                       exists j: nat :: j < |c.revisions| && HeadUses(c, j, c.fences[i])
  }

  /** Every tombstone belongs to a chain that still has a revision. */
  predicate TombstonesInUse(c: Checkpoint) {
    forall t :: t in c.tombstones ==> exists j :: 0 <= j < |c.revisions| && ChainOf(c.revisions[j].value) == GraveOf(t)
  }

  // ---------------------------------------------------------------- sectors

  /** One use of a sector: by which chain, under which reference, with which commitment. */
  datatype Use = Use(chain: Chain, sector: SectorRef, commitment: Option<Commitment>)

  function UseAt(r: Revision, k: nat): Use
    requires k < |r.Sectors()|
  {
    Use(ChainOf(r), r.Sectors()[k],
        if r.commitments.Some? && k < |r.commitments.value| then Some(r.commitments.value[k]) else None)
  }

  function UsesOf(r: Revision): (u: seq<Use>)
    ensures |u| == |r.Sectors()| && forall k :: 0 <= k < |u| ==> u[k] == UseAt(r, k)
  {
    seq(|r.Sectors()|, k requires 0 <= k < |r.Sectors()| => UseAt(r, k))
  }

  function Uses(revisions: seq<Signed<Revision>>): seq<Use> {
    if revisions == [] then []
    else Uses(revisions[..|revisions| - 1]) + UsesOf(revisions[|revisions| - 1].value)
  }

  predicate Agree(a: Use, b: Use) {
    a.sector.id == b.sector.id ==>
      a.chain == b.chain && a.sector == b.sector
        && (a.commitment == b.commitment || a.commitment.None? || b.commitment.None?)
  }

  /** A sector id means the same sector wherever it is used. */
  predicate Consistent(uses: seq<Use>) {
    forall a, b :: 0 <= a < b < |uses| ==> Agree(uses[a], uses[b])
  }

  function SectorIds(uses: seq<Use>): set<nat> {
    set k | 0 <= k < |uses| :: uses[k].sector.id
  }

  // ---------------------------------------------------------------- packed sectors

  /** How many bytes of a sector the occupied slots hold. */
  function PackedBytes(sources: seq<PackedSource>, key: SectorKey): nat {
    if sources == [] then 0
    else
      var last := sources[|sources| - 1];
      PackedBytes(sources[..|sources| - 1], key) + if last.key == key then last.logicalLen else 0
  }

  predicate IsPacked(sources: seq<PackedSource>, key: SectorKey) {
    exists i :: 0 <= i < |sources| && sources[i].key == key
  }

  predicate IsUsed(uses: seq<Use>, key: SectorKey) {
    exists i :: 0 <= i < |uses| && uses[i].chain == key.chain && uses[i].sector.id == key.id
  }

  /** A revision commits to the sector's bytes as the proof says. */
  predicate ProofMatches(uses: seq<Use>, proof: PackedProof) {
    exists i :: 0 <= i < |uses| && uses[i].chain == proof.key.chain && uses[i].sector.id == proof.key.id
                && uses[i].commitment == Some(proof.commitment)
  }

  /** The owner's bindings by sector; a later one replaces an earlier one. */
  function Bound(bindings: seq<Statement>): map<SectorKey, Statement> {
    if bindings == [] then map[]
    else
      var last := bindings[|bindings| - 1];
      Bound(bindings[..|bindings| - 1])[last.key := last]
  }

  /** A statement carries a proof when it names the proved commitment and the flat root in use. */
  predicate Carries(uses: seq<Use>, s: Statement, proof: PackedProof) {
    s.commitment == proof.commitment && HasRoot(uses, proof.key, s.flatRoot)
  }

  predicate HasRoot(uses: seq<Use>, key: SectorKey, root: nat) {
    exists i :: 0 <= i < |uses| && uses[i].chain == key.chain && uses[i].sector.id == key.id
                && uses[i].sector.root == root
  }

  predicate IsAttested(attestations: seq<Attestation>, key: SectorKey) {
    exists i :: 0 <= i < |attestations| && attestations[i].statement.key == key
  }

  function Attesters(attestations: seq<Attestation>, key: SectorKey): set<NodeId> {
    set i | 0 <= i < |attestations| && attestations[i].statement.key == key :: attestations[i].signer
  }

  predicate AttestationOk(c: Checkpoint, epoch: nat, a: Attestation) {
    a.guildId == c.guildId && a.membershipEpoch == epoch && IsMember(c, a.signer)
  }

  /** Members attest, each once to a sector, and all to the same statement about it. */
  predicate AttestationsOk(c: Checkpoint, epoch: nat, attestations: seq<Attestation>) {
    && (forall i :: 0 <= i < |attestations| ==> AttestationOk(c, epoch, attestations[i]))
    && (forall i, j :: 0 <= i < j < |attestations| ==> Compatible(attestations[i], attestations[j]))
  }

  predicate Compatible(a: Attestation, b: Attestation) {
    a.statement.key == b.statement.key ==> a.statement == b.statement && a.signer != b.signer
  }

  /** Enough members attest to a statement that carries the proof. */
  predicate Vouched(attestations: seq<Attestation>, required: nat, uses: seq<Use>, proof: PackedProof) {
    && |Attesters(attestations, proof.key)| >= required
    && exists i :: 0 <= i < |attestations| && attestations[i].statement.key == proof.key
                   && Carries(uses, attestations[i].statement, proof)
  }

  /** A proof of what a revision commits to, or one carried by its owner's binding or by a quorum. */
  predicate LegacyProofOk(bindings: map<SectorKey, Statement>, attestations: seq<Attestation>, required: nat,
                          uses: seq<Use>, proof: PackedProof) {
    || ProofMatches(uses, proof)
    || (if proof.key in bindings then Carries(uses, bindings[proof.key], proof)
        else Vouched(attestations, required, uses, proof))
  }

  /** Some proof of the sector is not one of what a revision commits to. */
  predicate Needed(proofs: seq<PackedProof>, uses: seq<Use>, key: SectorKey) {
    exists i :: 0 <= i < |proofs| && proofs[i].key == key && !ProofMatches(uses, proofs[i])
  }

  /** Every proof is good, and every binding and attestation is needed. */
  ghost predicate LegacyOk(bindings: map<SectorKey, Statement>, attestations: seq<Attestation>, required: nat,
                           uses: seq<Use>, proofs: seq<PackedProof>) {
    && (forall i :: 0 <= i < |proofs| ==> LegacyProofOk(bindings, attestations, required, uses, proofs[i]))
    && (forall key :: key in bindings ==> Needed(proofs, uses, key))
    && (forall key :: IsAttested(attestations, key) ==> key !in bindings && Needed(proofs, uses, key))
  }

  ghost predicate AttestedOk(c: Checkpoint, view: CatalogView, uses: seq<Use>)
    requires view.proofs.Some?
  {
    && view.bindings.Some? && view.attestations.Some? && c.authority.Some?
    && var required := Guild.Required(c.authority.value.quorum, |c.members|);
    && required.Ok? && AttestationsOk(c, c.authority.value.membershipEpoch, view.attestations.value)
    && LegacyOk(Bound(view.bindings.value), view.attestations.value, required.value, uses, view.proofs.value)
  }

  ghost predicate ProofsOk(c: Checkpoint, view: CatalogView, uses: seq<Use>) {
    if view.formatVersion == 1 then view.proofs.None?
    else if view.proofs.None? then false
    else if view.formatVersion == 2 || view.formatVersion == 3 then
      forall i :: 0 <= i < |view.proofs.value| ==> ProofMatches(uses, view.proofs.value[i])
    else if view.formatVersion == 4 then
      view.bindings.Some? && LegacyOk(Bound(view.bindings.value), [], 0, uses, view.proofs.value)
    else
      view.formatVersion == 5 && AttestedOk(c, view, uses)
  }

  /** The catalog packs exactly the used sectors, each of them whole, and proves what revisions commit to. */
  ghost predicate PackedOk(c: Checkpoint, view: CatalogView, uses: seq<Use>) {
    && (forall key :: IsPacked(view.sources, key) <==> IsUsed(uses, key))
    && (forall key :: IsPacked(view.sources, key) ==> PackedBytes(view.sources, key) == SECTOR_SIZE)
    && ProofsOk(c, view, uses)
  }

  // ---------------------------------------------------------------- coding groups

  predicate RoleFits(index: nat, role: Role) {
    match role
    case InformationShard(_, sector) => index < RS_DATA_SHARDS && sector.logicalLen <= SECTOR_SIZE
    case ParityShard(_, row, _) => index >= RS_DATA_SHARDS && row == index - RS_DATA_SHARDS
  }

  predicate ShapeOk(h: Hashes, g: FixedGroup) {
    && g.formatVersion == 1 && g.dataShards == RS_DATA_SHARDS && g.parityShards == RS_PARITY_SHARDS
    && g.shardSize == SECTOR_SIZE && h.group(g.(id := 0)) == g.id
    && |g.roles| == RS_DATA_SHARDS + RS_PARITY_SHARDS
    && forall k: nat :: k < |g.roles| ==> RoleFits(k, g.roles[k])
  }

  predicate SameDomain(c: Checkpoint, a: Role, b: Role) {
    exists i, j :: 0 <= i < |c.members| && 0 <= j < |c.members| && c.members[i].nodeId == a.Node()
                   && c.members[j].nodeId == b.Node() && c.members[i].failureDomain == c.members[j].failureDomain
  }

  function InformationIds(g: FixedGroup): set<nat> {
    set k | 0 <= k < |g.roles| && g.roles[k].InformationShard? :: g.roles[k].sector.id
  }

  /** An information role that protects a retained sector holds exactly that sector of its owner. */
  predicate Protects(role: Role, uses: seq<Use>) {
    role.InformationShard? ==>
      forall u :: u in uses && u.sector.id == role.sector.id ==> u.chain.owner == role.owner && u.sector == role.sector
  }

  predicate GroupValid(h: Hashes, c: Checkpoint, uses: seq<Use>, g: FixedGroup) {
    && ShapeOk(h, g) && g.guildId == c.guildId
    && (forall k :: 0 <= k < |g.roles| ==> IsMember(c, g.roles[k].Node()) && Protects(g.roles[k], uses))
    && (forall j, k :: 0 <= j < k < |g.roles| ==> !SameDomain(c, g.roles[j], g.roles[k]))
    && (forall j, k :: 0 <= j < k < RS_DATA_SHARDS ==> g.roles[j].sector.id != g.roles[k].sector.id)
    && InformationIds(g) * SectorIds(uses) != {}
  }

  predicate GroupsOk(h: Hashes, c: Checkpoint, uses: seq<Use>) {
    && (forall i :: 0 <= i < |c.groups| ==> GroupValid(h, c, uses, c.groups[i]))
    && (forall i :: 0 < i < |c.groups| ==> c.groups[i - 1].id < c.groups[i].id)
    && (forall i, j :: 0 <= i < j < |c.groups| ==> InformationIds(c.groups[i]) !! InformationIds(c.groups[j]))
    && (c.formatVersion == 3 ==>
          forall s :: s in SectorIds(uses) ==> exists i :: 0 <= i < |c.groups| && s in InformationIds(c.groups[i]))
  }

  /** A valid checkpoint. */
  ghost predicate CheckpointOk(h: Hashes, c: Checkpoint) {
    && HeaderOk(c) && MembersOk(c.members) && FencesOk(c) && TombstonesOk(c) && ChainsOk(h, c)
    && Consistent(Uses(c.revisions)) && LatestInUse(c) && TombstonesInUse(c)
    && (c.packingCatalog.Some? ==> PackedOk(c, c.packingCatalog.value, Uses(c.revisions)))
    && GroupsOk(h, c, Uses(c.revisions))
  }
}
