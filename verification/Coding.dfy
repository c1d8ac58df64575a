/**
 Coding groups of variable geometry and the plans for building them: the records that the
 guild log, the coding attempts and their validators share.
 */
module Coding {
  import opened Base
  import opened Merkle

  const MAX_CODING_SHARDS: nat := 64
  const MAX_SHARD_SIZE: nat := 4194304
  const MIN_SHARD_SIZE: nat := 16
  const MAX_DOMAIN_BYTES: nat := 256

  /** A signed record, and whether its signature verifies. */
  datatype Signed<T> = Signed(value: T, signer: NodeId, authentic: bool)

  /** A failure domain's name, as bytes. */
  type Domain = Bytes

  datatype Profile = Profile(formatVersion: nat, dataShards: nat, parityShards: nat, shardSize: nat) {
    function TotalShards(): nat {
      dataShards + parityShards
    }
  }

  predicate ProfileOk(p: Profile) {
    && p.formatVersion == 1 && p.dataShards != 0 && p.parityShards != 0 && p.TotalShards() <= MAX_CODING_SHARDS
    && MIN_SHARD_SIZE <= p.shardSize <= MAX_SHARD_SIZE && PowerOfTwo(p.shardSize)
  }

  datatype RangeSectorRef = RangeSectorRef(id: nat, commitment: Commitment, logicalLen: nat, virtualZero: bool)

  datatype InformationRole = InformationRole(owner: NodeId, failureDomain: Domain, sector: RangeSectorRef)

  datatype ParityRole = ParityRole(holder: NodeId, failureDomain: Domain, row: nat, commitment: Commitment)

  datatype ShardRole = Information(information: InformationRole) | Parity(parity: ParityRole) {
    function Node(): NodeId {
      match this
      case Information(information) => information.owner
      case Parity(parity) => parity.holder
    }

    function FailureDomain(): Domain {
      match this
      case Information(information) => information.failureDomain
      case Parity(parity) => parity.failureDomain
    }

    function Root(): Commitment {
      match this
      case Information(information) => information.sector.commitment
      case Parity(parity) => parity.commitment
    }
  }

  datatype Group = Group(id: nat, formatVersion: nat, guildId: nat, profile: Profile, roles: seq<ShardRole>)

  /** The hash of a group's contents; nothing is assumed about it. */
  type GroupHash = (nat, nat, Profile, seq<ShardRole>) -> nat

  predicate DomainOk(domain: Domain) {
    0 < |domain| <= MAX_DOMAIN_BYTES
  }

  predicate SectorOk(p: Profile, sector: RangeSectorRef) {
    && ValidCommitment(sector.commitment) && sector.id != 0
    && sector.commitment.byteLen == p.shardSize && sector.logicalLen <= p.shardSize
    && (if sector.virtualZero then
          sector.logicalLen == p.shardSize && CommitSpec(Zeros(p.shardSize)) == Ok(sector.commitment)
        else sector.logicalLen != 0)
  }

  /** What validation demands of the role at one position. */
  predicate RoleOk(p: Profile, index: nat, role: ShardRole) {
    && DomainOk(role.FailureDomain())
    && match role
       case Information(information) => index < p.dataShards && SectorOk(p, information.sector)
       case Parity(parity) =>
         && index >= p.dataShards && parity.row == index - p.dataShards
         && ValidCommitment(parity.commitment) && parity.commitment.byteLen == p.shardSize
  }

  predicate DomainsDistinct(roles: seq<ShardRole>) {
    forall i, j :: 0 <= i < j < |roles| ==> roles[i].FailureDomain() != roles[j].FailureDomain()
  }

  predicate GroupOk(hash: GroupHash, g: Group) {
    && ProfileOk(g.profile) && (g.formatVersion == 2 || g.formatVersion == 3) && g.guildId != 0
    && |g.roles| == g.profile.TotalShards()
    && g.id == hash(g.formatVersion, g.guildId, g.profile, g.roles)
    && (forall i :: 0 <= i < |g.roles| ==> RoleOk(g.profile, i, g.roles[i]))
    && DomainsDistinct(g.roles)
  }

  /** The roles before position `n` are in place, in domains that are all different. */
  ghost predicate RolesChecked(g: Group, n: nat, domains: set<Domain>) {
    && n <= |g.roles|
    && (forall j :: 0 <= j < n ==> RoleOk(g.profile, j, g.roles[j]) && g.roles[j].FailureDomain() in domains)
    && (forall d :: d in domains ==> exists j :: 0 <= j < n && g.roles[j].FailureDomain() == d)
    && (forall i, j :: 0 <= i < j < n ==> g.roles[i].FailureDomain() != g.roles[j].FailureDomain())
  }

  lemma RoleChecked(g: Group, n: nat, domains: set<Domain>)
    requires RolesChecked(g, n, domains) && n < |g.roles| && RoleOk(g.profile, n, g.roles[n])
    requires g.roles[n].FailureDomain() !in domains
    ensures RolesChecked(g, n + 1, domains + {g.roles[n].FailureDomain()})
  {
  }

  /** `CodingGroupV2::validate`: one pass with a set of used domains. */
  method ValidateGroup(hash: GroupHash, g: Group) returns (ok: bool)
    ensures ok <==> GroupOk(hash, g)
  {
    if !ProfileOk(g.profile) || !(g.formatVersion == 2 || g.formatVersion == 3) || g.guildId == 0
       || |g.roles| != g.profile.TotalShards() || g.id != hash(g.formatVersion, g.guildId, g.profile, g.roles)
    {
      return false;
    }
    var domains: set<Domain> := {};
    for i := 0 to |g.roles|
      invariant RolesChecked(g, i, domains)
    {
      if !RoleOk(g.profile, i, g.roles[i]) || g.roles[i].FailureDomain() in domains { return false; }
      RoleChecked(g, i, domains);
      domains := domains + {g.roles[i].FailureDomain()};
    }
    return true;
  }

  /** How many shards are left, given each shard's domain, when some failure domains are lost. */
  function Surviving(domains: seq<Domain>, lost: set<Domain>): nat {
    if domains == [] then 0
    else Surviving(domains[..|domains| - 1], lost) + if domains[|domains| - 1] in lost then 0 else 1
  }

  lemma {:induction false} OtherDomainsLost(domains: seq<Domain>, lost: set<Domain>, domain: Domain)
    requires domain !in domains
    ensures Surviving(domains, lost) == Surviving(domains, lost - {domain})
  {
    if domains != [] { OtherDomainsLost(domains[..|domains| - 1], lost, domain); }
  }

  /** Losing a set of failure domains costs at most one shard per domain. */
  lemma {:induction false} LossIsBounded(domains: seq<Domain>, lost: set<Domain>)
    requires forall i, j :: 0 <= i < j < |domains| ==> domains[i] != domains[j]
    ensures Surviving(domains, lost) + |lost| >= |domains|
  {
    if domains != [] {
      var front, last := domains[..|domains| - 1], domains[|domains| - 1];
      if last in lost {
        OtherDomainsLost(front, lost, last);
        LossIsBounded(front, lost - {last});
      } else {
        LossIsBounded(front, lost);
      }
    }
  }

  function RoleDomains(roles: seq<ShardRole>): (r: seq<Domain>)
    ensures |r| == |roles| && forall i :: 0 <= i < |r| ==> r[i] == roles[i].FailureDomain()
  {
    seq(|roles|, i requires 0 <= i < |roles| => roles[i].FailureDomain())
  }

  /** A valid group can decode after losing as many domains as it has parity shards. */
  lemma GroupSurvives(hash: GroupHash, g: Group, lost: set<Domain>)
    requires GroupOk(hash, g) && |lost| <= g.profile.parityShards
    ensures Surviving(RoleDomains(g.roles), lost) >= g.profile.dataShards
  {
    LossIsBounded(RoleDomains(g.roles), lost);
  }

  // ---------------------------------------------------------------- plans

  datatype ParityPlacement = ParityPlacement(holder: NodeId, failureDomain: Domain, row: nat)

  datatype Geometry =
    Geometry(formatVersion: nat, guildId: nat, profile: Profile, information: seq<InformationRole>,
             parity: seq<ParityPlacement>)
  {
    /** The failure domain at one shard position. */
    function DomainAt(index: nat): Domain
      requires index < |information| + |parity|
    {
      if index < |information| then information[index].failureDomain else parity[index - |information|].failureDomain
    }
  }

  datatype Plan =
    Plan(formatVersion: nat, attemptId: nat, checkpointHash: nat, membershipEpoch: nat, geometry: Geometry,
         delegator: NodeId, codingCoordinator: NodeId, verificationCoordinator: NodeId, expiresAt: nat,
         informationRoots: Option<seq<Digest>>)

  const MAX_FULL_ROOT_BINDING_BYTES: nat := 524288

  predicate GeometryOk(g: Geometry) {
    && ProfileOk(g.profile) && g.formatVersion == 1 && g.guildId != 0
    && |g.information| == g.profile.dataShards && |g.parity| == g.profile.parityShards
    && (forall i :: 0 <= i < |g.information| ==>
          g.information[i].owner != 0 && DomainOk(g.information[i].failureDomain)
            && SectorOk(g.profile, g.information[i].sector))
    && (forall i :: 0 <= i < |g.parity| ==>
          g.parity[i].holder != 0 && g.parity[i].row == i && DomainOk(g.parity[i].failureDomain))
    && (forall i, j :: 0 <= i < j < |g.information| + |g.parity| ==> g.DomainAt(i) != g.DomainAt(j))
  }

  predicate PlanOk(plan: Plan) {
    && GeometryOk(plan.geometry)
    && (if plan.formatVersion == 1 then plan.informationRoots.None?
        else (plan.formatVersion == 2 || plan.formatVersion == 3) && plan.informationRoots.Some?)
    && plan.attemptId != 0 && plan.checkpointHash != 0 && plan.membershipEpoch != 0
    && plan.delegator != 0 && plan.codingCoordinator != 0 && plan.verificationCoordinator != 0
    && plan.codingCoordinator != plan.verificationCoordinator && plan.expiresAt != 0
    && (plan.formatVersion == 3 ==>
          plan.geometry.profile.dataShards * plan.geometry.profile.shardSize <= MAX_FULL_ROOT_BINDING_BYTES)
    && (plan.informationRoots.Some? ==>
          && |plan.informationRoots.value| == |plan.geometry.information|
          && forall i :: 0 <= i < |plan.geometry.information| ==>
               (plan.informationRoots.value[i] == Zero <==> plan.geometry.information[i].sector.virtualZero))
  }

  predicate RoleMatches(role: ShardRole, placement: ParityPlacement) {
    && role.Parity? && role.parity.holder == placement.holder
    && role.parity.failureDomain == placement.failureDomain && role.parity.row == placement.row
  }

  /** The group's roles are the plan's, position by position. */
  predicate MatchesGeometry(hash: GroupHash, g: Geometry, group: Group) {
    && GroupOk(hash, group)
    && group.guildId == g.guildId && group.profile == g.profile && |group.roles| == |g.information| + |g.parity|
    && (forall i :: 0 <= i < |g.information| ==> group.roles[i] == Information(g.information[i]))
    && (forall i :: 0 <= i < |g.parity| ==> RoleMatches(group.roles[|g.information| + i], g.parity[i]))
  }
}
