/**
 The coding-group pass of checkpoint validation: every role has its place, no two roles of a
 group share a failure domain, and no sector is protected twice.
 */
module CheckpointGroups {
  import opened Base
  import opened Sectors
  import opened Coding
  import opened Checkpoint
  import opened CheckpointChains
  import opened CheckpointSectors

  /** Information ids among the first roles of a group. */
  function IdsTo(g: FixedGroup, n: nat): set<nat> {
    set k | 0 <= k < n && k < |g.roles| && g.roles[k].InformationShard? :: g.roles[k].sector.id
  }

  /** What one role must satisfy, given those before it. */
  predicate RoleValid(c: Checkpoint, uses: seq<Use>, g: FixedGroup, k: nat)
    requires k < |g.roles|
  {
    && RoleFits(k, g.roles[k]) && IsMember(c, g.roles[k].Node()) && Protects(g.roles[k], uses)
    && OwnDomain(c, g, k) && OwnSector(g, k)
  }

  predicate OwnDomain(c: Checkpoint, g: FixedGroup, k: nat)
    requires k < |g.roles|
  {
    forall j :: 0 <= j < k ==> !SameDomain(c, g.roles[j], g.roles[k])
  }

  predicate OwnSector(g: FixedGroup, k: nat)
    requires k < |g.roles|
  {
    forall j :: 0 <= j < k && g.roles[j].InformationShard? && g.roles[k].InformationShard? ==>
      g.roles[j].sector.id != g.roles[k].sector.id
  }

  lemma GroupValidIff(h: Hashes, c: Checkpoint, uses: seq<Use>, g: FixedGroup)
    requires ShapeOk(h, g) && g.guildId == c.guildId
    ensures GroupValid(h, c, uses, g) <==>
            (forall k: nat :: k < |g.roles| ==> RoleValid(c, uses, g, k)) && InformationIds(g) * SectorIds(uses) != {}
  {
    if (forall k: nat :: k < |g.roles| ==> RoleValid(c, uses, g, k)) {
      forall j, k | 0 <= j < k < |g.roles|
        ensures !SameDomain(c, g.roles[j], g.roles[k])
      {
        assert RoleValid(c, uses, g, k);
      }
      forall j, k | 0 <= j < k < RS_DATA_SHARDS ensures g.roles[j].sector.id != g.roles[k].sector.id {
        assert RoleFits(j, g.roles[j]) && RoleFits(k, g.roles[k]) && RoleValid(c, uses, g, k);
      }
      forall k | 0 <= k < |g.roles| ensures IsMember(c, g.roles[k].Node()) && Protects(g.roles[k], uses) {
        assert RoleValid(c, uses, g, k);
      }
    }
  }

  lemma SameDomainByMap(c: Checkpoint, domains: map<NodeId, Domain>, a: Role, b: Role)
    requires Placed(c.members, domains) && a.Node() in domains && b.Node() in domains
    ensures SameDomain(c, a, b) <==> domains[a.Node()] == domains[b.Node()]
  {
  }

  /** The domains of the first roles of a group. */
  ghost predicate DomainsTo(g: FixedGroup, n: nat, domains: map<NodeId, Domain>, used: set<Domain>) {
    && n <= |g.roles| && (forall j :: 0 <= j < n ==> g.roles[j].Node() in domains && domains[g.roles[j].Node()] in used)
    && (forall d :: d in used ==>
          exists j :: 0 <= j < n && g.roles[j].Node() in domains && domains[g.roles[j].Node()] == d)
  }

  lemma ProtectsByMap(uses: seq<Use>, scoped: map<nat, (Chain, SectorRef)>, role: Role)
    requires ScopedExactly(uses, scoped) && role.InformationShard?
    ensures Protects(role, uses) <==>
            (role.sector.id in scoped ==>
               scoped[role.sector.id].0.owner == role.owner && scoped[role.sector.id].1 == role.sector)
  {
    if role.sector.id in scoped {
      var k :| 0 <= k < |uses| && uses[k].sector.id == role.sector.id;
      assert uses[k] in uses;
    }
  }

  /** The checks of one role against the running sets; the covered set is checked as well. */
  predicate AcceptsRole(domains: map<NodeId, Domain>, scoped: map<nat, (Chain, SectorRef)>, g: FixedGroup, k: nat,
                        used: set<Domain>, ids: set<nat>, covered: set<nat>)
    requires k < |g.roles|
  {
    var role := g.roles[k];
    && RoleFits(k, role)
    && (role.InformationShard? ==>
          && role.sector.id !in ids
          && (role.sector.id in scoped ==>
                && scoped[role.sector.id].0.owner == role.owner && scoped[role.sector.id].1 == role.sector
                && role.sector.id !in covered))
    && role.Node() in domains && domains[role.Node()] !in used
  }

  lemma DomainIsFree(c: Checkpoint, domains: map<NodeId, Domain>, g: FixedGroup, k: nat, used: set<Domain>)
    requires Placed(c.members, domains) && k < |g.roles| && DomainsTo(g, k, domains, used)
    requires g.roles[k].Node() in domains
    ensures domains[g.roles[k].Node()] !in used <==> OwnDomain(c, g, k)
  {
    forall j | 0 <= j < k
      ensures SameDomain(c, g.roles[j], g.roles[k]) <==> domains[g.roles[j].Node()] == domains[g.roles[k].Node()]
    {
      SameDomainByMap(c, domains, g.roles[j], g.roles[k]);
    }
  }

  lemma SectorIsOwn(g: FixedGroup, k: nat)
    requires k < |g.roles|
    ensures OwnSector(g, k) <==> (g.roles[k].InformationShard? ==> g.roles[k].sector.id !in IdsTo(g, k))
  {
  }

  lemma AcceptsRoleIff(c: Checkpoint, domains: map<NodeId, Domain>, uses: seq<Use>,
                       scoped: map<nat, (Chain, SectorRef)>,
                       g: FixedGroup, k: nat, used: set<Domain>, before: set<nat>, covered: set<nat>)
    requires Placed(c.members, domains) && ScopedExactly(uses, scoped) && k < |g.roles|
             && DomainsTo(g, k, domains, used)
    requires covered <= before + IdsTo(g, k)
    ensures AcceptsRole(domains, scoped, g, k, used, before + IdsTo(g, k), covered)
       <==> RoleValid(c, uses, g, k) && (g.roles[k].InformationShard? ==> g.roles[k].sector.id !in before)
  {
    var role := g.roles[k];
    MemberIsPlaced(c, domains, role.Node());
    if role.InformationShard? { ProtectsByMap(uses, scoped, role); }
    if role.Node() in domains { DomainIsFree(c, domains, g, k, used); }
    SectorIsOwn(g, k);
  }

  lemma IdsToMore(g: FixedGroup, k: nat)
    requires k < |g.roles|
    ensures IdsTo(g, k + 1) == IdsTo(g, k) + if g.roles[k].InformationShard? then {g.roles[k].sector.id} else {}
  {
  }

  lemma DomainsToMore(g: FixedGroup, k: nat, domains: map<NodeId, Domain>, used: set<Domain>)
    requires DomainsTo(g, k, domains, used) && k < |g.roles| && g.roles[k].Node() in domains
    ensures DomainsTo(g, k + 1, domains, used + {domains[g.roles[k].Node()]})
  {
  }

  lemma AllIds(g: FixedGroup)
    ensures IdsTo(g, |g.roles|) == InformationIds(g)
  {
  }

  /** A rejected role leaves its group invalid, or repeats a sector of an earlier group. */
  lemma RoleRejects(h: Hashes, c: Checkpoint, uses: seq<Use>, g: FixedGroup, k: nat, before: set<nat>)
    requires ShapeOk(h, g) && g.guildId == c.guildId && k < |g.roles|
    requires !(RoleValid(c, uses, g, k) && (g.roles[k].InformationShard? ==> g.roles[k].sector.id !in before))
    ensures !(GroupValid(h, c, uses, g) && InformationIds(g) !! before)
  {
    GroupValidIff(h, c, uses, g);
    if !RoleValid(c, uses, g, k) {
      assert !GroupValid(h, c, uses, g);
    } else {
      assert g.roles[k].sector.id in InformationIds(g) * before;
    }
  }

  /** The running sets: sectors protected so far, those that revisions use, and how many of these in one group. */
  datatype Tally = Tally(ids: set<nat>, covered: set<nat>, count: nat)

  function AddRole(t: Tally, role: Role, retained: set<nat>): Tally {
    if role.ParityShard? then t
    else if role.sector.id in retained then
      Tally(t.ids + {role.sector.id}, t.covered + {role.sector.id}, t.count + 1)
    else Tally(t.ids + {role.sector.id}, t.covered, t.count)
  }

  ghost predicate Tallied(seen: set<nat>, before: set<nat>, retained: set<nat>, t: Tally) {
    && seen !! before && t.ids == before + seen && t.covered == t.ids * retained
    && (t.count > 0 <==> seen * retained != {})
  }

  lemma TalliedMore(g: FixedGroup, k: nat, before: set<nat>, retained: set<nat>, t: Tally)
    requires Tallied(IdsTo(g, k), before, retained, t) && k < |g.roles|
    requires g.roles[k].InformationShard? ==> g.roles[k].sector.id !in t.ids
    ensures Tallied(IdsTo(g, k + 1), before, retained, AddRole(t, g.roles[k], retained))
  {
    var role, seen := g.roles[k], IdsTo(g, k);
    IdsToMore(g, k);
    if role.InformationShard? {
      var id := role.sector.id;
      if id in retained {
        assert id in (seen + {id}) * retained;
      } else {
        assert (seen + {id}) * retained == seen * retained;
      }
    }
  }

  /** The maps of the earlier passes that the groups are checked against. */
  ghost predicate Ready(c: Checkpoint, uses: seq<Use>, domains: map<NodeId, Domain>,
                        scoped: map<nat, (Chain, SectorRef)>) {
    && (forall d {:trigger Placed(c.members, d)} :: d == domains ==> Placed(c.members, d))
    && (forall s {:trigger ScopedExactly(uses, s)} :: s == scoped ==> ScopedExactly(uses, s))
  }

  ghost function Shape(h: Hashes, c: Checkpoint): FixedGroup -> bool {
    g => ShapeOk(h, g) && g.guildId == c.guildId
  }

  /** Whether a group is valid and shares no sector with earlier groups. */
  ghost function Verdict(h: Hashes, c: Checkpoint, uses: seq<Use>, before: set<nat>): FixedGroup -> bool {
    g => GroupValid(h, c, uses, g) && InformationIds(g) !! before
  }

  /** The first roles of a group are valid. */
  ghost predicate RolesTo(c: Checkpoint, uses: seq<Use>, g: FixedGroup, n: nat) {
    n == 0 || (n <= |g.roles| && RolesTo(c, uses, g, n - 1) && RoleValid(c, uses, g, n - 1))
  }

  lemma {:induction false} RolesToAt(c: Checkpoint, uses: seq<Use>, g: FixedGroup, n: nat, k: nat)
    requires RolesTo(c, uses, g, n) && k < n
    ensures k < |g.roles| && RoleValid(c, uses, g, k)
  {
    if k < n - 1 { RolesToAt(c, uses, g, n - 1, k); }
  }

  /** One role against the running sets: accepted, it extends them; rejected, the group is invalid. */
  lemma RoleStep(h: Hashes, c: Checkpoint, uses: seq<Use>, domains: map<NodeId, Domain>,
                 scoped: map<nat, (Chain, SectorRef)>,
                 g: FixedGroup, k: nat, used: set<Domain>, before: set<nat>, t: Tally)
    requires Ready(c, uses, domains, scoped) && Shape(h, c)(g) && k < |g.roles|
    requires RolesTo(c, uses, g, k) && DomainsTo(g, k, domains, used) && Tallied(IdsTo(g, k), before, scoped.Keys, t)
    ensures AcceptsRole(domains, scoped, g, k, used, t.ids, t.covered) ==>
              && RolesTo(c, uses, g, k + 1) && DomainsTo(g, k + 1, domains, used + {domains[g.roles[k].Node()]})
              && Tallied(IdsTo(g, k + 1), before, scoped.Keys, AddRole(t, g.roles[k], scoped.Keys))
    ensures !AcceptsRole(domains, scoped, g, k, used, t.ids, t.covered) ==> !Verdict(h, c, uses, before)(g)
  {
    assert Placed(c.members, domains) && ScopedExactly(uses, scoped);
    AcceptsRoleIff(c, domains, uses, scoped, g, k, used, before, t.covered);
    if AcceptsRole(domains, scoped, g, k, used, t.ids, t.covered) {
      DomainsToMore(g, k, domains, used);
      TalliedMore(g, k, before, scoped.Keys, t);
    } else {
      RoleRejects(h, c, uses, g, k, before);
    }
  }

  lemma RolesSuffice(h: Hashes, c: Checkpoint, uses: seq<Use>, g: FixedGroup, before: set<nat>)
    requires ShapeOk(h, g) && g.guildId == c.guildId && RolesTo(c, uses, g, |g.roles|)
    requires InformationIds(g) !! before
    ensures Verdict(h, c, uses, before)(g) <==> InformationIds(g) * SectorIds(uses) != {}
  {
    GroupValidIff(h, c, uses, g);
    forall k: nat | k < |g.roles| ensures RoleValid(c, uses, g, k) { RolesToAt(c, uses, g, |g.roles|, k); }
  }

  method CheckRoles(h: Hashes, c: Checkpoint, domains: map<NodeId, Domain>, ghost uses: seq<Use>,
                    scoped: map<nat, (Chain, SectorRef)>, g: FixedGroup, before: set<nat>, covered: set<nat>)
    returns (ok: bool, t: Tally)
    requires Ready(c, uses, domains, scoped) && Shape(h, c)(g) && covered == before * scoped.Keys
    ensures ok ==> Tallied(InformationIds(g), before, scoped.Keys, t) && RolesTo(c, uses, g, |g.roles|)
    ensures !ok ==> !Verdict(h, c, uses, before)(g)
  {
    t := Tally(before, covered, 0);
    var used: set<Domain> := {};
    for k := 0 to |g.roles|
      invariant RolesTo(c, uses, g, k) && DomainsTo(g, k, domains, used) && Tallied(IdsTo(g, k), before, scoped.Keys, t)
    {
      RoleStep(h, c, uses, domains, scoped, g, k, used, before, t);
      if !AcceptsRole(domains, scoped, g, k, used, t.ids, t.covered) { return false, t; }
      t, used := AddRole(t, g.roles[k], scoped.Keys), used + {domains[g.roles[k].Node()]};
    }
    AllIds(g);
    return true, t;
  }

  /** `validate_group`: the set of protected sectors grows by exactly this group's. */
  method CheckGroup(h: Hashes, c: Checkpoint, domains: map<NodeId, Domain>, ghost uses: seq<Use>,
                    scoped: map<nat, (Chain, SectorRef)>, g: FixedGroup, before: set<nat>, coveredBefore: set<nat>)
    returns (ok: bool, ids: set<nat>, covered: set<nat>)
    requires Ready(c, uses, domains, scoped) && scoped.Keys == SectorIds(uses) && coveredBefore == before * scoped.Keys
    ensures ok <==> Verdict(h, c, uses, before)(g)
    ensures ok ==> ids == before + InformationIds(g) && covered == ids * scoped.Keys
  {
    if !ShapeOk(h, g) || g.guildId != c.guildId { return false, before, coveredBefore; }
    var t;
    ok, t := CheckRoles(h, c, domains, uses, scoped, g, before, coveredBefore);
    ids, covered := t.ids, t.covered;
    if ok {
      RolesSuffice(h, c, uses, g, before);
      ok := t.count != 0;
    }
  }

  // ---------------------------------------------------------------- all groups

  function AllInformationIds(groups: seq<FixedGroup>): set<nat> {
    set i, s | 0 <= i < |groups| && s in InformationIds(groups[i]) :: s
  }

  lemma AllIdsMore(groups: seq<FixedGroup>, i: nat)
    requires i < |groups|
    ensures AllInformationIds(groups[..i + 1]) == AllInformationIds(groups[..i]) + InformationIds(groups[i])
    ensures InformationIds(groups[i]) !! AllInformationIds(groups[..i])
       <==> forall j :: 0 <= j < i ==> InformationIds(groups[j]) !! InformationIds(groups[i])
  {
    var front, more := groups[..i], groups[..i + 1];
    assert more[i] == groups[i] && forall k :: 0 <= k < i ==> more[k] == front[k];
    forall s, j | 0 <= j < i && s in InformationIds(groups[j]) ensures s in AllInformationIds(front) {
      assert front[j] == groups[j];
    }
    forall s | s in AllInformationIds(front) ensures s in AllInformationIds(more) {
      var j :| 0 <= j < |front| && s in InformationIds(front[j]);
      assert more[j] == front[j];
    }
  }

  /** The groups before position `n` pass the test, ascend and share no sector. */
  ghost predicate GroupsRead(valid: nat -> bool, groups: seq<FixedGroup>, n: nat) {
    && n <= |groups| && (forall i: nat :: i < n ==> valid(i))
    && (forall i :: 0 < i < n ==> groups[i - 1].id < groups[i].id)
    && (forall i, j :: 0 <= i < j < n ==> InformationIds(groups[i]) !! InformationIds(groups[j]))
  }

  predicate AllCovered(groups: seq<FixedGroup>, uses: seq<Use>) {
    forall s :: s in SectorIds(uses) ==> exists i :: 0 <= i < |groups| && s in InformationIds(groups[i])
  }

  ghost function GroupTest(h: Hashes, c: Checkpoint, uses: seq<Use>): nat -> bool {
    (i: nat) => i < |c.groups| && GroupValid(h, c, uses, c.groups[i])
  }

  lemma GroupRead(valid: nat -> bool, groups: seq<FixedGroup>, i: nat)
    requires GroupsRead(valid, groups, i) && i < |groups| && valid(i)
    requires i > 0 ==> groups[i - 1].id < groups[i].id
    requires InformationIds(groups[i]) !! AllInformationIds(groups[..i])
    ensures GroupsRead(valid, groups, i + 1)
  {
    AllIdsMore(groups, i);
  }

  lemma VerdictIsTest(h: Hashes, c: Checkpoint, uses: seq<Use>, i: nat, before: set<nat>)
    requires i < |c.groups|
    ensures Verdict(h, c, uses, before)(c.groups[i]) <==>
            GroupTest(h, c, uses)(i) && InformationIds(c.groups[i]) !! before
  {
  }

  lemma GroupsOkIff(h: Hashes, c: Checkpoint, uses: seq<Use>)
    ensures GroupsOk(h, c, uses)
       <==> (GroupsRead(GroupTest(h, c, uses), c.groups, |c.groups|)
             && (c.formatVersion == 3 ==> AllCovered(c.groups, uses)))
  {
    var valid := GroupTest(h, c, uses);
    assert forall i: nat :: i < |c.groups| ==> valid(i) == GroupValid(h, c, uses, c.groups[i]);
  }

  lemma GroupRejects(valid: nat -> bool, groups: seq<FixedGroup>, i: nat)
    requires i < |groups| && !(valid(i) && InformationIds(groups[i]) !! AllInformationIds(groups[..i]))
    ensures !GroupsRead(valid, groups, |groups|)
  {
    AllIdsMore(groups, i);
  }

  method CheckGroups(h: Hashes, c: Checkpoint, domains: map<NodeId, Domain>, ghost uses: seq<Use>,
                     scoped: map<nat, (Chain, SectorRef)>)
    returns (ok: bool)
    requires Ready(c, uses, domains, scoped) && scoped.Keys == SectorIds(uses)
    ensures ok <==> GroupsOk(h, c, uses)
  {
    var ids: set<nat>, covered: set<nat> := {}, {};
    ghost var valid := GroupTest(h, c, uses);
    GroupsOkIff(h, c, uses);
    for i := 0 to |c.groups|
      invariant GroupsRead(valid, c.groups, i)
      invariant ids == AllInformationIds(c.groups[..i]) && covered == ids * scoped.Keys
    {
      if i > 0 && c.groups[i - 1].id >= c.groups[i].id { return false; }
      var accepted, moreIds, moreCovered := CheckGroup(h, c, domains, uses, scoped, c.groups[i], ids, covered);
      VerdictIsTest(h, c, uses, i, ids);
      if !accepted {
        GroupRejects(valid, c.groups, i);
        return false;
      }
      GroupRead(valid, c.groups, i);
      AllIdsMore(c.groups, i);
      ids, covered := moreIds, moreCovered;
    }
    assert c.groups[..|c.groups|] == c.groups;
    CoveredIff(c.groups, uses, ids, covered);
    return c.formatVersion != 3 || (|covered| == |scoped.Keys| && scoped.Keys <= covered);
  }

  lemma CoveredIff(groups: seq<FixedGroup>, uses: seq<Use>, ids: set<nat>, covered: set<nat>)
    requires ids == AllInformationIds(groups) && covered == ids * SectorIds(uses)
    ensures AllCovered(groups, uses) <==> |covered| == |SectorIds(uses)| && SectorIds(uses) <= covered
  {
    if AllCovered(groups, uses) {
      assert covered == SectorIds(uses);
    }
  }
}
