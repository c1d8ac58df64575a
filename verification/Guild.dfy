/**
 The guild's event log: state, certified events, and what applying an event does. Hashes and
 signatures are ideal: a head is the event that was hashed, a signature names what was signed.
 */
module Guild {
  import opened Base
  import opened Coding

  const MAX_MEMBERS: nat := 256
  const MAX_TAIL: nat := 4096

  datatype GuildError =
    | InvalidState | InvalidEvent | InsufficientQuorum | InactiveMember | InvalidPlacement | InvalidAttempt
    | RetentionActive | InvalidEnvelope

  /** The parts of cryptography that validation consults; nothing is assumed about them. */
  datatype Crypto = Crypto(strongKey: nat -> bool, contributory: nat -> bool, groupHash: GroupHash)

  // ---------------------------------------------------------------- quorum

  datatype QuorumRule = Unanimous | Majority | Threshold(value: nat)

  datatype QuorumPolicy = QuorumPolicy(formatVersion: nat, rule: QuorumRule)

  /** Signatures needed from a roster. Every accepted quorum is more than half of it. */
  function Required(policy: QuorumPolicy, active: nat): (r: Result<nat, GuildError>)
    ensures r.Ok? ==> active < 2 * r.value && r.value <= active
  {
    if policy.formatVersion != 1 || active == 0 then Err(InvalidState)
    else
      var required :=
        match policy.rule
        case Unanimous => active
        case Majority => active / 2 + 1
        case Threshold(value) => if value <= active / 2 then 0 else value;
      if required == 0 || required > active then Err(InvalidState) else Ok(required)
  }

  // ---------------------------------------------------------------- records

  datatype Member = Member(nodeId: NodeId, recoveryKey: nat, failureDomain: Domain)

  datatype DynamicMember = DynamicMember(member: Member, joinedAt: nat, removedAt: Option<nat>) {
    predicate Active() {
      removedAt.None?
    }
  }

  datatype WriterKey = WriterKey(owner: NodeId, epoch: nat, publicKey: nat, activatedAt: nat, revokedAt: Option<nat>)

  datatype Envelope =
    Envelope(formatVersion: nat, guildId: nat, subject: NodeId, epoch: nat, publicKey: nat, ciphertext: Bytes)

  datatype RecoveryKey = RecoveryKey(envelope: Envelope, activatedAt: nat, revokedAt: Option<nat>)

  datatype RetainedGroup =
    RetainedGroup(group: Group, addedAt: nat, retiredAt: Option<nat>, retainThrough: Option<nat>)

  datatype EventKind =
    | AddMember(member: Member)
    | RemoveMember(nodeId: NodeId)
    | RelabelMember(nodeId: NodeId, failureDomain: Domain)
    | SetQuorum(policy: QuorumPolicy)
    | RotateWriterKey(owner: NodeId, epoch: nat, publicKey: nat)
    | RevokeWriterKey(owner: NodeId, epoch: nat)
    | RotateRecoveryKey(envelope: Envelope)
    | RevokeRecoveryKey(subject: NodeId, epoch: nat)
    | AddCodingGroup(group: Group)
    | RetireCodingGroup(groupId: nat, retainThrough: nat)
    | ForgetCodingGroup(groupId: nat)
    | AddCodingGroupBound(group: Group, transcriptHash: nat)

  datatype Head = NoHead | Genesis(tag: nat) | EventHash(event: Event)

  datatype Event = Event(formatVersion: nat, guildId: nat, sequence: nat, parent: Head, kind: EventKind)

  /** A signature and the event it was made for, if it is one for an event. */
  datatype Signature = Signature(signer: NodeId, signed: Option<Event>)

  datatype Certified = Certified(event: Event, signatures: seq<Signature>)

  datatype Tail = Tail(formatVersion: nat, baseSequence: nat, baseHead: Head, events: seq<Certified>)

  datatype State =
    State(formatVersion: nat, guildId: nat, eventSequence: nat, eventHead: Head, membershipEpoch: nat,
          quorum: QuorumPolicy, members: seq<DynamicMember>, writerKeys: seq<WriterKey>,
          recoveryKeys: seq<RecoveryKey>, codingGroups: seq<RetainedGroup>)

  // ---------------------------------------------------------------- rosters

  /** The ids of the active members. */
  function ActiveIds(members: seq<DynamicMember>): set<NodeId> {
    set i | 0 <= i < |members| && members[i].Active() :: members[i].member.nodeId
  }

  function ActiveCount(members: seq<DynamicMember>): nat {
    if members == [] then 0
    else ActiveCount(members[..|members| - 1]) + if members[|members| - 1].Active() then 1 else 0
  }

  predicate AscendingIds(members: seq<DynamicMember>) {
    forall i, j :: 0 <= i < j < |members| ==> members[i].member.nodeId < members[j].member.nodeId
  }

  lemma LastId(members: seq<DynamicMember>)
    requires AscendingIds(members) && members != []
    ensures var front, last := members[..|members| - 1], members[|members| - 1];
            && ActiveIds(members) == ActiveIds(front) + (if last.Active() then {last.member.nodeId} else {})
            && last.member.nodeId !in ActiveIds(front)
  {
    var front, last := members[..|members| - 1], members[|members| - 1];
    forall id
      ensures id in ActiveIds(members) <==> id in ActiveIds(front) || (last.Active() && id == last.member.nodeId)
    {
      if id in ActiveIds(front) {
        var i :| 0 <= i < |front| && front[i].Active() && front[i].member.nodeId == id;
        assert members[i] == front[i];
      }
    }
  }

  lemma {:induction false} CountIsRoster(members: seq<DynamicMember>)
    requires AscendingIds(members)
    ensures |ActiveIds(members)| == ActiveCount(members)
  {
    if members != [] {
      LastId(members);
      CountIsRoster(members[..|members| - 1]);
    }
  }

  /** The position of the active member with an id. */
  function FindActive(members: seq<DynamicMember>, id: NodeId): (r: Option<nat>)
    ensures r.Some? ==> r.value < |members| && members[r.value].member.nodeId == id && members[r.value].Active()
    ensures r.None? ==> forall i :: 0 <= i < |members| ==> !(members[i].member.nodeId == id && members[i].Active())
  {
    if members == [] then None
    else
      var front := FindActive(members[..|members| - 1], id);
      var last := members[|members| - 1];
      if front.Some? then front
      else if last.member.nodeId == id && last.Active() then Some(|members| - 1) else None
  }

  predicate IsActive(s: State, id: NodeId) {
    FindActive(s.members, id).Some?
  }

  predicate HasMember(members: seq<DynamicMember>, id: NodeId) {
    exists i :: 0 <= i < |members| && members[i].member.nodeId == id
  }

  /** The leading members with a smaller id. */
  function MembersBelow(members: seq<DynamicMember>, id: NodeId): (n: nat)
    ensures n <= |members|
  {
    if members != [] && members[0].member.nodeId < id then 1 + MembersBelow(members[1..], id) else 0
  }

  function InsertMember(members: seq<DynamicMember>, m: DynamicMember): seq<DynamicMember> {
    var k := MembersBelow(members, m.member.nodeId);
    members[..k] + [m] + members[k..]
  }

  // ---------------------------------------------------------------- keys

  /** The newest epoch of an owner. */
  function LastEpoch(keys: seq<WriterKey>, owner: NodeId): nat {
    if keys == [] then 0
    else
      var last := keys[|keys| - 1];
      var front := LastEpoch(keys[..|keys| - 1], owner);
      if last.owner == owner && last.epoch > front then last.epoch else front
  }

  function LastRecoveryEpoch(keys: seq<RecoveryKey>, subject: NodeId): nat {
    if keys == [] then 0
    else
      var last := keys[|keys| - 1].envelope;
      var front := LastRecoveryEpoch(keys[..|keys| - 1], subject);
      if last.subject == subject && last.epoch > front then last.epoch else front
  }

  predicate PairLess(owner: NodeId, epoch: nat, owner': NodeId, epoch': nat) {
    owner < owner' || (owner == owner' && epoch < epoch')
  }

  function KeysBelow(keys: seq<WriterKey>, k: WriterKey): (n: nat)
    ensures n <= |keys|
  {
    if keys != [] && PairLess(keys[0].owner, keys[0].epoch, k.owner, k.epoch) then 1 + KeysBelow(keys[1..], k) else 0
  }

  /** Appending and sorting an ordered list puts the new key in its place. */
  function InsertKey(keys: seq<WriterKey>, k: WriterKey): seq<WriterKey> {
    var n := KeysBelow(keys, k);
    keys[..n] + [k] + keys[n..]
  }

  function RecoveryBelow(keys: seq<RecoveryKey>, k: RecoveryKey): (n: nat)
    ensures n <= |keys|
  {
    if keys != [] && PairLess(keys[0].envelope.subject, keys[0].envelope.epoch, k.envelope.subject, k.envelope.epoch)
    then 1 + RecoveryBelow(keys[1..], k) else 0
  }

  function InsertRecovery(keys: seq<RecoveryKey>, k: RecoveryKey): seq<RecoveryKey> {
    var n := RecoveryBelow(keys, k);
    keys[..n] + [k] + keys[n..]
  }

  function FindKey(keys: seq<WriterKey>, owner: NodeId, epoch: nat): (r: Option<nat>)
    ensures r.Some? ==> r.value < |keys| && keys[r.value].owner == owner && keys[r.value].epoch == epoch
    ensures r.None? ==> forall i :: 0 <= i < |keys| ==> !(keys[i].owner == owner && keys[i].epoch == epoch)
  {
    if keys == [] then None
    else
      var front := FindKey(keys[..|keys| - 1], owner, epoch);
      var last := keys[|keys| - 1];
      if front.Some? then front else if last.owner == owner && last.epoch == epoch then Some(|keys| - 1) else None
  }

  function FindRecovery(keys: seq<RecoveryKey>, subject: NodeId, epoch: nat): (r: Option<nat>)
    ensures r.Some? ==>
              && r.value < |keys| && keys[r.value].envelope.subject == subject
              && keys[r.value].envelope.epoch == epoch
  {
    if keys == [] then None
    else
      var front := FindRecovery(keys[..|keys| - 1], subject, epoch);
      var last := keys[|keys| - 1].envelope;
      if front.Some? then front else if last.subject == subject && last.epoch == epoch then Some(|keys| - 1) else None
  }

  // ---------------------------------------------------------------- groups

  function FindGroup(groups: seq<RetainedGroup>, id: nat): (r: Option<nat>)
    ensures r.Some? ==> r.value < |groups| && groups[r.value].group.id == id
    ensures r.None? ==> forall i :: 0 <= i < |groups| ==> groups[i].group.id != id
  {
    if groups == [] then None
    else
      var front := FindGroup(groups[..|groups| - 1], id);
      if front.Some? then front else if groups[|groups| - 1].group.id == id then Some(|groups| - 1) else None
  }

  function GroupsBelow(groups: seq<RetainedGroup>, id: nat): (n: nat)
    ensures n <= |groups|
  {
    if groups != [] && groups[0].group.id < id then 1 + GroupsBelow(groups[1..], id) else 0
  }

  function InsertGroup(groups: seq<RetainedGroup>, g: RetainedGroup): seq<RetainedGroup> {
    var n := GroupsBelow(groups, g.group.id);
    groups[..n] + [g] + groups[n..]
  }

  /** Every role is held by an active member in the domain the group claims. */
  predicate PlacementOk(s: State, g: Group) {
    forall i :: 0 <= i < |g.roles| ==> HoldsDomain(s.members, g.roles[i].Node(), g.roles[i].FailureDomain())
  }

  /** Why a placement is refused: the first role that does not fit. */
  function PlacementFault(s: State, roles: seq<ShardRole>): GuildError {
    if roles == [] then InvalidPlacement
    else if !IsActive(s, roles[0].Node()) then InactiveMember
    else if !HoldsDomain(s.members, roles[0].Node(), roles[0].FailureDomain()) then InvalidPlacement
    else PlacementFault(s, roles[1..])
  }

  predicate HoldsDomain(members: seq<DynamicMember>, id: NodeId, domain: Domain) {
    FindActive(members, id).Some? && members[FindActive(members, id).value].member.failureDomain == domain
  }

  // ---------------------------------------------------------------- validity

  predicate MemberShapeOk(c: Crypto, m: Member) {
    m.nodeId != 0 && DomainOk(m.failureDomain) && c.contributory(m.recoveryKey) && c.strongKey(m.nodeId)
  }

  predicate MemberOk(c: Crypto, sequence: nat, m: DynamicMember) {
    && MemberShapeOk(c, m.member) && m.joinedAt <= sequence
    && (m.removedAt.Some? ==> m.joinedAt < m.removedAt.value <= sequence)
  }

  predicate KeyOk(c: Crypto, sequence: nat, k: WriterKey) {
    && c.strongKey(k.publicKey) && 0 < k.activatedAt <= sequence
    && (k.revokedAt.Some? ==> k.activatedAt < k.revokedAt.value <= sequence)
  }

  /** Ordered by owner and epoch, each owner's epochs counting up from one. */
  predicate KeysOrdered(keys: seq<WriterKey>) {
    && (forall i, j :: 0 <= i < j < |keys| ==> PairLess(keys[i].owner, keys[i].epoch, keys[j].owner, keys[j].epoch))
    && (forall i :: 0 <= i < |keys| ==> keys[i].epoch == LastEpoch(keys[..i], keys[i].owner) + 1)
  }

  predicate EnvelopeOk(c: Crypto, guildId: nat, e: Envelope) {
    && e.formatVersion == 1 && e.guildId == guildId && e.subject != 0 && e.epoch != 0
    && c.contributory(e.publicKey) && |e.ciphertext| <= 4096
  }

  predicate RecoveryOk(c: Crypto, guildId: nat, sequence: nat, k: RecoveryKey) {
    && EnvelopeOk(c, guildId, k.envelope) && 0 < k.activatedAt <= sequence
    && (k.revokedAt.Some? ==> k.activatedAt < k.revokedAt.value <= sequence)
  }

  predicate RecoveryOrdered(keys: seq<RecoveryKey>) {
    && (forall i, j :: 0 <= i < j < |keys| ==>
          PairLess(keys[i].envelope.subject, keys[i].envelope.epoch, keys[j].envelope.subject, keys[j].envelope.epoch))
    && (forall i :: 0 <= i < |keys| ==>
          keys[i].envelope.epoch == LastRecoveryEpoch(keys[..i], keys[i].envelope.subject) + 1)
  }

  predicate RetainedOk(c: Crypto, guildId: nat, sequence: nat, g: RetainedGroup) {
    && GroupOk(c.groupHash, g.group) && g.group.guildId == guildId && 0 < g.addedAt <= sequence
    && (g.retiredAt.Some? <==> g.retainThrough.Some?)
    && (g.retiredAt.Some? ==> g.addedAt <= g.retiredAt.value <= sequence && g.retiredAt.value <= g.retainThrough.value)
  }

  predicate GroupsOrdered(groups: seq<RetainedGroup>) {
    forall i, j :: 0 <= i < j < |groups| ==> groups[i].group.id < groups[j].group.id
  }

  predicate RosterOk(c: Crypto, s: State) {
    && 0 < |s.members| <= MAX_MEMBERS && AscendingIds(s.members)
    && (forall i :: 0 <= i < |s.members| ==> MemberOk(c, s.eventSequence, s.members[i]))
    && Required(s.quorum, ActiveCount(s.members)).Ok?
  }

  predicate AllKeysOk(c: Crypto, s: State) {
    && KeysOrdered(s.writerKeys) && (forall i :: 0 <= i < |s.writerKeys| ==> KeyOk(c, s.eventSequence, s.writerKeys[i]))
    && RecoveryOrdered(s.recoveryKeys)
    && (forall i :: 0 <= i < |s.recoveryKeys| ==> RecoveryOk(c, s.guildId, s.eventSequence, s.recoveryKeys[i]))
  }

  predicate GroupsOk(c: Crypto, s: State) {
    && GroupsOrdered(s.codingGroups)
    && (forall i :: 0 <= i < |s.codingGroups| ==> RetainedOk(c, s.guildId, s.eventSequence, s.codingGroups[i]))
  }

  /** `DynamicGuildState::validate`. */
  predicate ValidState(c: Crypto, s: State) {
    && s.formatVersion == 1 && s.guildId != 0 && s.eventHead != NoHead && s.membershipEpoch != 0
    && RosterOk(c, s) && AllKeysOk(c, s) && GroupsOk(c, s)
  }

  // ---------------------------------------------------------------- certification

  predicate EventFormatOk(e: Event) {
    if e.kind.AddCodingGroupBound? then e.formatVersion == 2 && e.kind.transcriptHash != 0 else e.formatVersion == 1
  }

  /** Ascending active signers, each of whom signed this event. */
  predicate SignaturesOk(c: Crypto, members: seq<DynamicMember>, certified: Certified) {
    && (forall i :: 0 <= i < |certified.signatures| ==>
          SignatureOk(c, members, certified.event, certified.signatures[i]))
    && (forall i, j :: 0 <= i < j < |certified.signatures| ==>
          certified.signatures[i].signer < certified.signatures[j].signer)
  }

  predicate SignatureOk(c: Crypto, members: seq<DynamicMember>, e: Event, signature: Signature) {
    signature.signer in ActiveIds(members) && signature.signed == Some(e) && c.strongKey(signature.signer)
  }

  function Subject(kind: EventKind): Option<NodeId> {
    match kind
    case RotateWriterKey(owner, _, _) => Some(owner)
    case RotateRecoveryKey(envelope) => Some(envelope.subject)
    case _ => None
  }

  /** `verify_event`: the exact next event, certified by a quorum of the active roster. */
  predicate Authorized(c: Crypto, s: State, certified: Certified) {
    && ValidState(c, s)
    && EventFormatOk(certified.event) && certified.event.guildId == s.guildId
    && certified.event.sequence == s.eventSequence + 1 < U64_LIMIT && certified.event.parent == s.eventHead
    && SignaturesOk(c, s.members, certified)
    && Required(s.quorum, |ActiveIds(s.members)|).Ok?
    && |certified.signatures| >= Required(s.quorum, |ActiveIds(s.members)|).value
    && (Subject(certified.event.kind).Some? ==>
          exists i :: 0 <= i < |certified.signatures|
            && certified.signatures[i].signer == Subject(certified.event.kind).value)
  }

  /** Why `verify_event` refuses an event that is not authorized. */
  function Refusal(c: Crypto, s: State, certified: Certified): GuildError {
    if !ValidState(c, s) then InvalidState
    else if TooFewSigners(c, s, certified) then InsufficientQuorum
    else InvalidEvent
  }

  /** The exact next event, signed by active members only, but by too few of them. */
  predicate TooFewSigners(c: Crypto, s: State, certified: Certified) {
    && EventFormatOk(certified.event) && certified.event.guildId == s.guildId
    && certified.event.sequence == s.eventSequence + 1 < U64_LIMIT && certified.event.parent == s.eventHead
    && SignaturesOk(c, s.members, certified)
    && Required(s.quorum, |ActiveIds(s.members)|).Ok?
    && |certified.signatures| < Required(s.quorum, |ActiveIds(s.members)|).value
  }

  // ---------------------------------------------------------------- applying events

  predicate IsMembershipEvent(kind: EventKind) {
    kind.AddMember? || kind.RemoveMember? || kind.RelabelMember? || kind.SetQuorum?
  }

  /** The membership epoch counts in a machine word; a wrapped one is zero and fails validation. */
  function ApplyMembership(c: Crypto, s: State, sequence: nat, kind: EventKind): Result<State, GuildError>
    requires IsMembershipEvent(kind)
  {
    match kind
    case AddMember(member) =>
      if !MemberShapeOk(c, member) || HasMember(s.members, member.nodeId) then Err(InvalidEvent)
      else Ok(s.(members := InsertMember(s.members, DynamicMember(member, sequence, None)),
                 membershipEpoch := NextWord(s.membershipEpoch)))
    case RemoveMember(id) =>
      var at := FindActive(s.members, id);
      if at.None? then Err(InactiveMember)
      else Ok(s.(members := s.members[at.value := s.members[at.value].(removedAt := Some(sequence))],
                 membershipEpoch := NextWord(s.membershipEpoch)))
    case RelabelMember(id, domain) =>
      var at := FindActive(s.members, id);
      if !DomainOk(domain) then Err(InvalidEvent)
      else if at.None? then Err(InactiveMember)
      else
        var m := s.members[at.value];
        Ok(s.(members := s.members[at.value := m.(member := m.member.(failureDomain := domain))],
              membershipEpoch := NextWord(s.membershipEpoch)))
    case SetQuorum(policy) =>
      if Required(policy, ActiveCount(s.members)).Err? then Err(InvalidState)
      else Ok(s.(quorum := policy, membershipEpoch := NextWord(s.membershipEpoch)))
  }

  predicate IsKeyEvent(kind: EventKind) {
    kind.RotateWriterKey? || kind.RevokeWriterKey? || kind.RotateRecoveryKey? || kind.RevokeRecoveryKey?
  }

  function ApplyKeys(c: Crypto, s: State, sequence: nat, kind: EventKind): Result<State, GuildError>
    requires IsKeyEvent(kind)
  {
    match kind
    case RotateWriterKey(owner, epoch, publicKey) =>
      if !IsActive(s, owner) then Err(InactiveMember)
      else if !c.strongKey(publicKey) || epoch != LastEpoch(s.writerKeys, owner) + 1 then Err(InvalidEvent)
      else Ok(s.(writerKeys := InsertKey(s.writerKeys, WriterKey(owner, epoch, publicKey, sequence, None))))
    case RevokeWriterKey(owner, epoch) =>
      var at := FindKey(s.writerKeys, owner, epoch);
      if at.None? || s.writerKeys[at.value].revokedAt.Some? then Err(InvalidEvent)
      else Ok(s.(writerKeys := s.writerKeys[at.value := s.writerKeys[at.value].(revokedAt := Some(sequence))]))
    case RotateRecoveryKey(envelope) =>
      if !IsActive(s, envelope.subject) then Err(InactiveMember)
      else if !EnvelopeOk(c, s.guildId, envelope) then Err(InvalidEnvelope)
      else if envelope.epoch != LastRecoveryEpoch(s.recoveryKeys, envelope.subject) + 1 then Err(InvalidEvent)
      else Ok(s.(recoveryKeys := InsertRecovery(s.recoveryKeys, RecoveryKey(envelope, sequence, None))))
    case RevokeRecoveryKey(subject, epoch) =>
      var at := FindRecovery(s.recoveryKeys, subject, epoch);
      if at.None? || s.recoveryKeys[at.value].revokedAt.Some? then Err(InvalidEvent)
      else Ok(s.(recoveryKeys := s.recoveryKeys[at.value := s.recoveryKeys[at.value].(revokedAt := Some(sequence))]))
  }

  predicate IsGroupEvent(kind: EventKind) {
    kind.AddCodingGroup? || kind.AddCodingGroupBound? || kind.RetireCodingGroup? || kind.ForgetCodingGroup?
  }

  function AddGroup(c: Crypto, s: State, sequence: nat, group: Group): Result<State, GuildError> {
    if !GroupOk(c.groupHash, group) || group.guildId != s.guildId || FindGroup(s.codingGroups, group.id).Some?
    then Err(InvalidEvent)
    else if !PlacementOk(s, group) then Err(PlacementFault(s, group.roles))
    else Ok(s.(codingGroups := InsertGroup(s.codingGroups, RetainedGroup(group, sequence, None, None))))
  }

  function ApplyGroups(c: Crypto, s: State, sequence: nat, kind: EventKind): Result<State, GuildError>
    requires IsGroupEvent(kind)
  {
    match kind
    case AddCodingGroup(group) => AddGroup(c, s, sequence, group)
    case AddCodingGroupBound(group, _) => AddGroup(c, s, sequence, group)
    case RetireCodingGroup(id, retainThrough) =>
      var at := FindGroup(s.codingGroups, id);
      if at.None? || s.codingGroups[at.value].retiredAt.Some? || retainThrough < sequence then Err(InvalidEvent)
      else Ok(s.(codingGroups := s.codingGroups[at.value :=
                   s.codingGroups[at.value].(retiredAt := Some(sequence), retainThrough := Some(retainThrough))]))
    case ForgetCodingGroup(id) =>
      var at := FindGroup(s.codingGroups, id);
      if at.None? then Err(InvalidEvent)
      else
        var through := s.codingGroups[at.value].retainThrough;
        if through.None? || sequence <= through.value then Err(RetentionActive)
        else Ok(s.(codingGroups := s.codingGroups[..at.value] + s.codingGroups[at.value + 1..]))
  }

  /** The effect of an event on the roster, the keys or the groups. */
  function ApplyKind(c: Crypto, s: State, sequence: nat, kind: EventKind): Result<State, GuildError> {
    if IsMembershipEvent(kind) then ApplyMembership(c, s, sequence, kind)
    else if IsKeyEvent(kind) then ApplyKeys(c, s, sequence, kind)
    else ApplyGroups(c, s, sequence, kind)
  }

  /** `apply_verified_event`: the effect of the event, if the outcome is a valid state. */
  function ApplyVerified(c: Crypto, s: State, e: Event): Result<State, GuildError> {
    var changed := ApplyKind(c, s, e.sequence, e.kind);
    if changed.Err? then changed
    else
      var next := changed.value.(eventSequence := e.sequence, eventHead := EventHash(e));
      if ValidState(c, next) then Ok(next) else Err(InvalidState)
  }

  /** `apply_event`. */
  function ApplyEvent(c: Crypto, s: State, certified: Certified): Result<State, GuildError> {
    if Authorized(c, s, certified) then ApplyVerified(c, s, certified.event) else Err(Refusal(c, s, certified))
  }

  /** A list of certified events, applied in turn. */
  function Replay(c: Crypto, s: State, events: seq<Certified>): Result<State, GuildError> {
    if events == [] then Ok(s)
    else
      var before := Replay(c, s, events[..|events| - 1]);
      if before.Err? then before else ApplyEvent(c, before.value, events[|events| - 1])
  }

  /** `apply_tail`. */
  function ApplyTail(c: Crypto, s: State, tail: Tail): Result<State, GuildError> {
    if tail.formatVersion != 1 || tail.baseSequence != s.eventSequence || tail.baseHead != s.eventHead
       || |tail.events| > MAX_TAIL
    then Err(InvalidEvent)
    else Replay(c, s, tail.events)
  }

  // ---------------------------------------------------------------- attempts

  /** `validate_attempt_authority`. */
  predicate AttemptAllowed(s: State, plan: Plan) {
    && PlanOk(plan) && plan.geometry.guildId == s.guildId && plan.membershipEpoch == s.membershipEpoch
    && IsActive(s, plan.delegator) && IsActive(s, plan.codingCoordinator) && IsActive(s, plan.verificationCoordinator)
    && (forall i :: 0 <= i < |plan.geometry.information| ==>
          HoldsDomain(s.members, plan.geometry.information[i].owner, plan.geometry.information[i].failureDomain))
    && (forall i :: 0 <= i < |plan.geometry.parity| ==>
          HoldsDomain(s.members, plan.geometry.parity[i].holder, plan.geometry.parity[i].failureDomain))
  }

  /** `writer_epoch_is_current`. */
  predicate WriterEpochIsCurrent(s: State, owner: NodeId, epoch: nat) {
    && epoch == LastEpoch(s.writerKeys, owner)
    && FindKey(s.writerKeys, owner, epoch).Some?
    && s.writerKeys[FindKey(s.writerKeys, owner, epoch).value].revokedAt.None?
  }
}
