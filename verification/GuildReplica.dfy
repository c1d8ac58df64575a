/**
 A replica of the guild log as it runs: the validation loops, and a state that changes only by
 whole events or whole tails.
 */
module GuildReplica {
  import opened Base
  import opened Coding
  import opened Guild
  import opened GuildSafety
  import opened GuildRecovery

  // ---------------------------------------------------------------- loops

  /** One pass over the signatures: active signers, strictly ascending, each over this event. */
  method VerifySignatures(c: Crypto, members: seq<DynamicMember>, certified: Certified) returns (valid: Option<nat>)
    ensures valid.Some? <==> SignaturesOk(c, members, certified)
    ensures valid.Some? ==> valid.value == |certified.signatures|
  {
    var active := ActiveIds(members);
    var previous: Option<NodeId> := None;
    for i := 0 to |certified.signatures|
      invariant previous == if i == 0 then None else Some(certified.signatures[i - 1].signer)
      invariant forall k :: 0 <= k < i ==> SignatureOk(c, members, certified.event, certified.signatures[k])
      invariant forall k, l :: 0 <= k < l < i ==> certified.signatures[k].signer < certified.signatures[l].signer
    {
      var signature := certified.signatures[i];
      if signature.signer !in active || (previous.Some? && previous.value >= signature.signer) { return None; }
      if signature.signed != Some(certified.event) || !c.strongKey(signature.signer) { return None; }
      previous := Some(signature.signer);
    }
    return Some(|certified.signatures|);
  }

  /** `expected` holds the newest epoch of every owner seen. */
  ghost predicate Expected(keys: seq<WriterKey>, expected: map<NodeId, nat>) {
    && (forall owner :: owner in expected ==> expected[owner] == LastEpoch(keys, owner))
    && (forall owner :: owner !in expected ==> LastEpoch(keys, owner) == 0)
  }

  lemma ExpectedNext(keys: seq<WriterKey>, k: WriterKey, expected: map<NodeId, nat>)
    requires Expected(keys, expected) && k.epoch == LastEpoch(keys, k.owner) + 1
    ensures Expected(keys + [k], expected[k.owner := k.epoch])
  {
    assert (keys + [k])[..|keys|] == keys;
  }

  /** The entry comes after the one before it and carries the next epoch of its owner. */
  predicate EntryFits(keys: seq<WriterKey>, i: nat)
    requires i < |keys|
  {
    && (i > 0 ==> PairLess(keys[i - 1].owner, keys[i - 1].epoch, keys[i].owner, keys[i].epoch))
    && keys[i].epoch == LastEpoch(keys[..i], keys[i].owner) + 1
  }

  lemma {:induction false} NeighboursOrder(keys: seq<WriterKey>, i: nat, j: nat)
    requires i < j < |keys| && forall k :: 0 <= k < |keys| ==> EntryFits(keys, k)
    ensures PairLess(keys[i].owner, keys[i].epoch, keys[j].owner, keys[j].epoch)
  {
    assert EntryFits(keys, j);
    if i < j - 1 { NeighboursOrder(keys, i, j - 1); }
  }

  /** Checking each entry against its predecessor checks the whole order. */
  lemma FitsIsOrdered(keys: seq<WriterKey>)
    ensures KeysOrdered(keys) <==> forall i :: 0 <= i < |keys| ==> EntryFits(keys, i)
  {
    if forall i :: 0 <= i < |keys| ==> EntryFits(keys, i) {
      forall i, j | 0 <= i < j < |keys| ensures PairLess(keys[i].owner, keys[i].epoch, keys[j].owner, keys[j].epoch) {
        NeighboursOrder(keys, i, j);
      }
      forall i | 0 <= i < |keys|
        ensures keys[i].epoch == LastEpoch(keys[..i], keys[i].owner) + 1
      {
        assert EntryFits(keys, i);
      }
    }
  }

  function Newest(expected: map<NodeId, nat>, owner: NodeId): nat {
    if owner in expected then expected[owner] else 0
  }

  /** What the map says of an entry is what the entries before it say. */
  lemma FitsByMap(keys: seq<WriterKey>, i: nat, expected: map<NodeId, nat>)
    requires i < |keys| && Expected(keys[..i], expected)
    ensures EntryFits(keys, i) <==>
            && (i > 0 ==> PairLess(keys[i - 1].owner, keys[i - 1].epoch, keys[i].owner, keys[i].epoch))
            && keys[i].epoch == Newest(expected, keys[i].owner) + 1
    ensures EntryFits(keys, i) ==> Expected(keys[..i + 1], expected[keys[i].owner := keys[i].epoch])
  {
    if EntryFits(keys, i) {
      ExpectedNext(keys[..i], keys[i], expected);
      assert keys[..i + 1] == keys[..i] + [keys[i]];
    }
  }

  /** The keys before position `n` are in order, and `expected` holds the newest epochs among them. */
  ghost predicate KeysRead(keys: seq<WriterKey>, n: nat, expected: map<NodeId, nat>) {
    forall i: nat {:trigger keys[..i]} :: i == n ==>
      i <= |keys| && Expected(keys[..i], expected) && forall k: nat :: k < i ==> EntryFits(keys, k)
  }

  /** The check of one entry against its predecessor and the map. */
  predicate AcceptsEntry(keys: seq<WriterKey>, i: nat, expected: map<NodeId, nat>)
    requires i < |keys|
  {
    && (i > 0 ==> PairLess(keys[i - 1].owner, keys[i - 1].epoch, keys[i].owner, keys[i].epoch))
    && keys[i].epoch == Newest(expected, keys[i].owner) + 1
  }

  lemma KeyRead(keys: seq<WriterKey>, i: nat, expected: map<NodeId, nat>)
    requires KeysRead(keys, i, expected) && i < |keys|
    ensures AcceptsEntry(keys, i, expected) <==> EntryFits(keys, i)
    ensures EntryFits(keys, i) ==> KeysRead(keys, i + 1, expected[keys[i].owner := keys[i].epoch])
  {
    assert Expected(keys[..i], expected);
    FitsByMap(keys, i, expected);
  }

  lemma KeysReadAll(keys: seq<WriterKey>, expected: map<NodeId, nat>)
    requires KeysRead(keys, |keys|, expected)
    ensures KeysOrdered(keys)
  {
    assert keys[..|keys|] == keys;
    FitsIsOrdered(keys);
  }

  lemma MisfitIsUnordered(keys: seq<WriterKey>, i: nat)
    requires i < |keys| && !EntryFits(keys, i)
    ensures !KeysOrdered(keys)
  {
    FitsIsOrdered(keys);
  }

  /** One pass over the writer keys with a map of the newest epochs. */
  method ValidateWriterKeys(c: Crypto, keys: seq<WriterKey>, sequence: nat) returns (ok: bool)
    ensures ok <==> KeysOrdered(keys) && forall i :: 0 <= i < |keys| ==> KeyOk(c, sequence, keys[i])
  {
    var expected: map<NodeId, nat> := map[];
    for i := 0 to |keys|
      invariant KeysRead(keys, i, expected) && forall k :: 0 <= k < i ==> KeyOk(c, sequence, keys[k])
    {
      KeyRead(keys, i, expected);
      if !AcceptsEntry(keys, i, expected) {
        MisfitIsUnordered(keys, i);
        return false;
      }
      if !KeyOk(c, sequence, keys[i]) { return false; }
      expected := expected[keys[i].owner := keys[i].epoch];
    }
    KeysReadAll(keys, expected);
    return true;
  }

  predicate AcceptsRecovery(keys: seq<RecoveryKey>, i: nat, expected: map<NodeId, nat>)
    requires i < |keys|
  {
    var e := keys[i].envelope;
    && (i > 0 ==> PairLess(keys[i - 1].envelope.subject, keys[i - 1].envelope.epoch, e.subject, e.epoch))
    && e.epoch == Newest(expected, e.subject) + 1
  }

  lemma RecoveryRead(keys: seq<RecoveryKey>, i: nat, expected: map<NodeId, nat>)
    requires KeysRead(AsKeys(keys), i, expected) && i < |keys|
    ensures AcceptsRecovery(keys, i, expected) ==>
              KeysRead(AsKeys(keys), i + 1, expected[keys[i].envelope.subject := keys[i].envelope.epoch])
    ensures !AcceptsRecovery(keys, i, expected) ==> !RecoveryOrdered(keys)
  {
    KeyRead(AsKeys(keys), i, expected);
    if !AcceptsRecovery(keys, i, expected) {
      MisfitIsUnordered(AsKeys(keys), i);
      OrderedAsKeys(keys);
    }
  }

  lemma RecoveryReadAll(keys: seq<RecoveryKey>, expected: map<NodeId, nat>)
    requires KeysRead(AsKeys(keys), |keys|, expected)
    ensures RecoveryOrdered(keys)
  {
    KeysReadAll(AsKeys(keys), expected);
    OrderedAsKeys(keys);
  }

  /** One pass over the recovery keys with a map of the newest epochs. */
  method ValidateRecoveryKeys(c: Crypto, guildId: nat, keys: seq<RecoveryKey>, sequence: nat) returns (ok: bool)
    ensures ok <==> RecoveryOrdered(keys) && forall i :: 0 <= i < |keys| ==> RecoveryOk(c, guildId, sequence, keys[i])
  {
    var expected: map<NodeId, nat> := map[];
    for i := 0 to |keys|
      invariant KeysRead(AsKeys(keys), i, expected)
      invariant forall k :: 0 <= k < i ==> RecoveryOk(c, guildId, sequence, keys[k])
    {
      RecoveryRead(keys, i, expected);
      if !RecoveryOk(c, guildId, sequence, keys[i]) || !AcceptsRecovery(keys, i, expected) { return false; }
      expected := expected[keys[i].envelope.subject := keys[i].envelope.epoch];
    }
    RecoveryReadAll(keys, expected);
    return true;
  }

  method ValidateMembers(c: Crypto, members: seq<DynamicMember>, sequence: nat) returns (ok: bool)
    ensures ok <==> AscendingIds(members) && forall i :: 0 <= i < |members| ==> MemberOk(c, sequence, members[i])
  {
    for i := 0 to |members|
      invariant AscendingIds(members[..i]) && forall k :: 0 <= k < i ==> MemberOk(c, sequence, members[k])
    {
      assert members[..i + 1] == members[..i] + [members[i]];
      if i > 0 && members[i - 1].member.nodeId >= members[i].member.nodeId { return false; }
      if !MemberOk(c, sequence, members[i]) { return false; }
    }
    assert members[..|members|] == members;
    return true;
  }

  method ValidateGroups(c: Crypto, guildId: nat, groups: seq<RetainedGroup>, sequence: nat) returns (ok: bool)
    ensures ok <==>
            GroupsOrdered(groups) && forall i :: 0 <= i < |groups| ==> RetainedOk(c, guildId, sequence, groups[i])
  {
    for i := 0 to |groups|
      invariant GroupsOrdered(groups[..i]) && forall k :: 0 <= k < i ==> RetainedOk(c, guildId, sequence, groups[k])
    {
      assert groups[..i + 1] == groups[..i] + [groups[i]];
      if i > 0 && groups[i - 1].group.id >= groups[i].group.id { return false; }
      var valid := ValidateGroup(c.groupHash, groups[i].group);
      if !valid || !RetainedOk(c, guildId, sequence, groups[i]) { return false; }
    }
    assert groups[..|groups|] == groups;
    return true;
  }

  /** `DynamicGuildState::validate`, with its loops over members, keys and groups. */
  method ValidateState(c: Crypto, s: State) returns (ok: bool)
    ensures ok <==> ValidState(c, s)
  {
    if s.formatVersion != 1 || s.guildId == 0 || s.eventHead == NoHead || s.membershipEpoch == 0
       || !(0 < |s.members| <= MAX_MEMBERS)
    {
      return false;
    }
    ok := ValidateMembers(c, s.members, s.eventSequence);
    if !ok || Required(s.quorum, ActiveCount(s.members)).Err? { return false; }
    ok := ValidateWriterKeys(c, s.writerKeys, s.eventSequence);
    if !ok { return; }
    ok := ValidateRecoveryKeys(c, s.guildId, s.recoveryKeys, s.eventSequence);
    if !ok { return; }
    ok := ValidateGroups(c, s.guildId, s.codingGroups, s.eventSequence);
  }

  /** A valid state has a quorum. */
  lemma QuorumExists(c: Crypto, s: State)
    requires ValidState(c, s)
    ensures Required(s.quorum, |ActiveIds(s.members)|).Ok?
  {
    CountIsRoster(s.members);
  }

  /** `verify_event`, with the loops of validation and over the signatures. */
  method VerifyEvent(c: Crypto, s: State, certified: Certified) returns (r: Result<(), GuildError>)
    ensures r == if Authorized(c, s, certified) then Ok(()) else Err(Refusal(c, s, certified))
  {
    var e := certified.event;
    var sound := ValidateState(c, s);
    if !sound { return Err(InvalidState); }
    QuorumExists(c, s);
    if !EventFormatOk(e) || e.guildId != s.guildId || e.sequence != s.eventSequence + 1 || e.sequence >= U64_LIMIT
       || e.parent != s.eventHead
    {
      return Err(InvalidEvent);
    }
    var valid := VerifySignatures(c, s.members, certified);
    if valid.None? { return Err(InvalidEvent); }
    var required := Required(s.quorum, |ActiveIds(s.members)|);
    if valid.value < required.value { return Err(InsufficientQuorum); }
    var subject := Subject(e.kind);
    if subject.Some?
       && !(exists i :: 0 <= i < |certified.signatures| && certified.signatures[i].signer == subject.value) {
      return Err(InvalidEvent);
    }
    return Ok(());
  }

  // ---------------------------------------------------------------- replicas

  /** `apply_event`: the next state, or an error. */
  method ApplyOne(c: Crypto, s: State, certified: Certified) returns (r: Result<State, GuildError>)
    ensures r == ApplyEvent(c, s, certified)
  {
    var authorized := VerifyEvent(c, s, certified);
    if authorized.Err? { return Err(authorized.error); }
    r := ApplyVerified(c, s, certified.event);
  }

  lemma ReplayNext(c: Crypto, s: State, events: seq<Certified>, i: nat)
    requires i < |events| && Replay(c, s, events[..i]).Ok?
    ensures Replay(c, s, events[..i + 1]) == ApplyEvent(c, Replay(c, s, events[..i]).value, events[i])
  {
    assert events[..i + 1][..i] == events[..i] && events[..i + 1][i] == events[i];
  }

  lemma {:induction false} ReplayJoins(c: Crypto, s: State, a: seq<Certified>, b: seq<Certified>)
    requires Replay(c, s, a).Ok?
    ensures Replay(c, s, a + b) == Replay(c, Replay(c, s, a).value, b)
    decreases |b|
  {
    if b == [] {
      assert a + b == a;
    } else {
      var front, last := b[..|b| - 1], b[|b| - 1];
      ReplayJoins(c, s, a, front);
      assert (a + b)[..|a + b| - 1] == a + front && (a + b)[|a + b| - 1] == last;
    }
  }

  lemma {:induction false} ReplayFails(c: Crypto, s: State, events: seq<Certified>, n: nat)
    requires n <= |events| && Replay(c, s, events[..n]).Err?
    ensures Replay(c, s, events) == Replay(c, s, events[..n])
    decreases |events|
  {
    if n == |events| {
      assert events[..n] == events;
    } else {
      assert events[..|events| - 1][..n] == events[..n];
      ReplayFails(c, s, events[..|events| - 1], n);
    }
  }

  /** Events applied in turn to a copy of the state, until one fails. */
  method ReplayAll(c: Crypto, s: State, events: seq<Certified>) returns (r: Result<State, GuildError>)
    ensures r == Replay(c, s, events)
  {
    var next := s;
    for i := 0 to |events|
      invariant Replay(c, s, events[..i]) == Ok(next)
    {
      r := ApplyOne(c, next, events[i]);
      ReplayNext(c, s, events, i);
      if r.Err? {
        ReplayFails(c, s, events, i + 1);
        return;
      }
      next := r.value;
    }
    assert events[..|events|] == events;
    return Ok(next);
  }

  /** `apply_tail` on a copy of the state. */
  method ReplayTail(c: Crypto, s: State, tail: Tail) returns (r: Result<State, GuildError>)
    ensures r == ApplyTail(c, s, tail)
  {
    if tail.formatVersion != 1 || tail.baseSequence != s.eventSequence || tail.baseHead != s.eventHead
       || |tail.events| > MAX_TAIL
    {
      return Err(InvalidEvent);
    }
    r := ReplayAll(c, s, tail.events);
  }

  /** Replaying the log from the base leads to the state. */
  ghost predicate Reaches(c: Crypto, base: State, log: seq<Certified>, s: State) {
    forall l {:trigger Replay(c, base, l)} :: l == log ==> Replay(c, base, l) == Ok(s)
  }

  lemma ReachesNext(c: Crypto, base: State, log: seq<Certified>, s: State, certified: Certified, next: State)
    requires Reaches(c, base, log, s) && ApplyEvent(c, s, certified) == Ok(next)
    ensures Reaches(c, base, log + [certified], next)
  {
    assert Replay(c, base, log) == Ok(s);
    assert (log + [certified])[..|log|] == log;
    ReplayNext(c, base, log + [certified], |log|);
    assert (log + [certified])[..|log| + 1] == log + [certified];
  }

  lemma ReachesTail(c: Crypto, base: State, log: seq<Certified>, s: State, tail: Tail, next: State)
    requires Reaches(c, base, log, s) && ApplyTail(c, s, tail) == Ok(next)
    ensures Reaches(c, base, log + tail.events, next)
  {
    assert Replay(c, base, log) == Ok(s);
    ReplayJoins(c, base, log, tail.events);
  }

  class Replica {
    const c: Crypto
    /** The state the replica started from. */
    const base: State
    var state: State
    /** The certified events applied so far. */
    ghost var log: seq<Certified>

    ghost predicate Valid()
      reads this
    {
      Reaches(c, base, log, state)
    }

    constructor (c: Crypto, base: State)
      ensures Valid() && this.c == c && this.base == base && state == base && log == []
    {
      this.c, this.base, state, log := c, base, base, [];
    }

    /** Applies one certified event, or changes nothing. */
    method Apply(certified: Certified) returns (r: Result<(), GuildError>)
      requires Valid()
      modifies this
      ensures Valid()
      ensures r.Ok? <==> ApplyEvent(c, old(state), certified).Ok?
      ensures r.Err? ==> r.error == ApplyEvent(c, old(state), certified).error
      ensures r.Ok? ==> log == old(log) + [certified] && state.eventSequence == old(state).eventSequence + 1
      ensures r.Err? ==> state == old(state) && log == old(log)
    {
      var next := ApplyOne(c, state, certified);
      if next.Err? { return Err(next.error); }
      AppliedSequence(c, state, certified);
      ReachesNext(c, base, log, state, certified, next.value);
      state, log := next.value, log + [certified];
      return Ok(());
    }

    /** Applies a whole tail, or changes nothing. */
    method ApplyAll(tail: Tail) returns (r: Result<(), GuildError>)
      requires Valid()
      modifies this
      ensures Valid()
      ensures r.Ok? <==> ApplyTail(c, old(state), tail).Ok?
      ensures r.Err? ==> r.error == ApplyTail(c, old(state), tail).error
      ensures r.Ok? ==> log == old(log) + tail.events
      ensures r.Err? ==> state == old(state) && log == old(log)
    {
      var next := ReplayTail(c, state, tail);
      if next.Err? { return Err(next.error); }
      ReachesTail(c, base, log, state, tail, next.value);
      state, log := next.value, log + tail.events;
      return Ok(());
    }
  }

  /** Replicas that start equal agree whenever they are equally far, whoever signed for each. */
  lemma ReplicasAgree(a: Replica, b: Replica)
    requires a.Valid() && b.Valid() && a.c == b.c && a.base == b.base && NoEquivocation(a.log, b.log)
    requires a.state.eventSequence == b.state.eventSequence
    ensures a.state == b.state
  {
    assert Replay(a.c, a.base, a.log) == Ok(a.state) && Replay(b.c, b.base, b.log) == Ok(b.state);
    SameSequenceSameState(a.c, a.base, a.log, b.log);
  }
}
