/**
 Fencing, key epochs, membership and retention over every run of the guild log.
 */
module GuildHistory {
  import opened Base
  import opened Coding
  import opened Guild
  import opened GuildSafety

  /** A successful event is its effect, with the sequence number and head moved on. */
  lemma Effect(c: Crypto, s: State, certified: Certified)
    requires ApplyEvent(c, s, certified).Ok?
    ensures var changed := ApplyKind(c, s, certified.event.sequence, certified.event.kind);
            && changed.Ok? && certified.event.sequence == s.eventSequence + 1
            && ApplyEvent(c, s, certified).value
               == changed.value.(eventSequence := certified.event.sequence, eventHead := EventHash(certified.event))
  {
  }

  // ---------------------------------------------------------------- fencing

  lemma MembershipStep(c: Crypto, s: State, certified: Certified)
    requires ApplyEvent(c, s, certified).Ok? && s.membershipEpoch < U64_LIMIT
    ensures var t := ApplyEvent(c, s, certified).value;
            && t.membershipEpoch < U64_LIMIT && t.guildId == s.guildId
            && (if IsMembershipEvent(certified.event.kind) then t.membershipEpoch == s.membershipEpoch + 1
                else t.membershipEpoch == s.membershipEpoch && t.members == s.members && t.quorum == s.quorum)
  {
  }

  predicate ChangesMembership(events: seq<Certified>) {
    exists i :: 0 <= i < |events| && IsMembershipEvent(events[i].event.kind)
  }

  /** The epoch never goes back, and it stands still exactly while the roster does. */
  lemma {:induction false} EpochFences(c: Crypto, s: State, events: seq<Certified>)
    requires Replay(c, s, events).Ok? && s.membershipEpoch < U64_LIMIT
    ensures var t := Replay(c, s, events).value;
            && s.membershipEpoch <= t.membershipEpoch < U64_LIMIT && t.guildId == s.guildId
            && (t.membershipEpoch == s.membershipEpoch <==> !ChangesMembership(events))
            && (t.membershipEpoch == s.membershipEpoch ==> t.members == s.members)
  {
    if events != [] {
      var front, last := events[..|events| - 1], events[|events| - 1];
      EpochFences(c, s, front);
      MembershipStep(c, Replay(c, s, front).value, last);
      FrontChanges(events);
    }
  }

  lemma FrontChanges(events: seq<Certified>)
    requires events != []
    ensures ChangesMembership(events) <==>
            ChangesMembership(events[..|events| - 1]) || IsMembershipEvent(events[|events| - 1].event.kind)
  {
    var front := events[..|events| - 1];
    if ChangesMembership(front) {
      var i :| 0 <= i < |front| && IsMembershipEvent(front[i].event.kind);
      assert IsMembershipEvent(events[i].event.kind);
    }
    if ChangesMembership(events) && !IsMembershipEvent(events[|events| - 1].event.kind) {
      var i :| 0 <= i < |events| && IsMembershipEvent(events[i].event.kind);
      assert front[i] == events[i];
    }
  }

  /** While the membership epoch is unchanged, the verdict on every plan is unchanged. */
  lemma VerdictIsConstant(c: Crypto, s: State, events: seq<Certified>, plan: Plan)
    requires Replay(c, s, events).Ok? && s.membershipEpoch < U64_LIMIT
    requires Replay(c, s, events).value.membershipEpoch == s.membershipEpoch
    ensures AttemptAllowed(s, plan) <==> AttemptAllowed(Replay(c, s, events).value, plan)
  {
    EpochFences(c, s, events);
  }

  /** Once a membership event is applied, a plan allowed before is rejected from then on. */
  lemma FencedForever(c: Crypto, s: State, events: seq<Certified>, plan: Plan)
    requires Replay(c, s, events).Ok? && s.membershipEpoch < U64_LIMIT
    requires AttemptAllowed(s, plan) && ChangesMembership(events)
    ensures !AttemptAllowed(Replay(c, s, events).value, plan)
  {
    EpochFences(c, s, events);
  }

  // ---------------------------------------------------------------- members

  predicate Removed(s: State, id: NodeId) {
    exists i :: 0 <= i < |s.members| && s.members[i].member.nodeId == id && s.members[i].removedAt.Some?
  }

  lemma RemovedIsInactive(c: Crypto, s: State, id: NodeId)
    requires ValidState(c, s) && Removed(s, id)
    ensures !IsActive(s, id)
  {
    var i :| 0 <= i < |s.members| && s.members[i].member.nodeId == id && s.members[i].removedAt.Some?;
    assert forall j :: 0 <= j < |s.members| && j != i ==> s.members[j].member.nodeId != id;
  }

  lemma InsertedAt(members: seq<DynamicMember>, m: DynamicMember, i: nat) returns (j: nat)
    requires i < |members|
    ensures j < |InsertMember(members, m)| && InsertMember(members, m)[j] == members[i]
  {
    var k := MembersBelow(members, m.member.nodeId);
    j := if i < k then i else i + 1;
  }

  lemma RemovedStaysHere(c: Crypto, s: State, sequence: nat, kind: EventKind, id: NodeId)
    requires ApplyKind(c, s, sequence, kind).Ok? && Removed(s, id)
    ensures Removed(ApplyKind(c, s, sequence, kind).value, id)
  {
    var t := ApplyKind(c, s, sequence, kind).value;
    var i :| 0 <= i < |s.members| && s.members[i].member.nodeId == id && s.members[i].removedAt.Some?;
    if kind.AddMember? {
      var j := InsertedAt(s.members, DynamicMember(kind.member, sequence, None), i);
      assert t.members[j] == s.members[i];
    } else {
      assert t.members[i].member.nodeId == id && t.members[i].removedAt.Some?;
    }
  }

  lemma RemovedStaysStep(c: Crypto, s: State, certified: Certified, id: NodeId)
    requires ApplyEvent(c, s, certified).Ok? && Removed(s, id)
    ensures Removed(ApplyEvent(c, s, certified).value, id)
  {
    Effect(c, s, certified);
    RemovedStaysHere(c, s, certified.event.sequence, certified.event.kind, id);
  }

  /** A removed member is never active again. */
  lemma {:induction false} RemovedForever(c: Crypto, s: State, events: seq<Certified>, id: NodeId)
    requires ValidState(c, s) && Replay(c, s, events).Ok? && Removed(s, id)
    ensures Removed(Replay(c, s, events).value, id) && !IsActive(Replay(c, s, events).value, id)
  {
    if events == [] {
      RemovedIsInactive(c, s, id);
    } else {
      var front, last := events[..|events| - 1], events[|events| - 1];
      RemovedForever(c, s, front, id);
      RemovedStaysStep(c, Replay(c, s, front).value, last, id);
      AppliedSequence(c, Replay(c, s, front).value, last);
      RemovedIsInactive(c, Replay(c, s, events).value, id);
    }
  }

  // ---------------------------------------------------------------- writer keys

  /** The same key later on: at most revoked in between. */
  predicate SameKey(a: WriterKey, b: WriterKey) {
    && b.owner == a.owner && b.epoch == a.epoch && b.publicKey == a.publicKey && b.activatedAt == a.activatedAt
    && (a.revokedAt.Some? ==> b.revokedAt == a.revokedAt)
  }

  predicate KeptIn(k: WriterKey, keys: seq<WriterKey>) {
    exists j :: 0 <= j < |keys| && SameKey(k, keys[j])
  }

  predicate KeysKept(a: seq<WriterKey>, b: seq<WriterKey>) {
    forall i :: 0 <= i < |a| ==> KeptIn(a[i], b)
  }

  lemma InsertKeepsKeys(keys: seq<WriterKey>, k: WriterKey)
    ensures KeysKept(keys, InsertKey(keys, k))
  {
    var n, more := KeysBelow(keys, k), InsertKey(keys, k);
    forall i | 0 <= i < |keys| ensures KeptIn(keys[i], more) {
      assert SameKey(keys[i], more[if i < n then i else i + 1]);
    }
  }

  lemma UpdateKeepsKeys(keys: seq<WriterKey>, at: nat, sequence: nat)
    requires at < |keys| && keys[at].revokedAt.None?
    ensures KeysKept(keys, keys[at := keys[at].(revokedAt := Some(sequence))])
  {
    var more := keys[at := keys[at].(revokedAt := Some(sequence))];
    forall i | 0 <= i < |keys| ensures KeptIn(keys[i], more) { assert SameKey(keys[i], more[i]); }
  }

  lemma KeysKeptRefl(keys: seq<WriterKey>)
    ensures KeysKept(keys, keys)
  {
    forall i | 0 <= i < |keys| ensures KeptIn(keys[i], keys) { assert SameKey(keys[i], keys[i]); }
  }

  lemma KeysKeptTrans(a: seq<WriterKey>, b: seq<WriterKey>, d: seq<WriterKey>)
    requires KeysKept(a, b) && KeysKept(b, d)
    ensures KeysKept(a, d)
  {
    forall i | 0 <= i < |a| ensures KeptIn(a[i], d) {
      assert KeptIn(a[i], b);
      var j :| 0 <= j < |b| && SameKey(a[i], b[j]);
      assert KeptIn(b[j], d);
      var k :| 0 <= k < |d| && SameKey(b[j], d[k]);
      assert SameKey(a[i], d[k]);
    }
  }

  lemma KeysHere(c: Crypto, s: State, sequence: nat, kind: EventKind)
    requires ApplyKind(c, s, sequence, kind).Ok?
    ensures KeysKept(s.writerKeys, ApplyKind(c, s, sequence, kind).value.writerKeys)
  {
    match kind
    case RotateWriterKey(owner, epoch, publicKey) =>
      InsertKeepsKeys(s.writerKeys, WriterKey(owner, epoch, publicKey, sequence, None));
    case RevokeWriterKey(owner, epoch) =>
      UpdateKeepsKeys(s.writerKeys, FindKey(s.writerKeys, owner, epoch).value, sequence);
    case _ =>
      assert ApplyKind(c, s, sequence, kind).value.writerKeys == s.writerKeys;
      KeysKeptRefl(s.writerKeys);
  }

  lemma KeysStep(c: Crypto, s: State, certified: Certified)
    requires ApplyEvent(c, s, certified).Ok?
    ensures KeysKept(s.writerKeys, ApplyEvent(c, s, certified).value.writerKeys)
  {
    Effect(c, s, certified);
    KeysHere(c, s, certified.event.sequence, certified.event.kind);
  }

  /** Keys are never changed or dropped. */
  lemma {:induction false} KeysAreKept(c: Crypto, s: State, events: seq<Certified>)
    requires Replay(c, s, events).Ok?
    ensures KeysKept(s.writerKeys, Replay(c, s, events).value.writerKeys)
  {
    if events == [] {
      KeysKeptRefl(s.writerKeys);
    } else {
      var front, last := events[..|events| - 1], events[|events| - 1];
      KeysAreKept(c, s, front);
      KeysStep(c, Replay(c, s, front).value, last);
      KeysKeptTrans(s.writerKeys, Replay(c, s, front).value.writerKeys, Replay(c, s, events).value.writerKeys);
    }
  }

  lemma {:induction false} LastEpochBounds(keys: seq<WriterKey>, i: nat)
    requires i < |keys|
    ensures keys[i].epoch <= LastEpoch(keys, keys[i].owner)
    decreases |keys|
  {
    if i < |keys| - 1 { LastEpochBounds(keys[..|keys| - 1], i); }
  }

  lemma {:induction false} LastEpochIssued(keys: seq<WriterKey>, owner: NodeId) returns (i: nat)
    requires LastEpoch(keys, owner) > 0
    ensures i < |keys| && keys[i].owner == owner && keys[i].epoch == LastEpoch(keys, owner)
  {
    var front, last := keys[..|keys| - 1], keys[|keys| - 1];
    if last.owner == owner && last.epoch > LastEpoch(front, owner) {
      i := |keys| - 1;
    } else {
      i := LastEpochIssued(front, owner);
    }
  }

  lemma OrderedPrefix(keys: seq<WriterKey>, n: nat)
    requires KeysOrdered(keys) && n <= |keys|
    ensures KeysOrdered(keys[..n])
  {
    forall i | 0 <= i < n ensures keys[..n][i].epoch == LastEpoch(keys[..n][..i], keys[..n][i].owner) + 1 {
      assert keys[..n][..i] == keys[..i];
    }
  }

  /** The epochs issued to an owner are exactly one up to the newest. */
  lemma {:induction false} EpochsAreExact(keys: seq<WriterKey>, owner: NodeId, epoch: nat)
    requires KeysOrdered(keys)
    ensures FindKey(keys, owner, epoch).Some? <==> 1 <= epoch <= LastEpoch(keys, owner)
  {
    if keys != [] {
      var front, last := keys[..|keys| - 1], keys[|keys| - 1];
      OrderedPrefix(keys, |keys| - 1);
      EpochsAreExact(front, owner, epoch);
      assert keys[..|keys| - 1] == front;
      assert last.epoch == LastEpoch(front, last.owner) + 1;
    }
  }

  lemma KeyIsUnique(keys: seq<WriterKey>, i: nat)
    requires KeysOrdered(keys) && i < |keys|
    ensures FindKey(keys, keys[i].owner, keys[i].epoch) == Some(i)
  {
    var j := FindKey(keys, keys[i].owner, keys[i].epoch).value;
    assert i < j ==> PairLess(keys[i].owner, keys[i].epoch, keys[j].owner, keys[j].epoch);
    assert j < i ==> PairLess(keys[j].owner, keys[j].epoch, keys[i].owner, keys[i].epoch);
  }

  /** Where a key is found later: the same key, at most revoked in between. */
  lemma KeyFoundLater(a: seq<WriterKey>, b: seq<WriterKey>, owner: NodeId, epoch: nat)
    requires KeysOrdered(b) && KeysKept(a, b) && FindKey(a, owner, epoch).Some?
    ensures FindKey(b, owner, epoch).Some?
            && SameKey(a[FindKey(a, owner, epoch).value], b[FindKey(b, owner, epoch).value])
  {
    var i := FindKey(a, owner, epoch).value;
    assert KeptIn(a[i], b);
    var j :| 0 <= j < |b| && SameKey(a[i], b[j]);
    KeyIsUnique(b, j);
  }

  lemma LastEpochGrows(a: seq<WriterKey>, b: seq<WriterKey>, owner: NodeId)
    requires KeysKept(a, b)
    ensures LastEpoch(a, owner) <= LastEpoch(b, owner)
  {
    if LastEpoch(a, owner) > 0 {
      var i := LastEpochIssued(a, owner);
      assert KeptIn(a[i], b);
      var j :| 0 <= j < |b| && SameKey(a[i], b[j]);
      LastEpochBounds(b, j);
    }
  }

  lemma {:induction false} ReplayedIsValid(c: Crypto, s: State, events: seq<Certified>)
    requires ValidState(c, s) && Replay(c, s, events).Ok?
    ensures ValidState(c, Replay(c, s, events).value)
  {
    if events != [] {
      ReplayedIsValid(c, s, events[..|events| - 1]);
      AppliedSequence(c, Replay(c, s, events[..|events| - 1]).value, events[|events| - 1]);
    }
  }

  /** An issued key keeps its public key over every run. */
  lemma KeyIsImmutable(c: Crypto, s: State, events: seq<Certified>, owner: NodeId, epoch: nat)
    requires ValidState(c, s) && Replay(c, s, events).Ok? && FindKey(s.writerKeys, owner, epoch).Some?
    ensures var t := Replay(c, s, events).value;
            && FindKey(t.writerKeys, owner, epoch).Some?
            && SameKey(s.writerKeys[FindKey(s.writerKeys, owner, epoch).value],
                       t.writerKeys[FindKey(t.writerKeys, owner, epoch).value])
  {
    ReplayedIsValid(c, s, events);
    KeysAreKept(c, s, events);
    KeyFoundLater(s.writerKeys, Replay(c, s, events).value.writerKeys, owner, epoch);
  }

  /** An issued epoch that is not current never becomes current again. */
  lemma NeverCurrentAgain(c: Crypto, s: State, events: seq<Certified>, owner: NodeId, epoch: nat)
    requires ValidState(c, s) && Replay(c, s, events).Ok?
    requires FindKey(s.writerKeys, owner, epoch).Some? && !WriterEpochIsCurrent(s, owner, epoch)
    ensures !WriterEpochIsCurrent(Replay(c, s, events).value, owner, epoch)
  {
    KeyIsImmutable(c, s, events, owner, epoch);
    KeysAreKept(c, s, events);
    LastEpochGrows(s.writerKeys, Replay(c, s, events).value.writerKeys, owner);
    LastEpochBounds(s.writerKeys, FindKey(s.writerKeys, owner, epoch).value);
  }
}
