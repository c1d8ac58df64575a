/**
 Recovery keys over every run of the guild log. Their epochs follow the rules of writer keys, so
 a recovery key is viewed as a writer key wherever only owner, epoch and revocation matter.
 */
module GuildRecovery {
  import opened Base
  import opened Guild
  import opened GuildHistory

  function AsKey(k: RecoveryKey): WriterKey {
    WriterKey(k.envelope.subject, k.envelope.epoch, k.envelope.publicKey, k.activatedAt, k.revokedAt)
  }

  function AsKeys(keys: seq<RecoveryKey>): (r: seq<WriterKey>)
    ensures |r| == |keys| && forall i :: 0 <= i < |r| ==> r[i] == AsKey(keys[i])
  {
    seq(|keys|, i requires 0 <= i < |keys| => AsKey(keys[i]))
  }

  lemma AsKeysPrefix(keys: seq<RecoveryKey>, n: nat)
    requires n <= |keys|
    ensures AsKeys(keys[..n]) == AsKeys(keys)[..n]
  {
  }

  lemma {:induction false} NewestAsKeys(keys: seq<RecoveryKey>, subject: NodeId)
    ensures LastRecoveryEpoch(keys, subject) == LastEpoch(AsKeys(keys), subject)
  {
    if keys != [] {
      NewestAsKeys(keys[..|keys| - 1], subject);
      AsKeysPrefix(keys, |keys| - 1);
    }
  }

  lemma {:induction false} FindAsKeys(keys: seq<RecoveryKey>, subject: NodeId, epoch: nat)
    ensures FindRecovery(keys, subject, epoch) == FindKey(AsKeys(keys), subject, epoch)
  {
    if keys != [] {
      FindAsKeys(keys[..|keys| - 1], subject, epoch);
      AsKeysPrefix(keys, |keys| - 1);
    }
  }

  lemma OrderedAsKeys(keys: seq<RecoveryKey>)
    ensures RecoveryOrdered(keys) <==> KeysOrdered(AsKeys(keys))
  {
    forall i | 0 <= i < |keys|
      ensures LastRecoveryEpoch(keys[..i], keys[i].envelope.subject) ==
              LastEpoch(AsKeys(keys)[..i], AsKeys(keys)[i].owner)
    {
      AsKeysPrefix(keys, i);
      NewestAsKeys(keys[..i], keys[i].envelope.subject);
    }
  }

  // ---------------------------------------------------------------- what a run keeps

  /** The same recovery key later on, its envelope untouched: at most revoked in between. */
  predicate SameRecovery(a: RecoveryKey, b: RecoveryKey) {
    b.envelope == a.envelope && b.activatedAt == a.activatedAt && (a.revokedAt.Some? ==> b.revokedAt == a.revokedAt)
  }

  predicate RecoveryKeptIn(k: RecoveryKey, keys: seq<RecoveryKey>) {
    exists j :: 0 <= j < |keys| && SameRecovery(k, keys[j])
  }

  predicate RecoveryKept(a: seq<RecoveryKey>, b: seq<RecoveryKey>) {
    forall i :: 0 <= i < |a| ==> RecoveryKeptIn(a[i], b)
  }

  lemma RecoveryHere(c: Crypto, s: State, sequence: nat, kind: EventKind)
    requires ApplyKind(c, s, sequence, kind).Ok?
    ensures RecoveryKept(s.recoveryKeys, ApplyKind(c, s, sequence, kind).value.recoveryKeys)
  {
    var keys, more := s.recoveryKeys, ApplyKind(c, s, sequence, kind).value.recoveryKeys;
    forall i | 0 <= i < |keys| ensures RecoveryKeptIn(keys[i], more) {
      if kind.RotateRecoveryKey? {
        var n := RecoveryBelow(keys, RecoveryKey(kind.envelope, sequence, None));
        assert SameRecovery(keys[i], more[if i < n then i else i + 1]);
      } else {
        assert SameRecovery(keys[i], more[i]);
      }
    }
  }

  lemma RecoveryStep(c: Crypto, s: State, certified: Certified)
    requires ApplyEvent(c, s, certified).Ok?
    ensures RecoveryKept(s.recoveryKeys, ApplyEvent(c, s, certified).value.recoveryKeys)
  {
    Effect(c, s, certified);
    RecoveryHere(c, s, certified.event.sequence, certified.event.kind);
  }

  lemma RecoveryKeptTrans(a: seq<RecoveryKey>, b: seq<RecoveryKey>, d: seq<RecoveryKey>)
    requires RecoveryKept(a, b) && RecoveryKept(b, d)
    ensures RecoveryKept(a, d)
  {
    forall i | 0 <= i < |a| ensures RecoveryKeptIn(a[i], d) {
      assert RecoveryKeptIn(a[i], b);
      var j :| 0 <= j < |b| && SameRecovery(a[i], b[j]);
      assert RecoveryKeptIn(b[j], d);
      var k :| 0 <= k < |d| && SameRecovery(b[j], d[k]);
      assert SameRecovery(a[i], d[k]);
    }
  }

  /** Recovery keys are never changed or dropped. */
  lemma {:induction false} RecoveryIsKept(c: Crypto, s: State, events: seq<Certified>)
    requires Replay(c, s, events).Ok?
    ensures RecoveryKept(s.recoveryKeys, Replay(c, s, events).value.recoveryKeys)
  {
    if events == [] {
      forall i | 0 <= i < |s.recoveryKeys| ensures RecoveryKeptIn(s.recoveryKeys[i], s.recoveryKeys) {
        assert SameRecovery(s.recoveryKeys[i], s.recoveryKeys[i]);
      }
    } else {
      var front := events[..|events| - 1];
      RecoveryIsKept(c, s, front);
      RecoveryStep(c, Replay(c, s, front).value, events[|events| - 1]);
      RecoveryKeptTrans(s.recoveryKeys, Replay(c, s, front).value.recoveryKeys,
                        Replay(c, s, events).value.recoveryKeys);
    }
  }

  lemma KeptAsKeys(a: seq<RecoveryKey>, b: seq<RecoveryKey>)
    requires RecoveryKept(a, b)
    ensures KeysKept(AsKeys(a), AsKeys(b))
  {
    forall i | 0 <= i < |a| ensures KeptIn(AsKeys(a)[i], AsKeys(b)) {
      assert RecoveryKeptIn(a[i], b);
      var j :| 0 <= j < |b| && SameRecovery(a[i], b[j]);
      assert SameKey(AsKeys(a)[i], AsKeys(b)[j]);
    }
  }

  // ---------------------------------------------------------------- epochs

  /** The subject's newest recovery key, unless it is revoked. */
  function CurrentRecoveryKey(keys: seq<RecoveryKey>, subject: NodeId): Option<RecoveryKey> {
    var at := FindRecovery(keys, subject, LastRecoveryEpoch(keys, subject));
    if at.Some? && keys[at.value].revokedAt.None? then Some(keys[at.value]) else None
  }

  /** The recovery epochs issued to a subject are exactly one up to the newest. */
  lemma RecoveryEpochsAreExact(keys: seq<RecoveryKey>, subject: NodeId, epoch: nat)
    requires RecoveryOrdered(keys)
    ensures FindRecovery(keys, subject, epoch).Some? <==> 1 <= epoch <= LastRecoveryEpoch(keys, subject)
  {
    OrderedAsKeys(keys);
    NewestAsKeys(keys, subject);
    FindAsKeys(keys, subject, epoch);
    EpochsAreExact(AsKeys(keys), subject, epoch);
  }

  lemma RecoveryIsUnique(keys: seq<RecoveryKey>, i: nat)
    requires RecoveryOrdered(keys) && i < |keys|
    ensures FindRecovery(keys, keys[i].envelope.subject, keys[i].envelope.epoch) == Some(i)
  {
    OrderedAsKeys(keys);
    FindAsKeys(keys, keys[i].envelope.subject, keys[i].envelope.epoch);
    KeyIsUnique(AsKeys(keys), i);
  }

  lemma RecoveryFoundLater(a: seq<RecoveryKey>, b: seq<RecoveryKey>, subject: NodeId, epoch: nat)
    requires RecoveryOrdered(b) && RecoveryKept(a, b) && FindRecovery(a, subject, epoch).Some?
    ensures FindRecovery(b, subject, epoch).Some?
    ensures SameRecovery(a[FindRecovery(a, subject, epoch).value], b[FindRecovery(b, subject, epoch).value])
  {
    var i := FindRecovery(a, subject, epoch).value;
    assert RecoveryKeptIn(a[i], b);
    var j :| 0 <= j < |b| && SameRecovery(a[i], b[j]);
    RecoveryIsUnique(b, j);
  }

  /** An issued recovery key keeps its sealed envelope over every run. */
  lemma RecoveryIsImmutable(c: Crypto, s: State, events: seq<Certified>, subject: NodeId, epoch: nat)
    requires ValidState(c, s) && Replay(c, s, events).Ok? && FindRecovery(s.recoveryKeys, subject, epoch).Some?
    ensures var t := Replay(c, s, events).value;
            && FindRecovery(t.recoveryKeys, subject, epoch).Some?
            && SameRecovery(s.recoveryKeys[FindRecovery(s.recoveryKeys, subject, epoch).value],
                            t.recoveryKeys[FindRecovery(t.recoveryKeys, subject, epoch).value])
  {
    ReplayedIsValid(c, s, events);
    RecoveryIsKept(c, s, events);
    RecoveryFoundLater(s.recoveryKeys, Replay(c, s, events).value.recoveryKeys, subject, epoch);
  }

  predicate IsCurrent(keys: seq<RecoveryKey>, subject: NodeId, epoch: nat) {
    CurrentRecoveryKey(keys, subject).Some? && CurrentRecoveryKey(keys, subject).value.envelope.epoch == epoch
  }

  /** For an issued epoch, current means newest and not revoked. */
  lemma CurrentMeans(keys: seq<RecoveryKey>, subject: NodeId, epoch: nat)
    requires FindRecovery(keys, subject, epoch).Some?
    ensures IsCurrent(keys, subject, epoch) <==>
            epoch == LastRecoveryEpoch(keys, subject) && keys[FindRecovery(keys, subject, epoch).value].revokedAt.None?
  {
  }

  /** A stale key stays stale when keys are kept and no newer epoch disappears. */
  lemma StaysStale(a: seq<RecoveryKey>, b: seq<RecoveryKey>, subject: NodeId, epoch: nat)
    requires FindRecovery(a, subject, epoch).Some? && FindRecovery(b, subject, epoch).Some?
    requires SameRecovery(a[FindRecovery(a, subject, epoch).value], b[FindRecovery(b, subject, epoch).value])
    requires epoch <= LastRecoveryEpoch(a, subject) <= LastRecoveryEpoch(b, subject) && !IsCurrent(a, subject, epoch)
    ensures !IsCurrent(b, subject, epoch)
  {
    CurrentMeans(a, subject, epoch);
    CurrentMeans(b, subject, epoch);
  }

  lemma NewestGrows(a: seq<RecoveryKey>, b: seq<RecoveryKey>, subject: NodeId)
    requires RecoveryKept(a, b)
    ensures LastRecoveryEpoch(a, subject) <= LastRecoveryEpoch(b, subject)
  {
    KeptAsKeys(a, b);
    NewestAsKeys(a, subject);
    NewestAsKeys(b, subject);
    LastEpochGrows(AsKeys(a), AsKeys(b), subject);
  }

  /** An issued recovery epoch that is not current never becomes current again. */
  lemma RecoveryNeverCurrentAgain(c: Crypto, s: State, events: seq<Certified>, subject: NodeId, epoch: nat)
    requires ValidState(c, s) && Replay(c, s, events).Ok?
    requires FindRecovery(s.recoveryKeys, subject, epoch).Some? && !IsCurrent(s.recoveryKeys, subject, epoch)
    ensures !IsCurrent(Replay(c, s, events).value.recoveryKeys, subject, epoch)
  {
    RecoveryIsImmutable(c, s, events, subject, epoch);
    RecoveryIsKept(c, s, events);
    NewestGrows(s.recoveryKeys, Replay(c, s, events).value.recoveryKeys, subject);
    RecoveryEpochsAreExact(s.recoveryKeys, subject, epoch);
    StaysStale(s.recoveryKeys, Replay(c, s, events).value.recoveryKeys, subject, epoch);
  }
}
