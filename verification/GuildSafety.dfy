/**
 Agreement over every run of the guild log: quorums meet, and replicas that applied equally many
 events are in the same state.
 */
module GuildSafety {
  import opened Base
  import opened Guild

  // ---------------------------------------------------------------- quorums meet

  function Signers(certified: Certified): set<NodeId> {
    set i | 0 <= i < |certified.signatures| :: certified.signatures[i].signer
  }

  lemma {:induction false} SignerCount(signatures: seq<Signature>)
    requires forall i, j :: 0 <= i < j < |signatures| ==> signatures[i].signer < signatures[j].signer
    ensures |set i | 0 <= i < |signatures| :: signatures[i].signer| == |signatures|
  {
    if signatures != [] {
      var front, last := signatures[..|signatures| - 1], signatures[|signatures| - 1];
      SignerCount(front);
      assert (set i | 0 <= i < |signatures| :: signatures[i].signer)
          == (set i | 0 <= i < |front| :: front[i].signer) + {last.signer};
    }
  }

  /** Two sets that are each more than half of a third have an element in common. */
  lemma MajoritiesMeet(a: set<NodeId>, b: set<NodeId>, all: set<NodeId>) returns (common: NodeId)
    requires a <= all && b <= all && |all| < 2 * |a| && |all| < 2 * |b|
    ensures common in a && common in b
  {
    SubsetIsSmaller(a + b, all);
    assert |a + b| == |a| + |b| - |a * b|;
    common :| common in a * b;
  }

  /** Any two quorums for the same state share a signer, who signed both events. */
  lemma QuorumsMeet(c: Crypto, s: State, x: Certified, y: Certified) returns (i: nat, j: nat)
    requires Authorized(c, s, x) && Authorized(c, s, y)
    ensures i < |x.signatures| && j < |y.signatures| && x.signatures[i].signer == y.signatures[j].signer
    ensures x.signatures[i].signed == Some(x.event) && y.signatures[j].signed == Some(y.event)
  {
    SignerCount(x.signatures);
    SignerCount(y.signatures);
    var common := MajoritiesMeet(Signers(x), Signers(y), ActiveIds(s.members));
    i :| 0 <= i < |x.signatures| && x.signatures[i].signer == common;
    j :| 0 <= j < |y.signatures| && y.signatures[j].signer == common;
    assert SignatureOk(c, s.members, x.event, x.signatures[i]) && SignatureOk(c, s.members, y.event, y.signatures[j]);
  }

  // ---------------------------------------------------------------- agreement

  /** No member signed two different events for one guild and sequence number. */
  ghost predicate NoEquivocation(a: seq<Certified>, b: seq<Certified>) {
    forall x, y :: x in a && y in b ==> Consistent(x, y)
  }

  ghost predicate Consistent(x: Certified, y: Certified) {
    forall i, j :: 0 <= i < |x.signatures| && 0 <= j < |y.signatures|
                   && x.signatures[i].signer == y.signatures[j].signer
                   && x.signatures[i].signed == Some(x.event) && y.signatures[j].signed == Some(y.event)
                   && x.event.guildId == y.event.guildId && x.event.sequence == y.event.sequence ==>
                     x.event == y.event
  }

  lemma SameNext(c: Crypto, s: State, x: Certified, y: Certified)
    requires Authorized(c, s, x) && Authorized(c, s, y) && Consistent(x, y)
    ensures x.event == y.event && ApplyEvent(c, s, x) == ApplyEvent(c, s, y)
  {
    var i, j := QuorumsMeet(c, s, x, y);
  }

  /** A prefix of a run that succeeds succeeds. */
  lemma {:induction false} PrefixReplays(c: Crypto, s: State, events: seq<Certified>, n: nat)
    requires Replay(c, s, events).Ok? && n <= |events|
    ensures Replay(c, s, events[..n]).Ok?
    decreases |events|
  {
    if n < |events| {
      PrefixReplays(c, s, events[..|events| - 1], n);
      assert events[..|events| - 1][..n] == events[..n];
    } else {
      assert events[..n] == events;
    }
  }

  /** One more event of a run. */
  lemma ReplayStep(c: Crypto, s: State, events: seq<Certified>, n: nat)
    requires Replay(c, s, events).Ok? && n < |events|
    ensures Replay(c, s, events[..n]).Ok? && Replay(c, s, events[..n + 1]).Ok?
    ensures Authorized(c, Replay(c, s, events[..n]).value, events[n])
    ensures ApplyEvent(c, Replay(c, s, events[..n]).value, events[n]) == Replay(c, s, events[..n + 1])
  {
    PrefixReplays(c, s, events, n);
    PrefixReplays(c, s, events, n + 1);
    assert events[..n + 1][..n] == events[..n];
  }

  /**
   Log agreement: two replicas that start equal and apply any certified events, with any signer
   subsets, are in the same state after the same number of events.
   */
  lemma {:induction false} Agreement(c: Crypto, s: State, a: seq<Certified>, b: seq<Certified>, n: nat)
    requires Replay(c, s, a).Ok? && Replay(c, s, b).Ok? && NoEquivocation(a, b)
    requires n <= |a| && n <= |b|
    ensures Replay(c, s, a[..n]) == Replay(c, s, b[..n]) && Replay(c, s, a[..n]).Ok?
  {
    if n > 0 {
      Agreement(c, s, a, b, n - 1);
      ReplayStep(c, s, a, n - 1);
      ReplayStep(c, s, b, n - 1);
      assert a[n - 1] in a && b[n - 1] in b;
      SameNext(c, Replay(c, s, a[..n - 1]).value, a[n - 1], b[n - 1]);
    }
  }

  lemma AppliedSequence(c: Crypto, s: State, certified: Certified)
    requires ApplyEvent(c, s, certified).Ok?
    ensures var t := ApplyEvent(c, s, certified).value;
            && t.eventSequence == s.eventSequence + 1 && t.eventHead == EventHash(certified.event)
            && t.guildId == s.guildId && ValidState(c, t)
  {
  }

  /** The sequence number counts the events. */
  lemma {:induction false} SequenceCounts(c: Crypto, s: State, events: seq<Certified>)
    requires Replay(c, s, events).Ok?
    ensures Replay(c, s, events).value.eventSequence == s.eventSequence + |events|
    ensures Replay(c, s, events).value.guildId == s.guildId
  {
    if events != [] {
      SequenceCounts(c, s, events[..|events| - 1]);
      AppliedSequence(c, Replay(c, s, events[..|events| - 1]).value, events[|events| - 1]);
    }
  }

  /** States at a common sequence number are identical. */
  lemma SameSequenceSameState(c: Crypto, s: State, a: seq<Certified>, b: seq<Certified>)
    requires Replay(c, s, a).Ok? && Replay(c, s, b).Ok? && NoEquivocation(a, b)
    requires Replay(c, s, a).value.eventSequence == Replay(c, s, b).value.eventSequence
    ensures Replay(c, s, a) == Replay(c, s, b)
  {
    SequenceCounts(c, s, a);
    SequenceCounts(c, s, b);
    AgreementAtEnd(c, s, a, b);
  }

  lemma AgreementAtEnd(c: Crypto, s: State, a: seq<Certified>, b: seq<Certified>)
    requires Replay(c, s, a).Ok? && Replay(c, s, b).Ok? && NoEquivocation(a, b) && |a| == |b|
    ensures Replay(c, s, a) == Replay(c, s, b)
  {
    Agreement(c, s, a, b, |a|);
    assert a[..|a|] == a && b[..|a|] == b;
  }
}
