/**
 Checkpoint validation as a whole: the revision pass, the coding-group pass and the final
 comparisons. It accepts a checkpoint exactly when the checkpoint is valid.
 */
module CheckpointValidation {
  import opened Base
  import opened Coding
  import opened Checkpoint
  import opened CheckpointChains
  import opened CheckpointGroups
  import opened CheckpointPacking
  import opened CheckpointSectors

  // ---------------------------------------------------------------- revisions

  /** The maps that the passes before the revisions leave behind. */
  datatype Context = Context(domains: map<NodeId, Domain>, keys: map<(NodeId, nat), nat>, graves: map<Chain, Tombstone>)

  ghost predicate Prepared(c: Checkpoint, x: Context) {
    forall y :: y == x ==>
        Placed(c.members, y.domains) && KeysIndexed(c.fences, y.keys) && Buried(c.tombstones, y.graves)
  }

  /** The chain rule, decided by the running heads and the tombstones. */
  predicate LinksTo(x: Context, heads: map<Chain, Head>, r: Revision) {
    var chain := ChainOf(r);
    if chain in heads then
      r.sequence == heads[chain].sequence + 1 && r.parent == Some(heads[chain].hash)
        && r.writerEpoch >= heads[chain].epoch
    else if chain in x.graves then
      r.sequence == x.graves[chain].throughSequence + 1 && r.parent == Some(x.graves[chain].lastRevisionHash)
    else r.sequence == 1 && r.parent.None?
  }

  /** The checks of one revision against the running maps, its sectors aside. */
  predicate AcceptsRevision(c: Checkpoint, x: Context, i: nat, ids: set<Uuid>, heads: map<Chain, Head>)
    requires i < |c.revisions|
  {
    var r := c.revisions[i].value;
    && RecordOk(c, c.revisions[i], r.owner in x.domains)
    && (i > 0 ==> RevisionBefore(c.revisions[i - 1].value, r))
    && r.revisionId !in ids
    && (r.owner, r.writerEpoch) in x.keys && x.keys[(r.owner, r.writerEpoch)] == r.writerKey
    && LinksTo(x, heads, r)
  }

  function RevisionIds(revisions: seq<Signed<Revision>>): set<Uuid> {
    set j | 0 <= j < |revisions| :: revisions[j].value.revisionId
  }

  lemma LinksToIff(h: Hashes, c: Checkpoint, x: Context, i: nat)
    requires i < |c.revisions| && Buried(c.tombstones, x.graves) && Ordered(c.revisions[..i + 1])
    ensures LinksTo(x, HeadsOf(h, c.revisions[..i]), c.revisions[i].value) <==> Continues(h, c, i)
  {
    HeadIsPrevious(h, c.revisions, i);
    StartsByMap(c, x.graves, c.revisions[i].value);
  }

  lemma AcceptsRevisionIff(h: Hashes, c: Checkpoint, x: Context, i: nat)
    requires i < |c.revisions| && Prepared(c, x) && Ordered(c.revisions[..i])
    ensures AcceptsRevision(c, x, i, RevisionIds(c.revisions[..i]), HeadsOf(h, c.revisions[..i]))
       <==> && RecordOk(c, c.revisions[i], IsMember(c, c.revisions[i].value.owner))
            && ChainStepOk(h, c, i) && c.revisions[i].value.revisionId !in RevisionIds(c.revisions[..i])
  {
    var r := c.revisions[i].value;
    MemberIsPlaced(c, x.domains, r.owner);
    FencedByMap(c, x.keys, r);
    if i > 0 ==> RevisionBefore(c.revisions[i - 1].value, r) {
      OrderedMore(c.revisions, i);
      LinksToIff(h, c, x, i);
    }
  }

  lemma OrderedMore(revisions: seq<Signed<Revision>>, i: nat)
    requires i < |revisions| && Ordered(revisions[..i])
    requires i > 0 ==> RevisionBefore(revisions[i - 1].value, revisions[i].value)
    ensures Ordered(revisions[..i + 1])
  {
    var front, more := revisions[..i], revisions[..i + 1];
    forall k | 0 < k < |more| ensures RevisionBefore(more[k - 1].value, more[k].value) {
      if k < i { assert more[k] == front[k] && more[k - 1] == front[k - 1]; }
    }
  }

  lemma IdsGrow(revisions: seq<Signed<Revision>>, i: nat)
    requires i < |revisions|
    ensures RevisionIds(revisions[..i + 1]) == RevisionIds(revisions[..i]) + {revisions[i].value.revisionId}
  {
    var front, more := revisions[..i], revisions[..i + 1];
    assert more[i] == revisions[i] && forall k :: 0 <= k < i ==> more[k] == front[k];
  }

  lemma PrefixStep(h: Hashes, revisions: seq<Signed<Revision>>, i: nat)
    requires i < |revisions|
    ensures Uses(revisions[..i + 1]) == Uses(revisions[..i]) + UsesOf(revisions[i].value)
    ensures HeadsOf(h, revisions[..i + 1]) ==
            HeadsOf(h, revisions[..i])[ChainOf(revisions[i].value) := HeadOf(h, revisions[i].value)]
  {
    assert revisions[..i + 1][..i] == revisions[..i];
  }

  lemma {:induction false} UsesPrefix(revisions: seq<Signed<Revision>>, n: nat)
    requires n <= |revisions|
    ensures Uses(revisions[..n]) <= Uses(revisions)
  {
    if n < |revisions| {
      UsesPrefix(revisions[..|revisions| - 1], n);
      assert revisions[..|revisions| - 1][..n] == revisions[..n];
    } else {
      assert revisions[..n] == revisions;
    }
  }

  lemma ConsistentUses(revisions: seq<Signed<Revision>>, n: nat)
    requires n <= |revisions| && Consistent(Uses(revisions))
    ensures Consistent(Uses(revisions[..n]))
  {
    UsesPrefix(revisions, n);
    ConsistentPrefix(Uses(revisions), |Uses(revisions[..n])|);
  }

  /** The revisions before position `n` are all as they should be. */
  ghost predicate RevisionsRead(h: Hashes, c: Checkpoint, n: nat) {
    forall i: nat {:trigger c.revisions[..i]} :: i == n ==>
      && i <= |c.revisions|
      && (forall j: nat :: j < i ==> RevisionOk(c, c.revisions[j]))
      && (forall j: nat :: j < i ==> ChainStepOk(h, c, j))
      && (forall j, k :: 0 <= j < k < i ==> c.revisions[j].value.revisionId != c.revisions[k].value.revisionId)
  }

  lemma ReadIsOrdered(h: Hashes, c: Checkpoint, i: nat)
    requires RevisionsRead(h, c, i)
    ensures i <= |c.revisions| && Ordered(c.revisions[..i])
  {
    var front := c.revisions[..i];
    forall k | 0 < k < i ensures RevisionBefore(front[k - 1].value, front[k].value) { assert ChainStepOk(h, c, k); }
  }

  lemma RevisionRead(h: Hashes, c: Checkpoint, i: nat)
    requires i < |c.revisions| && RevisionsRead(h, c, i)
    requires RevisionOk(c, c.revisions[i]) && ChainStepOk(h, c, i)
    requires c.revisions[i].value.revisionId !in RevisionIds(c.revisions[..i])
    ensures RevisionsRead(h, c, i + 1)
  {
    var front := c.revisions[..i];
    forall j | 0 <= j < i ensures c.revisions[j].value.revisionId != c.revisions[i].value.revisionId {
      assert front[j].value.revisionId in RevisionIds(front);
    }
    assert c.revisions[..i + 1] == front + [c.revisions[i]];
  }

  /** A revision that fails its checks makes the checkpoint invalid. */
  lemma RejectedIsInvalid(h: Hashes, c: Checkpoint, i: nat)
    requires i < |c.revisions|
    requires !(&& RecordOk(c, c.revisions[i], IsMember(c, c.revisions[i].value.owner))
               && ChainStepOk(h, c, i) && c.revisions[i].value.revisionId !in RevisionIds(c.revisions[..i]))
    ensures !ChainsOk(h, c)
  {
    if c.revisions[i].value.revisionId in RevisionIds(c.revisions[..i]) {
      var j :| 0 <= j < i && c.revisions[..i][j].value.revisionId == c.revisions[i].value.revisionId;
    }
    assert ChainsOk(h, c) ==> RevisionOk(c, c.revisions[i]);
  }

  lemma BadSectorsAreInvalid(h: Hashes, c: Checkpoint, i: nat)
    requires i < |c.revisions|
    requires !((forall s :: s in c.revisions[i].value.Sectors() ==> SectorFits(s))
               && Consistent(Uses(c.revisions[..i]) + UsesOf(c.revisions[i].value)))
    ensures !ChainsOk(h, c) || !Consistent(Uses(c.revisions))
  {
    if ChainsOk(h, c) && Consistent(Uses(c.revisions)) {
      assert RevisionOk(c, c.revisions[i]);
      PrefixStep(h, c.revisions, i);
      ConsistentUses(c.revisions, i + 1);
    }
  }

  method CheckRevisions(h: Hashes, c: Checkpoint, x: Context) returns (ok: bool, heads: map<Chain, Head>, index: Index)
    requires Prepared(c, x)
    ensures ok <==> ChainsOk(h, c) && Consistent(Uses(c.revisions))
    ensures ok ==> heads == HeadsOf(h, c.revisions) && Indexed(Uses(c.revisions), index)
  {
    heads, index := map[], Index(map[], map[], map[]);
    var ids: set<Uuid> := {};
    for i := 0 to |c.revisions|
      invariant RevisionsRead(h, c, i) && Consistent(Uses(c.revisions[..i]))
      invariant ids == RevisionIds(c.revisions[..i]) && heads == HeadsOf(h, c.revisions[..i])
      invariant Indexed(Uses(c.revisions[..i]), index)
    {
      ReadIsOrdered(h, c, i);
      AcceptsRevisionIff(h, c, x, i);
      if !AcceptsRevision(c, x, i, ids, heads) {
        RejectedIsInvalid(h, c, i);
        return false, heads, index;
      }
      var r := c.revisions[i].value;
      var fits, next := CheckSectors(r, Uses(c.revisions[..i]), index);
      if !fits {
        BadSectorsAreInvalid(h, c, i);
        return false, heads, index;
      }
      RevisionRead(h, c, i);
      PrefixStep(h, c.revisions, i);
      IdsGrow(c.revisions, i);
      ids, heads, index := ids + {r.revisionId}, heads[ChainOf(r) := HeadOf(h, r)], next;
    }
    assert c.revisions[..|c.revisions|] == c.revisions;
    return true, heads, index;
  }

  // ---------------------------------------------------------------- the whole validation

  /** Every owner's latest epoch is at the head of a chain, decided by the two maps. */
  predicate LatestAtHead(latest: map<NodeId, nat>, heads: map<Chain, Head>) {
    forall o :: o in latest ==> exists g :: g in heads && g.owner == o && heads[g].epoch == latest[o]
  }

  lemma LatestAtHeadIff(h: Hashes, c: Checkpoint, latest: map<NodeId, nat>)
    requires FencesOk(c) && Ordered(c.revisions) && LatestIndexed(c.fences, latest)
    ensures LatestAtHead(latest, HeadsOf(h, c.revisions)) <==> LatestInUse(c)
  {
    var heads := HeadsOf(h, c.revisions);
    if LatestAtHead(latest, heads) {
      forall i: nat | i < |c.fences| && LatestFence(c, i)
        ensures exists j: nat :: j < |c.revisions| && HeadUses(c, j, c.fences[i])
      {
        LatestAt(c, latest, i);
        var g :| g in heads && g.owner == c.fences[i].owner && heads[g].epoch == latest[c.fences[i].owner];
        var j := HeadIsLast(h, c.revisions, g);
        LastIsHead(c, j);
        assert HeadUses(c, j, c.fences[i]);
      }
    }
    if LatestInUse(c) {
      forall o | o in latest ensures exists g :: g in heads && g.owner == o && heads[g].epoch == latest[o] {
        var i :| LastOfOwner(c.fences, i) && c.fences[i].owner == o && c.fences[i].epoch == latest[o];
        LastIsLatest(c, i);
        var j: nat :| j < |c.revisions| && HeadUses(c, j, c.fences[i]);
        LastIsHead(c, j);
        LastIsItsHead(h, c.revisions, j);
      }
    }
  }

  lemma LatestAt(c: Checkpoint, latest: map<NodeId, nat>, i: nat)
    requires FencesOk(c) && LatestIndexed(c.fences, latest) && i < |c.fences| && LatestFence(c, i)
    ensures c.fences[i].owner in latest && latest[c.fences[i].owner] == c.fences[i].epoch
  {
    LastIsLatest(c, i);
    var j :| LastOfOwner(c.fences, j) && c.fences[j].owner == c.fences[i].owner
      && c.fences[j].epoch == latest[c.fences[i].owner];
    assert i == j;
  }

  lemma TombstonesInUseIff(h: Hashes, c: Checkpoint, graves: map<Chain, Tombstone>)
    requires Buried(c.tombstones, graves)
    ensures graves.Keys <= HeadsOf(h, c.revisions).Keys <==> TombstonesInUse(c)
  {
    var heads := HeadsOf(h, c.revisions);
    if graves.Keys <= heads.Keys {
      forall t | t in c.tombstones
        ensures exists j :: 0 <= j < |c.revisions| && ChainOf(c.revisions[j].value) == GraveOf(t)
      {
        var j := HeadIsLast(h, c.revisions, GraveOf(t));
      }
    }
    if TombstonesInUse(c) {
      forall g | g in graves ensures g in heads {
        var j :| 0 <= j < |c.revisions| && ChainOf(c.revisions[j].value) == GraveOf(graves[g]);
        ChainHasHead(h, c.revisions, j);
      }
    }
  }

  lemma ChainsAreOrdered(h: Hashes, c: Checkpoint)
    requires ChainsOk(h, c)
    ensures Ordered(c.revisions)
  {
    forall k | 0 < k < |c.revisions| ensures RevisionBefore(c.revisions[k - 1].value, c.revisions[k].value) {
      assert ChainStepOk(h, c, k);
    }
  }

  /** `GuildCheckpoint::validate` accepts exactly the valid checkpoints. */
  method Validate(h: Hashes, c: Checkpoint) returns (ok: bool)
    ensures ok <==> CheckpointOk(h, c)
  {
    if !HeaderOk(c) { return false; }
    var placed, domains := CheckMembers(c.members);
    if !placed { return false; }
    var fenced, keys, latest := CheckFences(c, domains);
    if !fenced { return false; }
    var buried, graves := CheckTombstones(c, domains);
    if !buried { return false; }
    var chained, heads, index := CheckRevisions(h, c, Context(domains, keys, graves));
    if !chained { return false; }
    ChainsAreOrdered(h, c);
    LatestAtHeadIff(h, c, latest);
    TombstonesInUseIff(h, c, graves);
    if !LatestAtHead(latest, heads) || !(graves.Keys <= heads.Keys) { return false; }
    if c.packingCatalog.Some? {
      var packed := CheckCatalog(c, c.packingCatalog.value, Uses(c.revisions), index, domains);
      if !packed { return false; }
    }
    ok := CheckGroups(h, c, domains, Uses(c.revisions), index.scoped);
  }
}
