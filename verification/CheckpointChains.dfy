/**
 The first passes of checkpoint validation: members, writer fences, tombstones and the
 revision chains, each with its running maps, proved to accept exactly the valid lists.
 */
module CheckpointChains {
  import opened Base
  import opened Coding
  import opened Checkpoint

  // ---------------------------------------------------------------- members

  /** The failure domain of every member, and of nobody else. */
  ghost predicate Placed(members: seq<Member>, domains: map<NodeId, Domain>) {
    && (forall i :: 0 <= i < |members| ==>
          members[i].nodeId in domains && domains[members[i].nodeId] == members[i].failureDomain)
    && (forall d :: d in domains ==> exists i :: 0 <= i < |members| && members[i].nodeId == d)
  }

  method CheckMembers(members: seq<Member>) returns (ok: bool, domains: map<NodeId, Domain>)
    ensures ok <==> MembersOk(members)
    ensures ok ==> Placed(members, domains)
  {
    domains := map[];
    for i := 0 to |members|
      invariant forall j: nat :: j < i ==> MemberOk(members, j)
      invariant forall j :: 0 <= j < i ==> members[j].nodeId <= members[i - 1].nodeId
      invariant Placed(members[..i], domains)
    {
      if !MemberOk(members, i) || members[i].nodeId in domains { return false, domains; }
      domains := domains[members[i].nodeId := members[i].failureDomain];
      assert members[..i + 1] == members[..i] + [members[i]];
    }
    assert members[..|members|] == members;
    return true, domains;
  }

  lemma MemberIsPlaced(c: Checkpoint, domains: map<NodeId, Domain>, node: NodeId)
    requires Placed(c.members, domains)
    ensures IsMember(c, node) <==> node in domains
  {
  }

  // ---------------------------------------------------------------- writer fences

  lemma {:induction false} FencesAscend(c: Checkpoint, n: nat, j: nat, k: nat)
    requires j < k < n <= |c.fences| && forall i: nat :: i < n ==> FenceOk(c, i)
    ensures c.fences[j].owner < c.fences[k].owner
         || (c.fences[j].owner == c.fences[k].owner && c.fences[j].epoch < c.fences[k].epoch)
  {
    assert FenceOk(c, k);
    if j < k - 1 { FencesAscend(c, n, j, k - 1); }
  }

  /** The key of every fence. */
  ghost predicate KeysIndexed(fences: seq<WriterFence>, keys: map<(NodeId, nat), nat>) {
    && (forall j :: 0 <= j < |fences| ==>
          && (fences[j].owner, fences[j].epoch) in keys
          && keys[(fences[j].owner, fences[j].epoch)] == fences[j].publicKey)
    && (forall k :: k in keys ==> exists j :: 0 <= j < |fences| && (fences[j].owner, fences[j].epoch) == k)
  }

  /** The last epoch listed for every owner. */
  ghost predicate LatestIndexed(fences: seq<WriterFence>, latest: map<NodeId, nat>) {
    && (forall j :: 0 <= j < |fences| ==> fences[j].owner in latest)
    && (forall o :: o in latest ==>
          exists j :: LastOfOwner(fences, j) && fences[j].owner == o && fences[j].epoch == latest[o])
  }

  ghost predicate LastOfOwner(fences: seq<WriterFence>, j: int) {
    0 <= j < |fences| && forall k :: j < k < |fences| ==> fences[k].owner != fences[j].owner
  }

  lemma KeyAdded(fences: seq<WriterFence>, f: WriterFence, keys: map<(NodeId, nat), nat>)
    requires KeysIndexed(fences, keys) && (f.owner, f.epoch) !in keys
    ensures KeysIndexed(fences + [f], keys[(f.owner, f.epoch) := f.publicKey])
  {
    var more, newKeys := fences + [f], keys[(f.owner, f.epoch) := f.publicKey];
    assert more[|fences|] == f;
    forall k | k in newKeys ensures exists j :: 0 <= j < |more| && (more[j].owner, more[j].epoch) == k {
      if k in keys {
        var j :| 0 <= j < |fences| && (fences[j].owner, fences[j].epoch) == k;
        assert more[j] == fences[j];
      }
    }
  }

  lemma LatestAdded(fences: seq<WriterFence>, f: WriterFence, latest: map<NodeId, nat>)
    requires LatestIndexed(fences, latest)
    ensures LatestIndexed(fences + [f], latest[f.owner := f.epoch])
  {
    var more, newLatest := fences + [f], latest[f.owner := f.epoch];
    assert more[|fences|] == f;
    forall o | o in newLatest
      ensures exists j :: LastOfOwner(more, j) && more[j].owner == o && more[j].epoch == newLatest[o]
    {
      if o == f.owner {
        assert LastOfOwner(more, |fences|);
      } else {
        var j :| LastOfOwner(fences, j) && fences[j].owner == o && fences[j].epoch == latest[o];
        assert LastOfOwner(more, j);
      }
    }
  }

  /** The running map holds the owner's previous epoch exactly when the previous fence is the owner's. */
  lemma LatestIsPrevious(c: Checkpoint, i: nat, latest: map<NodeId, nat>)
    requires i < |c.fences| && (forall j: nat :: j < i ==> FenceOk(c, j)) && LatestIndexed(c.fences[..i], latest)
    requires i > 0 ==> c.fences[i - 1].owner <= c.fences[i].owner
    ensures c.fences[i].owner in latest <==> i > 0 && c.fences[i - 1].owner == c.fences[i].owner
    ensures c.fences[i].owner in latest ==> latest[c.fences[i].owner] == c.fences[i - 1].epoch
  {
    var o, front := c.fences[i].owner, c.fences[..i];
    if i > 0 && c.fences[i - 1].owner == o { assert front[i - 1].owner in latest; }
    if o in latest {
      var j :| LastOfOwner(front, j) && front[j].owner == o && front[j].epoch == latest[o];
      LastIsPrevious(c, i, j);
    }
  }

  lemma LastIsPrevious(c: Checkpoint, i: nat, j: nat)
    requires i < |c.fences| && (forall k: nat :: k < i ==> FenceOk(c, k)) && LastOfOwner(c.fences[..i], j)
    requires c.fences[j].owner == c.fences[i].owner && c.fences[i - 1].owner <= c.fences[i].owner
    ensures j == i - 1
  {
    if j < i - 1 { FencesAscend(c, i, j, i - 1); }
  }

  lemma EpochIsNew(c: Checkpoint, i: nat, keys: map<(NodeId, nat), nat>)
    requires i < |c.fences| && (forall j: nat :: j <= i ==> FenceOk(c, j)) && KeysIndexed(c.fences[..i], keys)
    ensures (c.fences[i].owner, c.fences[i].epoch) !in keys
  {
    if (c.fences[i].owner, c.fences[i].epoch) in keys {
      var front := c.fences[..i];
      var j :| 0 <= j < |front| && (front[j].owner, front[j].epoch) == (c.fences[i].owner, c.fences[i].epoch);
      FencesAscend(c, i + 1, j, i);
    }
  }

  /** The fences before position `n` are valid and indexed. */
  ghost predicate FencesRead(c: Checkpoint, n: nat, keys: map<(NodeId, nat), nat>, latest: map<NodeId, nat>) {
    forall i: nat :: i == n ==>
      && i <= |c.fences| && (forall j: nat :: j < i ==> FenceOk(c, j))
      && KeysIndexed(c.fences[..i], keys) && LatestIndexed(c.fences[..i], latest)
  }

  /** The check of one fence against the running maps. */
  predicate AcceptsFence(c: Checkpoint, i: nat, domains: map<NodeId, Domain>, keys: map<(NodeId, nat), nat>,
                         latest: map<NodeId, nat>)
    requires i < |c.fences|
  {
    var f := c.fences[i];
    && (i > 0 ==>
          c.fences[i - 1].owner < f.owner || (c.fences[i - 1].owner == f.owner && c.fences[i - 1].epoch < f.epoch))
    && (c.formatVersion == 3 ==> f.owner in domains) && f.epoch != 0 && f.keyOk && (f.owner, f.epoch) !in keys
    && f.epoch == if f.owner in latest then latest[f.owner] + 1 else 1
  }

  lemma AcceptsFenceIff(c: Checkpoint, i: nat, domains: map<NodeId, Domain>, keys: map<(NodeId, nat), nat>,
                        latest: map<NodeId, nat>)
    requires i < |c.fences| && Placed(c.members, domains) && FencesRead(c, i, keys, latest)
    ensures AcceptsFence(c, i, domains, keys, latest) <==> FenceOk(c, i)
  {
    MemberIsPlaced(c, domains, c.fences[i].owner);
    assert LatestIndexed(c.fences[..i], latest);
    if i > 0 ==> c.fences[i - 1].owner <= c.fences[i].owner {
      LatestIsPrevious(c, i, latest);
      if FenceOk(c, i) { EpochIsNew(c, i, keys); }
    }
  }

  lemma FenceRead(c: Checkpoint, i: nat, keys: map<(NodeId, nat), nat>, latest: map<NodeId, nat>)
    requires i < |c.fences| && FencesRead(c, i, keys, latest) && FenceOk(c, i)
    ensures var f := c.fences[i];
            FencesRead(c, i + 1, keys[(f.owner, f.epoch) := f.publicKey], latest[f.owner := f.epoch])
  {
    var f := c.fences[i];
    EpochIsNew(c, i, keys);
    KeyAdded(c.fences[..i], f, keys);
    LatestAdded(c.fences[..i], f, latest);
    assert c.fences[..i + 1] == c.fences[..i] + [f];
  }

  method CheckFences(c: Checkpoint, domains: map<NodeId, Domain>)
    returns (ok: bool, keys: map<(NodeId, nat), nat>, latest: map<NodeId, nat>)
    requires Placed(c.members, domains)
    ensures ok <==> FencesOk(c)
    ensures ok ==> KeysIndexed(c.fences, keys) && LatestIndexed(c.fences, latest)
  {
    keys, latest := map[], map[];
    for i := 0 to |c.fences|
      invariant FencesRead(c, i, keys, latest)
    {
      AcceptsFenceIff(c, i, domains, keys, latest);
      if !AcceptsFence(c, i, domains, keys, latest) { return false, keys, latest; }
      FenceRead(c, i, keys, latest);
      var f := c.fences[i];
      keys, latest := keys[(f.owner, f.epoch) := f.publicKey], latest[f.owner := f.epoch];
    }
    assert c.fences[..|c.fences|] == c.fences;
    return true, keys, latest;
  }

  /** Looking up the key of an epoch finds it exactly when some fence gives it. */
  lemma FencedByMap(c: Checkpoint, keys: map<(NodeId, nat), nat>, r: Revision)
    requires KeysIndexed(c.fences, keys)
    ensures Fenced(c, r) <==> (r.owner, r.writerEpoch) in keys && keys[(r.owner, r.writerEpoch)] == r.writerKey
  {
  }

  // ---------------------------------------------------------------- tombstones

  ghost predicate Buried(tombstones: seq<Tombstone>, graves: map<Chain, Tombstone>) {
    && (forall i :: 0 <= i < |tombstones| ==>
          GraveOf(tombstones[i]) in graves && graves[GraveOf(tombstones[i])] == tombstones[i])
    && (forall g :: g in graves ==> graves[g] in tombstones && GraveOf(graves[g]) == g)
  }

  method CheckTombstones(c: Checkpoint, domains: map<NodeId, Domain>) returns (ok: bool, graves: map<Chain, Tombstone>)
    requires Placed(c.members, domains)
    ensures ok <==> TombstonesOk(c)
    ensures ok ==> Buried(c.tombstones, graves)
  {
    graves := map[];
    for i := 0 to |c.tombstones|
      invariant forall j: nat :: j < i ==> TombstoneOk(c, j)
      invariant forall j :: 0 <= j < i - 1 ==> ChainBefore(GraveOf(c.tombstones[j]), GraveOf(c.tombstones[i - 1]))
      invariant Buried(c.tombstones[..i], graves)
    {
      var t := c.tombstones[i];
      MemberIsPlaced(c, domains, t.owner);
      if !TombstoneOk(c, i) || GraveOf(t) in graves { return false, graves; }
      graves := graves[GraveOf(t) := t];
      assert c.tombstones[..i + 1] == c.tombstones[..i] + [t];
    }
    assert c.tombstones[..|c.tombstones|] == c.tombstones;
    return true, graves;
  }

  lemma StartsByMap(c: Checkpoint, graves: map<Chain, Tombstone>, r: Revision)
    requires Buried(c.tombstones, graves)
    ensures StartsChain(c, r) <==>
            if ChainOf(r) in graves then
              r.sequence == graves[ChainOf(r)].throughSequence + 1
                && r.parent == Some(graves[ChainOf(r)].lastRevisionHash)
            else r.sequence == 1 && r.parent.None?
  {
    if ChainOf(r) in graves { assert GraveOf(graves[ChainOf(r)]) == ChainOf(r); }
  }

  // ---------------------------------------------------------------- chain heads

  datatype Head = Head(sequence: nat, hash: nat, epoch: nat)

  function HeadOf(h: Hashes, r: Revision): Head {
    Head(r.sequence, h.revision(r), r.writerEpoch)
  }

  /** The last listed revision of every chain. */
  function HeadsOf(h: Hashes, revisions: seq<Signed<Revision>>): map<Chain, Head> {
    if revisions == [] then map[]
    else
      var last := revisions[|revisions| - 1].value;
      HeadsOf(h, revisions[..|revisions| - 1])[ChainOf(last) := HeadOf(h, last)]
  }

  ghost predicate LastOfChain(revisions: seq<Signed<Revision>>, j: int) {
    0 <= j < |revisions|
      && forall k :: j < k < |revisions| ==> ChainOf(revisions[k].value) != ChainOf(revisions[j].value)
  }

  lemma {:induction false} HeadIsLast(h: Hashes, revisions: seq<Signed<Revision>>, g: Chain) returns (j: nat)
    requires g in HeadsOf(h, revisions)
    ensures LastOfChain(revisions, j) && ChainOf(revisions[j].value) == g
    ensures HeadsOf(h, revisions)[g] == HeadOf(h, revisions[j].value)
  {
    j := |revisions| - 1;
    if g != ChainOf(revisions[j].value) {
      j := HeadIsLast(h, revisions[..|revisions| - 1], g);
      assert revisions[..|revisions| - 1][j] == revisions[j];
    }
  }

  lemma {:induction false} ChainHasHead(h: Hashes, revisions: seq<Signed<Revision>>, j: nat)
    requires j < |revisions|
    ensures ChainOf(revisions[j].value) in HeadsOf(h, revisions)
  {
    if j < |revisions| - 1 { ChainHasHead(h, revisions[..|revisions| - 1], j); }
  }

  lemma LastIsItsHead(h: Hashes, revisions: seq<Signed<Revision>>, j: nat)
    requires LastOfChain(revisions, j)
    ensures ChainOf(revisions[j].value) in HeadsOf(h, revisions)
    ensures HeadsOf(h, revisions)[ChainOf(revisions[j].value)] == HeadOf(h, revisions[j].value)
  {
    ChainHasHead(h, revisions, j);
    var k := HeadIsLast(h, revisions, ChainOf(revisions[j].value));
    assert j == k;
  }

  ghost predicate Ordered(revisions: seq<Signed<Revision>>) {
    forall i :: 0 < i < |revisions| ==> RevisionBefore(revisions[i - 1].value, revisions[i].value)
  }

  lemma {:induction false} RevisionsAscend(revisions: seq<Signed<Revision>>, j: nat, k: nat)
    requires Ordered(revisions) && j < k < |revisions|
    ensures RevisionBefore(revisions[j].value, revisions[k].value)
  {
    assert RevisionBefore(revisions[k - 1].value, revisions[k].value);
    if j < k - 1 { RevisionsAscend(revisions, j, k - 1); }
  }

  /** In an ordered list, nothing of another chain stands between two revisions of one chain. */
  lemma ChainIsContiguous(revisions: seq<Signed<Revision>>, j: nat, m: nat, k: nat)
    requires Ordered(revisions) && j < m < k < |revisions| && ChainOf(revisions[j].value) == ChainOf(revisions[k].value)
    ensures ChainOf(revisions[m].value) == ChainOf(revisions[j].value)
  {
    RevisionsAscend(revisions, j, m);
    RevisionsAscend(revisions, m, k);
  }

  /** The running map holds a chain's head exactly when the previous revision is of that chain. */
  lemma HeadIsPrevious(h: Hashes, revisions: seq<Signed<Revision>>, i: nat)
    requires i < |revisions| && Ordered(revisions[..i + 1])
    ensures var chain, heads := ChainOf(revisions[i].value), HeadsOf(h, revisions[..i]);
            && (chain in heads <==> i > 0 && ChainOf(revisions[i - 1].value) == chain)
            && (chain in heads ==> heads[chain] == HeadOf(h, revisions[i - 1].value))
  {
    var all, front, chain := revisions[..i + 1], revisions[..i], ChainOf(revisions[i].value);
    if i > 0 && ChainOf(revisions[i - 1].value) == chain {
      assert front[i - 1] == revisions[i - 1];
      LastIsItsHead(h, front, i - 1);
    } else if chain in HeadsOf(h, front) {
      var j := HeadIsLast(h, front, chain);
      ChainIsContiguous(all, j, i - 1, i);
    }
  }

  lemma LastIsHead(c: Checkpoint, j: nat)
    requires j < |c.revisions| && Ordered(c.revisions)
    ensures LastOfChain(c.revisions, j) <==> ChainHead(c, j)
  {
    if ChainHead(c, j) {
      forall k | j < k < |c.revisions| ensures ChainOf(c.revisions[k].value) != ChainOf(c.revisions[j].value) {
        if j + 1 < k && ChainOf(c.revisions[k].value) == ChainOf(c.revisions[j].value) {
          ChainIsContiguous(c.revisions, j, j + 1, k);
        }
      }
    }
  }

  lemma LastIsLatest(c: Checkpoint, j: nat)
    requires j < |c.fences| && FencesOk(c)
    ensures LastOfOwner(c.fences, j) <==> LatestFence(c, j)
  {
    if LatestFence(c, j) {
      forall k | j < k < |c.fences| ensures c.fences[k].owner != c.fences[j].owner {
        if j + 1 < k {
          FencesAscend(c, |c.fences|, j, j + 1);
          FencesAscend(c, |c.fences|, j + 1, k);
        }
      }
    }
  }
}
