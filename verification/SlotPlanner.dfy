/** The slot-planning loops both packers run, proved against `Placement`. */
module SlotPlanner {
  import opened Base
  import opened Allocator
  import opened Placement
  import Merkle
  import Sorting

  // ---------------------------------------------------------------- queues per owner

  function OwnedBy(pending: set<ChunkId>, owner: NodeId): set<ChunkId> {
    set id | id in pending && id.owner == owner
  }

  /** The pending chunks of one owner, ascending. */
  function Queue(pending: set<ChunkId>, owner: NodeId): seq<ChunkId> {
    SortedIds(OwnedBy(pending, owner))
  }

  function Owners(pending: set<ChunkId>): set<NodeId> {
    set id | id in pending :: id.owner
  }

  function Reversed(s: seq<ChunkId>): (r: seq<ChunkId>)
    ensures |r| == |s| && forall i :: 0 <= i < |r| ==> r[i] == s[|s| - 1 - i]
  {
    seq(|s|, i requires 0 <= i < |s| => s[|s| - 1 - i])
  }

  /** The rank of a pending chunk is its index in its owner's queue. */
  lemma RankIsIndex(pending: set<ChunkId>, owner: NodeId, k: nat)
    requires k < |Queue(pending, owner)|
    ensures Rank(pending, Queue(pending, owner)[k]) == k
    ensures Queue(pending, owner)[k] in pending && Queue(pending, owner)[k].owner == owner
  {
    var q := Queue(pending, owner);
    assert q[k] in OwnedBy(pending, owner);
    var below := set x | x in pending && x.owner == owner && IdLess(x, q[k]);
    forall x | x in below ensures x in q[..k] {
      assert x in q;
      var i :| 0 <= i < |q| && q[i] == x;
      NotAfter(q, i, k);
      assert q[..k][i] == x;
    }
    forall x | x in q[..k] ensures x in below {
      var i :| 0 <= i < k && q[i] == x;
      assert q[i] in OwnedBy(pending, owner);
    }
    SizeOfDistinct(q[..k], below);
  }

  lemma NotAfter(q: seq<ChunkId>, i: nat, k: nat)
    requires Sorting.Ascending(q, IdLess) && i < |q| && k < |q| && IdLess(q[i], q[k])
    ensures i < k
  {
  }

  lemma {:induction false} SizeOfDistinct<T>(s: seq<T>, elements: set<T>)
    requires forall i, j :: 0 <= i < j < |s| ==> s[i] != s[j]
    requires forall x :: x in elements <==> x in s
    ensures |elements| == |s|
    decreases |s|
  {
    if s == [] {
      assert elements == {};
    } else {
      var n := |s| - 1;
      assert s == s[..n] + [s[n]];
      SizeOfDistinct(s[..n], elements - {s[n]});
    }
  }

  /**
   What the rounds need to know of the pending chunks: each owner's queue in ascending order
   and, for every chunk, its index there.
   */
  datatype Turns = Turns(queues: map<NodeId, seq<ChunkId>>, rank: map<ChunkId, nat>) {

    ghost predicate Consistent() {
      && (forall o, k :: o in queues && 0 <= k < |queues[o]| ==>
            queues[o][k] in rank && queues[o][k].owner == o && rank[queues[o][k]] == k)
      && (forall o :: o in queues ==> |queues[o]| <= |rank|)
      && (forall x :: x in rank ==>
            x.owner in queues && rank[x] < |queues[x.owner]| && queues[x.owner][rank[x]] == x)
    }

    ghost predicate Less(x: ChunkId, y: ChunkId)
      requires x in rank && y in rank
    {
      rank[x] < rank[y] || (rank[x] == rank[y] && x.owner < y.owner)
    }

    /** `left` is what remains of each queue, highest first. */
    ghost predicate Holds(left: map<NodeId, seq<ChunkId>>) {
      && left.Keys == queues.Keys
      && forall o :: o in queues ==> Remains(left[o], queues[o])
    }

    ghost predicate Ordered(order: seq<ChunkId>) {
      && (forall i :: 0 <= i < |order| ==> order[i] in rank)
      && (forall i, j :: 0 <= i < j < |order| ==> Less(order[i], order[j]))
    }

    /** `order` lists exactly the taken chunks. */
    ghost predicate Lists(left: map<NodeId, seq<ChunkId>>, order: seq<ChunkId>)
      requires Consistent() && Holds(left)
    {
      forall x :: x in rank ==> (x in order <==> rank[x] < |queues[x.owner]| - |left[x.owner]|)
    }

    ghost predicate InTurns(left: map<NodeId, seq<ChunkId>>, order: seq<ChunkId>) {
      Consistent() && Holds(left) && Ordered(order) && Lists(left, order)
    }

    /** Owners before position `j` had their turn in this round, the others not yet. */
    ghost predicate AtTurn(owners: seq<NodeId>, left: map<NodeId, seq<ChunkId>>, round: nat, j: nat) {
      && left.Keys == queues.Keys
      && forall i :: 0 <= i < |owners| ==> (
           && owners[i] in queues
           && |queues[owners[i]]| - |left[owners[i]]|
              == AtMost(if i < j then round + 1 else round, |queues[owners[i]]|))
    }

    lemma PopHolds(left: map<NodeId, seq<ChunkId>>, owner: NodeId)
      requires Holds(left) && owner in queues && left[owner] != []
      ensures Holds(left[owner := left[owner][..|left[owner]| - 1]])
    {
    }

    /** Everything taken before comes before the next chunk of the owner whose turn it is. */
    lemma PopOrdered(owners: seq<NodeId>, left: map<NodeId, seq<ChunkId>>, order: seq<ChunkId>,
                     round: nat, j: nat, id: ChunkId)
      requires InTurns(left, order) && AtTurn(owners, left, round, j)
      requires Sorting.Ascending(owners, Sorting.NatLess) && j < |owners|
      requires forall o :: o in queues ==> o in owners
      requires id in rank && id.owner == owners[j] && rank[id] == round
      ensures Ordered(order + [id])
    {
      forall k | 0 <= k < |order| ensures Less(order[k], id) {
        var x := order[k];
        assert x in order && x.owner in owners;
        var i :| 0 <= i < |owners| && owners[i] == x.owner;
        assert i < j ==> Sorting.NatLess(owners[i], owners[j]);
      }
    }

    lemma PopLists(left: map<NodeId, seq<ChunkId>>, order: seq<ChunkId>, id: ChunkId)
      requires InTurns(left, order) && id in rank && left[id.owner] != []
      requires rank[id] == |queues[id.owner]| - |left[id.owner]|
      requires Holds(left[id.owner := left[id.owner][..|left[id.owner]| - 1]])
      ensures Lists(left[id.owner := left[id.owner][..|left[id.owner]| - 1]], order + [id])
    {
      forall x | x in rank && x.owner == id.owner ensures x in order + [id] <==> rank[x] < rank[id] + 1 {
        assert queues[x.owner][rank[x]] == x && queues[id.owner][rank[id]] == id;
      }
    }

    /** The next chunk of the owner whose turn it is has the round as its rank. */
    lemma NextChunk(owners: seq<NodeId>, left: map<NodeId, seq<ChunkId>>, round: nat, j: nat)
      requires Consistent() && Holds(left) && AtTurn(owners, left, round, j)
      requires j < |owners| && left[owners[j]] != []
      ensures var id := left[owners[j]][|left[owners[j]]| - 1];
              && id in rank && id.owner == owners[j] && rank[id] == round
              && round == |queues[owners[j]]| - |left[owners[j]]| && round < |rank|
    {
      assert left[owners[j]][|left[owners[j]]| - 1] == queues[owners[j]][round];
    }

    /** Taking the next chunk of the owner whose turn it is extends the turn order. */
    lemma TakeTurn(owners: seq<NodeId>, left: map<NodeId, seq<ChunkId>>, order: seq<ChunkId>, round: nat, j: nat)
      requires InTurns(left, order) && AtTurn(owners, left, round, j)
      requires Sorting.Ascending(owners, Sorting.NatLess) && j < |owners| && left[owners[j]] != []
      requires forall o :: o in queues ==> o in owners
      ensures var q := left[owners[j]];
              InTurns(left[owners[j] := q[..|q| - 1]], order + [q[|q| - 1]])
      ensures round < |rank|
    {
      var q := left[owners[j]];
      var id := q[|q| - 1];
      NextChunk(owners, left, round, j);
      PopHolds(left, owners[j]);
      PopOrdered(owners, left, order, round, j, id);
      PopLists(left, order, id);
    }

    lemma PassTurn(owners: seq<NodeId>, left: map<NodeId, seq<ChunkId>>, rest: seq<ChunkId>, round: nat, j: nat)
      requires AtTurn(owners, left, round, j)
      requires Sorting.Ascending(owners, Sorting.NatLess) && j < |owners|
      requires left[owners[j]] == [] ==> rest == []
      requires left[owners[j]] != [] ==> |rest| == |left[owners[j]]| - 1
      ensures AtTurn(owners, left[owners[j] := rest], round, j + 1)
    {
      assert forall i :: 0 <= i < j ==> Sorting.NatLess(owners[i], owners[j]);
      assert forall i :: j < i < |owners| ==> Sorting.NatLess(owners[j], owners[i]);
    }

    /** The state of the rounds between two turns. */
    ghost predicate Standing(owners: seq<NodeId>, left: map<NodeId, seq<ChunkId>>, order: seq<ChunkId>, round: nat,
                             j: nat) {
      && (forall i :: 0 <= i < |owners| ==> owners[i] in left)
      && forall i: nat {:trigger AtTurn(owners, left, round, i)} :: i == j ==>
           InTurns(left, order) && AtTurn(owners, left, round, i)
    }

    lemma Skipped(owners: seq<NodeId>, left: map<NodeId, seq<ChunkId>>, order: seq<ChunkId>, round: nat, j: nat)
      requires Standing(owners, left, order, round, j)
      requires Sorting.Ascending(owners, Sorting.NatLess) && j < |owners| && left[owners[j]] == []
      ensures Standing(owners, left, order, round, j + 1)
    {
      assert AtTurn(owners, left, round, j);
      PassTurn(owners, left, [], round, j);
      assert left[owners[j] := []] == left;
    }

    lemma Taken(owners: seq<NodeId>, left: map<NodeId, seq<ChunkId>>, order: seq<ChunkId>, round: nat, j: nat)
      requires Standing(owners, left, order, round, j)
      requires Sorting.Ascending(owners, Sorting.NatLess) && j < |owners| && left[owners[j]] != []
      requires forall o :: o in queues ==> o in owners
      ensures var q := left[owners[j]];
              Standing(owners, left[owners[j] := q[..|q| - 1]], order + [q[|q| - 1]], round, j + 1)
      ensures round < |rank|
    {
      assert AtTurn(owners, left, round, j);
      TakeTurn(owners, left, order, round, j);
      PassTurn(owners, left, left[owners[j]][..|left[owners[j]]| - 1], round, j);
    }

    lemma RoundOver(owners: seq<NodeId>, left: map<NodeId, seq<ChunkId>>, order: seq<ChunkId>, round: nat)
      requires Standing(owners, left, order, round, |owners|)
      ensures Standing(owners, left, order, round + 1, 0)
    {
      assert AtTurn(owners, left, round, |owners|);
    }

    lemma AllTaken(owners: seq<NodeId>, left: map<NodeId, seq<ChunkId>>, order: seq<ChunkId>, round: nat)
      requires Standing(owners, left, order, round, 0) && forall i :: 0 <= i < |owners| ==> left[owners[i]] == []
      requires forall o :: o in queues ==> o in owners
      ensures Ordered(order) && forall x :: x in rank ==> x in order
    {
      assert AtTurn(owners, left, round, 0);
      assert forall o :: o in queues ==> left[o] == [];
    }
  }

  ghost predicate Remains(left: seq<ChunkId>, all: seq<ChunkId>) {
    |left| <= |all| && forall i :: 0 <= i < |left| ==> left[i] == all[|all| - 1 - i]
  }

  function AtMost(n: nat, limit: nat): nat {
    if n < limit then n else limit
  }

  ghost function TurnsOf(pending: set<ChunkId>): Turns {
    Turns(map o | o in Owners(pending) :: Queue(pending, o), map x | x in pending :: Rank(pending, x))
  }

  lemma TurnsAreConsistent(pending: set<ChunkId>)
    ensures TurnsOf(pending).Consistent() && TurnsOf(pending).rank.Keys == pending
  {
    QueueEntries(pending);
    RankEntries(pending);
    QueuesAreShort(pending);
  }

  lemma QueueEntries(pending: set<ChunkId>)
    ensures var t := TurnsOf(pending);
            forall o, k :: o in t.queues && 0 <= k < |t.queues[o]| ==>
              t.queues[o][k] in t.rank && t.queues[o][k].owner == o && t.rank[t.queues[o][k]] == k
  {
    var t := TurnsOf(pending);
    forall o, k | o in t.queues && 0 <= k < |t.queues[o]|
      ensures t.queues[o][k] in t.rank && t.queues[o][k].owner == o && t.rank[t.queues[o][k]] == k
    {
      RankIsIndex(pending, o, k);
    }
  }

  lemma RankEntries(pending: set<ChunkId>)
    ensures var t := TurnsOf(pending);
            forall x :: x in t.rank ==>
              x.owner in t.queues && t.rank[x] < |t.queues[x.owner]| && t.queues[x.owner][t.rank[x]] == x
  {
    var t := TurnsOf(pending);
    forall x | x in t.rank
      ensures x.owner in t.queues && t.rank[x] < |t.queues[x.owner]| && t.queues[x.owner][t.rank[x]] == x
    {
      IndexIsRank(pending, x);
    }
  }

  lemma QueuesAreShort(pending: set<ChunkId>)
    ensures forall o :: o in TurnsOf(pending).queues ==> |TurnsOf(pending).queues[o]| <= |TurnsOf(pending).rank|
  {
    var t := TurnsOf(pending);
    assert t.rank.Keys == pending && |t.rank.Keys| == |t.rank|;
    forall o | o in t.queues ensures |t.queues[o]| <= |t.rank| {
      SubsetIsSmaller(OwnedBy(pending, o), pending);
    }
  }

  lemma IndexIsRank(pending: set<ChunkId>, x: ChunkId)
    requires x in pending
    ensures Rank(pending, x) < |Queue(pending, x.owner)| && Queue(pending, x.owner)[Rank(pending, x)] == x
  {
    assert x in OwnedBy(pending, x.owner);
    assert x in Queue(pending, x.owner);
    var k :| 0 <= k < |Queue(pending, x.owner)| && Queue(pending, x.owner)[k] == x;
    RankIsIndex(pending, x.owner, k);
  }

  // ---------------------------------------------------------------- the loops

  /** One round: every owner with a pending chunk takes its next one. */
  method TakeRound(owners: seq<NodeId>, left0: map<NodeId, seq<ChunkId>>, order0: seq<ChunkId>,
                   ghost turns: Turns, ghost round: nat)
    returns (left: map<NodeId, seq<ChunkId>>, order: seq<ChunkId>, progress: bool)
    requires Sorting.Ascending(owners, Sorting.NatLess) && forall o :: o in turns.queues ==> o in owners
    requires turns.Standing(owners, left0, order0, round, 0)
    ensures turns.Standing(owners, left, order, round, |owners|)
    ensures progress ==> round < |turns.rank|
    ensures !progress ==> forall i :: 0 <= i < |owners| ==> left[owners[i]] == []
  {
    left, order, progress := left0, order0, false;
    for j := 0 to |owners|
      invariant turns.Standing(owners, left, order, round, j)
      invariant progress ==> round < |turns.rank|
      invariant !progress ==> forall i :: 0 <= i < j ==> left[owners[i]] == []
    {
      var owner := owners[j];
      var queue := left[owner];
      if queue == [] {
        turns.Skipped(owners, left, order, round, j);
      } else {
        turns.Taken(owners, left, order, round, j);
        left := left[owner := queue[..|queue| - 1]];
        order := order + [queue[|queue| - 1]];
        progress := true;
      }
    }
  }

  /** Rounds until every queue is empty. */
  method TakeAll(owners: seq<NodeId>, left0: map<NodeId, seq<ChunkId>>, ghost turns: Turns)
    returns (order: seq<ChunkId>)
    requires Sorting.Ascending(owners, Sorting.NatLess) && forall o :: o in turns.queues ==> o in owners
    requires turns.Standing(owners, left0, [], 0, 0)
    ensures turns.Ordered(order) && forall x :: x in turns.rank ==> x in order
  {
    ghost var round: nat := 0;
    var left, progress := left0, true;
    order := [];
    while progress
      invariant turns.Standing(owners, left, order, round, 0)
      invariant progress ==> round <= |turns.rank|
      invariant !progress ==> forall i :: 0 <= i < |owners| ==> left[owners[i]] == []
      decreases if progress then 1 + |turns.rank| - round else 0
    {
      left, order, progress := TakeRound(owners, left, order, turns, round);
      turns.RoundOver(owners, left, order, round);
      round := round + 1;
    }
    turns.AllTaken(owners, left, order, round);
  }

  /** The deterministic per-owner round robin. */
  method RoundRobin(pending: set<ChunkId>) returns (order: seq<ChunkId>)
    ensures order == TurnOrder(pending)
  {
    var owners := Sorting.Sorted(Owners(pending), Sorting.NatLess);
    var left := map o | o in Owners(pending) :: Reversed(Queue(pending, o));
    StartOfTurns(pending, owners, left);
    order := TakeAll(owners, left, TurnsOf(pending));
    OrderedIsTurnOrder(pending, order);
  }

  lemma StartOfTurns(pending: set<ChunkId>, owners: seq<NodeId>, left: map<NodeId, seq<ChunkId>>)
    requires forall o :: o in owners <==> o in Owners(pending)
    requires left == map o | o in Owners(pending) :: Reversed(Queue(pending, o))
    ensures TurnsOf(pending).Standing(owners, left, [], 0, 0)
    ensures TurnsOf(pending).rank.Keys == pending
    ensures forall o :: o in TurnsOf(pending).queues ==> o in owners
  {
    TurnsAreConsistent(pending);
    FullQueues(TurnsOf(pending), owners, left);
  }

  lemma FullQueues(turns: Turns, owners: seq<NodeId>, left: map<NodeId, seq<ChunkId>>)
    requires turns.Consistent() && left.Keys == turns.queues.Keys
    requires forall o :: o in turns.queues ==> left[o] == Reversed(turns.queues[o])
    requires forall o :: o in owners ==> o in turns.queues
    ensures turns.InTurns(left, []) && turns.AtTurn(owners, left, 0, 0)
  {
  }

  lemma OrderedIsTurnOrder(pending: set<ChunkId>, order: seq<ChunkId>)
    requires TurnsOf(pending).Ordered(order) && forall x :: x in pending ==> x in order
    ensures order == TurnOrder(pending)
  {
    var t, less := TurnsOf(pending), TurnLess(pending);
    forall i, j | 0 <= i < j < |order| ensures less(order[i], order[j]) {
      assert t.Less(order[i], order[j]);
    }
    TurnsAreTotal(pending);
    Sorting.AscendingIsSorted(order, pending, less);
  }

  lemma PlaceStep(a: Assignments, sps: nat, order: seq<ChunkId>, k: nat)
    requires sps >= 1 && Whole(|a|, sps) && k < |order|
    ensures Place(a, sps, order[..k + 1]) == AssignSpec(Place(a, sps, order[..k]), sps, order[k])
  {
    assert order[..k + 1][..k] == order[..k];
  }

  /** Assigns the pending chunks in turn. */
  method AllocatePending(allocator: StableSlotAllocator, pending: set<ChunkId>)
    requires allocator.Valid()
    modifies allocator
    ensures allocator.Valid()
    ensures allocator.assignments == Place(old(allocator.assignments), allocator.slotsPerSector, TurnOrder(pending))
  {
    var order := RoundRobin(pending);
    for k := 0 to |order|
      invariant allocator.Valid()
      invariant allocator.assignments == Place(old(allocator.assignments), allocator.slotsPerSector, order[..k])
    {
      PlaceStep(old(allocator.assignments), allocator.slotsPerSector, order, k);
      allocator.Assign(order[k]);
    }
    assert order[..|order|] == order;
  }

  /** Drops trailing free slots, then pads to whole sectors. */
  method TrimTrailing(a: Assignments, sps: nat) returns (used: nat, r: Assignments)
    requires sps >= 1 && Whole(|a|, sps)
    ensures used == UsedLen(a) && r == Trim(a, sps)
  {
    r := a;
    while r != [] && r[|r| - 1].None?
      invariant r <= a && UsedLen(r) == UsedLen(a)
      decreases |r|
    {
      r := r[..|r| - 1];
    }
    used := |r|;
    var sectorCount := (|r| + sps - 1) / sps;
    CeilDivIsQuotient(|r|, sps);
    RoundUpIsStart(|r|, sps);
    StartIsProduct(sectorCount, sps);
    r := r + seq(sectorCount * sps - |r|, _ => None);
    assert r == Trim(a, sps);
  }

  lemma {:induction false} CeilDivIsQuotient(len: nat, sps: nat)
    requires sps >= 1
    ensures (len + sps - 1) / sps == CeilDiv(len, sps)
  {
    if len > sps {
      CeilDivIsQuotient(len - sps, sps);
      var q := (len - sps + sps - 1) / sps;
      Merkle.DivUnique(len + sps - 1, sps, q + 1, (len - sps + sps - 1) % sps);
    } else if len > 0 {
      Merkle.DivUnique(len + sps - 1, sps, 1, len - 1);
    } else {
      Merkle.DivUnique(sps - 1, sps, 0, sps - 1);
    }
  }

  /** Plans the slots of the next catalog from the previous slots and the wanted chunks. */
  method PlanSlots(prev: Assignments, ids: set<ChunkId>, sps: nat) returns (used: nat, r: Assignments)
    requires sps >= 1 && Whole(|prev|, sps)
    ensures used == UsedLen(Placed(prev, ids, sps)) && r == NextSlots(prev, ids, sps)
  {
    var kept: Assignments := [];
    var placed: set<ChunkId> := {};
    for i := 0 to |prev|
      invariant kept == Retain(prev, ids)[..i] && placed == IdsIn(kept)
    {
      var slot := if prev[i].Some? && prev[i].value in ids then prev[i] else None;
      IdsExtended(kept, slot);
      if slot.Some? { placed := placed + {slot.value}; }
      kept := kept + [slot];
    }
    assert kept == Retain(prev, ids);
    var allocator := new StableSlotAllocator(kept, sps);
    AllocatePending(allocator, ids - placed);
    used, r := TrimTrailing(allocator.assignments, sps);
  }

  lemma IdsExtended(a: Assignments, slot: Option<ChunkId>)
    ensures IdsIn(a + [slot]) == IdsIn(a) + if slot.Some? then {slot.value} else {}
  {
    var b := a + [slot];
    assert b[|a|] == slot;
    forall x | x in IdsIn(a) ensures x in IdsIn(b) {
      var i :| 0 <= i < |a| && a[i].Some? && a[i].value == x;
      assert b[i] == a[i];
    }
  }
}
