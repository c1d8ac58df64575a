/**
 From one catalog's slots to the next one's: which slots are kept, in which order new chunks
 are placed, and how trailing sectors are dropped. What every step keeps is proved here:
 stability, exactly one slot per chunk, and the cross-owner reserve.
 */
module Placement {
  import opened Base
  import opened Allocator
  import Sorting

  // ---------------------------------------------------------------- chunk identities

  predicate IdLess(a: ChunkId, b: ChunkId) {
    || a.owner < b.owner
    || (a.owner == b.owner && a.protectedRoot < b.protectedRoot)
    || (a.owner == b.owner && a.protectedRoot == b.protectedRoot && a.objectId < b.objectId)
    || (a.owner == b.owner && a.protectedRoot == b.protectedRoot && a.objectId == b.objectId
        && a.chunkIndex < b.chunkIndex)
  }

  /** The identities in the order of an ordered map. */
  function SortedIds(s: set<ChunkId>): (r: seq<ChunkId>)
    ensures |r| == |s| && (forall x :: x in r <==> x in s) && Sorting.Ascending(r, IdLess)
  {
    Sorting.Sorted(s, IdLess)
  }

  /** The identities a slot vector holds. */
  function IdsIn(a: Assignments): set<ChunkId> {
    set i | 0 <= i < |a| && a[i].Some? :: a[i].value
  }

  /** No identity is in two slots. */
  predicate Distinct(a: Assignments) {
    forall i, j :: 0 <= i < j < |a| && a[i].Some? && a[j].Some? ==> a[i] != a[j]
  }

  // ---------------------------------------------------------------- kept slots

  /** The previous slots, with every chunk that is no longer wanted removed. */
  function Retain(prev: Assignments, ids: set<ChunkId>): (r: Assignments)
    ensures |r| == |prev|
    ensures forall i :: 0 <= i < |r| ==> r[i] == if prev[i].Some? && prev[i].value in ids then prev[i] else None
  {
    seq(|prev|, i requires 0 <= i < |prev| => if prev[i].Some? && prev[i].value in ids then prev[i] else None)
  }

  lemma RetainFacts(prev: Assignments, ids: set<ChunkId>)
    ensures IdsIn(Retain(prev, ids)) == IdsIn(prev) * ids
    ensures Distinct(prev) ==> Distinct(Retain(prev, ids))
  {
    var r := Retain(prev, ids);
    forall x | x in IdsIn(prev) * ids ensures x in IdsIn(r) {
      var i :| 0 <= i < |prev| && prev[i].Some? && prev[i].value == x;
      assert r[i] == prev[i];
    }
    forall x | x in IdsIn(r) ensures x in IdsIn(prev) * ids {
      var i :| 0 <= i < |r| && r[i].Some? && r[i].value == x;
      assert r[i] == prev[i];
    }
  }

  /** Removing chunks never fills a sector, so it keeps the reserve. */
  lemma RetainKeepsReserve(prev: Assignments, ids: set<ChunkId>, sps: nat)
    requires sps >= 1 && Whole(|prev|, sps) && CrossOwnerReserve(prev, sps)
    ensures CrossOwnerReserve(Retain(prev, ids), sps)
  {
    var r := Retain(prev, ids);
    forall s | 0 <= s < Count(|r|, sps) && Scan(r, sps)[s].free == {} ensures |Scan(r, sps)[s].owners| >= 2 {
      ScanAt(r, sps, s);
      ScanAt(prev, sps, s);
      var start := Start(s, sps);
      forall i | start <= i < start + sps ensures r[i] == prev[i] {
        assert i !in FreeOf(r, sps, s);
      }
      assert Content(r, sps, s) == Content(prev, sps, s);
      SameState(r, prev, sps, s);
    }
  }

  // ---------------------------------------------------------------- whose turn it is

  /** The place of `id` among the pending chunks of its owner. */
  ghost function Rank(pending: set<ChunkId>, id: ChunkId): nat {
    |set x | x in pending && x.owner == id.owner && IdLess(x, id)|
  }

  /** Round robin: by rank within the owner, then by owner. */
  ghost function TurnLess(pending: set<ChunkId>): (ChunkId, ChunkId) -> bool {
    (x: ChunkId, y: ChunkId) =>
      Rank(pending, x) < Rank(pending, y) || (Rank(pending, x) == Rank(pending, y) && x.owner < y.owner)
  }

  lemma RankMonotone(pending: set<ChunkId>, x: ChunkId, y: ChunkId)
    requires x in pending && y in pending && x.owner == y.owner && IdLess(x, y)
    ensures Rank(pending, x) < Rank(pending, y)
  {
    var below := set z | z in pending && z.owner == x.owner && IdLess(z, x);
    var more := set z | z in pending && z.owner == y.owner && IdLess(z, y);
    assert below + {x} <= more && x !in below;
    SubsetIsSmaller(below + {x}, more);
  }

  lemma TurnsAreTotal(pending: set<ChunkId>)
    ensures Sorting.StrictTotal(pending, TurnLess(pending))
  {
    var less := TurnLess(pending);
    forall x, y | x in pending && y in pending && x != y ensures less(x, y) || less(y, x) {
      if x.owner == y.owner {
        if IdLess(x, y) { RankMonotone(pending, x, y); } else { RankMonotone(pending, y, x); }
      }
    }
  }

  /** The order in which pending chunks are placed. */
  ghost function TurnOrder(pending: set<ChunkId>): seq<ChunkId> {
    TurnsAreTotal(pending);
    Sorting.Sorted(pending, TurnLess(pending))
  }

  // ---------------------------------------------------------------- placing chunks

  /** The slots after the chunks of `order` were assigned one by one. */
  ghost function Place(a: Assignments, sps: nat, order: seq<ChunkId>): (b: Assignments)
    requires sps >= 1 && Whole(|a|, sps)
    ensures Whole(|b|, sps)
    decreases |order|
  {
    if order == [] then a
    else
      var before := Place(a, sps, order[..|order| - 1]);
      AssignFillsOneSlot(before, sps, order[|order| - 1]);
      AssignSpec(before, sps, order[|order| - 1])
  }

  lemma AssignIds(a: Assignments, sps: nat, id: ChunkId)
    requires sps >= 1 && Whole(|a|, sps) && Distinct(a) && id !in IdsIn(a)
    ensures var b := AssignSpec(a, sps, id);
            IdsIn(b) == IdsIn(a) + {id} && Distinct(b)
  {
    AssignFillsOneSlot(a, sps, id);
    var b, slot := AssignSpec(a, sps, id), PickedSlot(a, sps, id.owner);
    forall x | x in IdsIn(a) + {id} ensures x in IdsIn(b) {
      if x == id {
        assert b[slot].value == id;
      } else {
        var i :| 0 <= i < |a| && a[i].Some? && a[i].value == x;
        assert b[i] == a[i];
      }
    }
    forall i | 0 <= i < |b| && b[i].Some? && i != slot ensures i < |a| && b[i] == a[i] && b[i].value in IdsIn(a) {
    }
  }

  /** `b` keeps every occupied slot of `a`, adds each chunk of `order` once and loses none. */
  ghost predicate Extends(a: Assignments, b: Assignments, order: seq<ChunkId>) {
    && |a| <= |b| && Distinct(b)
    && (forall x :: x in IdsIn(b) <==> x in IdsIn(a) || x in order)
    && forall i :: 0 <= i < |a| && a[i].Some? ==> b[i] == a[i]
  }

  lemma ExtendsNext(a: Assignments, before: Assignments, sps: nat, order: seq<ChunkId>, id: ChunkId)
    requires sps >= 1 && Whole(|before|, sps) && Extends(a, before, order) && id !in IdsIn(before)
    ensures Extends(a, AssignSpec(before, sps, id), order + [id])
  {
    AssignFillsOneSlot(before, sps, id);
    AssignIds(before, sps, id);
  }

  /** Placing keeps every occupied slot, adds each new chunk once and loses none. */
  lemma {:induction false} PlaceFacts(a: Assignments, sps: nat, order: seq<ChunkId>)
    requires sps >= 1 && Whole(|a|, sps) && Distinct(a)
    requires forall i, j :: 0 <= i < j < |order| ==> order[i] != order[j]
    requires forall x :: x in order ==> x !in IdsIn(a)
    ensures Extends(a, Place(a, sps, order), order)
    decreases |order|
  {
    if order != [] {
      var n := |order| - 1;
      var front, id := order[..n], order[n];
      PlaceFacts(a, sps, front);
      assert order == front + [id] && id !in front;
      ExtendsNext(a, Place(a, sps, front), sps, front, id);
    }
  }

  lemma {:induction false} PlaceKeepsReserve(a: Assignments, sps: nat, order: seq<ChunkId>)
    requires sps >= 2 && Whole(|a|, sps) && CrossOwnerReserve(a, sps)
    ensures CrossOwnerReserve(Place(a, sps, order), sps)
    decreases |order|
  {
    if order != [] {
      var n := |order| - 1;
      PlaceKeepsReserve(a, sps, order[..n]);
      AssignKeepsReserve(Place(a, sps, order[..n]), sps, order[n]);
    }
  }

  // ---------------------------------------------------------------- trailing slots

  /** The slots up to and including the last occupied one. */
  function UsedLen(a: Assignments): (n: nat)
    ensures n <= |a|
    ensures forall i :: n <= i < |a| ==> a[i].None?
    ensures n > 0 ==> a[n - 1].Some?
  {
    if a != [] && a[|a| - 1].None? then UsedLen(a[..|a| - 1]) else |a|
  }

  /** `len` rounded up to whole sectors. */
  function RoundUp(len: nat, sps: nat): (r: nat)
    requires sps >= 1
    ensures len <= r < len + sps
  {
    if len == 0 then 0 else if len <= sps then sps else sps + RoundUp(len - sps, sps)
  }

  lemma {:induction false} RoundUpIsStart(len: nat, sps: nat)
    requires sps >= 1
    ensures RoundUp(len, sps) == Start(CeilDiv(len, sps), sps)
    ensures len > 0 ==> CeilDiv(len, sps) >= 1 && Start(CeilDiv(len, sps) - 1, sps) < len
  {
    if len > sps {
      RoundUpIsStart(len - sps, sps);
    }
  }

  /** `len.div_ceil(sps)`. */
  function CeilDiv(len: nat, sps: nat): nat
    requires sps >= 1
  {
    if len == 0 then 0 else if len <= sps then 1 else 1 + CeilDiv(len - sps, sps)
  }

  lemma {:induction false} RoundUpFits(len: nat, n: nat, sps: nat)
    requires sps >= 1 && len <= Start(n, sps)
    ensures RoundUp(len, sps) <= Start(n, sps) && CeilDiv(len, sps) <= n
  {
    if len > sps {
      RoundUpFits(len - sps, n - 1, sps);
    }
  }

  /** The slots without their trailing empty sectors. */
  function Trim(a: Assignments, sps: nat): (r: Assignments)
    requires sps >= 1 && Whole(|a|, sps)
    ensures r <= a && |r| == RoundUp(UsedLen(a), sps)
  {
    RoundUpFits(UsedLen(a), Count(|a|, sps), sps);
    a[..RoundUp(UsedLen(a), sps)]
  }

  /** The last sector holds a chunk. */
  predicate EndsOccupied(a: Assignments, sps: nat)
    requires sps >= 1
  {
    a != [] ==> Count(|a|, sps) >= 1 && exists i :: Start(Count(|a|, sps) - 1, sps) <= i < |a| && a[i].Some?
  }

  lemma TrimFacts(a: Assignments, sps: nat)
    requires sps >= 1 && Whole(|a|, sps)
    ensures var r := Trim(a, sps);
            && Whole(|r|, sps) && IdsIn(r) == IdsIn(a)
            && (Distinct(a) ==> Distinct(r))
            && (forall i :: |r| <= i < |a| ==> a[i].None?)
            && EndsOccupied(r, sps)
            && (CrossOwnerReserve(a, sps) ==> CrossOwnerReserve(r, sps))
  {
    var r, n := Trim(a, sps), CeilDiv(UsedLen(a), sps);
    RoundUpIsStart(UsedLen(a), sps);
    RoundUpFits(UsedLen(a), Count(|a|, sps), sps);
    WholeCount(n, sps);
    forall x | x in IdsIn(a) ensures x in IdsIn(r) {
      var i :| 0 <= i < |a| && a[i].Some? && a[i].value == x;
      assert r[i] == a[i];
    }
    if r != [] { assert r[UsedLen(a) - 1].Some?; }
    forall s | 0 <= s < n ensures Scan(r, sps)[s] == Scan(a, sps)[s] {
      ScanKept(r, a, sps, s);
    }
  }

  // ---------------------------------------------------------------- the next catalog's slots

  /** The slots of the next catalog before and after trimming. */
  ghost function Placed(prev: Assignments, ids: set<ChunkId>, sps: nat): (r: Assignments)
    requires sps >= 1 && Whole(|prev|, sps)
    ensures Whole(|r|, sps)
  {
    Place(Retain(prev, ids), sps, TurnOrder(ids - IdsIn(Retain(prev, ids))))
  }

  ghost function NextSlots(prev: Assignments, ids: set<ChunkId>, sps: nat): Assignments
    requires sps >= 1 && Whole(|prev|, sps)
  {
    Trim(Placed(prev, ids, sps), sps)
  }

  /**
   Every wanted chunk is in exactly one slot, nothing else is in any slot, and a chunk that
   was already placed keeps its flat slot index.
   */
  lemma NextSlotsAreStable(prev: Assignments, ids: set<ChunkId>, sps: nat)
    requires sps >= 1 && Whole(|prev|, sps) && Distinct(prev)
    ensures var r := NextSlots(prev, ids, sps);
            && Whole(|r|, sps) && Distinct(r) && IdsIn(r) == ids
            && (forall i :: 0 <= i < |prev| && prev[i].Some? && prev[i].value in ids ==> i < |r| && r[i] == prev[i])
            && EndsOccupied(r, sps)
  {
    PlacedFacts(prev, ids, sps);
    TrimFacts(Placed(prev, ids, sps), sps);
  }

  /** A wanted chunk that had a slot is in that slot and no other. */
  lemma KeptIndex(prev: Assignments, ids: set<ChunkId>, sps: nat, i: nat, id: ChunkId)
    requires sps >= 1 && Whole(|prev|, sps) && Distinct(prev) && id in ids && id in IdsIn(prev)
    requires i < |NextSlots(prev, ids, sps)| && NextSlots(prev, ids, sps)[i] == Some(id)
    ensures i < |prev| && prev[i] == Some(id)
  {
    NextSlotsAreStable(prev, ids, sps);
    var j :| 0 <= j < |prev| && prev[j].Some? && prev[j].value == id;
    assert NextSlots(prev, ids, sps)[j] == Some(id);
  }

  lemma PlacedFacts(prev: Assignments, ids: set<ChunkId>, sps: nat)
    requires sps >= 1 && Whole(|prev|, sps) && Distinct(prev)
    ensures var placed := Placed(prev, ids, sps);
            && |prev| <= |placed| && Distinct(placed) && IdsIn(placed) == ids
            && forall i :: 0 <= i < |prev| && prev[i].Some? && prev[i].value in ids ==> placed[i] == prev[i]
  {
    var kept := Retain(prev, ids);
    var pending := ids - IdsIn(kept);
    RetainFacts(prev, ids);
    TurnOrderIsFair(pending);
    PlaceFacts(kept, sps, TurnOrder(pending));
    AllPlaced(ids, kept, Placed(prev, ids, sps), TurnOrder(pending));
  }

  lemma AllPlaced(ids: set<ChunkId>, kept: Assignments, placed: Assignments, order: seq<ChunkId>)
    requires Extends(kept, placed, order) && IdsIn(kept) <= ids && forall x :: x in order <==> x in ids - IdsIn(kept)
    ensures IdsIn(placed) == ids
  {
  }

  /** The turn order lists every pending chunk once. */
  lemma TurnOrderIsFair(pending: set<ChunkId>)
    ensures forall x :: x in TurnOrder(pending) <==> x in pending
    ensures forall i, j :: 0 <= i < j < |TurnOrder(pending)| ==> TurnOrder(pending)[i] != TurnOrder(pending)[j]
    ensures forall i, j :: 0 <= i < j < |TurnOrder(pending)| ==>
              TurnLess(pending)(TurnOrder(pending)[i], TurnOrder(pending)[j])
  {
    TurnsAreTotal(pending);
  }

  /** One update keeps the cross-owner reserve. */
  lemma NextSlotsKeepReserve(prev: Assignments, ids: set<ChunkId>, sps: nat)
    requires sps >= 2 && Whole(|prev|, sps) && CrossOwnerReserve(prev, sps)
    ensures Whole(|NextSlots(prev, ids, sps)|, sps) && CrossOwnerReserve(NextSlots(prev, ids, sps), sps)
  {
    RetainKeepsReserve(prev, ids, sps);
    PlaceKeepsReserve(Retain(prev, ids), sps, TurnOrder(ids - IdsIn(Retain(prev, ids))));
    TrimFacts(Placed(prev, ids, sps), sps);
  }
}
