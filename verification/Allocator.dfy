/**
 The stable-slot allocator of the packer: four redundant sector indexes over one vector of
 slot assignments, proved to agree with a plain scan of that vector, and the naive placement
 policy that every assignment follows.
 */
module Allocator {
  import opened Base
  import Sorting

  /** One fixed-size chunk of one object; ordered field by field. */
  datatype ChunkId = ChunkId(owner: NodeId, protectedRoot: nat, objectId: nat, chunkIndex: nat)

  type Assignments = seq<Option<ChunkId>>

  /** The owners in a sector and its free flat slot indexes. */
  datatype SectorState = SectorState(owners: set<NodeId>, free: set<nat>)

  // ---------------------------------------------------------------- least elements

  /** The first element of an ordered set of indexes or identities. */
  function Least(s: set<nat>): (m: nat)
    requires s != {}
    ensures m in s && forall x :: x in s ==> m <= x
  {
    Sorting.First(s, Sorting.NatLess)
  }

  lemma LeastIs(s: set<nat>, m: nat)
    requires m in s && forall x :: x in s ==> m <= x
    ensures Least(s) == m
  {
  }

  // ---------------------------------------------------------------- flat indexes

  /** The first flat index of a sector, `sector * sps`, by repeated addition. */
  function Start(sector: nat, sps: nat): nat {
    if sector == 0 then 0 else Start(sector - 1, sps) + sps
  }

  lemma {:induction false} StartIsProduct(sector: nat, sps: nat)
    ensures Start(sector, sps) == sector * sps
  {
    if sector > 0 { StartIsProduct(sector - 1, sps); }
  }

  lemma {:induction false} StartOrder(s: nat, t: nat, sps: nat)
    requires s < t
    ensures Start(s, sps) + sps <= Start(t, sps)
    decreases t
  {
    if s < t - 1 { StartOrder(s, t - 1, sps); }
  }

  lemma {:induction false} StartAtLeast(s: nat, sps: nat)
    requires sps >= 1
    ensures s <= Start(s, sps)
  {
    if s > 0 { StartAtLeast(s - 1, sps); }
  }

  /** How many whole sectors `len` slots make. */
  function Count(len: nat, sps: nat): nat
    requires sps >= 1
    decreases len
  {
    if len < sps then 0 else 1 + Count(len - sps, sps)
  }

  /** The slots are whole sectors. */
  predicate Whole(len: nat, sps: nat)
    requires sps >= 1
  {
    len == Start(Count(len, sps), sps)
  }

  lemma {:induction false} WholeCount(n: nat, sps: nat)
    requires sps >= 1
    ensures Count(Start(n, sps), sps) == n && Whole(Start(n, sps), sps)
  {
    if n > 0 { WholeCount(n - 1, sps); }
  }

  // ---------------------------------------------------------------- the plain scan

  /** The slots of one sector. */
  function Content(a: Assignments, sps: nat, sector: nat): Assignments
    requires Start(sector, sps) + sps <= |a|
  {
    a[Start(sector, sps)..Start(sector, sps) + sps]
  }

  function OwnersIn(slots: Assignments): set<NodeId> {
    set i | 0 <= i < |slots| && slots[i].Some? :: slots[i].value.owner
  }

  function FreeOf(a: Assignments, sps: nat, sector: nat): set<nat>
    requires Start(sector, sps) + sps <= |a|
  {
    set i | Start(sector, sps) <= i < Start(sector, sps) + sps && a[i].None?
  }

  function StateOf(a: Assignments, sps: nat, sector: nat): SectorState
    requires Start(sector, sps) + sps <= |a|
  {
    SectorState(OwnersIn(Content(a, sps, sector)), FreeOf(a, sps, sector))
  }

  /** What a plain scan of the assignments finds, sector by sector. */
  function Scan(a: Assignments, sps: nat): (r: seq<SectorState>)
    requires sps >= 1 && Whole(|a|, sps)
    ensures |r| == Count(|a|, sps)
  {
    seq(Count(|a|, sps), s requires 0 <= s < Count(|a|, sps) =>
      StartOrder(s, Count(|a|, sps), sps);
      StateOf(a, sps, s))
  }

  lemma ScanAt(a: Assignments, sps: nat, s: nat)
    requires sps >= 1 && Whole(|a|, sps) && s < Count(|a|, sps)
    ensures Start(s, sps) + sps <= |a| && Scan(a, sps)[s] == StateOf(a, sps, s)
  {
    StartOrder(s, Count(|a|, sps), sps);
  }

  /** How a sector may take further chunks. */
  datatype Class = Full | Vacant | Lone(owner: NodeId, fillable: bool) | Mixed

  function Classify(st: SectorState): Class {
    if st.free == {} then Full
    else if |st.owners| == 0 then Vacant
    else if |st.owners| == 1 then Lone(Least(st.owners), |st.free| > 1)
    else Mixed
  }

  /** The class says whether there is room, who the only owner is, and whether two slots are free. */
  lemma ClassMeaning(st: SectorState)
    ensures Classify(st).Full? <==> st.free == {}
    ensures Classify(st).Vacant? <==> st.free != {} && st.owners == {}
    ensures forall o :: Classify(st).Lone? && Classify(st).owner == o <==> st.free != {} && st.owners == {o}
    ensures Classify(st).Lone? ==> (Classify(st).fillable <==> |st.free| > 1)
    ensures Classify(st).Mixed? <==> st.free != {} && |st.owners| >= 2
  {
    if |st.owners| == 1 { OneOwner(st.owners, Least(st.owners)); }
  }

  lemma OneOwner(owners: set<NodeId>, owner: NodeId)
    requires |owners| == 1 && owner in owners
    ensures owners == {owner}
  {
    var rest := owners - {owner};
    assert |rest| == 0;
    assert owners == rest + {owner};
  }

  // ---------------------------------------------------------------- the naive policy

  ghost function MixedSectors(v: seq<SectorState>): set<nat> {
    set s | 0 <= s < |v| && Classify(v[s]).Mixed?
  }

  ghost function LoneSectors(v: seq<SectorState>, owner: NodeId): set<nat> {
    set s | 0 <= s < |v| && Classify(v[s]).Lone? && Classify(v[s]).owner == owner
  }

  ghost function FillableSectors(v: seq<SectorState>, owner: NodeId): set<nat> {
    set s | 0 <= s < |v| && Classify(v[s]) == Lone(owner, true)
  }

  ghost function VacantSectors(v: seq<SectorState>): set<nat> {
    set s | 0 <= s < |v| && Classify(v[s]).Vacant?
  }

  /** Owners other than `owner` that are alone in some sector with room. */
  ghost function LoneOthers(v: seq<SectorState>, owner: NodeId): set<NodeId> {
    set s | 0 <= s < |v| && Classify(v[s]).Lone? && Classify(v[s]).owner != owner :: Classify(v[s]).owner
  }

  /**
   The sector that takes the next chunk of `owner`: the first mixed one, then the first one of
   the smallest other lone owner, then the first own one with two free slots, then the first
   vacant one; the sector count stands for a new sector.
   */
  ghost function NaivePick(v: seq<SectorState>, owner: NodeId): (r: nat)
    ensures r <= |v|
    ensures r < |v| ==> v[r].free != {}
  {
    if MixedSectors(v) != {} then Least(MixedSectors(v))
    else if LoneOthers(v, owner) != {} then
      LoneOwnerHasSector(v, owner, Least(LoneOthers(v, owner)));
      Least(LoneSectors(v, Least(LoneOthers(v, owner))))
    else if FillableSectors(v, owner) != {} then Least(FillableSectors(v, owner))
    else if VacantSectors(v) != {} then Least(VacantSectors(v))
    else |v|
  }

  lemma LoneOwnerHasSector(v: seq<SectorState>, owner: NodeId, other: NodeId)
    requires other in LoneOthers(v, owner)
    ensures LoneSectors(v, other) != {} && other != owner
  {
    var s :| 0 <= s < |v| && Classify(v[s]).Lone? && Classify(v[s]).owner != owner && Classify(v[s]).owner == other;
    assert s in LoneSectors(v, other);
  }

  function EmptySector(sps: nat): (r: Assignments)
    ensures |r| == sps && forall i :: 0 <= i < sps ==> r[i].None?
  {
    seq(sps, _ => None)
  }

  /** The slots the policy chooses from: the present ones, or these and a new sector. */
  ghost function Grown(a: Assignments, sps: nat, owner: NodeId): (r: Assignments)
    requires sps >= 1 && Whole(|a|, sps)
    ensures Whole(|r|, sps) && |a| <= |r| <= |a| + sps
    ensures NaivePick(Scan(a, sps), owner) < Count(|r|, sps)
    ensures Count(|a|, sps) <= Count(|r|, sps)
    ensures Start(NaivePick(Scan(a, sps), owner), sps) + sps <= |r|
    ensures FreeOf(r, sps, NaivePick(Scan(a, sps), owner)) != {}
  {
    var sector := NaivePick(Scan(a, sps), owner);
    if sector < Count(|a|, sps) then
      StartOrder(sector, Count(|a|, sps), sps);
      a
    else
      WholeCount(sector + 1, sps);
      var r := a + EmptySector(sps);
      assert Start(sector, sps) in FreeOf(r, sps, sector);
      r
  }

  ghost function PickedSlot(a: Assignments, sps: nat, owner: NodeId): nat
    requires sps >= 1 && Whole(|a|, sps)
  {
    Least(FreeOf(Grown(a, sps, owner), sps, NaivePick(Scan(a, sps), owner)))
  }

  /** The assignments after `id` was placed by the naive policy. */
  ghost function AssignSpec(a: Assignments, sps: nat, id: ChunkId): Assignments
    requires sps >= 1 && Whole(|a|, sps)
  {
    Grown(a, sps, id.owner)[PickedSlot(a, sps, id.owner) := Some(id)]
  }

  // ---------------------------------------------------------------- what an assignment does

  /** A sector that lies in a common prefix has the same state. */
  lemma SameState(a: Assignments, b: Assignments, sps: nat, sector: nat)
    requires Start(sector, sps) + sps <= |a| && Start(sector, sps) + sps <= |b|
    requires Content(a, sps, sector) == Content(b, sps, sector)
    ensures StateOf(a, sps, sector) == StateOf(b, sps, sector)
  {
    var c, start := Content(a, sps, sector), Start(sector, sps);
    assert forall i :: start <= i < start + sps ==> a[i] == c[i - start] == b[i];
  }

  lemma OneMoreSector(len: nat, sps: nat)
    requires sps >= 1 && Whole(len, sps)
    ensures Whole(len + sps, sps) && Count(len + sps, sps) == Count(len, sps) + 1
  {
    WholeCount(Count(len, sps) + 1, sps);
  }

  /** A scan of more slots starts with the scan of the first ones. */
  lemma ScanKept(a: Assignments, b: Assignments, sps: nat, s: nat)
    requires sps >= 1 && Whole(|a|, sps) && Whole(|b|, sps) && a <= b
    requires s < Count(|a|, sps) && s < Count(|b|, sps)
    ensures Scan(b, sps)[s] == Scan(a, sps)[s]
  {
    ScanAt(a, sps, s);
    ScanAt(b, sps, s);
    assert Content(b, sps, s) == Content(a, sps, s);
    SameState(a, b, sps, s);
  }

  lemma NewSectorIsEmpty(a: Assignments, sps: nat, n: nat)
    requires |a| == Start(n, sps)
    ensures OwnersIn(Content(a + EmptySector(sps), sps, n)) == {}
  {
    assert Content(a + EmptySector(sps), sps, n) == EmptySector(sps);
  }

  /** Appending an empty sector adds one vacant state to the scan. */
  lemma ScanGrown(a: Assignments, sps: nat)
    requires sps >= 1 && Whole(|a|, sps)
    ensures Whole(|a| + sps, sps) && Count(|a| + sps, sps) == Count(|a|, sps) + 1
    ensures forall s :: 0 <= s < Count(|a|, sps) ==> Scan(a + EmptySector(sps), sps)[s] == Scan(a, sps)[s]
    ensures Scan(a + EmptySector(sps), sps)[Count(|a|, sps)] ==
            SectorState({}, FreeOf(a + EmptySector(sps), sps, Count(|a|, sps)))
  {
    OneMoreSector(|a|, sps);
    var n, b := Count(|a|, sps), a + EmptySector(sps);
    forall s | 0 <= s < n ensures Scan(b, sps)[s] == Scan(a, sps)[s] { ScanKept(a, b, sps, s); }
    ScanAt(b, sps, n);
    NewSectorIsEmpty(a, sps, n);
  }

  lemma OtherSectorKept(a: Assignments, sps: nat, sector: nat, slot: nat, id: ChunkId, s: nat)
    requires sps >= 1 && Whole(|a|, sps) && sector < Count(|a|, sps) && s < Count(|a|, sps) && s != sector
    requires Start(sector, sps) <= slot < Start(sector, sps) + sps <= |a|
    ensures Scan(a[slot := Some(id)], sps)[s] == Scan(a, sps)[s]
  {
    var b := a[slot := Some(id)];
    ScanAt(a, sps, s);
    ScanAt(b, sps, s);
    if s < sector { StartOrder(s, sector, sps); } else { StartOrder(sector, s, sps); }
    assert Content(b, sps, s) == Content(a, sps, s);
    SameState(a, b, sps, s);
  }

  lemma OwnSectorFilled(a: Assignments, sps: nat, sector: nat, slot: nat, id: ChunkId)
    requires Start(sector, sps) + sps <= |a| && slot in FreeOf(a, sps, sector)
    ensures StateOf(a[slot := Some(id)], sps, sector)
         == SectorState(StateOf(a, sps, sector).owners + {id.owner}, StateOf(a, sps, sector).free - {slot})
  {
    var b, c, k := a[slot := Some(id)], Content(a, sps, sector), slot - Start(sector, sps);
    assert Content(b, sps, sector) == c[k := Some(id)];
    OwnersFilled(c, k, id);
    assert FreeOf(b, sps, sector) == FreeOf(a, sps, sector) - {slot};
  }

  /** Filling one free slot changes the state of its own sector only. */
  lemma ScanFilled(a: Assignments, sps: nat, sector: nat, slot: nat, id: ChunkId)
    requires sps >= 1 && Whole(|a|, sps) && sector < Count(|a|, sps)
    requires Start(sector, sps) + sps <= |a| && slot in FreeOf(a, sps, sector)
    ensures var v := Scan(a, sps);
            Scan(a[slot := Some(id)], sps) ==
              v[sector := SectorState(v[sector].owners + {id.owner}, v[sector].free - {slot})]
  {
    var b := a[slot := Some(id)];
    forall s | 0 <= s < Count(|a|, sps) && s != sector ensures Scan(b, sps)[s] == Scan(a, sps)[s] {
      OtherSectorKept(a, sps, sector, slot, id, s);
    }
    ScanAt(a, sps, sector);
    ScanAt(b, sps, sector);
    OwnSectorFilled(a, sps, sector, slot, id);
  }

  lemma OwnersFilled(c: Assignments, k: nat, id: ChunkId)
    requires k < |c| && c[k].None?
    ensures OwnersIn(c[k := Some(id)]) == OwnersIn(c) + {id.owner}
  {
    var d := c[k := Some(id)];
    assert d[k].value.owner in OwnersIn(d);
    forall o | o in OwnersIn(c) ensures o in OwnersIn(d) {
      var i :| 0 <= i < |c| && c[i].Some? && c[i].value.owner == o;
      assert d[i] == c[i];
    }
    forall o | o in OwnersIn(d) ensures o in OwnersIn(c) + {id.owner} {
      var i :| 0 <= i < |d| && d[i].Some? && d[i].value.owner == o;
      assert i != k ==> d[i] == c[i];
    }
  }

  /** An assignment fills exactly one slot, free or new, and changes no other slot. */
  lemma AssignFillsOneSlot(a: Assignments, sps: nat, id: ChunkId)
    requires sps >= 1 && Whole(|a|, sps)
    ensures var b, slot := AssignSpec(a, sps, id), PickedSlot(a, sps, id.owner);
            && Whole(|b|, sps) && |a| <= |b| <= |a| + sps
            && slot < |b| && b[slot] == Some(id)
            && (slot < |a| ==> a[slot].None?)
            && (forall i :: 0 <= i < |b| && i != slot ==> b[i] == if i < |a| then a[i] else None)
  {
  }

  /** Every completely filled sector holds chunks of at least two owners. */
  ghost predicate Reserved(v: seq<SectorState>) {
    forall s :: 0 <= s < |v| && v[s].free == {} ==> |v[s].owners| >= 2
  }

  ghost predicate CrossOwnerReserve(a: Assignments, sps: nat)
    requires sps >= 1 && Whole(|a|, sps)
  {
    Reserved(Scan(a, sps))
  }

  lemma TwoOwners(o: set<NodeId>, x: NodeId, y: NodeId)
    requires x in o && y in o && x != y
    ensures |o| >= 2
  {
    assert o == (o - {x}) + {x} && y in o - {x};
  }

  lemma MoreOwners(a: set<NodeId>, x: NodeId)
    ensures |a| <= |a + {x}|
  {
    assert x in a ==> a + {x} == a;
  }

  lemma OwnerListed(c: Assignments, k: nat)
    requires k < |c|
    ensures c[k].Some? ==> c[k].value.owner in OwnersIn(c)
  {
  }

  /** A sector of two or more slots that has no owner keeps a free slot after one is taken. */
  lemma VacantHasRoom(a: Assignments, sps: nat, sector: nat, slot: nat)
    requires sps >= 2 && Start(sector, sps) + sps <= |a| && OwnersIn(Content(a, sps, sector)) == {}
    ensures FreeOf(a, sps, sector) - {slot} != {}
  {
    var c, start := Content(a, sps, sector), Start(sector, sps);
    OwnerListed(c, 0);
    OwnerListed(c, 1);
    assert a[start] == c[0] && a[start + 1] == c[1];
    assert (if slot == start then start + 1 else start) in FreeOf(a, sps, sector) - {slot};
  }

  lemma ReserveGrown(v: seq<SectorState>, w: seq<SectorState>)
    requires Reserved(v) && |v| <= |w| <= |v| + 1 && (forall s :: 0 <= s < |v| ==> w[s] == v[s])
    requires |v| < |w| ==> w[|v|].free != {}
    ensures Reserved(w)
  {
  }

  lemma ReserveFilled(v: seq<SectorState>, sector: nat, st: SectorState)
    requires Reserved(v) && sector < |v| && (st.free != {} || |st.owners| >= 2)
    ensures Reserved(v[sector := st])
  {
  }

  /** Growing for the pick keeps the states of the present sectors and adds at most a vacant one. */
  lemma ScanOfGrown(a: Assignments, sps: nat, owner: NodeId)
    requires sps >= 1 && Whole(|a|, sps)
    ensures var v, w := Scan(a, sps), Scan(Grown(a, sps, owner), sps);
            && |v| <= |w| <= |v| + 1 && (forall s :: 0 <= s < |v| ==> w[s] == v[s])
            && (|v| < |w| ==> NaivePick(v, owner) == |v| && w[|v|].free != {} && w[|v|].owners == {})
            && (|v| == |w| ==> Grown(a, sps, owner) == a)
  {
    ScanGrown(a, sps);
  }

  /** The policy keeps the cross-owner reserve. */
  lemma AssignKeepsReserve(a: Assignments, sps: nat, id: ChunkId)
    requires sps >= 2 && Whole(|a|, sps) && CrossOwnerReserve(a, sps)
    ensures Whole(|AssignSpec(a, sps, id)|, sps) && CrossOwnerReserve(AssignSpec(a, sps, id), sps)
  {
    var g, v := Grown(a, sps, id.owner), Scan(a, sps);
    var w, sector, slot := Scan(g, sps), NaivePick(v, id.owner), PickedSlot(a, sps, id.owner);
    ScanOfGrown(a, sps, id.owner);
    ReserveGrown(v, w);
    ScanFilled(g, sps, sector, slot, id);
    ScanAt(g, sps, sector);
    if w[sector].owners == {} {
      VacantHasRoom(g, sps, sector, slot);
    } else {
      PickLeavesReserve(v, id.owner, slot);
    }
    ReserveFilled(w, sector, SectorState(w[sector].owners + {id.owner}, w[sector].free - {slot}));
  }

  /** A picked sector that has an owner keeps a free slot or becomes shared. */
  lemma PickLeavesReserve(v: seq<SectorState>, owner: NodeId, slot: nat)
    requires NaivePick(v, owner) < |v| && slot in v[NaivePick(v, owner)].free
    ensures var st := v[NaivePick(v, owner)];
            st.owners == {} || st.free - {slot} != {} || |st.owners + {owner}| >= 2
  {
    var st := v[NaivePick(v, owner)];
    ClassMeaning(st);
    if MixedSectors(v) != {} {
      MoreOwners(st.owners, owner);
    } else if LoneOthers(v, owner) != {} {
      var other := Least(LoneOthers(v, owner));
      LoneOwnerHasSector(v, owner, other);
      assert st.owners == {other};
      TwoOwners(st.owners + {owner}, other, owner);
    } else if FillableSectors(v, owner) != {} {
      assert |st.free - {slot}| == |st.free| - 1;
    }
  }

  // ---------------------------------------------------------------- the allocator

  /** The sectors an owner index lists under `owner`. */
  function Listed(index: map<NodeId, set<nat>>, owner: NodeId): set<nat> {
    if owner in index then index[owner] else {}
  }

  function InsertIndex(index: map<NodeId, set<nat>>, owner: NodeId, sector: nat): (r: map<NodeId, set<nat>>)
    ensures forall o, s: nat :: s in Listed(r, o) <==> s in Listed(index, o) || (o == owner && s == sector)
    ensures Tight(index) ==> Tight(r)
  {
    index[owner := Listed(index, owner) + {sector}]
  }

  function RemoveIndex(index: map<NodeId, set<nat>>, owner: NodeId, sector: nat): (r: map<NodeId, set<nat>>)
    ensures forall o, s: nat :: s in Listed(r, o) <==> s in Listed(index, o) && !(o == owner && s == sector)
    ensures Tight(index) ==> Tight(r)
  {
    if owner !in index then index
    else if index[owner] - {sector} == {} then index - {owner}
    else index[owner := index[owner] - {sector}]
  }

  /** No owner is kept with an empty set of sectors. */
  ghost predicate Tight(index: map<NodeId, set<nat>>) {
    forall o :: o in index ==> index[o] != {}
  }

  /** The class under which sector `s` is indexed; a skipped or absent sector is under none. */
  ghost function ClassAt(v: seq<SectorState>, skip: int, s: nat): Class {
    if s < |v| && s != skip then Classify(v[s]) else Full
  }

  class StableSlotAllocator {
    const slotsPerSector: nat
    var assignments: Assignments
    var sectors: seq<SectorState>
    var mixed: set<nat>
    var single: map<NodeId, set<nat>>
    var singleFillable: map<NodeId, set<nat>>
    var empty: set<nat>

    /** The indexes list exactly the sectors of their class, the skipped sector excepted. */
    ghost predicate Indexed(skip: int)
      reads this
    {
      && (forall s: nat :: s in mixed <==> ClassAt(sectors, skip, s) == Mixed)
      && (forall s: nat :: s in empty <==> ClassAt(sectors, skip, s) == Vacant)
      && (forall o, s: nat :: s in Listed(single, o) <==>
            ClassAt(sectors, skip, s).Lone? && ClassAt(sectors, skip, s).owner == o)
      && (forall o, s: nat :: s in Listed(singleFillable, o) <==> ClassAt(sectors, skip, s) == Lone(o, true))
      && Tight(single) && Tight(singleFillable)
    }

    /** Every index equals the one a plain scan of the assignments computes. */
    ghost predicate Valid()
      reads this
    {
      && slotsPerSector >= 1
      && Whole(|assignments|, slotsPerSector)
      && sectors == Scan(assignments, slotsPerSector)
      && Indexed(-1)
    }

    method AddClassification(sector: nat)
      requires sector < |sectors| && Indexed(sector)
      modifies this`mixed, this`single, this`singleFillable, this`empty
      ensures Indexed(-1)
    {
      var state := sectors[sector];
      assert forall s: nat :: s != sector ==> ClassAt(sectors, -1, s) == ClassAt(sectors, sector, s);
      if state.free == {} { return; }
      if |state.owners| == 0 {
        empty := empty + {sector};
      } else if |state.owners| == 1 {
        var owner := Least(state.owners);
        single := InsertIndex(single, owner, sector);
        if |state.free| > 1 { singleFillable := InsertIndex(singleFillable, owner, sector); }
      } else {
        mixed := mixed + {sector};
      }
    }

    method RemoveClassification(sector: nat)
      requires sector < |sectors| && Indexed(-1)
      modifies this`mixed, this`single, this`singleFillable, this`empty
      ensures Indexed(sector)
    {
      var state := sectors[sector];
      assert forall s: nat :: s != sector ==> ClassAt(sectors, -1, s) == ClassAt(sectors, sector, s);
      if state.free == {} { return; }
      if |state.owners| == 0 {
        empty := empty - {sector};
      } else if |state.owners| == 1 {
        var owner := Least(state.owners);
        single := RemoveIndex(single, owner, sector);
        if |state.free| > 1 { singleFillable := RemoveIndex(singleFillable, owner, sector); }
      } else {
        mixed := mixed - {sector};
      }
    }

    /** The owners and free slots of one sector, slot by slot. */
    static method ReadSector(a: Assignments, start: nat, sps: nat) returns (state: SectorState)
      requires start + sps <= |a|
      ensures state == SectorState(OwnersIn(a[start..start + sps]), set i | start <= i < start + sps && a[i].None?)
    {
      var owners, free := {}, {};
      for offset := 0 to sps
        invariant owners == OwnersIn(a[start..start + offset])
        invariant free == set i | start <= i < start + offset && a[i].None?
      {
        var slot := a[start + offset];
        OwnersExtended(a[start..start + offset], slot);
        assert a[start..start + offset + 1] == a[start..start + offset] + [slot];
        if slot.Some? { owners := owners + {slot.value.owner}; } else { free := free + {start + offset}; }
      }
      state := SectorState(owners, free);
    }

    constructor (assignments: Assignments, slotsPerSector: nat)
      requires slotsPerSector >= 1 && Whole(|assignments|, slotsPerSector)
      ensures Valid() && this.assignments == assignments && this.slotsPerSector == slotsPerSector
    {
      this.slotsPerSector := slotsPerSector;
      this.assignments := assignments;
      sectors, mixed, single, singleFillable, empty := [], {}, map[], map[], {};
      new;
      ghost var scan := Scan(assignments, slotsPerSector);
      var start := 0;
      while start < |assignments|
        invariant this.assignments == assignments && |sectors| <= |scan|
        invariant start == Start(|sectors|, slotsPerSector) <= |assignments|
        invariant sectors == scan[..|sectors|] && Indexed(-1)
        decreases |assignments| - start
      {
        ghost var sector := |sectors|;
        if sector == |scan| { assert false; }
        StartOrder(sector, |scan|, slotsPerSector);
        var state := ReadSector(assignments, start, slotsPerSector);
        assert state == scan[sector];
        sectors := sectors + [state];
        assert forall s: nat :: ClassAt(sectors, sector, s) == ClassAt(sectors[..sector], -1, s);
        AddClassification(|sectors| - 1);
        start := start + slotsPerSector;
      }
      if |sectors| < |scan| { StartOrder(|sectors|, |scan|, slotsPerSector); }
    }

    /** The first sector of the smallest owner, other than `owner`, that is alone in one. */
    method OtherOwnerSector(owner: NodeId) returns (r: Option<nat>)
      requires Indexed(-1)
      ensures r.None? <==> LoneOthers(sectors, owner) == {}
      ensures r.Some? ==> LoneSectors(sectors, Least(LoneOthers(sectors, owner))) != {}
                          && r.value == Least(LoneSectors(sectors, Least(LoneOthers(sectors, owner))))
    {
      var lower := set o | o in single && o < owner;
      var upper := set o | o in single && o > owner;
      OthersAreListed(owner);
      assert forall o :: o in LoneOthers(sectors, owner) ==> o in lower || o in upper;
      if lower != {} {
        LeastIs(LoneOthers(sectors, owner), Least(lower));
        r := Some(Least(single[Least(lower)]));
      } else if upper != {} {
        LeastIs(LoneOthers(sectors, owner), Least(upper));
        r := Some(Least(single[Least(upper)]));
      } else {
        r := None;
      }
    }

    method AppendEmptySector() returns (sector: nat)
      requires Valid()
      modifies this
      ensures Valid() && sector == |old(sectors)| == |sectors| - 1
      ensures assignments == old(assignments) + EmptySector(slotsPerSector)
    {
      sector := |sectors|;
      var start := |assignments|;
      ScanGrown(assignments, slotsPerSector);
      assignments := assignments + EmptySector(slotsPerSector);
      sectors := sectors + [SectorState({}, set i | start <= i < start + slotsPerSector && assignments[i].None?)];
      assert forall s: nat :: ClassAt(sectors, sector, s) == ClassAt(old(sectors), -1, s);
      AddClassification(sector);
    }

    /** The sector the naive policy picks, appended when it is new. */
    method PickSector(owner: NodeId) returns (sector: nat)
      requires Valid()
      modifies this
      ensures Valid() && sector == NaivePick(old(sectors), owner) < |sectors|
      ensures assignments == Grown(old(assignments), slotsPerSector, owner)
    {
      var other := OtherOwnerSector(owner);
      IndexesAsSets(owner);
      if mixed != {} {
        sector := Least(mixed);
      } else if other.Some? {
        sector := other.value;
      } else if owner in singleFillable {
        sector := Least(singleFillable[owner]);
      } else if empty != {} {
        sector := Least(empty);
      } else {
        sector := AppendEmptySector();
      }
    }

    /** Places `id` in the one slot the naive policy picks and changes no other slot. */
    method Assign(id: ChunkId)
      requires Valid()
      modifies this
      ensures Valid() && assignments == AssignSpec(old(assignments), slotsPerSector, id)
    {
      var sector := PickSector(id.owner);
      RemoveClassification(sector);
      StartOrder(sector, |sectors|, slotsPerSector);
      var flat := Least(sectors[sector].free);
      ScanFilled(assignments, slotsPerSector, sector, flat, id);
      ghost var before := sectors;
      sectors := sectors[sector := SectorState(sectors[sector].owners + {id.owner}, sectors[sector].free - {flat})];
      assignments := assignments[flat := Some(id)];
      assert forall s: nat :: ClassAt(sectors, sector, s) == ClassAt(before, sector, s);
      AddClassification(sector);
    }

    lemma IndexesAsSets(owner: NodeId)
      requires Indexed(-1)
      ensures mixed == MixedSectors(sectors) && empty == VacantSectors(sectors)
      ensures Listed(singleFillable, owner) == FillableSectors(sectors, owner)
      ensures owner in singleFillable <==> FillableSectors(sectors, owner) != {}
    {
      assert forall s: nat :: s < |sectors| ==> ClassAt(sectors, -1, s) == Classify(sectors[s]);
      forall s: nat ensures s in Listed(singleFillable, owner) <==> s in FillableSectors(sectors, owner) {
        assert s in Listed(singleFillable, owner) <==> ClassAt(sectors, -1, s) == Lone(owner, true);
      }
    }

    lemma OthersAreListed(owner: NodeId)
      requires Indexed(-1)
      ensures forall o :: o in LoneOthers(sectors, owner) <==> o in single && o != owner
      ensures forall o :: o in single ==> single[o] == LoneSectors(sectors, o)
    {
      forall o | o in single ensures single[o] == LoneSectors(sectors, o) {
        forall s: nat ensures s in single[o] <==> s in LoneSectors(sectors, o) {
          assert s in Listed(single, o) <==> ClassAt(sectors, -1, s).Lone? && ClassAt(sectors, -1, s).owner == o;
        }
      }
      forall o | o in single && o != owner ensures o in LoneOthers(sectors, owner) {
        var s :| s in Listed(single, o);
        assert ClassAt(sectors, -1, s).owner == o;
      }
      forall o | o in LoneOthers(sectors, owner) ensures o in single {
        var s: nat :| s < |sectors| && Classify(sectors[s]).Lone? && Classify(sectors[s]).owner == o;
        assert ClassAt(sectors, -1, s).owner == o && s in Listed(single, o);
      }
    }
  }

  lemma OwnersExtended(c: Assignments, slot: Option<ChunkId>)
    ensures OwnersIn(c + [slot]) == OwnersIn(c) + if slot.Some? then {slot.value.owner} else {}
  {
    var d := c + [slot];
    assert d[|c|] == slot;
    forall o | o in OwnersIn(c) ensures o in OwnersIn(d) {
      var i :| 0 <= i < |c| && c[i].Some? && c[i].value.owner == o;
      assert d[i] == c[i];
    }
  }
}
