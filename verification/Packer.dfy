/**
 The full packer as it runs: splitting inputs into chunks, planning slots, filling sector
 buffers and validating the outcome. It builds exactly the specified result.
 */
module Packer {
  import opened Base
  import opened Merkle
  import MerkleSuite
  import opened Allocator
  import opened Placement
  import opened SlotPlanner
  import opened Packing
  import opened PackingValidity
  import opened SectorBuffer

  // ---------------------------------------------------------------- inputs

  /** The inputs by key. */
  function ObjectsOf(inputs: seq<Input>): Objects {
    if inputs == [] then map[]
    else ObjectsOf(inputs[..|inputs| - 1])[inputs[|inputs| - 1].key := inputs[|inputs| - 1]]
  }

  function TotalChunks(p: Profile, inputs: seq<Input>): nat
    requires p.slotSize >= 1
  {
    if inputs == [] then 0
    else TotalChunks(p, inputs[..|inputs| - 1]) + ChunkCount(p, inputs[|inputs| - 1].bytes)
  }

  /** Acceptable inputs: each one good, no key twice, not too many chunks. */
  ghost predicate InputsOk(p: Profile, inputs: seq<Input>)
    requires p.slotSize >= 1
  {
    && (forall i :: 0 <= i < |inputs| ==> InputOk(p, inputs[i]))
    && (forall i, j :: 0 <= i < j < |inputs| ==> inputs[i].key != inputs[j].key)
    && TotalChunks(p, inputs) <= MAX_PACKED_CHUNKS
  }

  lemma {:induction false} ObjectKeys(inputs: seq<Input>)
    ensures forall key :: key in ObjectsOf(inputs) <==> exists i :: 0 <= i < |inputs| && inputs[i].key == key
  {
    if inputs != [] {
      var front, last := inputs[..|inputs| - 1], inputs[|inputs| - 1];
      ObjectKeys(front);
      forall key ensures key in ObjectsOf(inputs) <==> exists i :: 0 <= i < |inputs| && inputs[i].key == key {
        if i :| 0 <= i < |inputs| && inputs[i].key == key { assert i < |front| ==> front[i].key == key; }
        if i :| 0 <= i < |front| && front[i].key == key { assert inputs[i].key == key; }
      }
    }
  }

  lemma {:induction false} ObjectsAreGood(p: Profile, inputs: seq<Input>)
    requires p.slotSize >= 1 && forall i :: 0 <= i < |inputs| ==> InputOk(p, inputs[i])
    ensures GoodObjects(p, ObjectsOf(inputs))
  {
    if inputs != [] { ObjectsAreGood(p, inputs[..|inputs| - 1]); }
  }

  lemma {:induction false} TotalGrows(p: Profile, inputs: seq<Input>, n: nat)
    requires p.slotSize >= 1 && n <= |inputs|
    ensures TotalChunks(p, inputs[..n]) <= TotalChunks(p, inputs)
    decreases |inputs|
  {
    if n < |inputs| {
      TotalGrows(p, inputs[..|inputs| - 1], n);
      assert inputs[..|inputs| - 1][..n] == inputs[..n];
    } else {
      assert inputs[..n] == inputs;
    }
  }

  /** The first `k` chunks of an input, added to the others. */
  function AddChunks(p: Profile, input: Input, chunks: Chunks, k: nat): Chunks
    requires ValidProfile(p) && InputOk(p, input) && k <= ChunkCount(p, input.bytes)
  {
    if k == 0 then chunks else AddChunks(p, input, chunks, k - 1)[IdOf(input.key, k - 1) := MakeChunk(p, input, k - 1)]
  }

  lemma {:induction false} AddedChunks(p: Profile, input: Input, chunks: Chunks, k: nat, id: ChunkId)
    requires ValidProfile(p) && InputOk(p, input) && k <= ChunkCount(p, input.bytes)
    ensures var mine := KeyOf(id) == input.key && id.chunkIndex < k;
            && (id in AddChunks(p, input, chunks, k) <==> mine || id in chunks)
            && (mine ==> AddChunks(p, input, chunks, k)[id] == MakeChunk(p, input, id.chunkIndex))
            && (!mine && id in chunks ==> AddChunks(p, input, chunks, k)[id] == chunks[id])
  {
    if k > 0 {
      AddedChunks(p, input, chunks, k - 1, id);
      assert id == IdOf(KeyOf(id), id.chunkIndex);
      assert IdOf(input.key, k - 1).chunkIndex == k - 1 && KeyOf(IdOf(input.key, k - 1)) == input.key;
    }
  }

  lemma AddIsMapAt(p: Profile, input: Input, m: Objects, more: Objects, id: ChunkId)
    requires ValidProfile(p) && InputOk(p, input) && GoodObjects(p, m) && input.key !in m
    requires GoodObjects(p, more) && more == m[input.key := input]
    ensures var added := AddChunks(p, input, ChunkMap(p, m), ChunkCount(p, input.bytes));
            && (id in added <==> id in ChunkMap(p, more))
            && (id in added ==> added[id] == ChunkMap(p, more)[id])
  {
    AddedChunks(p, input, ChunkMap(p, m), ChunkCount(p, input.bytes), id);
    assert id in ChunkMap(p, more) <==> Wanted(p, more, id);
    assert id in ChunkMap(p, m) <==> Wanted(p, m, id);
  }

  lemma SameMaps(a: Chunks, b: Chunks)
    requires forall id :: (id in a <==> id in b) && (id in a ==> a[id] == b[id])
    ensures a == b
  {
  }

  /** Adding all chunks of a new input is the chunk map with that object added. */
  lemma AddIsMap(p: Profile, input: Input, m: Objects, more: Objects)
    requires ValidProfile(p) && InputOk(p, input) && GoodObjects(p, m) && input.key !in m
    requires GoodObjects(p, more) && more == m[input.key := input]
    ensures AddChunks(p, input, ChunkMap(p, m), ChunkCount(p, input.bytes)) == ChunkMap(p, more)
  {
    var left, right := AddChunks(p, input, ChunkMap(p, m), ChunkCount(p, input.bytes)), ChunkMap(p, more);
    forall id ensures (id in left <==> id in right) && (id in left ==> left[id] == right[id]) {
      AddIsMapAt(p, input, m, more, id);
    }
    SameMaps(left, right);
  }

  method AddInput(p: Profile, input: Input, chunks: Chunks, count: nat) returns (r: Result<Chunks, PackingError>)
    requires ValidProfile(p) && InputOk(p, input) && count <= MAX_PACKED_CHUNKS
    ensures r.Ok? <==> count + ChunkCount(p, input.bytes) <= MAX_PACKED_CHUNKS
    ensures r.Ok? ==> r.value == AddChunks(p, input, chunks, ChunkCount(p, input.bytes))
    ensures r.Err? ==> r.error == TooManyChunks
  {
    var added := chunks;
    for k := 0 to ChunkCount(p, input.bytes)
      invariant added == AddChunks(p, input, chunks, k) && count + k <= MAX_PACKED_CHUNKS
    {
      if count + k == MAX_PACKED_CHUNKS { return Err(TooManyChunks); }
      added := added[IdOf(input.key, k) := MakeChunk(p, input, k)];
    }
    return Ok(added);
  }

  /** What the splitting loop has after some inputs. */
  ghost predicate Split(p: Profile, inputs: seq<Input>, chunks: Chunks, seen: set<ObjectKey>, count: nat) {
    && ValidProfile(p) && InputsOk(p, inputs) && GoodObjects(p, ObjectsOf(inputs))
    && chunks == ChunkMap(p, ObjectsOf(inputs)) && seen == ObjectsOf(inputs).Keys && count == TotalChunks(p, inputs)
  }

  lemma SplitNeeds(p: Profile, inputs: seq<Input>, i: nat, chunks: Chunks, seen: set<ObjectKey>, count: nat)
    requires i < |inputs| && Split(p, inputs[..i], chunks, seen, count) && InputsOk(p, inputs)
    ensures InputOk(p, inputs[i]) && inputs[i].key !in seen
            && count + ChunkCount(p, inputs[i].bytes) <= MAX_PACKED_CHUNKS
  {
    PrefixStep(p, inputs, i);
    TotalGrows(p, inputs, i + 1);
  }

  lemma SplitStep(p: Profile, inputs: seq<Input>, i: nat, chunks: Chunks, seen: set<ObjectKey>, count: nat)
    requires i < |inputs| && Split(p, inputs[..i], chunks, seen, count)
    requires InputOk(p, inputs[i]) && inputs[i].key !in seen
    requires count + ChunkCount(p, inputs[i].bytes) <= MAX_PACKED_CHUNKS
    ensures Split(p, inputs[..i + 1], AddChunks(p, inputs[i], chunks, ChunkCount(p, inputs[i].bytes)),
                  seen + {inputs[i].key}, count + ChunkCount(p, inputs[i].bytes))
  {
    PrefixStep(p, inputs, i);
    ObjectsAreGood(p, inputs[..i + 1]);
    AddIsMap(p, inputs[i], ObjectsOf(inputs[..i]), ObjectsOf(inputs[..i + 1]));
  }

  /** Splits the inputs into chunks by id. */
  method InputChunks(p: Profile, inputs: seq<Input>) returns (r: Result<Chunks, PackingError>)
    requires ValidProfile(p)
    ensures r.Ok? <==> InputsOk(p, inputs)
    ensures r.Ok? ==> GoodObjects(p, ObjectsOf(inputs)) && r.value == ChunkMap(p, ObjectsOf(inputs))
  {
    var chunks: Chunks := map[];
    var seen: set<ObjectKey> := {};
    var count: nat := 0;
    assert ChunkMap(p, map[]) == chunks;
    for i := 0 to |inputs|
      invariant Split(p, inputs[..i], chunks, seen, count)
    {
      var input := inputs[i];
      if InputsOk(p, inputs) { SplitNeeds(p, inputs, i, chunks, seen, count); }
      if !InputOk(p, input) || input.key in seen { return Err(InvalidInput); }
      var added := AddInput(p, input, chunks, count);
      if added.Err? { return Err(added.error); }
      SplitStep(p, inputs, i, chunks, seen, count);
      chunks, seen, count := added.value, seen + {input.key}, count + ChunkCount(p, input.bytes);
    }
    assert inputs[..|inputs|] == inputs;
    return Ok(chunks);
  }

  /** One input more. */
  lemma InputsOkMore(p: Profile, front: seq<Input>, x: Input)
    requires p.slotSize >= 1 && InputsOk(p, front)
    ensures InputsOk(p, front + [x]) <==>
            InputOk(p, x) && x.key !in ObjectsOf(front) && TotalChunks(p, front + [x]) <= MAX_PACKED_CHUNKS
  {
    var more := front + [x];
    assert more[|front|] == x && forall j :: 0 <= j < |front| ==> more[j] == front[j];
    ObjectKeys(front);
    if x.key in ObjectsOf(front) {
      var j :| 0 <= j < |front| && front[j].key == x.key;
      assert more[j].key == more[|front|].key;
    }
  }

  lemma PrefixStep(p: Profile, inputs: seq<Input>, i: nat)
    requires p.slotSize >= 1 && i < |inputs| && InputsOk(p, inputs[..i])
    ensures ObjectsOf(inputs[..i + 1]) == ObjectsOf(inputs[..i])[inputs[i].key := inputs[i]]
    ensures TotalChunks(p, inputs[..i + 1]) == TotalChunks(p, inputs[..i]) + ChunkCount(p, inputs[i].bytes)
    ensures InputsOk(p, inputs[..i + 1]) <==>
            && InputOk(p, inputs[i]) && inputs[i].key !in ObjectsOf(inputs[..i])
            && TotalChunks(p, inputs[..i + 1]) <= MAX_PACKED_CHUNKS
    ensures inputs[i].key in ObjectsOf(inputs[..i]) ==> exists j :: 0 <= j < i && inputs[j].key == inputs[i].key
  {
    var front, more := inputs[..i], inputs[..i + 1];
    assert more == front + [inputs[i]] && more[..|more| - 1] == front;
    InputsOkMore(p, front, inputs[i]);
    ObjectKeys(front);
    if j :| 0 <= j < |front| && front[j].key == inputs[i].key { assert inputs[j].key == inputs[i].key; }
  }

  // ---------------------------------------------------------------- packing

  lemma FirstChunk(p: Profile, m: Objects, key: ObjectKey)
    requires ValidProfile(p) && GoodObjects(p, m) && key in m
    ensures KeyOf(IdOf(key, 0)) == key && IdOf(key, 0) in ChunkIds(p, m)
  {
    assert InputOk(p, m[key]);
    RoundUpIsStart(|m[key].bytes|, p.slotSize);
    assert Wanted(p, m, IdOf(key, 0));
  }

  ghost predicate HasProof(chunks: Chunks, id: ChunkId) {
    id in chunks && chunks[id].authentication.Some?
  }

  lemma ChunkProved(p: Profile, m: Objects, id: ChunkId)
    requires ValidProfile(p) && GoodObjects(p, m) && id in ChunkIds(p, m)
    ensures KeyOf(id) in m && (HasProof(ChunkMap(p, m), id) <==> m[KeyOf(id)].sourceCommitment.Some?)
  {
  }

  lemma ByObject(m: Objects, chunks: Chunks)
    requires forall id :: id in chunks ==>
               KeyOf(id) in m && (HasProof(chunks, id) <==> m[KeyOf(id)].sourceCommitment.Some?)
    requires forall key :: key in m ==> KeyOf(IdOf(key, 0)) == key && IdOf(key, 0) in chunks
    ensures (exists id :: id in chunks && chunks[id].authentication.Some?) <==> !Unauthenticated(m)
    ensures (chunks != map[] && forall id :: id in chunks ==> chunks[id].authentication.Some?) <==> Authenticated(m)
  {
    assert forall key :: key in m ==> (HasProof(chunks, IdOf(key, 0)) <==> m[key].sourceCommitment.Some?);
    if key :| key in m && m[key].sourceCommitment.Some? { assert HasProof(chunks, IdOf(key, 0)); }
    if key :| key in m && m[key].sourceCommitment.None? { assert !HasProof(chunks, IdOf(key, 0)); }
    if id :| id in chunks && chunks[id].authentication.Some? { assert HasProof(chunks, id); }
    if id :| id in chunks && chunks[id].authentication.None? { assert !HasProof(chunks, id); }
    if id :| id in chunks { assert KeyOf(id) in m; }
    if key :| key in m { assert IdOf(key, 0) in chunks; }
  }

  /** Chunk by chunk or object by object, it is the same question. */
  lemma ChunksAuthenticated(p: Profile, m: Objects)
    requires ValidProfile(p) && GoodObjects(p, m)
    ensures (exists id :: id in ChunkMap(p, m) && ChunkMap(p, m)[id].authentication.Some?) <==> !Unauthenticated(m)
    ensures (ChunkMap(p, m) != map[] && forall id :: id in ChunkMap(p, m) ==> ChunkMap(p, m)[id].authentication.Some?)
            <==> Authenticated(m)
  {
    var chunks := ChunkMap(p, m);
    forall id | id in chunks ensures KeyOf(id) in m && (HasProof(chunks, id) <==> m[KeyOf(id)].sourceCommitment.Some?) {
      ChunkProved(p, m, id);
    }
    forall key | key in m ensures KeyOf(IdOf(key, 0)) == key && IdOf(key, 0) in chunks { FirstChunk(p, m, key); }
    ByObject(m, chunks);
  }

  /** The whole slots of a sector from the plan. */
  lemma PlannedContent(chunks: Chunks, a: Assignments, sps: nat, s: nat)
    requires sps >= 1 && Whole(|a|, sps) && Covered(chunks, a) && s < Count(|a|, sps)
    ensures Start(s, sps) + sps <= |a| && Covered(chunks, Content(a, sps, s))
  {
    StartOrder(s, Count(|a|, sps), sps);
  }

  lemma MarkedChunks(p: Profile, m: Objects)
    requires ValidProfile(p) && GoodObjects(p, m)
    ensures ZerosMarked(ChunkMap(p, m))
  {
  }

  /** Fills and commits one planned sector. */
  method MakeSector(p: Profile, s: nat, places: Assignments, chunks: Chunks, authenticated: bool)
    returns (r: PackedSector)
    requires ValidProfile(p) && |places| == SlotsPerSector(p)
    requires Covered(chunks, places) && Fits(chunks, p.slotSize) && ZerosMarked(chunks)
    ensures r == BuildSector(p, s, places, chunks, authenticated)
  {
    ProfileFacts(p);
    var bytes, slots := FillSector(places, chunks, p.slotSize);
    var commitment := MerkleSuite.Commit(bytes);
    var flatRoot := if authenticated then commitment.value.root else FlatHash(bytes);
    r := PackedSector(MakeDescriptor(p, s, flatRoot, commitment.value, slots), bytes);
  }

  lemma BuildSectorsAt(p: Profile, a: Assignments, chunks: Chunks, authenticated: bool, s: nat)
    requires ValidProfile(p) && Covered(chunks, a) && Fits(chunks, p.slotSize)
    requires SlotsPerSector(p) >= 1 && Whole(|a|, SlotsPerSector(p)) && s < Count(|a|, SlotsPerSector(p))
    ensures Start(s, SlotsPerSector(p)) + SlotsPerSector(p) <= |a| && Covered(chunks, Content(a, SlotsPerSector(p), s))
    ensures BuildSectors(p, a, chunks, authenticated)[s]
         == BuildSector(p, s, Content(a, SlotsPerSector(p), s), chunks, authenticated)
  {
    PlannedContent(chunks, a, SlotsPerSector(p), s);
  }

  /** Fills and commits every planned sector. */
  method FillSectors(p: Profile, a: Assignments, chunks: Chunks, authenticated: bool)
    returns (sectors: seq<PackedSector>)
    requires ValidProfile(p) && Covered(chunks, a) && Fits(chunks, p.slotSize) && ZerosMarked(chunks)
    requires SlotsPerSector(p) >= 1 && Whole(|a|, SlotsPerSector(p))
    ensures sectors == BuildSectors(p, a, chunks, authenticated)
  {
    var sps := SlotsPerSector(p);
    sectors := [];
    ghost var built := BuildSectors(p, a, chunks, authenticated);
    for s := 0 to Count(|a|, sps)
      invariant sectors == built[..s]
    {
      BuildSectorsAt(p, a, chunks, authenticated, s);
      var sector := MakeSector(p, s, Content(a, sps, s), chunks, authenticated);
      assert built[..s + 1] == built[..s] + [built[s]];
      sectors := sectors + [sector];
    }
  }

  /** The proofs in the order of their ids. */
  method ListProofs(chunks: Chunks) returns (r: seq<Authentication>)
    requires forall id :: id in chunks ==> chunks[id].authentication.Some?
    ensures |r| == |SortedIds(chunks.Keys)|
    ensures forall i :: 0 <= i < |r| ==>
              SortedIds(chunks.Keys)[i] in chunks && r[i] == chunks[SortedIds(chunks.Keys)[i]].authentication.value
  {
    var ids := SortedIds(chunks.Keys);
    r := [];
    for i := 0 to |ids|
      invariant |r| == i
      invariant forall j :: 0 <= j < i ==> ids[j] in chunks && r[j] == chunks[ids[j]].authentication.value
    {
      assert ids[i] in ids;
      r := r + [chunks[ids[i]].authentication.value];
    }
  }

  lemma ProofsAreListed(p: Profile, m: Objects, r: seq<Authentication>)
    requires ValidProfile(p) && GoodObjects(p, m) && Authenticated(m)
    requires |r| == |SortedIds(ChunkIds(p, m))|
    requires forall i :: 0 <= i < |r| ==>
               && SortedIds(ChunkIds(p, m))[i] in ChunkMap(p, m)
               && r[i] == ChunkMap(p, m)[SortedIds(ChunkIds(p, m))[i]].authentication.value
    ensures r == AuthenticationList(p, m)
  {
    forall i | 0 <= i < |r| ensures r[i] == AuthenticationList(p, m)[i] { ListedAt(p, m, i); }
  }

  /** What the packer demands before it plans any slot. */
  ghost predicate Packable(p: Profile, previous: Option<Catalog>, inputs: seq<Input>) {
    && ValidProfile(p)
    && (previous.Some? ==> ValidCatalog(previous.value) && previous.value.profile == p)
    && InputsOk(p, inputs)
    && (Authenticated(ObjectsOf(inputs)) || Unauthenticated(ObjectsOf(inputs)))
  }

  lemma PackableFacts(p: Profile, previous: Option<Catalog>, inputs: seq<Input>)
    requires Packable(p, previous, inputs)
    ensures GoodObjects(p, ObjectsOf(inputs)) && UsablePrevious(p, previous)
    ensures SlotsPerSector(p) >= 1 && Whole(|PreviousSlots(previous)|, SlotsPerSector(p))
  {
    ObjectsAreGood(p, inputs);
    ValidIsUsable(p, previous);
    PreviousIsWhole(p, previous);
  }

  /** The used slots before the last sector is filled up. */
  ghost function UsedSlots(p: Profile, previous: Option<Catalog>, m: Objects): nat
    requires p.slotSize >= 1 && SlotsPerSector(p) >= 1 && Whole(|PreviousSlots(previous)|, SlotsPerSector(p))
  {
    UsedLen(Placed(PreviousSlots(previous), ChunkIds(p, m), SlotsPerSector(p)))
  }

  /** Builds sectors, proofs and catalog once the inputs are accepted. */
  method Assemble(p: Profile, previous: Option<Catalog>, ghost m: Objects, chunks: Chunks, authenticated: bool)
    returns (r: Result<PackingResult, PackingError>)
    requires ValidProfile(p) && GoodObjects(p, m) && UsablePrevious(p, previous) && chunks == ChunkMap(p, m)
    requires authenticated == Authenticated(m)
    requires SlotsPerSector(p) >= 1 && Whole(|PreviousSlots(previous)|, SlotsPerSector(p))
    ensures r.Ok? <==> UsedSlots(p, previous, m) <= MAX_PACKED_CHUNKS
    ensures r.Ok? ==> r.value == BuildResult(p, previous, m)
    ensures r.Err? ==> r.error == TooManyChunks
  {
    var used, a := PlanSlots(PreviousSlots(previous), chunks.Keys, SlotsPerSector(p));
    if used > MAX_PACKED_CHUNKS { return Err(TooManyChunks); }
    BuiltSlotsFacts(p, previous, m);
    MarkedChunks(p, m);
    var sectors := FillSectors(p, a, chunks, authenticated);
    var proofs: Option<seq<Authentication>> := None;
    if authenticated {
      ChunksAuthenticated(p, m);
      var listed := ListProofs(chunks);
      ProofsAreListed(p, m, listed);
      proofs := Some(listed);
    }
    var catalog := MakeCatalog(if authenticated then 3 else 1, NextRevision(previous),
                               if previous.Some? then Some(previous.value.id) else None,
                               p, Descriptors(sectors), proofs);
    return Ok(PackingResult(catalog, sectors));
  }

  /** The checks before any slot is planned. */
  method AcceptInputs(p: Profile, previous: Option<Catalog>, inputs: seq<Input>)
    returns (r: Result<Chunks, PackingError>, authenticated: bool)
    ensures r.Ok? <==> Packable(p, previous, inputs)
    ensures r.Ok? ==> GoodObjects(p, ObjectsOf(inputs)) && r.value == ChunkMap(p, ObjectsOf(inputs))
    ensures r.Ok? ==> authenticated == Authenticated(ObjectsOf(inputs))
    ensures !ValidProfile(p) ==> r == Err(InvalidProfile)
  {
    authenticated := false;
    if !ValidProfile(p) { return Err(InvalidProfile), false; }
    if previous.Some? {
      if !ValidCatalog(previous.value) { return Err(InvalidCatalog), false; }
      if previous.value.profile != p { return Err(ProfileChanged), false; }
    }
    r := InputChunks(p, inputs);
    if r.Err? { return; }
    var chunks := r.value;
    ChunksAuthenticated(p, ObjectsOf(inputs));
    authenticated := chunks != map[] && forall id :: id in chunks ==> chunks[id].authentication.Some?;
    if !authenticated && exists id :: id in chunks && chunks[id].authentication.Some? { r := Err(InvalidInput); }
  }

  /** When packing succeeds. */
  ghost predicate PackOk(p: Profile, previous: Option<Catalog>, inputs: seq<Input>) {
    && Packable(p, previous, inputs)
    && (PackableFacts(p, previous, inputs); UsedSlots(p, previous, ObjectsOf(inputs)) <= MAX_PACKED_CHUNKS)
    && (previous.Some? ==> previous.value.revision + 1 < U64_LIMIT)
    && (Authenticated(ObjectsOf(inputs)) ==>
          forall key :: key in ObjectsOf(inputs) ==> |ObjectsOf(inputs)[key].bytes| == p.sectorSize)
  }

  /**
   Packs the inputs after the previous catalog. The final check of the packer's own result
   fails exactly when the revision wraps or an authenticated object is not one sector long.
   */
  method PackIncremental(p: Profile, previous: Option<Catalog>, inputs: seq<Input>)
    returns (r: Result<PackingResult, PackingError>)
    requires previous.Some? ==> previous.value.revision < U64_LIMIT
    ensures r.Ok? <==> PackOk(p, previous, inputs)
    ensures r.Ok? ==> (PackableFacts(p, previous, inputs); r.value == BuildResult(p, previous, ObjectsOf(inputs)))
    ensures r.Ok? ==> ValidResult(r.value)
  {
    var accepted, authenticated := AcceptInputs(p, previous, inputs);
    if accepted.Err? { return Err(accepted.error); }
    PackableFacts(p, previous, inputs);
    BuiltResultValidIff(p, previous, ObjectsOf(inputs));
    r := Assemble(p, previous, ObjectsOf(inputs), accepted.value, authenticated);
    if r.Ok? && !ValidResult(r.value) { r := Err(InvalidCatalog); }
  }
}
