/**
 Unpacking: one object out of a catalog and whatever sectors were supplied. For a catalog
 that was packed from known objects, the result is the object or an error, never other bytes.
 */
module Unpacking {
  import opened Base
  import opened Merkle
  import opened Allocator
  import opened Placement
  import opened Packing
  import opened PackingValidity
  import opened PackingUpdate

  // ---------------------------------------------------------------- supplied sectors

  /** The supplied sector filed under an id; a later one replaces an earlier one. */
  function Supplied(sectors: seq<PackedSector>, id: PackingId): (r: Option<PackedSector>)
    ensures r.Some? ==> r.value in sectors && r.value.descriptor.id == id
    ensures r.None? ==> forall x :: x in sectors ==> x.descriptor.id != id
  {
    if sectors == [] then None
    else if sectors[|sectors| - 1].descriptor.id == id then Some(sectors[|sectors| - 1])
    else Supplied(sectors[..|sectors| - 1], id)
  }

  /** The supplied sector authenticates against the catalog's descriptor. */
  predicate SectorOpens(p: Profile, formatVersion: nat, d: SectorDescriptor, packed: PackedSector) {
    && packed.descriptor == d
    && |packed.bytes| == p.sectorSize
    && (formatVersion < 3 ==> FlatHash(packed.bytes) == d.flatRoot)
    && CommitSpec(packed.bytes) == Ok(d.commitment)
  }

  predicate HoldsKey(d: SectorDescriptor, key: ObjectKey) {
    exists k :: 0 <= k < |d.slots| && d.slots[k].Source().Some? && KeyOf(d.slots[k].Source().value.id) == key
  }

  /** Every sector that holds a chunk of the object was supplied and authenticates. */
  predicate AllSupplied(c: Catalog, sectors: seq<PackedSector>, key: ObjectKey) {
    forall s :: 0 <= s < |c.sectors| && HoldsKey(c.sectors[s], key) ==>
      && Supplied(sectors, c.sectors[s].id).Some?
      && SectorOpens(c.profile, c.formatVersion, c.sectors[s], Supplied(sectors, c.sectors[s].id).value)
  }

  /** What is read from one slot. */
  function ReadSlot(p: Profile, slot: Slot, bytes: Bytes, k: nat): Bytes
    requires slot.Source().Some? && slot.Source().value.logicalLen <= p.slotSize
    requires Start(k, p.slotSize) + p.slotSize <= |bytes|
  {
    match slot
    case Data(source) => bytes[Start(k, p.slotSize)..Start(k, p.slotSize) + source.logicalLen]
    case VirtualZero(zero) => Zeros(zero.value.logicalLen)
  }

  /** The chunks of an object in the catalog. */
  function ObjectIds(c: Catalog, key: ObjectKey): set<ChunkId> {
    set id | id in IdsIn(FlatIds(c.sectors)) && KeyOf(id) == key
  }

  // ---------------------------------------------------------------- joining chunks

  /** Chunks `0..n` one after the other. */
  function JoinChunks(chunks: map<nat, Bytes>, n: nat): Bytes
    requires forall k :: 0 <= k < n ==> k in chunks
  {
    if n == 0 then [] else JoinChunks(chunks, n - 1) + chunks[n - 1]
  }

  ghost predicate IsChunk(p: Profile, bytes: Bytes, chunk: Bytes, k: nat) {
    Start(k, p.slotSize) <= |bytes| && chunk == ChunkBytes(p, bytes, k)
  }

  lemma NextChunk(p: Profile, bytes: Bytes, chunk: Bytes, n: nat)
    requires n > 0 && IsChunk(p, bytes, chunk, n - 1)
    ensures bytes[..MinNat(Start(n - 1, p.slotSize), |bytes|)] + chunk == bytes[..MinNat(Start(n, p.slotSize), |bytes|)]
  {
  }

  /** The chunks of a byte string, joined, are the byte string. */
  lemma {:induction false} ChunksJoin(p: Profile, bytes: Bytes, chunks: map<nat, Bytes>, n: nat)
    requires forall k :: 0 <= k < n ==> k in chunks
    requires forall k :: 0 <= k < n ==> IsChunk(p, bytes, chunks[k], k)
    ensures JoinChunks(chunks, n) == bytes[..MinNat(Start(n, p.slotSize), |bytes|)]
  {
    if n > 0 {
      ChunksJoin(p, bytes, chunks, n - 1);
      NextChunk(p, bytes, chunks[n - 1], n);
    }
  }

  // ---------------------------------------------------------------- honest catalogs

  /** The record of a chunk agrees with its bytes. */
  predicate Recorded(chunk: InputChunk) {
    chunk.source.logicalLen == |chunk.bytes| && (chunk.virtualZero ==> AllZero(chunk.bytes))
  }

  lemma ReadPadded(chunk: InputChunk, size: nat, slot: Slot)
    requires |chunk.bytes| <= size && Recorded(chunk)
    requires slot == if chunk.virtualZero then VirtualZero(Some(chunk.source)) else Data(chunk.source)
    ensures slot.Data? ==> Pad(chunk.bytes, size)[..slot.source.logicalLen] == chunk.bytes
    ensures slot.VirtualZero? ==> Zeros(slot.zero.value.logicalLen) == chunk.bytes
  {
    if chunk.virtualZero { AllZeroIsZeros(chunk.bytes); }
  }

  /** A slot read from the joined bytes is the placed chunk. */
  lemma ReadJoined(p: Profile, chunks: Chunks, places: Assignments, bytes: Bytes, k: nat, id: ChunkId)
    requires Covered(chunks, places) && Fits(chunks, p.slotSize) && k < |places| && places[k] == Some(id)
    requires id in chunks && Recorded(chunks[id])
    requires bytes == JoinPlaces(chunks, p.slotSize, places)
    ensures Start(k, p.slotSize) + p.slotSize <= |bytes|
    ensures ReadSlot(p, SlotFor(chunks, Some(id)), bytes, k) == chunks[id].bytes
  {
    JoinedSlot(chunks, p.slotSize, places, k);
    var slot, chunk, at := SlotFor(chunks, Some(id)), chunks[id], Start(k, p.slotSize);
    ReadPadded(chunk, p.slotSize, slot);
    var len := chunk.source.logicalLen;
    assert PartAt(bytes, p.slotSize, k)[..len] == bytes[at..at + len];
  }

  lemma MadeIsRecorded(p: Profile, m: Objects, id: ChunkId)
    requires ValidProfile(p) && GoodObjects(p, m) && id in ChunkMap(p, m)
    ensures Recorded(ChunkMap(p, m)[id])
  {
  }

  /** A slot read from an authenticated sector of an honest catalog is the packed chunk. */
  lemma ReadIsPacked(p: Profile, chunks: Chunks, formatVersion: nat, d: SectorDescriptor, packed: PackedSector, k: nat,
                     id: ChunkId)
    requires Fits(chunks, p.slotSize)
    requires HonestSector(p, chunks, d) && SectorOpens(p, formatVersion, d, packed)
    requires k < |d.slots| && SlotIds(d.slots)[k] == Some(id)
    requires id in chunks ==> Recorded(chunks[id])
    ensures id in chunks && d.slots[k].Source().Some?
    ensures d.slots[k].Source().value.logicalLen <= p.slotSize
    ensures Start(k, p.slotSize) + p.slotSize <= |packed.bytes|
    ensures ReadSlot(p, d.slots[k], packed.bytes, k) == chunks[id].bytes
  {
    CommitInjective(packed.bytes, JoinPlaces(chunks, p.slotSize, SlotIds(d.slots)));
    HonestSlotAt(p, chunks, d, k, id);
    ReadJoined(p, chunks, SlotIds(d.slots), packed.bytes, k, id);
  }

  /** The chunk indexes of a packed object are `0..n`. */
  lemma ObjectIdsOfHonest(c: Catalog, m: Objects, key: ObjectKey)
    requires Honest(c, m)
    ensures forall id :: id in ObjectIds(c, key) <==>
              KeyOf(id) == key && key in m && id.chunkIndex < ChunkCount(c.profile, m[key].bytes)
  {
  }

  lemma SameCount(chunks: map<nat, Bytes>, n: nat, count: nat)
    requires forall k: nat :: k in chunks <==> k < n
    requires forall k: nat :: k in chunks <==> k < count
    ensures n == count
  {
    assert n in chunks <==> n < count;
    assert count in chunks <==> count < n;
  }

  lemma CollectedChunk(p: Profile, m: Objects, key: ObjectKey, k: nat, chunk: Bytes)
    requires ValidProfile(p) && GoodObjects(p, m) && IdOf(key, k) in ChunkMap(p, m)
    requires chunk == ChunkMap(p, m)[IdOf(key, k)].bytes
    ensures key in m && k < ChunkCount(p, m[key].bytes) && IsChunk(p, m[key].bytes, chunk, k)
  {
    assert KeyOf(IdOf(key, k)) == key && IdOf(key, k).chunkIndex == k;
    ChunkStarts(|m[key].bytes|, p.slotSize, k);
  }

  lemma CollectedCount(c: Catalog, m: Objects, key: ObjectKey, chunks: map<nat, Bytes>, n: nat)
    requires Honest(c, m) && key in m
    requires forall k :: k in chunks <==> IdOf(key, k) in ObjectIds(c, key)
    requires forall k :: k in chunks <==> 0 <= k < n
    ensures n == ChunkCount(c.profile, m[key].bytes)
  {
    ObjectIdsOfHonest(c, m, key);
    forall k: nat ensures k in chunks <==> k < ChunkCount(c.profile, m[key].bytes) {
      assert KeyOf(IdOf(key, k)) == key && IdOf(key, k).chunkIndex == k;
    }
    SameCount(chunks, n, ChunkCount(c.profile, m[key].bytes));
  }

  /** Whatever was collected slot by slot from an honest catalog joins to the packed object. */
  lemma CollectedIsObject(c: Catalog, m: Objects, key: ObjectKey, chunks: map<nat, Bytes>, n: nat)
    requires Honest(c, m) && key in m
    requires forall k :: k in chunks <==> IdOf(key, k) in ObjectIds(c, key)
    requires forall k :: k in chunks ==> IdOf(key, k) in ChunkMap(c.profile, m)
                                         && chunks[k] == ChunkMap(c.profile, m)[IdOf(key, k)].bytes
    requires forall k :: k in chunks <==> 0 <= k < n
    ensures JoinChunks(chunks, n) == m[key].bytes
  {
    var p, bytes := c.profile, m[key].bytes;
    CollectedCount(c, m, key, chunks, n);
    forall k | 0 <= k < n ensures IsChunk(p, bytes, chunks[k], k) {
      CollectedChunk(p, m, key, k, chunks[k]);
    }
    ChunksJoin(p, bytes, chunks, n);
    RoundUpIsStart(|bytes|, p.slotSize);
  }

  // ---------------------------------------------------------------- what unpacking returns

  /** The bytes were read from a slot holding the chunk, in a supplied sector that authenticates. */
  ghost predicate ReadAt(c: Catalog, sectors: seq<PackedSector>, id: ChunkId, bytes: Bytes, s: nat, k: nat) {
    && HasSlot(c, s, k, id)
    && Supplied(sectors, c.sectors[s].id).Some?
    && var packed := Supplied(sectors, c.sectors[s].id).value;
    && SectorOpens(c.profile, c.formatVersion, c.sectors[s], packed)
    && c.sectors[s].slots[k].Source().value.logicalLen <= c.profile.slotSize
    && Start(k, c.profile.slotSize) + c.profile.slotSize <= |packed.bytes|
    && bytes == ReadSlot(c.profile, c.sectors[s].slots[k], packed.bytes, k)
  }

  ghost predicate ReadSomewhere(c: Catalog, sectors: seq<PackedSector>, id: ChunkId, bytes: Bytes) {
    exists s: nat, k: nat :: ReadAt(c, sectors, id, bytes, s, k)
  }

  /** Exactly the object's chunks, each read from a supplied sector. */
  ghost predicate Collected(c: Catalog, sectors: seq<PackedSector>, key: ObjectKey, chunks: map<nat, Bytes>) {
    && (forall k :: k in chunks <==> IdOf(key, k) in ObjectIds(c, key))
    && (forall k :: k in chunks ==> ReadSomewhere(c, sectors, IdOf(key, k), chunks[k]))
  }

  /** Chunks `0..n` and no others, joined. */
  ghost predicate JoinOf(chunks: map<nat, Bytes>, n: nat, bytes: Bytes) {
    (forall k :: k in chunks <==> 0 <= k < n) && bytes == JoinChunks(chunks, n)
  }

  /** The bytes are the object's chunks in order. */
  ghost predicate Unpacked(c: Catalog, sectors: seq<PackedSector>, key: ObjectKey, bytes: Bytes) {
    exists chunks: map<nat, Bytes>, n: nat :: Collected(c, sectors, key, chunks) && JoinOf(chunks, n, bytes)
  }

  lemma CollectedIsPacked(c: Catalog, m: Objects, sectors: seq<PackedSector>, key: ObjectKey, chunks: map<nat, Bytes>)
    requires Honest(c, m) && Collected(c, sectors, key, chunks)
    ensures forall k :: k in chunks ==> IdOf(key, k) in ChunkMap(c.profile, m)
                                        && chunks[k] == ChunkMap(c.profile, m)[IdOf(key, k)].bytes
  {
    forall k | k in chunks
      ensures IdOf(key, k) in ChunkMap(c.profile, m) && chunks[k] == ChunkMap(c.profile, m)[IdOf(key, k)].bytes
    {
      var s: nat, i: nat :| ReadAt(c, sectors, IdOf(key, k), chunks[k], s, i);
      ReadHonest(c, m, sectors, IdOf(key, k), chunks[k], s, i);
    }
  }

  /**
   Whatever sectors are supplied, and however many are forged, what is unpacked from an honest
   catalog is the object that was packed.
   */
  lemma UnpackedIsPacked(c: Catalog, m: Objects, sectors: seq<PackedSector>, key: ObjectKey, bytes: Bytes)
    requires Honest(c, m) && ObjectIds(c, key) != {} && Unpacked(c, sectors, key, bytes)
    ensures key in m && bytes == m[key].bytes
  {
    var id :| id in ObjectIds(c, key);
    ObjectIdsOfHonest(c, m, key);
    var chunks: map<nat, Bytes>, n: nat :| Collected(c, sectors, key, chunks) && JoinOf(chunks, n, bytes);
    CollectedIsPacked(c, m, sectors, key, chunks);
    CollectedIsObject(c, m, key, chunks, n);
  }

  lemma ReadHonest(c: Catalog, m: Objects, sectors: seq<PackedSector>, id: ChunkId, bytes: Bytes, s: nat, k: nat)
    requires Honest(c, m) && ReadAt(c, sectors, id, bytes, s, k)
    ensures id in ChunkMap(c.profile, m) && bytes == ChunkMap(c.profile, m)[id].bytes
  {
    if id in ChunkMap(c.profile, m) { MadeIsRecorded(c.profile, m, id); }
    ReadIsPacked(c.profile, ChunkMap(c.profile, m), c.formatVersion, c.sectors[s],
                 Supplied(sectors, c.sectors[s].id).value, k, id);
  }

  /** Indexes without a gap are `0..n`. */
  lemma {:induction false} NoGapPrefix(indexes: set<nat>)
    requires forall k :: k in indexes && k > 0 ==> k - 1 in indexes
    ensures forall k :: k in indexes <==> 0 <= k < |indexes|
  {
    if indexes != {} {
      var top := Greatest(indexes);
      var rest := indexes - {top};
      NoGapPrefix(rest);
      assert forall k :: k in rest ==> k < top;
      if top > 0 { assert top - 1 in rest; }
    }
  }

  lemma {:induction false} Greatest(indexes: set<nat>) returns (top: nat)
    requires indexes != {}
    ensures top in indexes && forall k :: k in indexes ==> k <= top
  {
    var any :| any in indexes;
    var rest := indexes - {any};
    top := any;
    assert indexes == rest + {any};
    if rest != {} {
      var other := Greatest(rest);
      top := if other > any then other else any;
    }
  }

  // ---------------------------------------------------------------- the loops

  /** What was found before, and the object's chunks of the first `n` slots. */
  ghost predicate FoundIn(p: Profile, key: ObjectKey, slots: seq<Slot>, bytes: Bytes, found: map<nat, Bytes>,
                          r: map<nat, Bytes>, n: nat)
    requires n <= |slots|
  {
    && (forall k :: k in r <==> k in found || Some(IdOf(key, k)) in SlotIds(slots)[..n])
    && (forall k :: k in r && !SlotRead(p, slots, bytes, IdOf(key, k), r[k]) ==> k in found && r[k] == found[k])
  }

  lemma FoundSkip(p: Profile, key: ObjectKey, slots: seq<Slot>, bytes: Bytes, found: map<nat, Bytes>,
                  r: map<nat, Bytes>, i: nat)
    requires i < |slots| && FoundIn(p, key, slots, bytes, found, r, i)
    requires slots[i].Source().Some? ==> KeyOf(slots[i].Source().value.id) != key
    ensures FoundIn(p, key, slots, bytes, found, r, i + 1)
  {
    assert SlotIds(slots)[..i + 1] == SlotIds(slots)[..i] + [SlotIds(slots)[i]];
    assert forall k: nat :: KeyOf(IdOf(key, k)) == key;
  }

  lemma FoundMore(p: Profile, key: ObjectKey, slots: seq<Slot>, bytes: Bytes, found: map<nat, Bytes>,
                  r: map<nat, Bytes>, i: nat, read: Bytes)
    requires i < |slots| && FoundIn(p, key, slots, bytes, found, r, i)
    requires slots[i].Source().Some? && KeyOf(slots[i].Source().value.id) == key
    requires SlotReadAt(p, slots, bytes, slots[i].Source().value.id, read, i)
    ensures FoundIn(p, key, slots, bytes, found, r[slots[i].Source().value.id.chunkIndex := read], i + 1)
  {
    var id := slots[i].Source().value.id;
    assert id == IdOf(key, id.chunkIndex);
    assert SlotIds(slots)[..i + 1] == SlotIds(slots)[..i] + [SlotIds(slots)[i]];
    assert forall k: nat :: KeyOf(IdOf(key, k)) == key && IdOf(key, k).chunkIndex == k;
  }

  /** Adds the object's chunks of one authenticated sector. */
  method CollectSector(p: Profile, key: ObjectKey, slots: seq<Slot>, bytes: Bytes, found: map<nat, Bytes>)
    returns (r: map<nat, Bytes>)
    requires SlotsOk(p, slots) && |bytes| == Start(|slots|, p.slotSize)
    ensures forall k :: k in r <==> k in found || Some(IdOf(key, k)) in SlotIds(slots)
    ensures forall k :: k in r && !SlotRead(p, slots, bytes, IdOf(key, k), r[k]) ==> k in found && r[k] == found[k]
  {
    r := found;
    for i := 0 to |slots|
      invariant FoundIn(p, key, slots, bytes, found, r, i)
    {
      var source := slots[i].Source();
      if source.Some? && KeyOf(source.value.id) == key {
        StartOrder(i, |slots|, p.slotSize);
        var read := ReadSlot(p, slots[i], bytes, i);
        FoundMore(p, key, slots, bytes, found, r, i, read);
        r := r[source.value.id.chunkIndex := read];
      } else {
        FoundSkip(p, key, slots, bytes, found, r, i);
      }
    }
    assert SlotIds(slots)[..|slots|] == SlotIds(slots);
  }

  ghost predicate SlotReadAt(p: Profile, slots: seq<Slot>, bytes: Bytes, id: ChunkId, read: Bytes, k: nat) {
    && k < |slots| && SlotIds(slots)[k] == Some(id)
    && slots[k].Source().value.logicalLen <= p.slotSize
    && Start(k, p.slotSize) + p.slotSize <= |bytes|
    && read == ReadSlot(p, slots[k], bytes, k)
  }

  ghost predicate SlotRead(p: Profile, slots: seq<Slot>, bytes: Bytes, id: ChunkId, read: Bytes) {
    exists k: nat :: SlotReadAt(p, slots, bytes, id, read, k)
  }

  ghost predicate SectorSupplied(c: Catalog, sectors: seq<PackedSector>, s: nat)
    requires s < |c.sectors|
  {
    && Supplied(sectors, c.sectors[s].id).Some?
    && SectorOpens(c.profile, c.formatVersion, c.sectors[s], Supplied(sectors, c.sectors[s].id).value)
  }

  /** The object's chunks of the first `n` sectors. */
  ghost predicate CollectedTo(c: Catalog, sectors: seq<PackedSector>, key: ObjectKey, chunks: map<nat, Bytes>, n: nat) {
    && (forall k :: k in chunks <==> InFirst(c, IdOf(key, k), n))
    && (forall k :: k in chunks ==> ReadSomewhere(c, sectors, IdOf(key, k), chunks[k]))
  }

  ghost predicate InFirst(c: Catalog, id: ChunkId, n: nat) {
    exists s: nat, k: nat :: s < n && HasSlot(c, s, k, id)
  }

  /** One more sector: its chunks of the object are in, and the rest stay. */
  lemma CollectedMore(c: Catalog, sectors: seq<PackedSector>, key: ObjectKey, before: map<nat, Bytes>,
                      after: map<nat, Bytes>, s: nat)
    requires s < |c.sectors| && CollectedTo(c, sectors, key, before, s) && SectorSupplied(c, sectors, s)
    requires forall k :: k in after <==> k in before || Some(IdOf(key, k)) in SlotIds(c.sectors[s].slots)
    requires var bytes := Supplied(sectors, c.sectors[s].id).value.bytes;
             forall k :: k in after && !SlotRead(c.profile, c.sectors[s].slots, bytes, IdOf(key, k), after[k]) ==>
               k in before && after[k] == before[k]
    ensures CollectedTo(c, sectors, key, after, s + 1)
  {
    forall k: nat ensures k in after <==> InFirst(c, IdOf(key, k), s + 1) { FirstMore(c, IdOf(key, k), s); }
    var bytes := Supplied(sectors, c.sectors[s].id).value.bytes;
    forall k | k in after ensures ReadSomewhere(c, sectors, IdOf(key, k), after[k]) {
      if SlotRead(c.profile, c.sectors[s].slots, bytes, IdOf(key, k), after[k]) {
        var i: nat :| SlotReadAt(c.profile, c.sectors[s].slots, bytes, IdOf(key, k), after[k], i);
        assert ReadAt(c, sectors, IdOf(key, k), after[k], s, i);
      }
    }
  }

  lemma FirstMore(c: Catalog, id: ChunkId, s: nat)
    requires s < |c.sectors|
    ensures InFirst(c, id, s + 1) <==> InFirst(c, id, s) || Some(id) in SlotIds(c.sectors[s].slots)
  {
    if Some(id) in SlotIds(c.sectors[s].slots) {
      var k :| 0 <= k < |SlotIds(c.sectors[s].slots)| && SlotIds(c.sectors[s].slots)[k] == Some(id);
      assert HasSlot(c, s, k, id);
    }
    if InFirst(c, id, s + 1) && !InFirst(c, id, s) {
      var t: nat, k: nat :| t < s + 1 && HasSlot(c, t, k, id);
      assert t == s;
      assert Some(id) == SlotIds(c.sectors[s].slots)[k];
    }
  }

  /** A sector without a chunk of the object adds nothing. */
  lemma CollectedSkip(c: Catalog, sectors: seq<PackedSector>, key: ObjectKey, chunks: map<nat, Bytes>, s: nat)
    requires s < |c.sectors| && CollectedTo(c, sectors, key, chunks, s) && !HoldsKey(c.sectors[s], key)
    ensures CollectedTo(c, sectors, key, chunks, s + 1)
  {
    forall k: nat ensures k in chunks <==> InFirst(c, IdOf(key, k), s + 1) {
      FirstMore(c, IdOf(key, k), s);
      NotHeld(c.sectors[s], key, k);
    }
  }

  lemma NotHeld(d: SectorDescriptor, key: ObjectKey, k: nat)
    requires !HoldsKey(d, key)
    ensures Some(IdOf(key, k)) !in SlotIds(d.slots)
  {
    assert KeyOf(IdOf(key, k)) == key;
  }

  /** After the last sector, exactly the object's chunks are collected, numbered without a gap. */
  lemma CollectedAll(c: Catalog, sectors: seq<PackedSector>, key: ObjectKey, chunks: map<nat, Bytes>)
    requires ValidCatalog(c) && CollectedTo(c, sectors, key, chunks, |c.sectors|)
    ensures Collected(c, sectors, key, chunks)
    ensures forall k :: k in chunks <==> 0 <= k < |chunks|
    ensures chunks == map[] <==> ObjectIds(c, key) == {}
  {
    var sps, ids := SlotsPerSector(c.profile), IdsIn(FlatIds(c.sectors));
    assert forall k: nat :: KeyOf(IdOf(key, k)) == key && IdOf(key, k).chunkIndex == k;
    forall k: nat ensures k in chunks <==> IdOf(key, k) in ids { FirstIsListed(c, sps, IdOf(key, k)); }
    ChunksOfKey(key, ids, chunks.Keys);
  }

  lemma FirstIsListed(c: Catalog, sps: nat, id: ChunkId)
    requires sps >= 1 && Uniform(c.sectors, sps)
    ensures InFirst(c, id, |c.sectors|) <==> id in IdsIn(FlatIds(c.sectors))
  {
    if Present(c, id) { PresentIsListed(c, sps, id); }
    if id in IdsIn(FlatIds(c.sectors)) {
      ListedIsPresent(c, sps, id);
      var s: nat, k: nat :| HasSlot(c, s, k, id);
    }
  }

  lemma ChunksOfKey(key: ObjectKey, ids: set<ChunkId>, indexes: set<nat>)
    requires NoGaps(ids) && forall k :: k in indexes <==> IdOf(key, k) in ids
    ensures forall k :: k in indexes <==> 0 <= k < |indexes|
    ensures indexes == {} <==> (forall id :: id in ids ==> KeyOf(id) != key)
  {
    forall k | k in indexes && k > 0 ensures k - 1 in indexes {
      assert IdOf(key, k).(chunkIndex := k - 1) == IdOf(key, k - 1);
    }
    NoGapPrefix(indexes);
    assert forall id: ChunkId :: KeyOf(id) == key ==> id == IdOf(key, id.chunkIndex);
    if id :| id in ids && KeyOf(id) == key { assert id.chunkIndex in indexes; }
    if k :| k in indexes { assert IdOf(key, k) in ids && KeyOf(IdOf(key, k)) == key; }
  }

  function ValidationError(c: Catalog): PackingError {
    if ValidProfile(c.profile) then InvalidCatalog else InvalidProfile
  }

  /** What validation promises about reading slots. */
  ghost predicate Readable(c: Catalog) {
    forall s :: 0 <= s < |c.sectors| ==>
      SlotsOk(c.profile, c.sectors[s].slots) && Start(|c.sectors[s].slots|, c.profile.slotSize) == c.profile.sectorSize
  }

  lemma ValidIsReadable(c: Catalog)
    requires ValidCatalog(c)
    ensures Readable(c)
  {
    ProfileFacts(c.profile);
  }

  /** The first sector holding a chunk of the object that was not supplied or does not authenticate. */
  ghost predicate FirstFault(c: Catalog, sectors: seq<PackedSector>, key: ObjectKey, s: nat) {
    && s < |c.sectors| && HoldsKey(c.sectors[s], key) && !SectorSupplied(c, sectors, s)
    && forall t :: 0 <= t < s && HoldsKey(c.sectors[t], key) ==> SectorSupplied(c, sectors, t)
  }

  function FaultOf(c: Catalog, sectors: seq<PackedSector>, s: nat): PackingError
    requires s < |c.sectors|
  {
    if Supplied(sectors, c.sectors[s].id).None? then MissingObject else InvalidCatalog
  }

  /** Visits the sectors holding a chunk of the object, in order, and stops at the first bad one. */
  method CollectSectors(c: Catalog, sectors: seq<PackedSector>, key: ObjectKey)
    returns (r: Result<map<nat, Bytes>, PackingError>)
    requires Readable(c)
    ensures r.Ok? <==> AllSupplied(c, sectors, key)
    ensures r.Ok? ==> CollectedTo(c, sectors, key, r.value, |c.sectors|)
    ensures r.Err? ==> exists s :: 0 <= s < |c.sectors| && HoldsKey(c.sectors[s], key)
    ensures forall s: nat :: FirstFault(c, sectors, key, s) ==> r == Err(FaultOf(c, sectors, s))
  {
    var chunks: map<nat, Bytes> := map[];
    for s := 0 to |c.sectors|
      invariant CollectedTo(c, sectors, key, chunks, s)
      invariant forall t :: 0 <= t < s && HoldsKey(c.sectors[t], key) ==> SectorSupplied(c, sectors, t)
    {
      var d := c.sectors[s];
      if !HoldsKey(d, key) {
        CollectedSkip(c, sectors, key, chunks, s);
        continue;
      }
      var packed := Supplied(sectors, d.id);
      if packed.None? { return Err(MissingObject); }
      if !SectorOpens(c.profile, c.formatVersion, d, packed.value) { return Err(InvalidCatalog); }
      var more := CollectSector(c.profile, key, d.slots, packed.value.bytes, chunks);
      CollectedMore(c, sectors, key, chunks, more, s);
      chunks := more;
    }
    return Ok(chunks);
  }

  /**
   Recovers one object. It succeeds exactly when the catalog is valid, lists the object, and
   every sector holding a chunk of it was supplied and authenticates. The chunk numbers never
   have a gap, so the final gap check cannot fail.
   */
  method UnpackObjectFromSectors(c: Catalog, sectors: seq<PackedSector>, key: ObjectKey)
    returns (r: Result<Bytes, PackingError>)
    ensures r.Ok? <==> ValidCatalog(c) && ObjectIds(c, key) != {} && AllSupplied(c, sectors, key)
    ensures r.Ok? ==> Unpacked(c, sectors, key, r.value)
    ensures !ValidCatalog(c) ==> r == Err(ValidationError(c))
    ensures ValidCatalog(c) && ObjectIds(c, key) == {} ==> r == Err(MissingObject)
    ensures ValidCatalog(c) ==> forall s: nat :: FirstFault(c, sectors, key, s) ==> r == Err(FaultOf(c, sectors, s))
  {
    if !ValidCatalog(c) { return Err(ValidationError(c)); }
    ValidIsReadable(c);
    var collected := CollectSectors(c, sectors, key);
    if collected.Err? {
      HeldIsListed(c, key);
      return Err(collected.error);
    }
    var chunks := collected.value;
    CollectedAll(c, sectors, key, chunks);
    if chunks == map[] { return Err(MissingObject); }
    var joined := JoinInOrder(chunks);
    return Ok(joined);
  }

  method JoinInOrder(chunks: map<nat, Bytes>) returns (joined: Bytes)
    requires forall k :: k in chunks <==> 0 <= k < |chunks|
    ensures JoinOf(chunks, |chunks|, joined)
  {
    joined := [];
    for k := 0 to |chunks|
      invariant joined == JoinChunks(chunks, k)
    {
      joined := joined + chunks[k];
    }
  }

  lemma HeldIsListed(c: Catalog, key: ObjectKey)
    requires ValidCatalog(c) && exists s :: 0 <= s < |c.sectors| && HoldsKey(c.sectors[s], key)
    ensures ObjectIds(c, key) != {}
  {
    var s :| 0 <= s < |c.sectors| && HoldsKey(c.sectors[s], key);
    var k :| 0 <= k < |c.sectors[s].slots| && c.sectors[s].slots[k].Source().Some?
             && KeyOf(c.sectors[s].slots[k].Source().value.id) == key;
    var id := c.sectors[s].slots[k].Source().value.id;
    assert HasSlot(c, s, k, id);
    PresentIsListed(c, SlotsPerSector(c.profile), id);
    assert id in ObjectIds(c, key);
  }

  /** A valid result supplies all its sectors. */
  lemma ResultSupplies(r: PackingResult, key: ObjectKey)
    requires ValidResult(r)
    ensures AllSupplied(r.catalog, r.sectors, key)
  {
    var c := r.catalog;
    forall s | 0 <= s < |c.sectors|
      ensures Supplied(r.sectors, c.sectors[s].id).Some?
              && SectorOpens(c.profile, c.formatVersion, c.sectors[s], Supplied(r.sectors, c.sectors[s].id).value)
    {
      SupplyFinds(c, r.sectors, s);
    }
  }

  /** Unpacks from a whole result: every listed object, and only listed objects, can be recovered. */
  method UnpackObject(packed: PackingResult, key: ObjectKey) returns (r: Result<Bytes, PackingError>)
    ensures r.Ok? <==> ValidResult(packed) && ObjectIds(packed.catalog, key) != {}
    ensures r.Ok? ==> Unpacked(packed.catalog, packed.sectors, key, r.value)
  {
    if !ValidResult(packed) {
      return Err(if ValidCatalog(packed.catalog) then InvalidCatalog else ValidationError(packed.catalog));
    }
    ResultSupplies(packed, key);
    r := UnpackObjectFromSectors(packed.catalog, packed.sectors, key);
  }

  /** An honest catalog lists exactly its objects, and only their bytes can be unpacked from it. */
  lemma HonestRoundTrip(c: Catalog, m: Objects, sectors: seq<PackedSector>, key: ObjectKey)
    requires Honest(c, m)
    ensures ObjectIds(c, key) != {} <==> key in m
    ensures forall bytes :: key in m && Unpacked(c, sectors, key, bytes) ==> bytes == m[key].bytes
  {
    ObjectIdsOfHonest(c, m, key);
    if key in m {
      assert InputOk(c.profile, m[key]);
      RoundUpIsStart(|m[key].bytes|, c.profile.slotSize);
      assert KeyOf(IdOf(key, 0)) == key && IdOf(key, 0) in ObjectIds(c, key);
      forall bytes | Unpacked(c, sectors, key, bytes) ensures bytes == m[key].bytes {
        UnpackedIsPacked(c, m, sectors, key, bytes);
      }
    }
  }

  /** Packing and then unpacking gives every object back, from these sectors or from any that pass. */
  lemma PackRoundTrip(p: Profile, previous: Option<Catalog>, m: Objects, sectors: seq<PackedSector>, key: ObjectKey)
    requires ValidProfile(p) && UsablePrevious(p, previous) && GoodObjects(p, m)
    ensures var c := BuildCatalog(p, previous, m);
            && (ObjectIds(c, key) != {} <==> key in m)
            && (forall bytes :: key in m && Unpacked(c, sectors, key, bytes) ==> bytes == m[key].bytes)
  {
    var c := BuildCatalog(p, previous, m);
    BuiltIsHonest(p, previous, m);
    HonestRoundTrip(c, m, sectors, key);
  }

  lemma SupplyFinds(c: Catalog, packed: seq<PackedSector>, s: nat)
    requires ValidResult(PackingResult(c, packed)) && s < |packed|
    ensures Supplied(packed, c.sectors[s].id) == Some(packed[s])
  {
    assert packed[s] in packed && packed[s].descriptor == c.sectors[s];
    var found := Supplied(packed, c.sectors[s].id).value;
    var t :| 0 <= t < |packed| && packed[t] == found;
    assert DescriptorOk(c.profile, c.formatVersion, t, c.sectors[t]);
    assert DescriptorOk(c.profile, c.formatVersion, s, c.sectors[s]);
  }
}
