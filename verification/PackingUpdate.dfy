/**
 The authenticated incremental update: what it builds from the previous catalog, the list of
 wanted sources and the payloads of new objects only, and why that is the catalog a full
 repack with every payload would have built.
 */
module PackingUpdate {
  import opened Base
  import opened Merkle
  import opened Allocator
  import opened Placement
  import opened Packing
  import opened PackingValidity

  // ---------------------------------------------------------------- honest catalogs

  /** The sector describes and commits to the bytes of the given chunks. */
  ghost predicate HonestSector(p: Profile, chunks: Chunks, d: SectorDescriptor)
    requires Fits(chunks, p.slotSize)
  {
    && Covered(chunks, SlotIds(d.slots))
    && d.slots == SlotsFor(chunks, SlotIds(d.slots))
    && CommitSpec(JoinPlaces(chunks, p.slotSize, SlotIds(d.slots))) == Ok(d.commitment)
  }

  ghost predicate HonestEntry(p: Profile, m: Objects, e: Authentication)
    requires ValidProfile(p) && GoodObjects(p, m)
  {
    && Wanted(p, m, e.id) && m[KeyOf(e.id)].sourceCommitment.Some?
    && e == MakeAuthentication(p, m[KeyOf(e.id)], e.id.chunkIndex).value
  }

  /** The catalog was packed from the objects `m`, wherever their chunks were placed. */
  ghost predicate Honest(c: Catalog, m: Objects) {
    && ValidProfile(c.profile) && GoodObjects(c.profile, m)
    && Fits(ChunkMap(c.profile, m), c.profile.slotSize)
    && (forall s :: 0 <= s < |c.sectors| ==> HonestSector(c.profile, ChunkMap(c.profile, m), c.sectors[s]))
    && (c.authentication.Some? ==>
          forall i :: 0 <= i < |c.authentication.value| ==> HonestEntry(c.profile, m, c.authentication.value[i]))
    && IdsIn(FlatIds(c.sectors)) == ChunkIds(c.profile, m)
  }

  lemma BuiltSectorHonest(p: Profile, m: Objects, s: nat, places: Assignments, authenticated: bool)
    requires ValidProfile(p) && GoodObjects(p, m) && |places| == SlotsPerSector(p)
    requires Covered(ChunkMap(p, m), places) && Fits(ChunkMap(p, m), p.slotSize)
    ensures HonestSector(p, ChunkMap(p, m), BuildSector(p, s, places, ChunkMap(p, m), authenticated).descriptor)
  {
    ProfileFacts(p);
    SlotIdsOfSlotsFor(p, m, places);
  }

  lemma BuiltSectorHonestAt(p: Profile, previous: Option<Catalog>, m: Objects, s: nat)
    requires ValidProfile(p) && UsablePrevious(p, previous) && GoodObjects(p, m)
    requires s < |BuildPacked(p, previous, m)|
    ensures Fits(ChunkMap(p, m), p.slotSize)
    ensures HonestSector(p, ChunkMap(p, m), BuildPacked(p, previous, m)[s].descriptor)
  {
    BuiltSector(p, previous, m, s);
    BuiltSectorHonest(p, m, s, Content(BuiltSlots(p, previous, m), SlotsPerSector(p), s), Authenticated(m));
  }

  lemma ListedHonest(p: Profile, m: Objects, i: nat)
    requires ValidProfile(p) && GoodObjects(p, m) && Authenticated(m) && i < |AuthenticationList(p, m)|
    ensures HonestEntry(p, m, AuthenticationList(p, m)[i])
  {
    ListedAt(p, m, i);
  }

  /** What a run builds is honest. */
  lemma BuiltIsHonest(p: Profile, previous: Option<Catalog>, m: Objects)
    requires ValidProfile(p) && UsablePrevious(p, previous) && GoodObjects(p, m)
    ensures Honest(BuildCatalog(p, previous, m), m)
  {
    ChunksFit(p, m);
    BuiltStructureOk(p, previous, m);
    var packed := BuildPacked(p, previous, m);
    forall s | 0 <= s < |packed| ensures HonestSector(p, ChunkMap(p, m), packed[s].descriptor) {
      BuiltSectorHonestAt(p, previous, m, s);
    }
    if Authenticated(m) {
      forall i | 0 <= i < |AuthenticationList(p, m)| ensures HonestEntry(p, m, AuthenticationList(p, m)[i]) {
        ListedHonest(p, m, i);
      }
    }
  }

  // ---------------------------------------------------------------- the wanted chunks of an update

  /** The commitment of every wanted source. */
  type Sources = map<ObjectKey, Commitment>

  function UpdateIds(p: Profile, keys: set<ObjectKey>): (r: set<ChunkId>)
    requires p.slotSize >= 1
    ensures forall id :: id in r <==> KeyOf(id) in keys && id.chunkIndex < SlotsPerSector(p)
  {
    var r := set key, k | key in keys && 0 <= k < SlotsPerSector(p) :: IdOf(key, k);
    assert forall id: ChunkId :: id == IdOf(KeyOf(id), id.chunkIndex);
    r
  }

  ghost predicate HasSlot(c: Catalog, s: nat, k: nat, id: ChunkId) {
    s < |c.sectors| && k < |c.sectors[s].slots| && SlotIds(c.sectors[s].slots)[k] == Some(id)
  }

  ghost predicate Present(c: Catalog, id: ChunkId) {
    exists s: nat, k: nat :: HasSlot(c, s, k, id)
  }

  /** The previous slot of a chunk. */
  ghost function PriorSlot(c: Catalog, id: ChunkId): (slot: Slot)
    requires Present(c, id)
    ensures slot.Source().Some? && slot.Source().value.id == id
  {
    var s: nat, k: nat :| HasSlot(c, s, k, id);
    c.sectors[s].slots[k]
  }

  lemma PresentIsListed(c: Catalog, sps: nat, id: ChunkId)
    requires sps >= 1 && Uniform(c.sectors, sps) && Present(c, id)
    ensures id in IdsIn(FlatIds(c.sectors))
  {
    var s: nat, k: nat :| HasSlot(c, s, k, id);
    FlatAt(c.sectors, sps, s, k);
    assert FlatIds(c.sectors)[Start(s, sps) + k].value in IdsIn(FlatIds(c.sectors));
  }

  lemma ListedIsPresent(c: Catalog, sps: nat, id: ChunkId)
    requires sps >= 1 && Uniform(c.sectors, sps) && id in IdsIn(FlatIds(c.sectors))
    ensures Present(c, id)
  {
    var i :| 0 <= i < |FlatIds(c.sectors)| && FlatIds(c.sectors)[i] == Some(id);
    FlatLength(c.sectors, sps);
    var s := FlatSector(|c.sectors|, sps, i);
    FlatAt(c.sectors, sps, s, i - Start(s, sps));
    assert HasSlot(c, s, i - Start(s, sps), id);
  }

  /** A wanted source without payload must be in the previous catalog, unchanged. */
  ghost predicate RetainedOk(p: Profile, prev: Catalog, src: Sources, id: ChunkId)
    requires prev.authentication.Some? && KeyOf(id) in src
  {
    && Present(prev, id)
    && id in EntryIds(prev.authentication.value)
    && EntryFor(prev.authentication.value, id).sourceCommitment == src[KeyOf(id)]
    && PriorSlot(prev, id).Source().value.logicalLen == p.slotSize
  }

  ghost predicate SourcesOk(p: Profile, src: Sources) {
    && src != map[]
    && forall key :: key in src ==>
         && key.owner != 0 && key.protectedRoot != 0 && key.objectId != 0
         && src[key].byteLen == p.sectorSize && ValidCommitment(src[key])
  }

  ghost predicate NewInputsOk(p: Profile, src: Sources, added: Objects)
    requires p.slotSize >= 1
  {
    && added.Keys <= src.Keys
    && forall key :: key in added ==>
         && added[key].key == key && added[key].sourceCommitment == Some(src[key])
         && |added[key].bytes| == p.sectorSize && InputOk(p, added[key])
  }

  /** What the update demands before it plans any slot. */
  ghost predicate Updatable(p: Profile, prev: Catalog, src: Sources, added: Objects) {
    && ValidProfile(p) && ValidCatalog(prev) && prev.formatVersion >= 2 && prev.profile == p
    && SourcesOk(p, src) && NewInputsOk(p, src, added)
    && (forall id :: id in UpdateIds(p, src.Keys - added.Keys) ==> RetainedOk(p, prev, src, id))
    && |UpdateIds(p, src.Keys)| <= MAX_PACKED_CHUNKS
  }

  /** A retained chunk: its previous record and proof, and no payload. */
  ghost function RetainedChunk(prev: Catalog, id: ChunkId): InputChunk
    requires prev.authentication.Some? && Present(prev, id) && id in EntryIds(prev.authentication.value)
  {
    InputChunk(PriorSlot(prev, id).Source().value, Some(EntryFor(prev.authentication.value, id)), [],
               PriorSlot(prev, id).VirtualZero?)
  }

  ghost function UpdateChunk(p: Profile, prev: Catalog, src: Sources, added: Objects, id: ChunkId): InputChunk
    requires Updatable(p, prev, src, added) && id in UpdateIds(p, src.Keys)
  {
    if KeyOf(id) in added then
      FreshChunkCount(p, src, added, KeyOf(id));
      MakeChunk(p, added[KeyOf(id)], id.chunkIndex)
    else
      assert id in UpdateIds(p, src.Keys - added.Keys);
      RetainedChunk(prev, id)
  }

  lemma SectorChunkCount(p: Profile, bytes: Bytes)
    requires ValidProfile(p) && |bytes| == p.sectorSize
    ensures ChunkCount(p, bytes) == SlotsPerSector(p)
  {
    ProfileFacts(p);
    WholeRoundsToItself(SlotsPerSector(p), p.slotSize);
  }

  lemma FreshChunkCount(p: Profile, src: Sources, added: Objects, key: ObjectKey)
    requires ValidProfile(p) && NewInputsOk(p, src, added) && key in added
    ensures ChunkCount(p, added[key].bytes) == SlotsPerSector(p)
  {
    SectorChunkCount(p, added[key].bytes);
  }

  ghost function UpdateChunks(p: Profile, prev: Catalog, src: Sources, added: Objects): (r: Chunks)
    requires Updatable(p, prev, src, added)
    ensures r.Keys == UpdateIds(p, src.Keys)
    ensures forall id :: id in r ==> r[id] == UpdateChunk(p, prev, src, added, id)
  {
    map id | id in UpdateIds(p, src.Keys) :: UpdateChunk(p, prev, src, added, id)
  }

  // ---------------------------------------------------------------- the same chunks with payloads

  /** The wanted objects with all their payloads: new ones, and retained ones as packed before. */
  function FullObjects(src: Sources, added: Objects, packed: Objects): Objects
    requires src.Keys - added.Keys <= packed.Keys
  {
    map key | key in src :: if key in added then added[key] else packed[key]
  }

  /** Equal up to the payload. */
  predicate SameRecord(a: InputChunk, b: InputChunk) {
    a.source == b.source && a.authentication == b.authentication && a.virtualZero == b.virtualZero
  }

  /** In an honest catalog a chunk's slot is the one made from the packed object. */
  lemma HonestSlot(c: Catalog, m: Objects, id: ChunkId)
    requires Honest(c, m) && Present(c, id)
    ensures id in ChunkMap(c.profile, m) && PriorSlot(c, id) == SlotFor(ChunkMap(c.profile, m), Some(id))
  {
    var s: nat, k: nat :| HasSlot(c, s, k, id) && PriorSlot(c, id) == c.sectors[s].slots[k];
    HonestSlotAt(c.profile, ChunkMap(c.profile, m), c.sectors[s], k, id);
  }

  lemma HonestSlotAt(p: Profile, chunks: Chunks, d: SectorDescriptor, k: nat, id: ChunkId)
    requires Fits(chunks, p.slotSize) && HonestSector(p, chunks, d)
    requires k < |d.slots| && SlotIds(d.slots)[k] == Some(id)
    ensures id in chunks && d.slots[k] == SlotFor(chunks, Some(id))
  {
  }

  lemma HonestProof(c: Catalog, m: Objects, id: ChunkId)
    requires Honest(c, m) && c.authentication.Some? && id in EntryIds(c.authentication.value)
    ensures Wanted(c.profile, m, id) && m[KeyOf(id)].sourceCommitment.Some?
    ensures EntryFor(c.authentication.value, id) == MakeAuthentication(c.profile, m[KeyOf(id)], id.chunkIndex).value
    ensures EntryFor(c.authentication.value, id).sourceCommitment == m[KeyOf(id)].sourceCommitment.value
  {
    var auth := c.authentication.value;
    var i :| 0 <= i < |auth| && auth[i] == EntryFor(auth, id);
    assert HonestEntry(c.profile, m, auth[i]);
  }

  /** A retained chunk is, payload aside, the chunk made from the object as packed before. */
  lemma RetainedRecord(p: Profile, prev: Catalog, src: Sources, m: Objects, id: ChunkId)
    requires Honest(prev, m) && prev.profile == p && prev.authentication.Some? && KeyOf(id) in src
    requires SourcesOk(p, src) && RetainedOk(p, prev, src, id)
    ensures Wanted(p, m, id) && m[KeyOf(id)].sourceCommitment == Some(src[KeyOf(id)])
    ensures |m[KeyOf(id)].bytes| == p.sectorSize
    ensures SameRecord(RetainedChunk(prev, id), MakeChunk(p, m[KeyOf(id)], id.chunkIndex))
  {
    HonestSlot(prev, m, id);
    HonestProof(prev, m, id);
    var input := m[KeyOf(id)];
    assert InputOk(p, input);
    assert CommitSpec(input.bytes).value.byteLen == |input.bytes|;
  }

  lemma RetainedObject(p: Profile, prev: Catalog, src: Sources, added: Objects, m: Objects, key: ObjectKey)
    requires Honest(prev, m) && Updatable(p, prev, src, added) && key in src && key !in added
    ensures key in m && |m[key].bytes| == p.sectorSize && m[key].sourceCommitment == Some(src[key])
    ensures m[key].key == key && InputOk(p, m[key])
  {
    ProfileFacts(p);
    assert KeyOf(IdOf(key, 0)) == key;
    assert IdOf(key, 0) in UpdateIds(p, src.Keys - added.Keys);
    RetainedRecord(p, prev, src, m, IdOf(key, 0));
  }

  /** One sector-sized object per source, with the source's commitment. */
  ghost predicate SectorObjects(p: Profile, src: Sources, m: Objects) {
    && m.Keys == src.Keys
    && forall key :: key in m ==> |m[key].bytes| == p.sectorSize && m[key].sourceCommitment == Some(src[key])
  }

  /** The packed objects hold every wanted object that came without payload. */
  ghost predicate Holds(p: Profile, src: Sources, added: Objects, m: Objects)
    requires p.slotSize >= 1
  {
    forall key :: key in src && key !in added ==>
      && key in m && m[key].key == key && InputOk(p, m[key])
      && |m[key].bytes| == p.sectorSize && m[key].sourceCommitment == Some(src[key])
  }

  /** All the wanted objects are acceptable, one sector long and carry the listed commitments. */
  lemma FullObjectsGood(p: Profile, prev: Catalog, src: Sources, added: Objects, m: Objects)
    requires Honest(prev, m) && Updatable(p, prev, src, added)
    ensures src.Keys - added.Keys <= m.Keys
    ensures GoodObjects(p, FullObjects(src, added, m)) && Authenticated(FullObjects(src, added, m))
    ensures SectorObjects(p, src, FullObjects(src, added, m))
  {
    forall key | key in src && key !in added
      ensures && key in m && m[key].key == key && InputOk(p, m[key])
              && |m[key].bytes| == p.sectorSize && m[key].sourceCommitment == Some(src[key])
    {
      RetainedObject(p, prev, src, added, m, key);
    }
    AssembleObjects(p, src, added, m);
  }

  lemma AssembledObject(p: Profile, src: Sources, added: Objects, m: Objects, key: ObjectKey)
    requires p.slotSize >= 1 && NewInputsOk(p, src, added) && Holds(p, src, added, m) && key in src
    requires src.Keys - added.Keys <= m.Keys
    ensures var o := FullObjects(src, added, m)[key];
            o.key == key && InputOk(p, o) && o.sourceCommitment == Some(src[key]) && |o.bytes| == p.sectorSize
  {
  }

  /** Every object is filed under its own key, acceptable, one sector long and committed as listed. */
  ghost predicate AsListed(p: Profile, src: Sources, m: Objects)
    requires p.slotSize >= 1
  {
    m.Keys == src.Keys && forall key :: key in m ==>
      m[key].key == key && InputOk(p, m[key]) && m[key].sourceCommitment == Some(src[key])
        && |m[key].bytes| == p.sectorSize
  }

  lemma ListedIsGood(p: Profile, src: Sources, m: Objects)
    requires p.slotSize >= 1 && src != map[] && AsListed(p, src, m)
    ensures GoodObjects(p, m) && Authenticated(m) && SectorObjects(p, src, m)
  {
    var key :| key in src;
    assert key in m;
  }

  lemma AssembleObjects(p: Profile, src: Sources, added: Objects, m: Objects)
    requires p.slotSize >= 1 && src != map[] && NewInputsOk(p, src, added) && Holds(p, src, added, m)
    ensures src.Keys - added.Keys <= m.Keys
    ensures GoodObjects(p, FullObjects(src, added, m)) && Authenticated(FullObjects(src, added, m))
    ensures SectorObjects(p, src, FullObjects(src, added, m))
  {
    var all := FullObjects(src, added, m);
    forall key | key in all
      ensures all[key].key == key && InputOk(p, all[key])
              && all[key].sourceCommitment == Some(src[key]) && |all[key].bytes| == p.sectorSize
    {
      AssembledObject(p, src, added, m, key);
    }
    ListedIsGood(p, src, all);
  }

  lemma SectorObjectIds(p: Profile, src: Sources, m: Objects)
    requires ValidProfile(p) && SectorObjects(p, src, m)
    ensures ChunkIds(p, m) == UpdateIds(p, src.Keys)
  {
    forall key | key in m ensures ChunkCount(p, m[key].bytes) == SlotsPerSector(p) {
      SectorChunkCount(p, m[key].bytes);
    }
  }

  /** The update's chunks are the full repack's chunks, payloads of retained ones aside. */
  lemma UpdateRecords(p: Profile, prev: Catalog, src: Sources, added: Objects, m: Objects, id: ChunkId)
    requires Honest(prev, m) && Updatable(p, prev, src, added) && id in UpdateIds(p, src.Keys)
    requires src.Keys - added.Keys <= m.Keys && GoodObjects(p, FullObjects(src, added, m))
    ensures Wanted(p, FullObjects(src, added, m), id)
    ensures var mine := UpdateChunk(p, prev, src, added, id);
            var full := MakeChunk(p, FullObjects(src, added, m)[KeyOf(id)], id.chunkIndex);
            && SameRecord(mine, full)
            && (KeyOf(id) in added ==> mine == full)
            && (KeyOf(id) !in added ==> mine.bytes == [])
  {
    if KeyOf(id) in added {
      FreshChunkCount(p, src, added, KeyOf(id));
    } else {
      assert id in UpdateIds(p, src.Keys - added.Keys);
      RetainedRecord(p, prev, src, m, id);
    }
  }
}
