/**
 Incremental equals full: sector by sector, the update that loads only changed sectors
 reproduces what a repack with every payload builds.
 */
module PackingEquivalence {
  import opened Base
  import opened Merkle
  import opened Allocator
  import opened Placement
  import opened Packing
  import opened PackingValidity
  import opened PackingUpdate

  type Loader = SectorDescriptor -> Result<Bytes, PackingError>

  // ---------------------------------------------------------------- one updated sector

  /** The previous sector stays when its slots do. */
  predicate Kept(prev: Catalog, s: nat, slots: seq<Slot>) {
    prev.formatVersion >= 3 && s < |prev.sectors| && prev.sectors[s].slots == slots
  }

  /** Loaded bytes are used only when they open the previous commitment. */
  predicate LoadOk(p: Profile, formatVersion: nat, d: SectorDescriptor, loaded: Result<Bytes, PackingError>) {
    && loaded.Ok? && |loaded.value| == p.sectorSize
    && (formatVersion < 3 ==> FlatHash(loaded.value) == d.flatRoot)
    && CommitSpec(loaded.value) == Ok(d.commitment)
  }

  predicate BaseOk(p: Profile, prev: Catalog, s: nat, load: Loader) {
    s < |prev.sectors| ==> LoadOk(p, prev.formatVersion, prev.sectors[s], load(prev.sectors[s]))
  }

  function BaseBytes(p: Profile, prev: Catalog, s: nat, load: Loader): (r: Bytes)
    requires BaseOk(p, prev, s, load)
    ensures |r| == p.sectorSize
  {
    if s < |prev.sectors| then load(prev.sectors[s]).value else Zeros(p.sectorSize)
  }

  /** A slot of an updated sector: zeros, a new payload, or what the base holds there. */
  function OverlayPart(chunks: Chunks, size: nat, base: Bytes, k: nat, place: Option<ChunkId>): (r: Bytes)
    requires Start(k, size) + size <= |base|
    requires place.Some? ==> place.value in chunks && |chunks[place.value].bytes| <= size
    ensures |r| == size
  {
    if place.None? || chunks[place.value].virtualZero then Zeros(size)
    else if chunks[place.value].bytes == [] then PartAt(base, size, k)
    else Pad(chunks[place.value].bytes, size)
  }

  function OverlayParts(chunks: Chunks, size: nat, base: Bytes, places: Assignments): (r: seq<Bytes>)
    requires Covered(chunks, places) && Fits(chunks, size) && |base| == Start(|places|, size)
    ensures |r| == |places| && Sized(r, size)
  {
    seq(|places|, k requires 0 <= k < |places| =>
      StartOrder(k, |places|, size);
      OverlayPart(chunks, size, base, k, places[k]))
  }

  /** An updated sector with its bytes. */
  function UpdatedSector(p: Profile, prev: Catalog, s: nat, places: Assignments, chunks: Chunks,
                         load: Loader): PackedSector
    requires ValidProfile(p) && |places| == SlotsPerSector(p)
    requires Covered(chunks, places) && Fits(chunks, p.slotSize) && BaseOk(p, prev, s, load)
  {
    ProfileFacts(p);
    var bytes := JoinParts(OverlayParts(chunks, p.slotSize, BaseBytes(p, prev, s, load), places), p.slotSize);
    var commitment := CommitSpec(bytes).value;
    PackedSector(MakeDescriptor(p, s, commitment.root, commitment, SlotsFor(chunks, places)), bytes)
  }

  function UpdatedDescriptor(p: Profile, prev: Catalog, s: nat, places: Assignments, chunks: Chunks, load: Loader)
    : SectorDescriptor
    requires ValidProfile(p) && |places| == SlotsPerSector(p)
    requires Covered(chunks, places) && Fits(chunks, p.slotSize)
    requires !Kept(prev, s, SlotsFor(chunks, places)) ==> BaseOk(p, prev, s, load)
  {
    if Kept(prev, s, SlotsFor(chunks, places)) then prev.sectors[s]
    else UpdatedSector(p, prev, s, places, chunks, load).descriptor
  }

  /** Records that say of their own payload what the packer says of it. */
  ghost predicate WellMade(chunks: Chunks) {
    forall id :: id in chunks ==>
      && chunks[id].source.id == id && chunks[id].source.contentHash == FlatHash(chunks[id].bytes)
      && (chunks[id].virtualZero <==> AllZero(chunks[id].bytes)) && chunks[id].bytes != []
  }

  /** `mine` is `full` with some payloads left out. */
  ghost predicate Stripped(mine: Chunks, full: Chunks) {
    && mine.Keys == full.Keys
    && forall id :: id in mine ==> SameRecord(mine[id], full[id]) && (mine[id].bytes == [] || mine[id] == full[id])
  }

  /** A chunk without payload sits where it sat, with the payload it had. */
  ghost predicate InPlace(prev: Catalog, s: nat, places: Assignments, mine: Chunks, full: Chunks, prior: Chunks)
    requires Covered(mine, places) && Stripped(mine, full)
  {
    forall k :: 0 <= k < |places| && places[k].Some? && mine[places[k].value].bytes == [] ==>
      && s < |prev.sectors| && k < |prev.sectors[s].slots|
      && SlotIds(prev.sectors[s].slots)[k] == places[k]
      && places[k].value in prior && prior[places[k].value] == full[places[k].value]
  }

  lemma StrippedSlots(mine: Chunks, full: Chunks, places: Assignments)
    requires Stripped(mine, full) && Covered(mine, places)
    ensures Covered(full, places) && SlotsFor(mine, places) == SlotsFor(full, places)
  {
  }

  /** Slots that say the same of two payload maps have the same bytes. */
  lemma SameBytes(a: Chunks, b: Chunks, size: nat, places: Assignments)
    requires WellMade(a) && WellMade(b) && Fits(a, size) && Fits(b, size)
    requires Covered(a, places) && Covered(b, places) && SlotsFor(a, places) == SlotsFor(b, places)
    ensures JoinPlaces(a, size, places) == JoinPlaces(b, size, places)
  {
    forall k | 0 <= k < |places| ensures PlaceBytes(a, size, places[k]) == PlaceBytes(b, size, places[k]) {
      assert SlotsFor(a, places)[k] == SlotsFor(b, places)[k];
    }
    assert PartsFor(a, size, places) == PartsFor(b, size, places);
  }

  lemma SlotIdsBack(chunks: Chunks, places: Assignments)
    requires WellMade(chunks) && Covered(chunks, places)
    ensures SlotIds(SlotsFor(chunks, places)) == places
  {
  }

  /** A sector that was kept is the sector a full repack builds. */
  lemma KeptIsBuilt(p: Profile, prev: Catalog, s: nat, places: Assignments, full: Chunks, prior: Chunks)
    requires ValidProfile(p) && |places| == SlotsPerSector(p) && Covered(full, places) && Fits(full, p.slotSize)
    requires WellMade(full) && WellMade(prior) && Fits(prior, p.slotSize)
    requires Kept(prev, s, SlotsFor(full, places)) && DescriptorOk(p, prev.formatVersion, s, prev.sectors[s])
    requires HonestSector(p, prior, prev.sectors[s])
    ensures prev.sectors[s] == BuildSector(p, s, places, full, true).descriptor
  {
    SlotIdsBack(full, places);
    SameBytes(full, prior, p.slotSize, places);
  }

  /** Loaded bytes that open an honest commitment are the packed bytes. */
  lemma LoadedIsPacked(p: Profile, prev: Catalog, s: nat, prior: Chunks, load: Loader)
    requires Fits(prior, p.slotSize) && s < |prev.sectors| && HonestSector(p, prior, prev.sectors[s])
    requires BaseOk(p, prev, s, load)
    ensures BaseBytes(p, prev, s, load) == JoinPlaces(prior, p.slotSize, SlotIds(prev.sectors[s].slots))
  {
    CommitInjective(BaseBytes(p, prev, s, load), JoinPlaces(prior, p.slotSize, SlotIds(prev.sectors[s].slots)));
  }

  lemma OverlayIsPlace(p: Profile, prev: Catalog, s: nat, places: Assignments, mine: Chunks, full: Chunks,
                       prior: Chunks, load: Loader, k: nat)
    requires ValidProfile(p) && |places| == SlotsPerSector(p) && k < |places|
    requires Covered(mine, places) && Covered(full, places) && Stripped(mine, full)
    requires Fits(mine, p.slotSize) && Fits(full, p.slotSize) && Fits(prior, p.slotSize) && WellMade(full)
    requires InPlace(prev, s, places, mine, full, prior) && BaseOk(p, prev, s, load)
    requires s < |prev.sectors| ==> HonestSector(p, prior, prev.sectors[s])
    requires Start(k, p.slotSize) + p.slotSize <= p.sectorSize
    ensures OverlayPart(mine, p.slotSize, BaseBytes(p, prev, s, load), k, places[k])
         == PlaceBytes(full, p.slotSize, places[k])
  {
    if places[k].Some? {
      var id := places[k].value;
      if full[id].virtualZero {
        assert Pad(full[id].bytes, p.slotSize) == Zeros(p.slotSize);
      } else if mine[id].bytes == [] {
        LoadedIsPacked(p, prev, s, prior, load);
        JoinedSlot(prior, p.slotSize, SlotIds(prev.sectors[s].slots), k);
      }
    }
  }

  /** A sector that changed is rebuilt to the sector a full repack builds. */
  lemma ChangedIsBuilt(p: Profile, prev: Catalog, s: nat, places: Assignments, mine: Chunks, full: Chunks,
                       prior: Chunks, load: Loader)
    requires ValidProfile(p) && |places| == SlotsPerSector(p)
    requires Covered(mine, places) && Covered(full, places) && Stripped(mine, full)
    requires Fits(mine, p.slotSize) && Fits(full, p.slotSize) && Fits(prior, p.slotSize) && WellMade(full)
    requires InPlace(prev, s, places, mine, full, prior) && BaseOk(p, prev, s, load)
    requires s < |prev.sectors| ==> HonestSector(p, prior, prev.sectors[s])
    ensures UpdatedSector(p, prev, s, places, mine, load) == BuildSector(p, s, places, full, true)
  {
    ProfileFacts(p);
    StrippedSlots(mine, full, places);
    var base, size := BaseBytes(p, prev, s, load), p.slotSize;
    forall k | 0 <= k < |places|
      ensures OverlayParts(mine, size, base, places)[k] == PartsFor(full, size, places)[k]
    {
      StartOrder(k, |places|, size);
      OverlayIsPlace(p, prev, s, places, mine, full, prior, load, k);
    }
    assert OverlayParts(mine, size, base, places) == PartsFor(full, size, places);
  }

  /** One sector of the update is the same sector of the full repack. */
  lemma SectorIsBuilt(p: Profile, prev: Catalog, s: nat, places: Assignments, mine: Chunks, full: Chunks, prior: Chunks,
                      load: Loader)
    requires ValidProfile(p) && |places| == SlotsPerSector(p)
    requires Covered(mine, places) && Covered(full, places) && Stripped(mine, full)
    requires Fits(mine, p.slotSize) && Fits(full, p.slotSize) && Fits(prior, p.slotSize) && WellMade(full)
             && WellMade(prior)
    requires InPlace(prev, s, places, mine, full, prior)
    requires s < |prev.sectors| ==>
               HonestSector(p, prior, prev.sectors[s]) && DescriptorOk(p, prev.formatVersion, s, prev.sectors[s])
    requires !Kept(prev, s, SlotsFor(mine, places)) ==> BaseOk(p, prev, s, load)
    ensures UpdatedDescriptor(p, prev, s, places, mine, load) == BuildSector(p, s, places, full, true).descriptor
  {
    StrippedSlots(mine, full, places);
    if Kept(prev, s, SlotsFor(mine, places)) {
      KeptIsBuilt(p, prev, s, places, full, prior);
    } else {
      ChangedIsBuilt(p, prev, s, places, mine, full, prior, load);
    }
  }

  // ---------------------------------------------------------------- the updated catalog

  /** The slots the update plans. */
  ghost function UpdatePlaces(p: Profile, prev: Catalog, src: Sources): Assignments
    requires ValidProfile(p) && UsablePrevious(p, Some(prev))
  {
    PreviousIsWhole(p, Some(prev));
    NextSlots(FlatIds(prev.sectors), UpdateIds(p, src.Keys), SlotsPerSector(p))
  }

  ghost predicate Planned(p: Profile, a: Assignments, chunks: Chunks) {
    && p.slotSize >= 1 && SlotsPerSector(p) >= 1 && Whole(|a|, SlotsPerSector(p)) && Distinct(a)
    && Covered(chunks, a) && Fits(chunks, p.slotSize)
  }

  lemma UpdateChunkFits(p: Profile, prev: Catalog, src: Sources, added: Objects, id: ChunkId)
    requires Updatable(p, prev, src, added) && id in UpdateIds(p, src.Keys)
    ensures var c := UpdateChunk(p, prev, src, added, id);
            && |c.bytes| <= p.slotSize && c.authentication.Some?
            && (c.bytes == [] <==> KeyOf(id) !in added)
  {
    if KeyOf(id) in added {
      FreshChunkCount(p, src, added, KeyOf(id));
      ChunkStarts(|added[KeyOf(id)].bytes|, p.slotSize, id.chunkIndex);
    }
  }

  lemma UpdateIsPlanned(p: Profile, prev: Catalog, src: Sources, added: Objects)
    requires Updatable(p, prev, src, added)
    ensures UsablePrevious(p, Some(prev))
    ensures Planned(p, UpdatePlaces(p, prev, src), UpdateChunks(p, prev, src, added))
    ensures IdsIn(UpdatePlaces(p, prev, src)) == UpdateIds(p, src.Keys)
  {
    ValidIsUsable(p, Some(prev));
    PreviousIsWhole(p, Some(prev));
    NextSlotsAreStable(FlatIds(prev.sectors), UpdateIds(p, src.Keys), SlotsPerSector(p));
    var a, chunks := UpdatePlaces(p, prev, src), UpdateChunks(p, prev, src, added);
    forall i | 0 <= i < |a| && a[i].Some? ensures a[i].value in chunks { assert a[i].value in IdsIn(a); }
    forall id | id in chunks ensures |chunks[id].bytes| <= p.slotSize { UpdateChunkFits(p, prev, src, added, id); }
  }

  /** Every changed previous sector can be loaded. */
  ghost predicate Loadable(p: Profile, prev: Catalog, a: Assignments, chunks: Chunks, load: Loader)
    requires Planned(p, a, chunks)
  {
    forall s :: 0 <= s < Count(|a|, SlotsPerSector(p)) ==> SectorLoadable(p, prev, a, chunks, load, s)
  }

  ghost predicate SectorLoadable(p: Profile, prev: Catalog, a: Assignments, chunks: Chunks, load: Loader, s: nat)
    requires Planned(p, a, chunks) && s < Count(|a|, SlotsPerSector(p))
  {
    StartOrder(s, Count(|a|, SlotsPerSector(p)), SlotsPerSector(p));
    ContentCovered(chunks, a, SlotsPerSector(p), s);
    !Kept(prev, s, SlotsFor(chunks, Content(a, SlotsPerSector(p), s))) ==> BaseOk(p, prev, s, load)
  }

  ghost function UpdatedAt(p: Profile, prev: Catalog, a: Assignments, chunks: Chunks, load: Loader,
                           s: nat): SectorDescriptor
    requires ValidProfile(p) && Planned(p, a, chunks) && s < Count(|a|, SlotsPerSector(p))
    requires SectorLoadable(p, prev, a, chunks, load, s)
  {
    StartOrder(s, Count(|a|, SlotsPerSector(p)), SlotsPerSector(p));
    ContentCovered(chunks, a, SlotsPerSector(p), s);
    UpdatedDescriptor(p, prev, s, Content(a, SlotsPerSector(p), s), chunks, load)
  }

  ghost function UpdatedSectors(p: Profile, prev: Catalog, a: Assignments, chunks: Chunks, load: Loader)
    : (r: seq<SectorDescriptor>)
    requires ValidProfile(p) && Planned(p, a, chunks) && Loadable(p, prev, a, chunks, load)
    ensures |r| == Count(|a|, SlotsPerSector(p))
    ensures forall s :: 0 <= s < |r| ==> r[s] == UpdatedAt(p, prev, a, chunks, load, s)
  {
    seq(Count(|a|, SlotsPerSector(p)), s requires 0 <= s < Count(|a|, SlotsPerSector(p)) =>
      UpdatedAt(p, prev, a, chunks, load, s))
  }

  ghost function UpdatedProofs(ids: set<ChunkId>, chunks: Chunks): (r: seq<Authentication>)
    requires forall id :: id in ids ==> id in chunks && chunks[id].authentication.Some?
    ensures |r| == |ids|
    ensures forall i :: 0 <= i < |r| ==>
              SortedIds(ids)[i] in ids && r[i] == chunks[SortedIds(ids)[i]].authentication.value
  {
    var sorted := SortedIds(ids);
    assert forall i :: 0 <= i < |sorted| ==> sorted[i] in sorted;
    seq(|sorted|, i requires 0 <= i < |sorted| => chunks[sorted[i]].authentication.value)
  }

  lemma UpdateChunksProved(p: Profile, prev: Catalog, src: Sources, added: Objects)
    requires Updatable(p, prev, src, added)
    ensures forall id :: id in UpdateIds(p, src.Keys) ==>
              id in UpdateChunks(p, prev, src, added) && UpdateChunks(p, prev, src, added)[id].authentication.Some?
  {
    forall id | id in UpdateIds(p, src.Keys) ensures UpdateChunks(p, prev, src, added)[id].authentication.Some? {
      UpdateChunkFits(p, prev, src, added, id);
    }
  }

  /** The catalog the update builds. */
  ghost function UpdateCatalog(p: Profile, prev: Catalog, src: Sources, added: Objects, load: Loader): Catalog
    requires Updatable(p, prev, src, added) && UsablePrevious(p, Some(prev))
    requires Planned(p, UpdatePlaces(p, prev, src), UpdateChunks(p, prev, src, added))
    requires Loadable(p, prev, UpdatePlaces(p, prev, src), UpdateChunks(p, prev, src, added), load)
  {
    UpdateChunksProved(p, prev, src, added);
    MakeCatalog(3, prev.revision + 1, Some(prev.id), p,
                UpdatedSectors(p, prev, UpdatePlaces(p, prev, src), UpdateChunks(p, prev, src, added), load),
                Some(UpdatedProofs(UpdateIds(p, src.Keys), UpdateChunks(p, prev, src, added))))
  }

  // ---------------------------------------------------------------- the update is a full repack

  /** A retained chunk keeps its flat slot: the update's missing-object branch is unreachable. */
  lemma RetainedStays(p: Profile, prev: Catalog, src: Sources, added: Objects, i: nat, id: ChunkId)
    requires Updatable(p, prev, src, added) && UsablePrevious(p, Some(prev))
    requires id in UpdateIds(p, src.Keys) && KeyOf(id) !in added
    requires i < |UpdatePlaces(p, prev, src)| && UpdatePlaces(p, prev, src)[i] == Some(id)
    ensures i < |FlatIds(prev.sectors)| && FlatIds(prev.sectors)[i] == Some(id)
  {
    PreviousIsWhole(p, Some(prev));
    assert id in UpdateIds(p, src.Keys - added.Keys);
    assert RetainedOk(p, prev, src, id);
    PresentIsListed(prev, SlotsPerSector(p), id);
    KeptIndex(FlatIds(prev.sectors), UpdateIds(p, src.Keys), SlotsPerSector(p), i, id);
  }

  lemma ChunkMapWellMade(p: Profile, m: Objects)
    requires ValidProfile(p) && GoodObjects(p, m)
    ensures WellMade(ChunkMap(p, m))
  {
    ChunksFit(p, m);
    assert forall id: ChunkId :: id == IdOf(KeyOf(id), id.chunkIndex);
  }

  lemma UpdateIsStripped(p: Profile, prev: Catalog, src: Sources, added: Objects, m: Objects)
    requires Honest(prev, m) && Updatable(p, prev, src, added)
    requires src.Keys - added.Keys <= m.Keys && GoodObjects(p, FullObjects(src, added, m))
    requires SectorObjects(p, src, FullObjects(src, added, m))
    ensures Stripped(UpdateChunks(p, prev, src, added), ChunkMap(p, FullObjects(src, added, m)))
  {
    var mine, full := UpdateChunks(p, prev, src, added), ChunkMap(p, FullObjects(src, added, m));
    SectorObjectIds(p, src, FullObjects(src, added, m));
    forall id | id in mine ensures SameRecord(mine[id], full[id]) && (mine[id].bytes == [] || mine[id] == full[id]) {
      UpdateRecords(p, prev, src, added, m, id);
    }
  }

  /** A chunk without payload was at its flat slot before, with the payload it has in `full`. */
  ghost predicate Unmoved(flat: Assignments, full: Chunks, prior: Chunks, i: nat, id: ChunkId) {
    i < |flat| && flat[i] == Some(id) && id in prior && id in full && prior[id] == full[id]
  }

  /** No chunk without payload moved. */
  ghost predicate AllInPlace(flat: Assignments, a: Assignments, mine: Chunks, full: Chunks, prior: Chunks) {
    forall i :: 0 <= i < |a| && a[i].Some? && a[i].value in mine && mine[a[i].value].bytes == [] ==>
      Unmoved(flat, full, prior, i, a[i].value)
  }

  lemma RetainedInPlace(p: Profile, prev: Catalog, src: Sources, added: Objects, m: Objects, i: nat, id: ChunkId)
    requires Honest(prev, m) && Updatable(p, prev, src, added) && UsablePrevious(p, Some(prev))
    requires src.Keys - added.Keys <= m.Keys && GoodObjects(p, FullObjects(src, added, m))
    requires i < |UpdatePlaces(p, prev, src)| && UpdatePlaces(p, prev, src)[i] == Some(id)
    requires id in UpdateIds(p, src.Keys) && UpdateChunk(p, prev, src, added, id).bytes == []
    ensures Unmoved(FlatIds(prev.sectors), ChunkMap(p, FullObjects(src, added, m)), ChunkMap(p, m), i, id)
  {
    UpdateChunkFits(p, prev, src, added, id);
    RetainedStays(p, prev, src, added, i, id);
    assert FlatIds(prev.sectors)[i].value in IdsIn(FlatIds(prev.sectors));
    SameObjectSameChunk(p, m, FullObjects(src, added, m), id);
  }

  lemma SameObjectSameChunk(p: Profile, a: Objects, b: Objects, id: ChunkId)
    requires ValidProfile(p) && GoodObjects(p, a) && GoodObjects(p, b)
    requires id in ChunkMap(p, a) && KeyOf(id) in b && a[KeyOf(id)] == b[KeyOf(id)]
    ensures id in ChunkMap(p, b) && ChunkMap(p, a)[id] == ChunkMap(p, b)[id]
  {
  }

  lemma UpdateInPlace(p: Profile, prev: Catalog, src: Sources, added: Objects, m: Objects)
    requires Honest(prev, m) && Updatable(p, prev, src, added) && UsablePrevious(p, Some(prev))
    requires src.Keys - added.Keys <= m.Keys && GoodObjects(p, FullObjects(src, added, m))
    ensures AllInPlace(FlatIds(prev.sectors), UpdatePlaces(p, prev, src), UpdateChunks(p, prev, src, added),
                       ChunkMap(p, FullObjects(src, added, m)), ChunkMap(p, m))
  {
    var a, mine := UpdatePlaces(p, prev, src), UpdateChunks(p, prev, src, added);
    forall i | 0 <= i < |a| && a[i].Some? && a[i].value in mine && mine[a[i].value].bytes == []
      ensures Unmoved(FlatIds(prev.sectors), ChunkMap(p, FullObjects(src, added, m)), ChunkMap(p, m), i, a[i].value)
    {
      RetainedInPlace(p, prev, src, added, m, i, a[i].value);
    }
  }

  lemma SectorInPlace(prev: Catalog, a: Assignments, sps: nat, mine: Chunks, full: Chunks, prior: Chunks, s: nat)
    requires sps >= 1 && Uniform(prev.sectors, sps) && Stripped(mine, full)
    requires AllInPlace(FlatIds(prev.sectors), a, mine, full, prior)
    requires Start(s, sps) + sps <= |a| && Covered(mine, Content(a, sps, s))
    ensures InPlace(prev, s, Content(a, sps, s), mine, full, prior)
  {
    var places := Content(a, sps, s);
    FlatLength(prev.sectors, sps);
    forall k | 0 <= k < |places| && places[k].Some? && mine[places[k].value].bytes == []
      ensures s < |prev.sectors| && SlotIds(prev.sectors[s].slots)[k] == places[k]
              && places[k].value in prior && prior[places[k].value] == full[places[k].value]
    {
      assert a[Start(s, sps) + k] == places[k];
      assert Unmoved(FlatIds(prev.sectors), full, prior, Start(s, sps) + k, places[k].value);
      SectorBelow(s, |prev.sectors|, sps, k);
      FlatAt(prev.sectors, sps, s, k);
    }
  }

  lemma SectorBelow(s: nat, n: nat, sps: nat, k: nat)
    requires Start(s, sps) + k < Start(n, sps)
    ensures s < n
  {
    if n < s { StartOrder(n, s, sps); }
  }

  /** One sector of the plan, seen from the plan alone. */
  lemma PlannedSectorIsBuilt(p: Profile, prev: Catalog, a: Assignments, mine: Chunks, full: Chunks, prior: Chunks,
                             load: Loader, s: nat)
    requires ValidProfile(p) && Planned(p, a, mine) && s < Count(|a|, SlotsPerSector(p))
    requires SectorLoadable(p, prev, a, mine, load, s)
    requires Stripped(mine, full) && Fits(full, p.slotSize) && Fits(prior, p.slotSize) && WellMade(full)
             && WellMade(prior)
    requires Uniform(prev.sectors, SlotsPerSector(p)) && AllInPlace(FlatIds(prev.sectors), a, mine, full, prior)
    requires s < |prev.sectors| ==>
               HonestSector(p, prior, prev.sectors[s]) && DescriptorOk(p, prev.formatVersion, s, prev.sectors[s])
    ensures Start(s, SlotsPerSector(p)) + SlotsPerSector(p) <= |a| && Covered(full, Content(a, SlotsPerSector(p), s))
    ensures UpdatedAt(p, prev, a, mine, load, s)
         == BuildSector(p, s, Content(a, SlotsPerSector(p), s), full, true).descriptor
  {
    var sps := SlotsPerSector(p);
    StartOrder(s, Count(|a|, sps), sps);
    ContentCovered(mine, a, sps, s);
    var places := Content(a, sps, s);
    StrippedSlots(mine, full, places);
    SectorInPlace(prev, a, sps, mine, full, prior, s);
    SectorIsBuilt(p, prev, s, places, mine, full, prior, load);
  }

  lemma ListedProof(p: Profile, m: Objects, mine: Chunks, i: nat)
    requires ValidProfile(p) && GoodObjects(p, m) && Authenticated(m) && Stripped(mine, ChunkMap(p, m))
    requires i < |AuthenticationList(p, m)|
    ensures i < |SortedIds(ChunkIds(p, m))| && SortedIds(ChunkIds(p, m))[i] in mine
    ensures mine[SortedIds(ChunkIds(p, m))[i]].authentication == Some(AuthenticationList(p, m)[i])
  {
    ListedAt(p, m, i);
    var id := SortedIds(ChunkIds(p, m))[i];
    assert SameRecord(mine[id], ChunkMap(p, m)[id]);
  }

  lemma ProofsEqual(ids: set<ChunkId>, chunks: Chunks, listed: seq<Authentication>)
    requires forall id :: id in ids ==> id in chunks && chunks[id].authentication.Some?
    requires |listed| == |ids|
    requires forall i :: 0 <= i < |listed| ==>
               SortedIds(ids)[i] in chunks && chunks[SortedIds(ids)[i]].authentication == Some(listed[i])
    ensures UpdatedProofs(ids, chunks) == listed
  {
  }

  /** The proofs of the update are the proofs of the full repack. */
  lemma UpdatedProofsAreListed(p: Profile, m: Objects, mine: Chunks)
    requires ValidProfile(p) && GoodObjects(p, m) && Authenticated(m) && Stripped(mine, ChunkMap(p, m))
    requires forall id :: id in ChunkIds(p, m) ==> mine[id].authentication.Some?
    ensures UpdatedProofs(ChunkIds(p, m), mine) == AuthenticationList(p, m)
  {
    var ids, listed := ChunkIds(p, m), AuthenticationList(p, m);
    forall i | 0 <= i < |listed|
      ensures SortedIds(ids)[i] in mine && mine[SortedIds(ids)[i]].authentication == Some(listed[i])
    {
      ListedProof(p, m, mine, i);
    }
    ProofsEqual(ids, mine, listed);
  }

  /** One sector of the update is the one packed for it. */
  lemma UpdatedSectorIsPacked(p: Profile, prev: Catalog, objects: Objects, a: Assignments, mine: Chunks, prior: Chunks,
                              load: Loader, s: nat)
    requires ValidProfile(p) && UsablePrevious(p, Some(prev)) && GoodObjects(p, objects) && Authenticated(objects)
    requires BuiltSlots(p, Some(prev), objects) == a && s < |BuildPacked(p, Some(prev), objects)|
    requires Planned(p, a, mine) && s < Count(|a|, SlotsPerSector(p)) && SectorLoadable(p, prev, a, mine, load, s)
    requires Stripped(mine, ChunkMap(p, objects)) && Fits(prior, p.slotSize) && WellMade(prior)
    requires Uniform(prev.sectors, SlotsPerSector(p))
    requires AllInPlace(FlatIds(prev.sectors), a, mine, ChunkMap(p, objects), prior)
    requires s < |prev.sectors| ==>
               HonestSector(p, prior, prev.sectors[s]) && DescriptorOk(p, prev.formatVersion, s, prev.sectors[s])
    ensures UpdatedAt(p, prev, a, mine, load, s) == BuildPacked(p, Some(prev), objects)[s].descriptor
  {
    ChunksFit(p, objects);
    ChunkMapWellMade(p, objects);
    PlannedSectorIsBuilt(p, prev, a, mine, ChunkMap(p, objects), prior, load, s);
    BuiltSector(p, Some(prev), objects, s);
  }

  lemma UpdatedSectorsAreBuilt(p: Profile, prev: Catalog, src: Sources, added: Objects, m: Objects, load: Loader)
    requires Honest(prev, m) && Updatable(p, prev, src, added) && UsablePrevious(p, Some(prev))
    requires src.Keys - added.Keys <= m.Keys && GoodObjects(p, FullObjects(src, added, m))
    requires Authenticated(FullObjects(src, added, m)) && SectorObjects(p, src, FullObjects(src, added, m))
    requires Planned(p, UpdatePlaces(p, prev, src), UpdateChunks(p, prev, src, added))
    requires Loadable(p, prev, UpdatePlaces(p, prev, src), UpdateChunks(p, prev, src, added), load)
    ensures UpdatedSectors(p, prev, UpdatePlaces(p, prev, src), UpdateChunks(p, prev, src, added), load)
         == Descriptors(BuildPacked(p, Some(prev), FullObjects(src, added, m)))
  {
    var objects := FullObjects(src, added, m);
    var a, mine := UpdatePlaces(p, prev, src), UpdateChunks(p, prev, src, added);
    SectorObjectIds(p, src, objects);
    ChunkMapWellMade(p, m);
    UpdateIsStripped(p, prev, src, added, m);
    UpdateInPlace(p, prev, src, added, m);
    var mineSectors, built := UpdatedSectors(p, prev, a, mine, load), BuildPacked(p, Some(prev), objects);
    assert BuiltSlots(p, Some(prev), objects) == a;
    forall s | 0 <= s < |mineSectors| ensures mineSectors[s] == built[s].descriptor {
      UpdatedSectorIsPacked(p, prev, objects, a, mine, ChunkMap(p, m), load, s);
    }
  }

  /** The update builds the catalog that a full repack of the same objects builds. */
  lemma UpdateIsBuild(p: Profile, prev: Catalog, src: Sources, added: Objects, m: Objects, load: Loader)
    requires Honest(prev, m) && Updatable(p, prev, src, added) && UsablePrevious(p, Some(prev))
    requires Planned(p, UpdatePlaces(p, prev, src), UpdateChunks(p, prev, src, added))
    requires Loadable(p, prev, UpdatePlaces(p, prev, src), UpdateChunks(p, prev, src, added), load)
    requires prev.revision + 1 < U64_LIMIT
    ensures src.Keys - added.Keys <= m.Keys && GoodObjects(p, FullObjects(src, added, m))
    ensures UpdateCatalog(p, prev, src, added, load) == BuildCatalog(p, Some(prev), FullObjects(src, added, m))
  {
    FullObjectsGood(p, prev, src, added, m);
    UpdateProofs(p, prev, src, added, m);
    UpdatedSectorsAreBuilt(p, prev, src, added, m, load);
    UpdateShape(p, prev, src, added, load);
    BuiltShape(p, prev, FullObjects(src, added, m));
  }

  lemma UpdateShape(p: Profile, prev: Catalog, src: Sources, added: Objects, load: Loader)
    requires Updatable(p, prev, src, added) && UsablePrevious(p, Some(prev))
    requires Planned(p, UpdatePlaces(p, prev, src), UpdateChunks(p, prev, src, added))
    requires Loadable(p, prev, UpdatePlaces(p, prev, src), UpdateChunks(p, prev, src, added), load)
    requires forall id :: id in UpdateIds(p, src.Keys) ==>
               id in UpdateChunks(p, prev, src, added) && UpdateChunks(p, prev, src, added)[id].authentication.Some?
    ensures UpdateCatalog(p, prev, src, added, load)
         == MakeCatalog(3, prev.revision + 1, Some(prev.id), p,
                        UpdatedSectors(p, prev, UpdatePlaces(p, prev, src), UpdateChunks(p, prev, src, added), load),
                        Some(UpdatedProofs(UpdateIds(p, src.Keys), UpdateChunks(p, prev, src, added))))
  {
  }

  lemma BuiltShape(p: Profile, prev: Catalog, m: Objects)
    requires ValidProfile(p) && UsablePrevious(p, Some(prev)) && GoodObjects(p, m) && Authenticated(m)
    requires prev.revision + 1 < U64_LIMIT
    ensures BuildCatalog(p, Some(prev), m)
         == MakeCatalog(3, prev.revision + 1, Some(prev.id), p, Descriptors(BuildPacked(p, Some(prev), m)),
                        Some(AuthenticationList(p, m)))
  {
    assert NextRevision(Some(prev)) == prev.revision + 1;
  }

  lemma UpdateProofs(p: Profile, prev: Catalog, src: Sources, added: Objects, m: Objects)
    requires Honest(prev, m) && Updatable(p, prev, src, added)
    requires src.Keys - added.Keys <= m.Keys && GoodObjects(p, FullObjects(src, added, m))
    requires Authenticated(FullObjects(src, added, m)) && SectorObjects(p, src, FullObjects(src, added, m))
    ensures forall id :: id in UpdateIds(p, src.Keys) ==>
              id in UpdateChunks(p, prev, src, added) && UpdateChunks(p, prev, src, added)[id].authentication.Some?
    ensures UpdatedProofs(UpdateIds(p, src.Keys), UpdateChunks(p, prev, src, added))
         == AuthenticationList(p, FullObjects(src, added, m))
  {
    SectorObjectIds(p, src, FullObjects(src, added, m));
    UpdateIsStripped(p, prev, src, added, m);
    UpdateChunksProved(p, prev, src, added);
    UpdatedProofsAreListed(p, FullObjects(src, added, m), UpdateChunks(p, prev, src, added));
  }

  /**
   Incremental equals full: when the update and a repack with every payload both go ahead on
   the same sources, they build the same catalog, id, parent, revision and proofs included.
   */
  lemma IncrementalEqualsFull(p: Profile, prev: Catalog, src: Sources, added: Objects, packed: Objects, all: Objects,
                              load: Loader)
    requires Honest(prev, packed) && Updatable(p, prev, src, added) && UsablePrevious(p, Some(prev))
    requires Planned(p, UpdatePlaces(p, prev, src), UpdateChunks(p, prev, src, added))
    requires Loadable(p, prev, UpdatePlaces(p, prev, src), UpdateChunks(p, prev, src, added), load)
    requires prev.revision + 1 < U64_LIMIT
    requires GoodObjects(p, all) && all.Keys == src.Keys
    requires forall key :: key in all ==> all[key].sourceCommitment == Some(src[key])
    ensures UpdateCatalog(p, prev, src, added, load) == BuildCatalog(p, Some(prev), all)
  {
    UpdateIsBuild(p, prev, src, added, packed, load);
    FullObjectsGood(p, prev, src, added, packed);
    SameCommitmentsSameObjects(p, src, FullObjects(src, added, packed), all);
  }

  lemma SameCommitmentsSameObjects(p: Profile, src: Sources, a: Objects, b: Objects)
    requires p.slotSize >= 1 && GoodObjects(p, a) && GoodObjects(p, b) && a.Keys == src.Keys == b.Keys
    requires forall key :: key in a ==> a[key].sourceCommitment == Some(src[key])
    requires forall key :: key in b ==> b[key].sourceCommitment == Some(src[key])
    ensures a == b
  {
    forall key | key in a ensures a[key] == b[key] {
      assert InputOk(p, a[key]) && InputOk(p, b[key]);
      CommitInjective(a[key].bytes, b[key].bytes);
    }
  }
}
