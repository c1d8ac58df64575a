/**
 Catalog and result validation, and when a freshly built catalog passes it.
 */
module PackingValidity {
  import opened Base
  import opened Merkle
  import opened MerkleSuite
  import opened Allocator
  import opened Placement
  import opened Packing
  import Sorting

  // ---------------------------------------------------------------- catalog validation

  predicate FormatOk(c: Catalog) {
    || (c.formatVersion == 1 && c.authentication.None? && !c.hasBindings && !c.hasAttestations)
    || ((c.formatVersion == 2 || c.formatVersion == 3) && c.authentication.Some?
        && !c.hasBindings && !c.hasAttestations)
    || (c.formatVersion == 4 && c.authentication.Some? && c.hasBindings && !c.hasAttestations)
    || (c.formatVersion == 5 && c.authentication.Some? && c.hasBindings && c.hasAttestations)
  }

  predicate HeaderOk(c: Catalog) {
    FormatOk(c) && c.revision != 0 && (c.revision == 1 <==> c.parent.None?) && c.id == CalculateId(c)
  }

  predicate DescriptorOk(p: Profile, formatVersion: nat, index: nat, d: SectorDescriptor)
    requires p.slotSize >= 1
  {
    && d.sectorIndex == index
    && |d.slots| == SlotsPerSector(p)
    && d.flatRoot != Zero
    && d.commitment.byteLen == p.sectorSize
    && (formatVersion >= 3 ==> d.flatRoot == d.commitment.root)
    && d.id == SectorId(p, d.sectorIndex, d.flatRoot, d.commitment, d.slots)
  }

  predicate SourceOk(p: Profile, source: SourceChunk) {
    && source.id.owner != 0 && source.id.protectedRoot != 0 && source.id.objectId != 0
    && 1 <= source.logicalLen <= p.slotSize
    && source.sourceOffset == Start(source.id.chunkIndex, p.slotSize)
  }

  predicate SlotsOk(p: Profile, slots: seq<Slot>) {
    forall k :: 0 <= k < |slots| && slots[k].Source().Some? ==> SourceOk(p, slots[k].Source().value)
  }

  /** Every object's chunk indexes are 0, 1, ... without a gap. */
  predicate NoGaps(ids: set<ChunkId>) {
    forall id :: id in ids && id.chunkIndex > 0 ==> id.(chunkIndex := id.chunkIndex - 1) in ids
  }

  predicate EntryOk(p: Profile, e: Authentication) {
    && e.sourceCommitment.byteLen == p.sectorSize
    && e.proof.startLeaf == Start(e.id.chunkIndex, SlotLeaves(p)) < U32_LIMIT
    && e.proof.leafCount == SlotLeaves(p)
    && VerifySubtreeSpec(e.sourceCommitment, e.proof).Ok?
  }

  predicate EntriesDistinct(auth: seq<Authentication>) {
    forall i, j :: 0 <= i < j < |auth| ==> auth[i].id != auth[j].id
  }

  function EntryIds(auth: seq<Authentication>): set<ChunkId> {
    set i | 0 <= i < |auth| :: auth[i].id
  }

  /** The proof on file for a chunk. */
  function EntryFor(auth: seq<Authentication>, id: ChunkId): (e: Authentication)
    requires id in EntryIds(auth)
    ensures e in auth && e.id == id
  {
    var last := |auth| - 1;
    if auth[last].id == id then auth[last] else EntryFor(auth[..last], id)
  }

  /** The unbound Merkle root of a buffer of at least one leaf. */
  function BytesRoot(bytes: Bytes): Digest {
    if |bytes| < LEAF_SIZE then Zero else Root(LeafNodes(bytes))
  }

  /** The unbound Merkle root of an all-zero slot. */
  function ZeroSlotRoot(p: Profile): Digest {
    BytesRoot(Zeros(p.slotSize))
  }

  /** The Merkle root a slot must have, taken from its proof or from zeros. */
  function SlotRoot(p: Profile, auth: seq<Authentication>, slot: Slot): Digest
    requires slot.Data? ==> slot.source.id in EntryIds(auth)
  {
    if slot.Data? then EntryFor(auth, slot.source.id).proof.subtreeRoot else ZeroSlotRoot(p)
  }

  predicate SlotProved(p: Profile, auth: seq<Authentication>, slot: Slot) {
    slot.Source().Some? ==>
      && slot.Source().value.id in EntryIds(auth)
      && slot.Source().value.logicalLen == p.slotSize
      && (slot.VirtualZero? ==> EntryFor(auth, slot.Source().value.id).proof.subtreeRoot == ZeroSlotRoot(p))
  }

  function SlotRoots(p: Profile, auth: seq<Authentication>, slots: seq<Slot>): (r: seq<Digest>)
    requires forall k :: 0 <= k < |slots| ==> SlotProved(p, auth, slots[k])
    ensures |r| == |slots|
  {
    seq(|slots|, k requires 0 <= k < |slots| =>
      assert SlotProved(p, auth, slots[k]);
      SlotRoot(p, auth, slots[k]))
  }

  /** The sector's commitment is composed of the roots of its slots. */
  predicate SectorProved(p: Profile, auth: seq<Authentication>, d: SectorDescriptor) {
    && (forall k :: 0 <= k < |d.slots| ==> SlotProved(p, auth, d.slots[k]))
    && CommitSubtreesSpec(p.sectorSize, p.slotSize, SlotRoots(p, auth, d.slots)) == Ok(d.commitment)
  }

  predicate AuthenticationOk(p: Profile, sectors: seq<SectorDescriptor>, auth: seq<Authentication>) {
    && (forall i :: 0 <= i < |auth| ==> EntryOk(p, auth[i]))
    && EntriesDistinct(auth)
    && EntryIds(auth) == IdsIn(FlatIds(sectors))
    && (forall s :: 0 <= s < |sectors| ==> SectorProved(p, auth, sectors[s]))
  }

  /** `PackedCatalog::validate`, without the signatures of migration evidence. */
  predicate ValidCatalog(c: Catalog) {
    && ValidProfile(c.profile) && HeaderOk(c)
    && (forall s :: 0 <= s < |c.sectors| ==> DescriptorOk(c.profile, c.formatVersion, s, c.sectors[s]))
    && (forall s :: 0 <= s < |c.sectors| ==> SlotsOk(c.profile, c.sectors[s].slots))
    && Distinct(FlatIds(c.sectors))
    && SlotsPerSector(c.profile) >= 1 && EndsOccupied(FlatIds(c.sectors), SlotsPerSector(c.profile))
    && NoGaps(IdsIn(FlatIds(c.sectors)))
    && (c.formatVersion >= 2 ==> AuthenticationOk(c.profile, c.sectors, c.authentication.value))
  }

  /** What a slot's stored bytes must be. */
  predicate StoredSlotOk(slot: Slot, bytes: Bytes) {
    match slot
    case Data(source) =>
      && source.logicalLen <= |bytes| && AllZero(bytes[source.logicalLen..])
      && FlatHash(bytes[..source.logicalLen]) == source.contentHash
    case VirtualZero(zero) =>
      && AllZero(bytes)
      && (zero.Some? ==>
            zero.value.logicalLen <= |bytes| && FlatHash(bytes[..zero.value.logicalLen]) == zero.value.contentHash)
  }

  predicate StoredOk(p: Profile, formatVersion: nat, packed: PackedSector) {
    && |packed.bytes| == p.sectorSize
    && (formatVersion < 3 ==> FlatHash(packed.bytes) == packed.descriptor.flatRoot)
    && CommitSpec(packed.bytes) == Ok(packed.descriptor.commitment)
    && forall k :: 0 <= k < |packed.descriptor.slots| ==> StoredSlotAt(p, packed, k)
  }

  predicate StoredSlotAt(p: Profile, packed: PackedSector, k: nat)
    requires k < |packed.descriptor.slots|
  {
    && Start(k, p.slotSize) + p.slotSize <= |packed.bytes|
    && StoredSlotOk(packed.descriptor.slots[k], PartAt(packed.bytes, p.slotSize, k))
  }

  /** `PackingResult::validate`. */
  predicate ValidResult(r: PackingResult) {
    && ValidCatalog(r.catalog)
    && |r.sectors| == |r.catalog.sectors|
    && forall s :: 0 <= s < |r.sectors| ==>
         r.sectors[s].descriptor == r.catalog.sectors[s]
         && StoredOk(r.catalog.profile, r.catalog.formatVersion, r.sectors[s])
  }

  lemma ValidIsUsable(p: Profile, previous: Option<Catalog>)
    requires ValidProfile(p)
    requires previous.Some? ==> ValidCatalog(previous.value) && previous.value.profile == p
    ensures UsablePrevious(p, previous)
  {
  }

  // ---------------------------------------------------------------- built catalogs

  ghost function BuildResult(p: Profile, previous: Option<Catalog>, m: Objects): PackingResult
    requires ValidProfile(p) && UsablePrevious(p, previous) && GoodObjects(p, m)
  {
    PackingResult(BuildCatalog(p, previous, m), BuildPacked(p, previous, m))
  }

  lemma SlotIdsOfSlotsFor(p: Profile, m: Objects, places: Assignments)
    requires ValidProfile(p) && GoodObjects(p, m) && Covered(ChunkMap(p, m), places)
    ensures SlotIds(SlotsFor(ChunkMap(p, m), places)) == places
  {
    var chunks := ChunkMap(p, m);
    forall i | 0 <= i < |places| && places[i].Some? ensures chunks[places[i].value].source.id == places[i].value {
      var id := places[i].value;
      assert id == IdOf(KeyOf(id), id.chunkIndex);
    }
  }

  lemma BuiltCount(p: Profile, previous: Option<Catalog>, m: Objects)
    requires ValidProfile(p) && UsablePrevious(p, previous) && GoodObjects(p, m)
    ensures SlotsPerSector(p) >= 1
    ensures |BuiltSlots(p, previous, m)| == Start(|BuildPacked(p, previous, m)|, SlotsPerSector(p))
  {
    BuiltSlotsFacts(p, previous, m);
  }

  /** Laying out sectors and reading the ids back gives the planned slots. */
  lemma BuiltIds(p: Profile, previous: Option<Catalog>, m: Objects)
    requires ValidProfile(p) && UsablePrevious(p, previous) && GoodObjects(p, m)
    ensures FlatIds(Descriptors(BuildPacked(p, previous, m))) == BuiltSlots(p, previous, m)
  {
    BuiltCount(p, previous, m);
    var sectors := Descriptors(BuildPacked(p, previous, m));
    forall s | 0 <= s < |sectors|
      ensures HasPlaces(sectors[s], BuiltSlots(p, previous, m), SlotsPerSector(p), s)
    {
      BuiltSectorPlaces(p, previous, m, s);
    }
    LayoutIds(sectors, BuiltSlots(p, previous, m), SlotsPerSector(p));
  }

  /** The sector's slots hold the ids planned for it. */
  ghost predicate HasPlaces(d: SectorDescriptor, a: Assignments, sps: nat, s: nat) {
    Start(s, sps) + sps <= |a| && |d.slots| == sps && SlotIds(d.slots) == Content(a, sps, s)
  }

  lemma BuiltSectorPlaces(p: Profile, previous: Option<Catalog>, m: Objects, s: nat)
    requires ValidProfile(p) && UsablePrevious(p, previous) && GoodObjects(p, m)
    requires s < |BuildPacked(p, previous, m)|
    ensures HasPlaces(BuildPacked(p, previous, m)[s].descriptor, BuiltSlots(p, previous, m), SlotsPerSector(p), s)
  {
    BuiltSector(p, previous, m, s);
    BuiltSectorIds(p, m, s, Content(BuiltSlots(p, previous, m), SlotsPerSector(p), s), Authenticated(m));
  }

  lemma BuiltSectorIds(p: Profile, m: Objects, s: nat, places: Assignments, authenticated: bool)
    requires ValidProfile(p) && GoodObjects(p, m) && |places| == SlotsPerSector(p)
    requires Covered(ChunkMap(p, m), places) && Fits(ChunkMap(p, m), p.slotSize)
    ensures var slots := BuildSector(p, s, places, ChunkMap(p, m), authenticated).descriptor.slots;
            |slots| == |places| && SlotIds(slots) == places
  {
    SlotIdsOfSlotsFor(p, m, places);
  }

  lemma LayoutIds(sectors: seq<SectorDescriptor>, a: Assignments, sps: nat)
    requires sps >= 1 && |a| == Start(|sectors|, sps)
    requires forall s :: 0 <= s < |sectors| ==> HasPlaces(sectors[s], a, sps, s)
    ensures FlatIds(sectors) == a
  {
    FlatLength(sectors, sps);
    forall i | 0 <= i < |a| ensures FlatIds(sectors)[i] == a[i] {
      var s := FlatSector(|sectors|, sps, i);
      assert HasPlaces(sectors[s], a, sps, s);
      LayoutIdAt(sectors, a, sps, s, i);
    }
  }

  lemma LayoutIdAt(sectors: seq<SectorDescriptor>, a: Assignments, sps: nat, s: nat, i: nat)
    requires sps >= 1 && Uniform(sectors, sps) && s < |sectors| && HasPlaces(sectors[s], a, sps, s)
    requires Start(s, sps) <= i < Start(s, sps) + sps
    ensures i < |FlatIds(sectors)| && FlatIds(sectors)[i] == a[i]
  {
    FlatAt(sectors, sps, s, i - Start(s, sps));
    assert Content(a, sps, s)[i - Start(s, sps)] == a[i];
  }

  /** One built sector, spelled out. */
  lemma BuiltSector(p: Profile, previous: Option<Catalog>, m: Objects, s: nat)
    requires ValidProfile(p) && UsablePrevious(p, previous) && GoodObjects(p, m)
    requires s < |BuildPacked(p, previous, m)|
    ensures var a, sps := BuiltSlots(p, previous, m), SlotsPerSector(p);
            && Start(s, sps) + sps <= |a|
            && Covered(ChunkMap(p, m), Content(a, sps, s)) && Fits(ChunkMap(p, m), p.slotSize)
            && BuildPacked(p, previous, m)[s] == BuildSector(p, s, Content(a, sps, s), ChunkMap(p, m), Authenticated(m))
  {
    BuiltSlotsFacts(p, previous, m);
    var a, sps := BuiltSlots(p, previous, m), SlotsPerSector(p);
    StartOrder(s, Count(|a|, sps), sps);
    ContentCovered(ChunkMap(p, m), a, sps, s);
  }

  /** A built sector is a function of the places planned for it. */
  lemma BuiltPlaces(p: Profile, previous: Option<Catalog>, m: Objects, s: nat) returns (places: Assignments)
    requires ValidProfile(p) && UsablePrevious(p, previous) && GoodObjects(p, m)
    requires s < |BuildPacked(p, previous, m)|
    ensures |places| == SlotsPerSector(p) && Covered(ChunkMap(p, m), places) && Fits(ChunkMap(p, m), p.slotSize)
    ensures BuildPacked(p, previous, m)[s] == BuildSector(p, s, places, ChunkMap(p, m), Authenticated(m))
  {
    BuiltSector(p, previous, m, s);
    places := Content(BuiltSlots(p, previous, m), SlotsPerSector(p), s);
  }

  lemma BuiltDescriptorOk(p: Profile, m: Objects, s: nat, places: Assignments, authenticated: bool)
    requires ValidProfile(p) && GoodObjects(p, m) && |places| == SlotsPerSector(p)
    requires Covered(ChunkMap(p, m), places) && Fits(ChunkMap(p, m), p.slotSize)
    ensures var d := BuildSector(p, s, places, ChunkMap(p, m), authenticated).descriptor;
            DescriptorOk(p, if authenticated then 3 else 1, s, d) && SlotsOk(p, d.slots)
  {
    ProfileFacts(p);
    ChunksFit(p, m);
    var chunks := ChunkMap(p, m);
    var d := BuildSector(p, s, places, chunks, authenticated).descriptor;
    forall k | 0 <= k < |d.slots| && d.slots[k].Source().Some? ensures SourceOk(p, d.slots[k].Source().value) {
      var id := places[k].value;
      assert id in chunks && id == IdOf(KeyOf(id), id.chunkIndex);
    }
  }

  /** The stored bytes of one placed chunk match its slot. */
  lemma PlacedBytesOk(p: Profile, m: Objects, place: Option<ChunkId>)
    requires ValidProfile(p) && GoodObjects(p, m) && (place.Some? ==> place.value in ChunkMap(p, m))
    requires Fits(ChunkMap(p, m), p.slotSize)
    ensures StoredSlotOk(SlotFor(ChunkMap(p, m), place), PlaceBytes(ChunkMap(p, m), p.slotSize, place))
  {
    if place.Some? {
      var chunk := ChunkMap(p, m)[place.value];
      var bytes := Pad(chunk.bytes, p.slotSize);
      assert bytes[..|chunk.bytes|] == chunk.bytes;
      assert bytes[|chunk.bytes|..] == Zeros(p.slotSize - |chunk.bytes|);
    }
  }

  lemma BuiltBytesOk(p: Profile, m: Objects, s: nat, places: Assignments, authenticated: bool)
    requires ValidProfile(p) && GoodObjects(p, m) && |places| == SlotsPerSector(p)
    requires Covered(ChunkMap(p, m), places) && Fits(ChunkMap(p, m), p.slotSize)
    ensures StoredOk(p, if authenticated then 3 else 1, BuildSector(p, s, places, ChunkMap(p, m), authenticated))
  {
    ProfileFacts(p);
    var chunks := ChunkMap(p, m);
    var packed := BuildSector(p, s, places, chunks, authenticated);
    forall k | 0 <= k < |packed.descriptor.slots| ensures StoredSlotAt(p, packed, k) {
      JoinedSlot(chunks, p.slotSize, places, k);
      PlacedBytesOk(p, m, places[k]);
    }
  }

  lemma NoGapsInChunks(p: Profile, m: Objects)
    requires p.slotSize >= 1
    ensures NoGaps(ChunkIds(p, m))
  {
    forall id | id in ChunkIds(p, m) && id.chunkIndex > 0
      ensures id.(chunkIndex := id.chunkIndex - 1) in ChunkIds(p, m)
    {
      assert Wanted(p, m, id) && KeyOf(id.(chunkIndex := id.chunkIndex - 1)) == KeyOf(id);
    }
  }

  /** Everything but the proofs and the revision number always passes. */
  lemma BuiltStructureAt(p: Profile, previous: Option<Catalog>, m: Objects, s: nat)
    requires ValidProfile(p) && UsablePrevious(p, previous) && GoodObjects(p, m)
    requires s < |BuildPacked(p, previous, m)|
    ensures var d := BuildPacked(p, previous, m)[s].descriptor;
            DescriptorOk(p, if Authenticated(m) then 3 else 1, s, d) && SlotsOk(p, d.slots)
  {
    var places := BuiltPlaces(p, previous, m, s);
    BuiltDescriptorOk(p, m, s, places, Authenticated(m));
  }

  lemma BuiltIdsOk(p: Profile, previous: Option<Catalog>, m: Objects)
    requires ValidProfile(p) && UsablePrevious(p, previous) && GoodObjects(p, m)
    ensures var ids := FlatIds(Descriptors(BuildPacked(p, previous, m)));
            && Distinct(ids) && IdsIn(ids) == ChunkIds(p, m) && NoGaps(IdsIn(ids))
            && SlotsPerSector(p) >= 1 && EndsOccupied(ids, SlotsPerSector(p))
  {
    BuiltSlotsFacts(p, previous, m);
    BuiltIds(p, previous, m);
    NoGapsInChunks(p, m);
  }

  lemma BuiltStructureOk(p: Profile, previous: Option<Catalog>, m: Objects)
    requires ValidProfile(p) && UsablePrevious(p, previous) && GoodObjects(p, m)
    ensures var c := BuildCatalog(p, previous, m);
            && (forall s :: 0 <= s < |c.sectors| ==> DescriptorOk(p, c.formatVersion, s, c.sectors[s]))
            && (forall s :: 0 <= s < |c.sectors| ==> SlotsOk(p, c.sectors[s].slots))
            && Distinct(FlatIds(c.sectors)) && IdsIn(FlatIds(c.sectors)) == ChunkIds(p, m)
            && SlotsPerSector(p) >= 1 && EndsOccupied(FlatIds(c.sectors), SlotsPerSector(p))
            && NoGaps(IdsIn(FlatIds(c.sectors)))
  {
    var c := BuildCatalog(p, previous, m);
    forall s | 0 <= s < |c.sectors|
      ensures DescriptorOk(p, c.formatVersion, s, c.sectors[s]) && SlotsOk(p, c.sectors[s].slots)
    {
      BuiltStructureAt(p, previous, m, s);
    }
    BuiltIdsOk(p, previous, m);
  }

  lemma BuiltStorageAt(p: Profile, previous: Option<Catalog>, m: Objects, s: nat)
    requires ValidProfile(p) && UsablePrevious(p, previous) && GoodObjects(p, m)
    requires s < |BuildPacked(p, previous, m)|
    ensures StoredOk(p, if Authenticated(m) then 3 else 1, BuildPacked(p, previous, m)[s])
  {
    var places := BuiltPlaces(p, previous, m, s);
    BuiltBytesOk(p, m, s, places, Authenticated(m));
  }

  lemma BuiltStorageOk(p: Profile, previous: Option<Catalog>, m: Objects)
    requires ValidProfile(p) && UsablePrevious(p, previous) && GoodObjects(p, m)
    ensures forall s :: 0 <= s < |BuildPacked(p, previous, m)| ==>
              StoredOk(p, if Authenticated(m) then 3 else 1, BuildPacked(p, previous, m)[s])
  {
    forall s | 0 <= s < |BuildPacked(p, previous, m)|
      ensures StoredOk(p, if Authenticated(m) then 3 else 1, BuildPacked(p, previous, m)[s])
    {
      BuiltStorageAt(p, previous, m, s);
    }
  }

  // ---------------------------------------------------------------- proofs of built catalogs

  /** A committed chunk is a full slot, and its proof's subtree is the root of its bytes. */
  lemma ProofRoot(p: Profile, input: Input, k: nat)
    requires ValidProfile(p) && InputOk(p, input) && input.sourceCommitment.Some? && k < ChunkCount(p, input.bytes)
    ensures Start(k, p.slotSize) + p.slotSize <= |input.bytes|
    ensures |ChunkBytes(p, input.bytes, k)| == p.slotSize
    ensures MakeAuthentication(p, input, k).value.proof.subtreeRoot == BytesRoot(ChunkBytes(p, input.bytes, k))
  {
    CommittedChunkOpens(p, input, k);
    OpenedSlice(p, input.bytes, Start(k, SlotLeaves(p)));
    assert ChunkBytes(p, input.bytes, k) == input.bytes[Start(k, p.slotSize)..Start(k, p.slotSize) + p.slotSize];
  }

  lemma OpenedSlice(p: Profile, bytes: Bytes, start: nat)
    requires ValidProfile(p) && ValidDataLength(|bytes|) && ValidRange(start, SlotLeaves(p), |bytes| / LEAF_SIZE)
    ensures LEAF_SIZE * start + p.slotSize <= |bytes|
    ensures OpenSubtreeSpec(bytes, start, SlotLeaves(p)).value.subtreeRoot
         == BytesRoot(bytes[LEAF_SIZE * start..LEAF_SIZE * start + p.slotSize])
  {
    ProfileFacts(p);
    OpenedRun(bytes, start, SlotLeaves(p));
  }

  lemma OpenedRun(bytes: Bytes, start: nat, count: nat)
    requires ValidDataLength(|bytes|) && ValidRange(start, count, |bytes| / LEAF_SIZE)
    ensures LEAF_SIZE * start + LEAF_SIZE * count <= |bytes|
    ensures OpenSubtreeSpec(bytes, start, count).value.subtreeRoot
         == BytesRoot(bytes[LEAF_SIZE * start..LEAF_SIZE * start + LEAF_SIZE * count])
  {
    SubtreeRootIsRootOfSlice(bytes, start, count);
    assert LEAF_SIZE * (start + count) == LEAF_SIZE * start + LEAF_SIZE * count;
  }

  /** The proof of one chunk fits a catalog exactly when its source is one sector long. */
  lemma EntryOkIff(p: Profile, input: Input, k: nat)
    requires ValidProfile(p) && InputOk(p, input) && input.sourceCommitment.Some? && k < ChunkCount(p, input.bytes)
    ensures EntryOk(p, MakeAuthentication(p, input, k).value) <==> |input.bytes| == p.sectorSize
  {
    CommittedChunkOpens(p, input, k);
    SubtreeAcceptedIff(input.bytes, MakeAuthentication(p, input, k).value.proof);
  }

  lemma ListedAt(p: Profile, m: Objects, i: nat)
    requires ValidProfile(p) && GoodObjects(p, m) && Authenticated(m) && i < |AuthenticationList(p, m)|
    ensures i < |SortedIds(ChunkIds(p, m))|
    ensures var id := SortedIds(ChunkIds(p, m))[i];
            && Wanted(p, m, id) && AuthenticationList(p, m)[i].id == id
            && AuthenticationList(p, m)[i] == MakeAuthentication(p, m[KeyOf(id)], id.chunkIndex).value
  {
    var id := SortedIds(ChunkIds(p, m))[i];
    assert id in SortedIds(ChunkIds(p, m));
    assert id == IdOf(KeyOf(id), id.chunkIndex);
  }

  /** The listed proofs are one per wanted chunk. */
  lemma ListedProofs(p: Profile, m: Objects)
    requires ValidProfile(p) && GoodObjects(p, m) && Authenticated(m)
    ensures EntryIds(AuthenticationList(p, m)) == ChunkIds(p, m) && EntriesDistinct(AuthenticationList(p, m))
  {
    var ids, auth := SortedIds(ChunkIds(p, m)), AuthenticationList(p, m);
    forall i | 0 <= i < |auth| ensures auth[i].id == ids[i] { ListedAt(p, m, i); }
    SortedEntries(ids, auth);
    assert forall id :: id in EntryIds(auth) <==> id in ids;
  }

  lemma SortedEntries(ids: seq<ChunkId>, auth: seq<Authentication>)
    requires Sorting.Ascending(ids, IdLess) && |ids| == |auth|
    requires forall i :: 0 <= i < |auth| ==> auth[i].id == ids[i]
    ensures forall id :: id in EntryIds(auth) <==> id in ids
    ensures EntriesDistinct(auth)
  {
    forall id | id in ids ensures id in EntryIds(auth) {
      var i :| 0 <= i < |ids| && ids[i] == id;
      assert auth[i].id == id;
    }
    forall i, j | 0 <= i < j < |auth| ensures auth[i].id != auth[j].id {
      assert IdLess(ids[i], ids[j]);
    }
  }

  /** The proof on file for a wanted chunk is the one made for it. */
  lemma EntryOf(p: Profile, m: Objects, id: ChunkId)
    requires ValidProfile(p) && GoodObjects(p, m) && Authenticated(m) && Wanted(p, m, id)
    ensures id in EntryIds(AuthenticationList(p, m))
    ensures EntryFor(AuthenticationList(p, m), id) == MakeAuthentication(p, m[KeyOf(id)], id.chunkIndex).value
  {
    var auth := AuthenticationList(p, m);
    ListedProofs(p, m);
    var e := EntryFor(auth, id);
    var i :| 0 <= i < |auth| && auth[i] == e;
    ListedAt(p, m, i);
  }

  lemma EntriesOkIff(p: Profile, m: Objects)
    requires ValidProfile(p) && GoodObjects(p, m) && Authenticated(m)
    ensures (forall i :: 0 <= i < |AuthenticationList(p, m)| ==> EntryOk(p, AuthenticationList(p, m)[i])) <==>
            (forall key :: key in m ==> |m[key].bytes| == p.sectorSize)
  {
    var auth := AuthenticationList(p, m);
    forall i | 0 <= i < |auth|
      ensures KeyOf(auth[i].id) in m && (EntryOk(p, auth[i]) <==> |m[KeyOf(auth[i].id)].bytes| == p.sectorSize)
    {
      ListedAt(p, m, i);
      EntryOkIff(p, m[KeyOf(auth[i].id)], auth[i].id.chunkIndex);
    }
    forall key | key in m ensures exists i :: 0 <= i < |auth| && KeyOf(auth[i].id) == key {
      FirstChunkListed(p, m, key);
    }
  }

  lemma FirstChunkListed(p: Profile, m: Objects, key: ObjectKey)
    requires ValidProfile(p) && GoodObjects(p, m) && Authenticated(m) && key in m
    ensures exists i :: 0 <= i < |AuthenticationList(p, m)| && KeyOf(AuthenticationList(p, m)[i].id) == key
  {
    assert CeilDiv(|m[key].bytes|, p.slotSize) >= 1;
    assert Wanted(p, m, IdOf(key, 0)) && KeyOf(IdOf(key, 0)) == key;
    ListedProofs(p, m);
    assert IdOf(key, 0) in EntryIds(AuthenticationList(p, m));
  }

  /** The slot of a place is proved, and its root is the root of the bytes stored there. */
  ghost predicate RootedPlace(p: Profile, auth: seq<Authentication>, chunks: Chunks, place: Option<ChunkId>)
    requires place.Some? ==> place.value in chunks && |chunks[place.value].bytes| <= p.slotSize
  {
    && SlotProved(p, auth, SlotFor(chunks, place))
    && SlotRoot(p, auth, SlotFor(chunks, place)) == BytesRoot(PlaceBytes(chunks, p.slotSize, place))
  }

  /** A slot is proved when its proof opens to the root of the chunk's full bytes. */
  lemma SlotIsProved(p: Profile, auth: seq<Authentication>, chunks: Chunks, id: ChunkId)
    requires id in chunks && id in EntryIds(auth) && chunks[id].source.id == id
    requires |chunks[id].bytes| == p.slotSize == chunks[id].source.logicalLen
    requires EntryFor(auth, id).proof.subtreeRoot == BytesRoot(chunks[id].bytes)
    requires chunks[id].virtualZero ==> AllZero(chunks[id].bytes)
    ensures RootedPlace(p, auth, chunks, Some(id))
  {
    assert Pad(chunks[id].bytes, p.slotSize) == chunks[id].bytes;
    if chunks[id].virtualZero { AllZeroIsZeros(chunks[id].bytes); }
  }

  /** A placed chunk's slot is proved, and its root is the root of the stored slot bytes. */
  lemma PlacedChunkRoot(p: Profile, m: Objects, id: ChunkId)
    requires ValidProfile(p) && GoodObjects(p, m) && Authenticated(m)
    requires id in ChunkMap(p, m) && Fits(ChunkMap(p, m), p.slotSize)
    ensures RootedPlace(p, AuthenticationList(p, m), ChunkMap(p, m), Some(id))
  {
    EntryOf(p, m, id);
    ProofRoot(p, m[KeyOf(id)], id.chunkIndex);
    assert id == IdOf(KeyOf(id), id.chunkIndex);
    SlotIsProved(p, AuthenticationList(p, m), ChunkMap(p, m), id);
  }

  lemma EmptySlotRoot(p: Profile, auth: seq<Authentication>, chunks: Chunks)
    ensures RootedPlace(p, auth, chunks, None)
  {
  }

  lemma PlacedRoot(p: Profile, m: Objects, place: Option<ChunkId>)
    requires ValidProfile(p) && GoodObjects(p, m) && Authenticated(m)
    requires (place.Some? ==> place.value in ChunkMap(p, m)) && Fits(ChunkMap(p, m), p.slotSize)
    ensures RootedPlace(p, AuthenticationList(p, m), ChunkMap(p, m), place)
  {
    match place
    case Some(id) => PlacedChunkRoot(p, m, id);
    case None => EmptySlotRoot(p, AuthenticationList(p, m), ChunkMap(p, m));
  }

  /** The subtree roots of joined slots are the roots of the slots. */
  lemma JoinedRoots(p: Profile, chunks: Chunks, places: Assignments, k: nat)
    requires ValidProfile(p) && |places| == SlotsPerSector(p)
    requires Covered(chunks, places) && Fits(chunks, p.slotSize) && k < |places|
    ensures var bytes := JoinPlaces(chunks, p.slotSize, places);
            && ValidDataLength(|bytes|) && ValidDataLength(p.slotSize) && p.slotSize <= |bytes|
            && |SubtreeRoots(bytes, p.slotSize)| == |places|
            && SubtreeRoots(bytes, p.slotSize)[k] == BytesRoot(PlaceBytes(chunks, p.slotSize, places[k]))
  {
    ProfileFacts(p);
    JoinedSlot(chunks, p.slotSize, places, k);
    StartIsProduct(k, p.slotSize);
  }

  /** The roots of a built sector's slots compose to its commitment. */
  lemma BuiltSectorProved(p: Profile, m: Objects, s: nat, places: Assignments)
    requires ValidProfile(p) && GoodObjects(p, m) && Authenticated(m) && |places| == SlotsPerSector(p)
    requires Covered(ChunkMap(p, m), places) && Fits(ChunkMap(p, m), p.slotSize)
    ensures Proved(p, AuthenticationList(p, m), BuildSector(p, s, places, ChunkMap(p, m), true).descriptor)
  {
    ProfileFacts(p);
    var chunks, auth := ChunkMap(p, m), AuthenticationList(p, m);
    var slots, bytes := SlotsFor(chunks, places), JoinPlaces(chunks, p.slotSize, places);
    forall k | 0 <= k < |slots| ensures SlotProved(p, auth, slots[k]) { PlacedRoot(p, m, places[k]); }
    forall k | 0 <= k < |slots| ensures SlotRoots(p, auth, slots)[k] == SubtreeRoots(bytes, p.slotSize)[k] {
      PlacedRoot(p, m, places[k]);
      JoinedRoots(p, chunks, places, k);
    }
    assert SlotRoots(p, auth, slots) == SubtreeRoots(bytes, p.slotSize);
    SubtreesComposeToCommitment(bytes, p.slotSize);
  }

  /**
   A freshly built result passes its own validation exactly when the revision number did not
   wrap and, if objects are authenticated, every object is exactly one sector long.
   */
  lemma BuiltResultValidIff(p: Profile, previous: Option<Catalog>, m: Objects)
    requires ValidProfile(p) && GoodObjects(p, m) && (Authenticated(m) || Unauthenticated(m))
    requires previous.Some? ==> ValidCatalog(previous.value) && previous.value.profile == p
    requires previous.Some? ==> previous.value.revision < U64_LIMIT
    ensures UsablePrevious(p, previous)
    ensures ValidResult(BuildResult(p, previous, m)) <==>
            && (previous.Some? ==> previous.value.revision + 1 < U64_LIMIT)
            && (Authenticated(m) ==> forall key :: key in m ==> |m[key].bytes| == p.sectorSize)
  {
    ValidIsUsable(p, previous);
    BuiltStructureOk(p, previous, m);
    BuiltStorageOk(p, previous, m);
    BuiltHeaderOk(p, previous, m);
    if Authenticated(m) { BuiltProofsOk(p, previous, m); }
    ValidAssembly(BuildCatalog(p, previous, m), BuildPacked(p, previous, m),
                  Authenticated(m) ==> forall key :: key in m ==> |m[key].bytes| == p.sectorSize);
  }

  lemma BuiltHeaderOk(p: Profile, previous: Option<Catalog>, m: Objects)
    requires ValidProfile(p) && UsablePrevious(p, previous) && GoodObjects(p, m)
    requires previous.Some? ==> 0 < previous.value.revision < U64_LIMIT
    ensures HeaderOk(BuildCatalog(p, previous, m)) <==> (previous.Some? ==> previous.value.revision + 1 < U64_LIMIT)
  {
    HeaderOkIff(BuildCatalog(p, previous, m), previous);
  }

  lemma HeaderOkIff(c: Catalog, previous: Option<Catalog>)
    requires FormatOk(c) && c.id == CalculateId(c) && c.revision == NextRevision(previous)
    requires c.parent == if previous.Some? then Some(previous.value.id) else None
    requires previous.Some? ==> 0 < previous.value.revision < U64_LIMIT
    ensures HeaderOk(c) <==> (previous.Some? ==> previous.value.revision + 1 < U64_LIMIT)
  {
  }

  /** Validation is the conjunction of its parts. */
  lemma ValidAssembly(c: Catalog, packed: seq<PackedSector>, proved: bool)
    requires ValidProfile(c.profile) && c.sectors == Descriptors(packed)
    requires forall s :: 0 <= s < |c.sectors| ==> DescriptorOk(c.profile, c.formatVersion, s, c.sectors[s])
    requires forall s :: 0 <= s < |c.sectors| ==> SlotsOk(c.profile, c.sectors[s].slots)
    requires Distinct(FlatIds(c.sectors)) && NoGaps(IdsIn(FlatIds(c.sectors)))
    requires SlotsPerSector(c.profile) >= 1 && EndsOccupied(FlatIds(c.sectors), SlotsPerSector(c.profile))
    requires forall s :: 0 <= s < |packed| ==> StoredOk(c.profile, c.formatVersion, packed[s])
    requires c.formatVersion == 1 || c.formatVersion == 3
    requires c.formatVersion == 1 ==> proved
    requires c.formatVersion == 3 ==> (
               && c.authentication.Some?
               && (AuthenticationOk(c.profile, c.sectors, c.authentication.value) <==> proved))
    ensures ValidResult(PackingResult(c, packed)) <==> HeaderOk(c) && proved
  {
  }

  lemma BuiltProofsOk(p: Profile, previous: Option<Catalog>, m: Objects)
    requires ValidProfile(p) && UsablePrevious(p, previous) && GoodObjects(p, m) && Authenticated(m)
    ensures AuthenticationOk(p, Descriptors(BuildPacked(p, previous, m)), AuthenticationList(p, m)) <==>
            forall key :: key in m ==> |m[key].bytes| == p.sectorSize
  {
    ListedProofs(p, m);
    EntriesOkIff(p, m);
    BuiltIdsOk(p, previous, m);
    BuiltSectorsProved(p, previous, m);
    ProofsAssembly(p, Descriptors(BuildPacked(p, previous, m)), AuthenticationList(p, m),
                   forall key :: key in m ==> |m[key].bytes| == p.sectorSize);
  }

  /** `SectorProved`, folded. */
  ghost predicate Proved(p: Profile, auth: seq<Authentication>, d: SectorDescriptor) {
    forall x {:trigger SectorProved(p, auth, x)} :: x == d ==> SectorProved(p, auth, x)
  }

  ghost predicate AllProved(p: Profile, auth: seq<Authentication>, sectors: seq<SectorDescriptor>) {
    forall s: nat {:trigger Proved(p, auth, sectors[s])} :: s < |sectors| ==> Proved(p, auth, sectors[s])
  }

  lemma ProofsAssembly(p: Profile, sectors: seq<SectorDescriptor>, auth: seq<Authentication>, fits: bool)
    requires EntriesDistinct(auth) && EntryIds(auth) == IdsIn(FlatIds(sectors))
    requires AllProved(p, auth, sectors)
    requires (forall i :: 0 <= i < |auth| ==> EntryOk(p, auth[i])) <==> fits
    ensures AuthenticationOk(p, sectors, auth) <==> fits
  {
    forall s | 0 <= s < |sectors| ensures SectorProved(p, auth, sectors[s]) { assert Proved(p, auth, sectors[s]); }
  }

  lemma BuiltSectorsProved(p: Profile, previous: Option<Catalog>, m: Objects)
    requires ValidProfile(p) && UsablePrevious(p, previous) && GoodObjects(p, m) && Authenticated(m)
    ensures AllProved(p, AuthenticationList(p, m), Descriptors(BuildPacked(p, previous, m)))
  {
    var sectors := Descriptors(BuildPacked(p, previous, m));
    forall s: nat | s < |sectors| ensures Proved(p, AuthenticationList(p, m), sectors[s]) {
      BuiltSectorProvedAt(p, previous, m, s);
    }
  }

  lemma BuiltSectorProvedAt(p: Profile, previous: Option<Catalog>, m: Objects, s: nat)
    requires ValidProfile(p) && UsablePrevious(p, previous) && GoodObjects(p, m) && Authenticated(m)
    requires s < |BuildPacked(p, previous, m)|
    ensures Proved(p, AuthenticationList(p, m), BuildPacked(p, previous, m)[s].descriptor)
  {
    var places := BuiltPlaces(p, previous, m, s);
    BuiltSectorProved(p, m, s, places);
  }

  /** An object of one slot, as its input. */
  function OneSlot(p: Profile, key: ObjectKey): Input
    requires ValidProfile(p)
  {
    var bytes := Zeros(p.slotSize);
    SizeIsDataLength(p.slotSize);
    Input(key, Some(CommitSpec(bytes).value), bytes)
  }

  lemma OneSlotIsOk(p: Profile, key: ObjectKey)
    requires ValidProfile(p) && key.owner != 0 && key.protectedRoot != 0 && key.objectId != 0
    ensures InputOk(p, OneSlot(p, key)) && |OneSlot(p, key).bytes| == p.slotSize
  {
    SizeIsDataLength(p.slotSize);
    assert ChunkCount(p, OneSlot(p, key).bytes) == 1;
  }

  /** The packer accepts a committed object of one slot and then refuses its own result, unless a slot is a sector. */
  lemma ShortObjectIsRefused(p: Profile, key: ObjectKey)
    requires ValidProfile(p) && p.slotSize < p.sectorSize
    requires key.owner != 0 && key.protectedRoot != 0 && key.objectId != 0
    ensures var m := map[key := OneSlot(p, key)];
            GoodObjects(p, m) && Authenticated(m) && UsablePrevious(p, None) && !ValidResult(BuildResult(p, None, m))
  {
    var m := map[key := OneSlot(p, key)];
    OneSlotIsOk(p, key);
    assert key in m;
    BuiltResultValidIff(p, None, m);
  }
}
