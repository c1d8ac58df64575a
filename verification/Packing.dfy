/**
 Packed catalogs: profiles, source chunks, slots, sectors, their validation, and the catalog
 that one packing run builds from the previous catalog and the wanted objects.
 Identifiers are ideal hashes: an id is the record that was hashed.
 */
module Packing {
  import opened Base
  import opened Merkle
  import opened MerkleSuite
  import opened Allocator
  import opened Placement

  const MAX_PACKED_CHUNKS: nat := 1_000_000

  datatype PackingError =
    | InvalidProfile | InvalidInput | InvalidCatalog | ProfileChanged | TooManyChunks | MissingObject

  // ---------------------------------------------------------------- records

  datatype Profile = Profile(formatVersion: nat, sectorSize: nat, slotSize: nat)

  /** One object inside one protected root of one owner. */
  datatype ObjectKey = ObjectKey(owner: NodeId, protectedRoot: nat, objectId: nat)

  datatype Input = Input(key: ObjectKey, sourceCommitment: Option<Commitment>, bytes: Bytes)

  datatype AuthenticatedSource = AuthenticatedSource(key: ObjectKey, sourceCommitment: Commitment)

  datatype SourceChunk = SourceChunk(id: ChunkId, sourceOffset: nat, logicalLen: nat, contentHash: Digest)

  datatype Slot = Data(source: SourceChunk) | VirtualZero(zero: Option<SourceChunk>) {
    function Source(): Option<SourceChunk> {
      match this
      case Data(source) => Some(source)
      case VirtualZero(zero) => zero
    }
  }

  datatype Authentication = Authentication(id: ChunkId, sourceCommitment: Commitment, proof: SubtreeProof)

  datatype PackingId =
    | NoId
    | SectorId(profile: Profile, sectorIndex: nat, flatRoot: Digest, commitment: Commitment, slots: seq<Slot>)
    | CatalogId(formatVersion: nat, revision: nat, parent: Option<PackingId>, profile: Profile,
                sectors: seq<SectorDescriptor>, authentication: Option<seq<Authentication>>,
                hasBindings: bool, hasAttestations: bool)

  datatype SectorDescriptor =
    SectorDescriptor(id: PackingId, sectorIndex: nat, flatRoot: Digest, commitment: Commitment, slots: seq<Slot>)

  /** Formats four and five also carry migration evidence, of which only the presence is kept. */
  datatype Catalog =
    Catalog(id: PackingId, formatVersion: nat, revision: nat, parent: Option<PackingId>, profile: Profile,
            sectors: seq<SectorDescriptor>, authentication: Option<seq<Authentication>>,
            hasBindings: bool, hasAttestations: bool)

  datatype PackedSector = PackedSector(descriptor: SectorDescriptor, bytes: Bytes)

  datatype PackingResult = PackingResult(catalog: Catalog, sectors: seq<PackedSector>)

  datatype InputChunk =
    InputChunk(source: SourceChunk, authentication: Option<Authentication>, bytes: Bytes, virtualZero: bool)

  function KeyOf(id: ChunkId): ObjectKey {
    ObjectKey(id.owner, id.protectedRoot, id.objectId)
  }

  function IdOf(key: ObjectKey, chunk: nat): ChunkId {
    ChunkId(key.owner, key.protectedRoot, key.objectId, chunk)
  }

  // ---------------------------------------------------------------- profiles

  predicate ValidProfile(p: Profile) {
    && p.formatVersion == 1
    && LEAF_SIZE <= p.sectorSize <= MAX_MERKLE_BYTES && PowerOfTwo(p.sectorSize)
    && LEAF_SIZE <= p.slotSize <= p.sectorSize && PowerOfTwo(p.slotSize)
    && p.sectorSize % p.slotSize == 0
  }

  function SlotsPerSector(p: Profile): nat
    requires p.slotSize >= 1
  {
    p.sectorSize / p.slotSize
  }

  /** Leaves per slot. */
  function SlotLeaves(p: Profile): nat {
    p.slotSize / LEAF_SIZE
  }

  lemma WholeLeaves(n: nat)
    requires ValidDataLength(n)
    ensures n / LEAF_SIZE >= 1 && n == LEAF_SIZE * (n / LEAF_SIZE)
  {
  }

  lemma WholeSlots(sectorSize: nat, slotSize: nat)
    requires 1 <= slotSize <= sectorSize && sectorSize % slotSize == 0
    ensures sectorSize / slotSize >= 1 && Start(sectorSize / slotSize, slotSize) == sectorSize
  {
    StartIsProduct(sectorSize / slotSize, slotSize);
  }

  lemma ProfileFacts(p: Profile)
    requires ValidProfile(p)
    ensures ValidDataLength(p.sectorSize) && ValidDataLength(p.slotSize)
    ensures SlotsPerSector(p) >= 1 && Start(SlotsPerSector(p), p.slotSize) == p.sectorSize
    ensures SlotLeaves(p) >= 1 && IsPow2(SlotLeaves(p)) && p.slotSize == LEAF_SIZE * SlotLeaves(p)
  {
    SizeIsDataLength(p.sectorSize);
    SizeIsDataLength(p.slotSize);
    LeafCountIsPow2(p.slotSize);
    WholeLeaves(p.slotSize);
    WholeSlots(p.sectorSize, p.slotSize);
  }

  lemma FewSlots(p: Profile)
    requires ValidProfile(p)
    ensures SlotsPerSector(p) <= MAX_PACKED_CHUNKS
  {
    ProfileFacts(p);
    WidthIsPow2(p.sectorSize, p.slotSize);
    assert Pow2(9) == 512;
    Pow2Add(9, 9);
  }

  // ---------------------------------------------------------------- chunks of an object

  function ChunkCount(p: Profile, bytes: Bytes): nat
    requires p.slotSize >= 1
  {
    CeilDiv(|bytes|, p.slotSize)
  }

  /** Chunk `k` of `bytes`, as `chunks(slot_size)` yields it. */
  function ChunkBytes(p: Profile, bytes: Bytes, k: nat): Bytes
    requires Start(k, p.slotSize) <= |bytes|
  {
    bytes[Start(k, p.slotSize)..MinNat(Start(k, p.slotSize) + p.slotSize, |bytes|)]
  }

  function MinNat(a: nat, b: nat): nat {
    if a <= b then a else b
  }

  lemma {:induction false} ChunkStarts(len: nat, slot: nat, k: nat)
    requires slot >= 1 && k < CeilDiv(len, slot)
    ensures Start(k, slot) < len
    ensures k + 1 < CeilDiv(len, slot) ==> Start(k, slot) + slot <= len
    ensures k + 1 == CeilDiv(len, slot) ==> len <= Start(k, slot) + slot
  {
    RoundUpIsStart(len, slot);
    if k + 1 < CeilDiv(len, slot) {
      StartOrder(k, CeilDiv(len, slot) - 1, slot);
    }
  }

  /** What the packer demands of one input. */
  predicate InputOk(p: Profile, input: Input)
    requires p.slotSize >= 1
  {
    && input.key.owner != 0 && input.key.protectedRoot != 0 && input.key.objectId != 0
    && input.bytes != []
    && (input.sourceCommitment.Some? ==>
          && input.sourceCommitment.value.byteLen == Low32(|input.bytes|)
          && CommitSpec(input.bytes) == Ok(input.sourceCommitment.value)
          && p.slotSize <= |input.bytes|)
    && (forall k :: 0 <= k < ChunkCount(p, input.bytes) ==> Start(k, SlotLeaves(p)) < U32_LIMIT)
  }

  lemma {:induction false} StartScales(k: nat, n: nat, m: nat)
    ensures Start(k, m * n) == m * Start(k, n)
  {
    if k > 0 { StartScales(k - 1, n, m); }
  }

  /** Every chunk of a committed input can be opened, and is a full slot. */
  lemma CommittedChunkOpens(p: Profile, input: Input, k: nat)
    requires ValidProfile(p) && InputOk(p, input) && input.sourceCommitment.Some?
    requires k < ChunkCount(p, input.bytes)
    ensures ValidDataLength(|input.bytes|)
    ensures Start(k, p.slotSize) + p.slotSize <= |input.bytes|
    ensures Start(k, p.slotSize) == LEAF_SIZE * Start(k, SlotLeaves(p))
    ensures ValidRange(Start(k, SlotLeaves(p)), SlotLeaves(p), |input.bytes| / LEAF_SIZE)
    ensures OpenSubtreeSpec(input.bytes, Start(k, SlotLeaves(p)), SlotLeaves(p)).Ok?
  {
    ProfileFacts(p);
    StartScales(k, SlotLeaves(p), LEAF_SIZE);
    ChunkStarts(|input.bytes|, p.slotSize, k);
    StartIsProduct(k, SlotLeaves(p));
    MulDiv(SlotLeaves(p), k);
    CommittedLength(p, |input.bytes|);
    var n := ChunkCount(p, input.bytes);
    RoundUpIsStart(|input.bytes|, p.slotSize);
    if k < n - 1 { StartOrder(k, n - 1, p.slotSize); }
  }

  /** A power-of-two length of at least a slot is whole slots. */
  lemma CommittedLength(p: Profile, len: nat)
    requires ValidProfile(p) && ValidDataLength(len) && p.slotSize <= len
    ensures RoundUp(len, p.slotSize) == len
  {
    Pow2Quotient(len, p.slotSize);
    var q := len / p.slotSize;
    assert len == q * p.slotSize;
    StartIsProduct(q, p.slotSize);
    WholeRoundsToItself(q, p.slotSize);
  }

  lemma {:induction false} WholeRoundsToItself(n: nat, slot: nat)
    requires slot >= 1
    ensures RoundUp(Start(n, slot), slot) == Start(n, slot) && CeilDiv(Start(n, slot), slot) == n
  {
    if n > 0 { WholeRoundsToItself(n - 1, slot); }
  }

  function MakeSource(p: Profile, input: Input, k: nat): SourceChunk
    requires Start(k, p.slotSize) <= |input.bytes|
  {
    var chunk := ChunkBytes(p, input.bytes, k);
    SourceChunk(IdOf(input.key, k), Start(k, p.slotSize), |chunk|, FlatHash(chunk))
  }

  function MakeAuthentication(p: Profile, input: Input, k: nat): Option<Authentication>
    requires ValidProfile(p) && InputOk(p, input) && k < ChunkCount(p, input.bytes)
  {
    if input.sourceCommitment.None? then None
    else
      CommittedChunkOpens(p, input, k);
      Some(Authentication(IdOf(input.key, k), input.sourceCommitment.value,
                          OpenSubtreeSpec(input.bytes, Start(k, SlotLeaves(p)), SlotLeaves(p)).value))
  }

  function MakeChunk(p: Profile, input: Input, k: nat): InputChunk
    requires ValidProfile(p) && InputOk(p, input) && k < ChunkCount(p, input.bytes)
  {
    ChunkStarts(|input.bytes|, p.slotSize, k);
    var chunk := ChunkBytes(p, input.bytes, k);
    InputChunk(MakeSource(p, input, k), MakeAuthentication(p, input, k), chunk, AllZero(chunk))
  }

  // ---------------------------------------------------------------- wanted objects

  type Objects = map<ObjectKey, Input>

  /** Acceptable inputs, filed under their own keys. */
  ghost predicate GoodObjects(p: Profile, m: Objects)
    requires p.slotSize >= 1
  {
    forall key :: key in m ==> m[key].key == key && InputOk(p, m[key])
  }

  predicate Wanted(p: Profile, m: Objects, id: ChunkId)
    requires p.slotSize >= 1
  {
    KeyOf(id) in m && id.chunkIndex < ChunkCount(p, m[KeyOf(id)].bytes)
  }

  function ChunkIds(p: Profile, m: Objects): (r: set<ChunkId>)
    requires p.slotSize >= 1
    ensures forall id :: id in r <==> Wanted(p, m, id)
  {
    var r := set key, k | key in m && 0 <= k < ChunkCount(p, m[key].bytes) :: IdOf(key, k);
    assert forall id :: Wanted(p, m, id) ==> id == IdOf(KeyOf(id), id.chunkIndex);
    r
  }

  /** Every wanted chunk by its id. */
  function ChunkMap(p: Profile, m: Objects): (r: map<ChunkId, InputChunk>)
    requires ValidProfile(p) && GoodObjects(p, m)
    ensures r.Keys == ChunkIds(p, m)
    ensures forall id :: id in r ==> r[id] == MakeChunk(p, m[KeyOf(id)], id.chunkIndex)
  {
    map id | id in ChunkIds(p, m) :: MakeChunk(p, m[KeyOf(id)], id.chunkIndex)
  }

  // ---------------------------------------------------------------- slots and sector bytes

  type Chunks = map<ChunkId, InputChunk>

  /** Every placed id is a wanted chunk. */
  ghost predicate Covered(chunks: Chunks, a: Assignments) {
    forall i :: 0 <= i < |a| && a[i].Some? ==> a[i].value in chunks
  }

  function SlotFor(chunks: Chunks, place: Option<ChunkId>): Slot
    requires place.Some? ==> place.value in chunks
  {
    if place.None? then VirtualZero(None)
    else if chunks[place.value].virtualZero then VirtualZero(Some(chunks[place.value].source))
    else Data(chunks[place.value].source)
  }

  function SlotsFor(chunks: Chunks, places: Assignments): (r: seq<Slot>)
    requires Covered(chunks, places)
    ensures |r| == |places|
    ensures forall i :: 0 <= i < |r| ==> r[i] == SlotFor(chunks, places[i])
  {
    seq(|places|, i requires 0 <= i < |places| => SlotFor(chunks, places[i]))
  }

  function Pad(bytes: Bytes, size: nat): (r: Bytes)
    requires |bytes| <= size
    ensures |r| == size
  {
    bytes + Zeros(size - |bytes|)
  }

  /** The stored bytes of one slot: a padded chunk, or zeros. */
  function PlaceBytes(chunks: Chunks, size: nat, place: Option<ChunkId>): (r: Bytes)
    requires place.Some? ==> place.value in chunks && |chunks[place.value].bytes| <= size
    ensures |r| == size
  {
    if place.None? then Zeros(size) else Pad(chunks[place.value].bytes, size)
  }

  ghost predicate Fits(chunks: Chunks, size: nat) {
    forall id :: id in chunks ==> |chunks[id].bytes| <= size
  }

  /** Equal-sized parts, one after the other. */
  function JoinParts(parts: seq<Bytes>, size: nat): (r: Bytes)
    requires Sized(parts, size)
    ensures |r| == Start(|parts|, size)
  {
    if parts == [] then [] else JoinParts(parts[..|parts| - 1], size) + parts[|parts| - 1]
  }

  /** Part `k` of a buffer of equal-sized parts. */
  function PartAt(bytes: Bytes, size: nat, k: nat): Bytes
    requires Start(k, size) + size <= |bytes|
  {
    bytes[Start(k, size)..Start(k, size) + size]
  }

  lemma {:induction false} JoinedPart(parts: seq<Bytes>, size: nat, k: nat)
    requires Sized(parts, size) && k < |parts|
    ensures Start(k, size) + size <= |JoinParts(parts, size)|
    ensures PartAt(JoinParts(parts, size), size, k) == parts[k]
    decreases |parts|
  {
    var n := |parts| - 1;
    if k < n {
      JoinedPart(parts[..n], size, k);
      assert PartAt(JoinParts(parts, size), size, k) == PartAt(JoinParts(parts[..n], size), size, k);
    }
  }

  ghost predicate HasParts(bytes: Bytes, parts: seq<Bytes>, size: nat) {
    && Sized(parts, size) && |bytes| == Start(|parts|, size)
    && forall k :: 0 <= k < |parts| ==> Start(k, size) + size <= |bytes| && PartAt(bytes, size, k) == parts[k]
  }

  lemma FrontParts(bytes: Bytes, parts: seq<Bytes>, size: nat)
    requires HasParts(bytes, parts, size) && parts != []
    ensures var n := |parts| - 1;
            && HasParts(bytes[..Start(n, size)], parts[..n], size)
            && bytes == bytes[..Start(n, size)] + parts[n]
  {
    var n := |parts| - 1;
    var front := bytes[..Start(n, size)];
    assert PartAt(bytes, size, n) == parts[n];
    forall k | 0 <= k < n ensures Start(k, size) + size <= |front| && PartAt(front, size, k) == parts[k] {
      StartOrder(k, n, size);
      assert PartAt(front, size, k) == PartAt(bytes, size, k);
    }
  }

  /** A buffer is the join of its parts. */
  lemma {:induction false} PartsDetermine(bytes: Bytes, parts: seq<Bytes>, size: nat)
    requires HasParts(bytes, parts, size)
    ensures bytes == JoinParts(parts, size)
    decreases |parts|
  {
    if parts != [] {
      FrontParts(bytes, parts, size);
      PartsDetermine(bytes[..Start(|parts| - 1, size)], parts[..|parts| - 1], size);
    }
  }

  function PartsFor(chunks: Chunks, size: nat, places: Assignments): (r: seq<Bytes>)
    requires Covered(chunks, places) && Fits(chunks, size)
    ensures |r| == |places| && Sized(r, size)
    ensures forall k :: 0 <= k < |r| ==> r[k] == PlaceBytes(chunks, size, places[k])
  {
    seq(|places|, k requires 0 <= k < |places| => PlaceBytes(chunks, size, places[k]))
  }

  /** The bytes of consecutive slots. */
  function JoinPlaces(chunks: Chunks, size: nat, places: Assignments): (r: Bytes)
    requires Covered(chunks, places) && Fits(chunks, size)
    ensures |r| == Start(|places|, size)
  {
    JoinParts(PartsFor(chunks, size, places), size)
  }

  /** Slot `k` of the joined bytes is the slot's own bytes. */
  lemma JoinedSlot(chunks: Chunks, size: nat, places: Assignments, k: nat)
    requires Covered(chunks, places) && Fits(chunks, size) && k < |places|
    ensures Start(k, size) + size <= |JoinPlaces(chunks, size, places)|
    ensures PartAt(JoinPlaces(chunks, size, places), size, k) == PlaceBytes(chunks, size, places[k])
  {
    JoinedPart(PartsFor(chunks, size, places), size, k);
  }

  // ---------------------------------------------------------------- the catalog a run builds

  function MakeDescriptor(p: Profile, index: nat, flatRoot: Digest, commitment: Commitment, slots: seq<Slot>)
    : SectorDescriptor
  {
    SectorDescriptor(SectorId(p, index, flatRoot, commitment, slots), index, flatRoot, commitment, slots)
  }

  function CalculateId(c: Catalog): PackingId {
    CatalogId(c.formatVersion, c.revision, c.parent, c.profile, c.sectors, c.authentication,
              c.hasBindings, c.hasAttestations)
  }

  function WithId(c: Catalog): Catalog {
    c.(id := CalculateId(c))
  }

  /** A catalog without migration evidence, its id calculated last. */
  function MakeCatalog(formatVersion: nat, revision: nat, parent: Option<PackingId>, p: Profile,
                       sectors: seq<SectorDescriptor>, authentication: Option<seq<Authentication>>): Catalog
  {
    WithId(Catalog(NoId, formatVersion, revision, parent, p, sectors, authentication, false, false))
  }

  /** The chunk ids of consecutive slots. */
  function SlotIds(slots: seq<Slot>): (r: Assignments)
    ensures |r| == |slots|
    ensures forall i :: 0 <= i < |r| ==>
              r[i] == if slots[i].Source().Some? then Some(slots[i].Source().value.id) else None
  {
    seq(|slots|, i requires 0 <= i < |slots| =>
      if slots[i].Source().Some? then Some(slots[i].Source().value.id) else None)
  }

  /** All slots of a catalog by flat index. */
  function FlatIds(sectors: seq<SectorDescriptor>): Assignments {
    if sectors == [] then []
    else FlatIds(sectors[..|sectors| - 1]) + SlotIds(sectors[|sectors| - 1].slots)
  }

  ghost predicate Uniform(sectors: seq<SectorDescriptor>, sps: nat) {
    forall s :: 0 <= s < |sectors| ==> |sectors[s].slots| == sps
  }

  lemma {:induction false} FlatLength(sectors: seq<SectorDescriptor>, sps: nat)
    requires sps >= 1 && Uniform(sectors, sps)
    ensures |FlatIds(sectors)| == Start(|sectors|, sps)
    ensures Whole(|FlatIds(sectors)|, sps) && Count(|FlatIds(sectors)|, sps) == |sectors|
  {
    if sectors != [] { FlatLength(sectors[..|sectors| - 1], sps); }
    WholeCount(|sectors|, sps);
  }

  lemma {:induction false} FlatContent(sectors: seq<SectorDescriptor>, sps: nat, s: nat)
    requires sps >= 1 && Uniform(sectors, sps) && s < |sectors|
    ensures Start(s, sps) + sps <= |FlatIds(sectors)|
    ensures Content(FlatIds(sectors), sps, s) == SlotIds(sectors[s].slots)
    decreases |sectors|
  {
    var n := |sectors| - 1;
    FlatLength(sectors[..n], sps);
    if s < n {
      FlatContent(sectors[..n], sps, s);
      assert Content(FlatIds(sectors), sps, s) == Content(FlatIds(sectors[..n]), sps, s);
    }
  }

  /** One flat index: its slot in its sector. */
  lemma FlatAt(sectors: seq<SectorDescriptor>, sps: nat, s: nat, k: nat)
    requires sps >= 1 && Uniform(sectors, sps) && s < |sectors| && k < sps
    ensures Start(s, sps) + k < |FlatIds(sectors)|
    ensures FlatIds(sectors)[Start(s, sps) + k] == SlotIds(sectors[s].slots)[k]
  {
    FlatContent(sectors, sps, s);
    assert Content(FlatIds(sectors), sps, s)[k] == FlatIds(sectors)[Start(s, sps) + k];
  }

  /** Every flat index lies in a sector. */
  lemma {:induction false} FlatSector(n: nat, sps: nat, i: nat) returns (s: nat)
    requires sps >= 1 && i < Start(n, sps)
    ensures s < n && Start(s, sps) <= i < Start(s, sps) + sps
  {
    if i < Start(n - 1, sps) { s := FlatSector(n - 1, sps, i); } else { s := n - 1; }
  }

  /** The sector a run builds at `index` for the given places. */
  function BuildSector(p: Profile, index: nat, places: Assignments, chunks: Chunks, authenticated: bool): PackedSector
    requires ValidProfile(p) && |places| == SlotsPerSector(p)
    requires Covered(chunks, places) && Fits(chunks, p.slotSize)
  {
    ProfileFacts(p);
    var bytes := JoinPlaces(chunks, p.slotSize, places);
    var commitment := CommitSpec(bytes).value;
    PackedSector(MakeDescriptor(p, index, if authenticated then commitment.root else FlatHash(bytes), commitment,
                                SlotsFor(chunks, places)), bytes)
  }

  lemma ContentCovered(chunks: Chunks, a: Assignments, sps: nat, s: nat)
    requires Covered(chunks, a) && Start(s, sps) + sps <= |a|
    ensures Covered(chunks, Content(a, sps, s))
  {
  }

  function BuildSectors(p: Profile, a: Assignments, chunks: Chunks, authenticated: bool): (r: seq<PackedSector>)
    requires ValidProfile(p) && Covered(chunks, a) && Fits(chunks, p.slotSize)
    requires SlotsPerSector(p) >= 1 && Whole(|a|, SlotsPerSector(p))
    ensures |r| == Count(|a|, SlotsPerSector(p))
  {
    var sps := SlotsPerSector(p);
    seq(Count(|a|, sps), s requires 0 <= s < Count(|a|, sps) =>
      StartOrder(s, Count(|a|, sps), sps);
      ContentCovered(chunks, a, sps, s);
      BuildSector(p, s, Content(a, sps, s), chunks, authenticated))
  }

  function Descriptors(sectors: seq<PackedSector>): (r: seq<SectorDescriptor>)
    ensures |r| == |sectors| && forall s :: 0 <= s < |r| ==> r[s] == sectors[s].descriptor
  {
    seq(|sectors|, s requires 0 <= s < |sectors| => sectors[s].descriptor)
  }

  /** Whether every wanted object carries a commitment. */
  predicate Authenticated(m: Objects) {
    m != map[] && forall key :: key in m ==> m[key].sourceCommitment.Some?
  }

  predicate Unauthenticated(m: Objects) {
    forall key :: key in m ==> m[key].sourceCommitment.None?
  }

  /** The proofs of all wanted chunks in id order. */
  function AuthenticationList(p: Profile, m: Objects): (r: seq<Authentication>)
    requires ValidProfile(p) && GoodObjects(p, m) && Authenticated(m)
    ensures |r| == |ChunkIds(p, m)|
  {
    var ids := SortedIds(ChunkIds(p, m));
    seq(|ids|, i requires 0 <= i < |ids| =>
      assert ids[i] in ids;
      MakeAuthentication(p, m[KeyOf(ids[i])], ids[i].chunkIndex).value)
  }

  function PreviousSlots(previous: Option<Catalog>): Assignments {
    if previous.Some? then FlatIds(previous.value.sectors) else []
  }

  /** The revision number wraps like the machine word it is. */
  function NextRevision(previous: Option<Catalog>): nat {
    if previous.Some? then NextWord(previous.value.revision) else 1
  }

  lemma ChunksFit(p: Profile, m: Objects)
    requires ValidProfile(p) && GoodObjects(p, m)
    ensures Fits(ChunkMap(p, m), p.slotSize)
    ensures forall id :: id in ChunkMap(p, m) ==>
              1 <= |ChunkMap(p, m)[id].bytes| <= p.slotSize && Start(id.chunkIndex, p.slotSize) < |m[KeyOf(id)].bytes|
  {
    forall id | id in ChunkMap(p, m)
      ensures 1 <= |ChunkMap(p, m)[id].bytes| <= p.slotSize && Start(id.chunkIndex, p.slotSize) < |m[KeyOf(id)].bytes|
    {
      ChunkStarts(|m[KeyOf(id)].bytes|, p.slotSize, id.chunkIndex);
    }
  }

  /** A previous catalog whose slots are whole sectors, each chunk once. */
  ghost predicate UsablePrevious(p: Profile, previous: Option<Catalog>)
    requires p.slotSize >= 1
  {
    previous.Some? ==> Uniform(previous.value.sectors, SlotsPerSector(p)) && Distinct(FlatIds(previous.value.sectors))
  }

  lemma PreviousIsWhole(p: Profile, previous: Option<Catalog>)
    requires ValidProfile(p) && UsablePrevious(p, previous)
    ensures SlotsPerSector(p) >= 1 && Whole(|PreviousSlots(previous)|, SlotsPerSector(p))
            && Distinct(PreviousSlots(previous))
  {
    ProfileFacts(p);
    if previous.Some? { FlatLength(previous.value.sectors, SlotsPerSector(p)); }
  }

  /** The slots of the catalog a run builds. */
  ghost function BuiltSlots(p: Profile, previous: Option<Catalog>, m: Objects): Assignments
    requires ValidProfile(p) && UsablePrevious(p, previous)
  {
    PreviousIsWhole(p, previous);
    NextSlots(PreviousSlots(previous), ChunkIds(p, m), SlotsPerSector(p))
  }

  lemma BuiltSlotsFacts(p: Profile, previous: Option<Catalog>, m: Objects)
    requires ValidProfile(p) && UsablePrevious(p, previous) && GoodObjects(p, m)
    ensures var a := BuiltSlots(p, previous, m);
            && SlotsPerSector(p) >= 1 && Whole(|a|, SlotsPerSector(p)) && Distinct(a)
            && IdsIn(a) == ChunkIds(p, m) && EndsOccupied(a, SlotsPerSector(p))
            && Covered(ChunkMap(p, m), a) && Fits(ChunkMap(p, m), p.slotSize)
  {
    PreviousIsWhole(p, previous);
    NextSlotsAreStable(PreviousSlots(previous), ChunkIds(p, m), SlotsPerSector(p));
    ChunksFit(p, m);
    var a := BuiltSlots(p, previous, m);
    forall i | 0 <= i < |a| && a[i].Some? ensures a[i].value in ChunkMap(p, m) {
      assert a[i].value in IdsIn(a);
    }
  }

  /** The sectors, with their bytes, that a run builds. */
  ghost function BuildPacked(p: Profile, previous: Option<Catalog>, m: Objects): seq<PackedSector>
    requires ValidProfile(p) && UsablePrevious(p, previous) && GoodObjects(p, m)
  {
    BuiltSlotsFacts(p, previous, m);
    BuildSectors(p, BuiltSlots(p, previous, m), ChunkMap(p, m), Authenticated(m))
  }

  /** The catalog that a run builds from the previous catalog and the wanted objects. */
  ghost function BuildCatalog(p: Profile, previous: Option<Catalog>, m: Objects): Catalog
    requires ValidProfile(p) && UsablePrevious(p, previous) && GoodObjects(p, m)
  {
    MakeCatalog(if Authenticated(m) then 3 else 1, NextRevision(previous),
                if previous.Some? then Some(previous.value.id) else None, p, Descriptors(BuildPacked(p, previous, m)),
                if Authenticated(m) then Some(AuthenticationList(p, m)) else None)
  }
}
