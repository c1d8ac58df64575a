/**
 The front of the authenticated incremental packer: which chunks are wanted, taken from new
 payloads or from the records of the previous catalog.
 */
module UpdateSources {
  import opened Base
  import opened Merkle
  import opened Allocator
  import opened Placement
  import opened Packing
  import opened PackingValidity
  import opened PackingUpdate
  import opened Packer

  // ---------------------------------------------------------------- the previous slots by chunk

  /** In a catalog that holds no chunk twice, a chunk's slot is the one found anywhere. */
  lemma SlotIsUnique(c: Catalog, sps: nat, id: ChunkId, s: nat, k: nat)
    requires sps >= 1 && Uniform(c.sectors, sps) && Distinct(FlatIds(c.sectors)) && HasSlot(c, s, k, id)
    ensures Present(c, id) && PriorSlot(c, id) == c.sectors[s].slots[k]
  {
    var t: nat, j: nat :| HasSlot(c, t, j, id) && PriorSlot(c, id) == c.sectors[t].slots[j];
    assert HasSlot(c, t, j, id);
    assert t < |c.sectors|;
    FlatAt(c.sectors, sps, s, k);
    FlatAt(c.sectors, sps, t, j);
    SameIndex(s, k, t, j, sps);
  }

  lemma SameIndex(s: nat, k: nat, t: nat, j: nat, sps: nat)
    requires k < sps && j < sps && Start(s, sps) + k == Start(t, sps) + j
    ensures s == t && k == j
  {
    if s < t { StartOrder(s, t, sps); }
    if t < s { StartOrder(t, s, sps); }
  }

  predicate Before(s: nat, k: nat, t: nat, j: nat) {
    s < t || (s == t && k < j)
  }

  ghost predicate FoundBefore(c: Catalog, id: ChunkId, t: nat, j: nat) {
    exists s: nat, k: nat :: HasSlot(c, s, k, id) && Before(s, k, t, j)
  }

  ghost predicate SlotSomewhere(c: Catalog, id: ChunkId, slot: Slot) {
    exists s: nat, k: nat :: HasSlot(c, s, k, id) && slot == c.sectors[s].slots[k]
  }

  /** The slots of the chunks before position `(t, j)`. */
  ghost predicate IndexTo(c: Catalog, index: map<ChunkId, Slot>, t: nat, j: nat) {
    && (forall id :: id in index <==> FoundBefore(c, id, t, j))
    && (forall id :: id in index ==> SlotSomewhere(c, id, index[id]))
  }

  lemma FoundStep(c: Catalog, id: ChunkId, t: nat, j: nat)
    requires t < |c.sectors| && j < |c.sectors[t].slots|
    ensures FoundBefore(c, id, t, j + 1) <==> FoundBefore(c, id, t, j) || SlotIds(c.sectors[t].slots)[j] == Some(id)
  {
    if SlotIds(c.sectors[t].slots)[j] == Some(id) { assert HasSlot(c, t, j, id) && Before(t, j, t, j + 1); }
    if FoundBefore(c, id, t, j) {
      var s: nat, k: nat :| HasSlot(c, s, k, id) && Before(s, k, t, j);
      assert Before(s, k, t, j + 1);
    }
    if FoundBefore(c, id, t, j + 1) && SlotIds(c.sectors[t].slots)[j] != Some(id) {
      var s: nat, k: nat :| HasSlot(c, s, k, id) && Before(s, k, t, j + 1);
      assert Before(s, k, t, j);
    }
  }

  lemma FoundNext(c: Catalog, id: ChunkId, t: nat)
    requires t < |c.sectors|
    ensures FoundBefore(c, id, t + 1, 0) <==> FoundBefore(c, id, t, |c.sectors[t].slots|)
  {
    if FoundBefore(c, id, t + 1, 0) {
      var s: nat, k: nat :| HasSlot(c, s, k, id) && Before(s, k, t + 1, 0);
      assert Before(s, k, t, |c.sectors[t].slots|);
    }
    if FoundBefore(c, id, t, |c.sectors[t].slots|) {
      var s: nat, k: nat :| HasSlot(c, s, k, id) && Before(s, k, t, |c.sectors[t].slots|);
      assert Before(s, k, t + 1, 0);
    }
  }

  lemma IndexStep(c: Catalog, index: map<ChunkId, Slot>, t: nat, j: nat)
    requires t < |c.sectors| && j < |c.sectors[t].slots| && IndexTo(c, index, t, j)
    ensures var source := c.sectors[t].slots[j].Source();
            IndexTo(c, if source.Some? then index[source.value.id := c.sectors[t].slots[j]] else index, t, j + 1)
  {
    var source := c.sectors[t].slots[j].Source();
    forall id
      ensures FoundBefore(c, id, t, j + 1) <==>
              FoundBefore(c, id, t, j) || SlotIds(c.sectors[t].slots)[j] == Some(id)
    {
      FoundStep(c, id, t, j);
    }
    if source.Some? { assert HasSlot(c, t, j, source.value.id); }
  }

  /** Every chunk of the catalog with its slot. */
  method IndexSlots(c: Catalog, sps: nat) returns (index: map<ChunkId, Slot>)
    requires sps >= 1 && Uniform(c.sectors, sps) && Distinct(FlatIds(c.sectors))
    ensures forall id :: id in index <==> Present(c, id)
    ensures forall id :: id in index ==> index[id] == PriorSlot(c, id)
  {
    index := map[];
    for t := 0 to |c.sectors|
      invariant IndexTo(c, index, t, 0)
    {
      for j := 0 to |c.sectors[t].slots|
        invariant IndexTo(c, index, t, j)
      {
        IndexStep(c, index, t, j);
        var source := c.sectors[t].slots[j].Source();
        if source.Some? { index := index[source.value.id := c.sectors[t].slots[j]]; }
      }
      forall id ensures FoundBefore(c, id, t + 1, 0) <==> FoundBefore(c, id, t, |c.sectors[t].slots|) {
        FoundNext(c, id, t);
      }
    }
    IndexDone(c, sps, index);
  }

  lemma IndexDone(c: Catalog, sps: nat, index: map<ChunkId, Slot>)
    requires sps >= 1 && Uniform(c.sectors, sps) && Distinct(FlatIds(c.sectors)) && IndexTo(c, index, |c.sectors|, 0)
    ensures forall id :: id in index <==> Present(c, id)
    ensures forall id :: id in index ==> index[id] == PriorSlot(c, id)
  {
    forall id ensures FoundBefore(c, id, |c.sectors|, 0) <==> Present(c, id) {
      if Present(c, id) {
        var s: nat, k: nat :| HasSlot(c, s, k, id);
        assert Before(s, k, |c.sectors|, 0);
      }
    }
    forall id | id in index ensures index[id] == PriorSlot(c, id) {
      var s: nat, k: nat :| HasSlot(c, s, k, id) && index[id] == c.sectors[s].slots[k];
      SlotIsUnique(c, sps, id, s, k);
    }
  }

  // ---------------------------------------------------------------- one source

  /** The record a wanted chunk comes from. */
  ghost predicate Available(p: Profile, prev: Catalog, added: Objects, id: ChunkId) {
    if KeyOf(id) in added then
      ValidProfile(p) && InputOk(p, added[KeyOf(id)]) && id.chunkIndex < ChunkCount(p, added[KeyOf(id)].bytes)
    else
      prev.authentication.Some? && Present(prev, id) && id in EntryIds(prev.authentication.value)
  }

  ghost function RecordFor(p: Profile, prev: Catalog, added: Objects, id: ChunkId): InputChunk
    requires Available(p, prev, added, id)
  {
    if KeyOf(id) in added then MakeChunk(p, added[KeyOf(id)], id.chunkIndex) else RetainedChunk(prev, id)
  }

  /** The chunk is on record; spelled for any equal id, so that it opens up only where it is used. */
  ghost predicate OnRecord(p: Profile, prev: Catalog, added: Objects, id: ChunkId, chunk: InputChunk) {
    forall x: ChunkId {:trigger Available(p, prev, added, x)} ::
      x == id ==> Available(p, prev, added, x) && chunk == RecordFor(p, prev, added, x)
  }

  /** Exactly the chunks of some objects, each with its record. */
  ghost predicate Desired(p: Profile, prev: Catalog, added: Objects, keys: set<ObjectKey>, desired: Chunks)
    requires p.slotSize >= 1
  {
    && (forall id :: id in desired <==> id in UpdateIds(p, keys))
    && (forall id :: id in desired ==> OnRecord(p, prev, added, id, desired[id]))
  }

  /** Chunks of one more object up to some index. */
  ghost predicate Partly(p: Profile, prev: Catalog, added: Objects, desired: Chunks, key: ObjectKey, n: nat,
                         more: Chunks) {
    && (forall id :: id in more <==> id in desired || (KeyOf(id) == key && id.chunkIndex < n))
    && (forall id :: id in more && KeyOf(id) == key && id.chunkIndex < n ==> OnRecord(p, prev, added, id, more[id]))
    && (forall id :: id in desired && !(KeyOf(id) == key && id.chunkIndex < n) ==> more[id] == desired[id])
  }

  lemma PartlyDone(p: Profile, prev: Catalog, added: Objects, keys: set<ObjectKey>, desired: Chunks, key: ObjectKey,
                   more: Chunks)
    requires p.slotSize >= 1 && Desired(p, prev, added, keys, desired)
    requires Partly(p, prev, added, desired, key, SlotsPerSector(p), more)
    ensures Desired(p, prev, added, keys + {key}, more)
  {
  }

  lemma OnlyNext(key: ObjectKey, n: nat, id: ChunkId)
    ensures KeyOf(id) == key && id.chunkIndex < n + 1 <==> (KeyOf(id) == key && id.chunkIndex < n) || id == IdOf(key, n)
  {
    assert KeyOf(IdOf(key, n)) == key && IdOf(key, n).chunkIndex == n;
    assert id == IdOf(KeyOf(id), id.chunkIndex);
  }

  lemma PartlyRecord(p: Profile, prev: Catalog, added: Objects, more: Chunks, key: ObjectKey, n: nat, chunk: InputChunk,
                     id: ChunkId)
    requires OnRecord(p, prev, added, IdOf(key, n), chunk) && KeyOf(id) == key && id.chunkIndex < n + 1
    requires id.chunkIndex < n ==> id in more && OnRecord(p, prev, added, id, more[id])
    ensures OnRecord(p, prev, added, id, more[IdOf(key, n) := chunk][id])
  {
    OnlyNext(key, n, id);
  }

  /** One more chunk of the object among the keys. */
  lemma PartlyKeys(desired: Chunks, key: ObjectKey, n: nat, more: Chunks, all: Chunks)
    requires forall id :: id in more <==> id in desired || (KeyOf(id) == key && id.chunkIndex < n)
    requires all.Keys == more.Keys + {IdOf(key, n)}
    ensures forall id :: id in all <==> id in desired || (KeyOf(id) == key && id.chunkIndex < n + 1)
  {
    forall id ensures id in all <==> id in desired || (KeyOf(id) == key && id.chunkIndex < n + 1) {
      OnlyNext(key, n, id);
    }
  }

  lemma PartlyStep(p: Profile, prev: Catalog, added: Objects, desired: Chunks, key: ObjectKey, n: nat, more: Chunks,
                   chunk: InputChunk)
    requires Partly(p, prev, added, desired, key, n, more) && OnRecord(p, prev, added, IdOf(key, n), chunk)
    ensures Partly(p, prev, added, desired, key, n + 1, more[IdOf(key, n) := chunk])
  {
    var all := more[IdOf(key, n) := chunk];
    PartlyKeys(desired, key, n, more, all);
    forall id | id in all && KeyOf(id) == key && id.chunkIndex < n + 1 ensures OnRecord(p, prev, added, id, all[id]) {
      PartlyRecord(p, prev, added, more, key, n, chunk, id);
    }
    forall id | id in desired && !(KeyOf(id) == key && id.chunkIndex < n + 1) ensures all[id] == desired[id] {
      OnlyNext(key, n, id);
    }
  }

  /** The demands on one source that came without payload. */
  ghost predicate RetainedAll(p: Profile, prev: Catalog, source: AuthenticatedSource, n: nat)
    requires prev.authentication.Some?
  {
    forall k :: 0 <= k < n ==> RetainedAt(p, prev, source, k)
  }

  ghost predicate RetainedAt(p: Profile, prev: Catalog, source: AuthenticatedSource, k: nat)
    requires prev.authentication.Some?
  {
    assert KeyOf(IdOf(source.key, k)) == source.key;
    RetainedOk(p, prev, map[source.key := source.sourceCommitment], IdOf(source.key, k))
  }

  /** Takes one record of a retained object from the previous catalog. */
  method RetainChunk(p: Profile, prev: Catalog, ghost added: Objects, index: map<ChunkId, Slot>,
                     source: AuthenticatedSource, k: nat) returns (r: Result<InputChunk, PackingError>)
    requires prev.authentication.Some? && source.key !in added
    requires forall id :: id in index <==> Present(prev, id)
    requires forall id :: id in index ==> index[id] == PriorSlot(prev, id)
    ensures r.Ok? <==> RetainedAt(p, prev, source, k)
    ensures r.Ok? ==> OnRecord(p, prev, added, IdOf(source.key, k), r.value)
  {
    var auth, id := prev.authentication.value, IdOf(source.key, k);
    assert KeyOf(id) == source.key;
    if id !in index { return Err(MissingObject); }
    if id !in EntryIds(auth) { return Err(InvalidCatalog); }
    var prior, proof := index[id].Source().value, EntryFor(auth, id);
    if proof.sourceCommitment != source.sourceCommitment || prior.logicalLen != p.slotSize { return Err(InvalidInput); }
    assert RetainedAt(p, prev, source, k);
    var chunk := InputChunk(prior, Some(proof), [], index[id].VirtualZero?);
    assert Available(p, prev, added, id) && chunk == RecordFor(p, prev, added, id);
    return Ok(chunk);
  }

  /** Takes the records of a retained object from the previous catalog. */
  method RetainSource(p: Profile, prev: Catalog, ghost added: Objects, index: map<ChunkId, Slot>,
                      source: AuthenticatedSource, desired: Chunks) returns (r: Result<Chunks, PackingError>)
    requires p.slotSize >= 1 && prev.authentication.Some? && source.key !in added
    requires forall id :: id in index <==> Present(prev, id)
    requires forall id :: id in index ==> index[id] == PriorSlot(prev, id)
    ensures r.Ok? <==> RetainedAll(p, prev, source, SlotsPerSector(p))
    ensures r.Ok? ==> Partly(p, prev, added, desired, source.key, SlotsPerSector(p), r.value)
  {
    var more := desired;
    for k := 0 to SlotsPerSector(p)
      invariant RetainedAll(p, prev, source, k) && Partly(p, prev, added, desired, source.key, k, more)
    {
      var chunk := RetainChunk(p, prev, added, index, source, k);
      if chunk.Err? { return Err(chunk.error); }
      PartlyStep(p, prev, added, desired, source.key, k, more, chunk.value);
      more := more[IdOf(source.key, k) := chunk.value];
    }
    return Ok(more);
  }

  lemma NewRecord(p: Profile, prev: Catalog, added: Objects, key: ObjectKey, input: Input, id: ChunkId)
    requires ValidProfile(p) && key in added && added[key] == input && input.key == key && InputOk(p, input)
    requires |input.bytes| == p.sectorSize && GoodObjects(p, map[key := input])
    ensures id in ChunkMap(p, map[key := input]) <==> KeyOf(id) == key && id.chunkIndex < SlotsPerSector(p)
    ensures id in ChunkMap(p, map[key := input]) ==>
              OnRecord(p, prev, added, id, ChunkMap(p, map[key := input])[id])
  {
    SectorChunkCount(p, input.bytes);
    assert id in ChunkMap(p, map[key := input]) <==> Wanted(p, map[key := input], id);
  }

  lemma PartlyJoined(p: Profile, prev: Catalog, added: Objects, desired: Chunks, key: ObjectKey, n: nat, mine: Chunks)
    requires forall id :: id in mine <==> KeyOf(id) == key && id.chunkIndex < n
    requires forall id :: id in mine ==> OnRecord(p, prev, added, id, mine[id])
    ensures Partly(p, prev, added, desired, key, n, desired + mine)
  {
  }

  /** Adding the chunk map of a new object. */
  lemma NewPartly(p: Profile, prev: Catalog, added: Objects, desired: Chunks, key: ObjectKey, input: Input)
    requires ValidProfile(p) && key in added && added[key] == input && input.key == key && InputOk(p, input)
    requires |input.bytes| == p.sectorSize && GoodObjects(p, map[key := input])
    ensures Partly(p, prev, added, desired, key, SlotsPerSector(p), desired + ChunkMap(p, map[key := input]))
  {
    var mine := ChunkMap(p, map[key := input]);
    forall id
      ensures id in mine <==> KeyOf(id) == key && id.chunkIndex < SlotsPerSector(p)
      ensures id in mine ==> OnRecord(p, prev, added, id, mine[id])
    {
      NewRecord(p, prev, added, key, input, id);
    }
    PartlyJoined(p, prev, added, desired, key, SlotsPerSector(p), mine);
  }

  predicate SourceShapeOk(p: Profile, source: AuthenticatedSource) {
    && source.key.owner != 0 && source.key.protectedRoot != 0 && source.key.objectId != 0
    && source.sourceCommitment.byteLen == p.sectorSize && ValidCommitment(source.sourceCommitment)
  }

  /** The demands on one source. */
  ghost predicate SourceAccepted(p: Profile, prev: Catalog, added: Objects, source: AuthenticatedSource)
    requires p.slotSize >= 1 && prev.authentication.Some?
  {
    && SourceShapeOk(p, source)
    && (source.key in added ==>
          && added[source.key].sourceCommitment == Some(source.sourceCommitment)
          && |added[source.key].bytes| == p.sectorSize && InputOk(p, added[source.key]))
    && (source.key !in added ==> RetainedAll(p, prev, source, SlotsPerSector(p)))
  }

  /** The chunks of one source, new or retained, added to those wanted so far. */
  method AddSource(p: Profile, prev: Catalog, added: Objects, index: map<ChunkId, Slot>, source: AuthenticatedSource,
                   ghost keys: set<ObjectKey>, desired: Chunks) returns (r: Result<Chunks, PackingError>)
    requires ValidProfile(p) && prev.authentication.Some?
    requires forall key :: key in added ==> added[key].key == key
    requires forall id :: id in index <==> Present(prev, id)
    requires forall id :: id in index ==> index[id] == PriorSlot(prev, id)
    requires Desired(p, prev, added, keys, desired)
    ensures r.Ok? <==> SourceAccepted(p, prev, added, source)
    ensures r.Ok? ==> Desired(p, prev, added, keys + {source.key}, r.value)
  {
    if !SourceShapeOk(p, source) { return Err(InvalidInput); }
    if source.key in added {
      var input := added[source.key];
      if input.sourceCommitment != Some(source.sourceCommitment) || |input.bytes| != p.sectorSize {
        return Err(InvalidInput);
      }
      SingleInput(p, input);
      var split := InputChunks(p, [input]);
      if split.Err? { return Err(split.error); }
      NewPartly(p, prev, added, desired, source.key, input);
      r := Ok(desired + split.value);
    } else {
      r := RetainSource(p, prev, added, index, source, desired);
    }
    if r.Ok? { PartlyDone(p, prev, added, keys, desired, source.key, r.value); }
  }

  lemma SingleInput(p: Profile, input: Input)
    requires ValidProfile(p) && |input.bytes| == p.sectorSize
    ensures InputsOk(p, [input]) <==> InputOk(p, input)
    ensures ObjectsOf([input]) == map[input.key := input]
  {
    SectorChunkCount(p, input.bytes);
    FewSlots(p);
    var one := [input];
    assert one[..0] == [] && one[0] == input;
    assert ObjectsOf(one[..0]) == map[] && TotalChunks(p, one[..0]) == 0;
  }

  // ---------------------------------------------------------------- all sources

  /** The wanted commitments by key. */
  function SourcesOf(sources: seq<AuthenticatedSource>): Sources {
    if sources == [] then map[]
    else SourcesOf(sources[..|sources| - 1])[sources[|sources| - 1].key := sources[|sources| - 1].sourceCommitment]
  }

  ghost predicate SourcesDistinct(sources: seq<AuthenticatedSource>) {
    forall i, j :: 0 <= i < j < |sources| ==> sources[i].key != sources[j].key
  }

  ghost predicate KeysDistinct(inputs: seq<Input>) {
    forall i, j :: 0 <= i < j < |inputs| ==> inputs[i].key != inputs[j].key
  }

  lemma {:induction false} SourceKeys(sources: seq<AuthenticatedSource>)
    requires SourcesDistinct(sources)
    ensures forall i :: 0 <= i < |sources| ==>
              sources[i].key in SourcesOf(sources) && SourcesOf(sources)[sources[i].key] == sources[i].sourceCommitment
    ensures forall key :: key in SourcesOf(sources) ==> exists i :: 0 <= i < |sources| && sources[i].key == key
  {
    if sources != [] {
      var front, last := sources[..|sources| - 1], sources[|sources| - 1];
      SourceKeys(front);
      forall i | 0 <= i < |sources|
        ensures sources[i].key in SourcesOf(sources)
                && SourcesOf(sources)[sources[i].key] == sources[i].sourceCommitment
      {
        if i < |front| { assert front[i] == sources[i] && sources[i].key != last.key; }
      }
      forall key | key in SourcesOf(sources) ensures exists i :: 0 <= i < |sources| && sources[i].key == key {
        if key != last.key {
          assert key in SourcesOf(front);
          var i :| 0 <= i < |front| && front[i].key == key;
          assert sources[i].key == key;
        } else {
          assert sources[|sources| - 1].key == key;
        }
      }
    }
  }

  lemma PrefixSources(sources: seq<AuthenticatedSource>, i: nat)
    requires i < |sources| && SourcesDistinct(sources[..i])
    ensures SourcesOf(sources[..i + 1]) == SourcesOf(sources[..i])[sources[i].key := sources[i].sourceCommitment]
    ensures SourcesDistinct(sources[..i + 1]) <==> sources[i].key !in SourcesOf(sources[..i])
    ensures sources[i].key in SourcesOf(sources[..i]) ==> !SourcesDistinct(sources)
  {
    var front, more := sources[..i], sources[..i + 1];
    assert more[..|more| - 1] == front && more[i] == sources[i];
    SourceKeys(front);
    assert forall j :: 0 <= j < i ==> front[j] == sources[j] == more[j];
    if sources[i].key in SourcesOf(front) {
      var j :| 0 <= j < |front| && front[j].key == sources[i].key;
      assert more[j].key == more[i].key && sources[j].key == sources[i].key;
    }
  }

  /** The new payloads by key; no key may be given twice. */
  method ByKey(inputs: seq<Input>) returns (added: Objects, distinct: bool)
    ensures added == ObjectsOf(inputs) && (distinct <==> KeysDistinct(inputs))
  {
    added, distinct := map[], true;
    for i := 0 to |inputs|
      invariant added == ObjectsOf(inputs[..i]) && (distinct <==> KeysDistinct(inputs[..i]))
    {
      ghost var front, more := inputs[..i], inputs[..i + 1];
      assert more[..|more| - 1] == front && more[i] == inputs[i];
      ObjectKeys(front);
      assert forall j :: 0 <= j < i ==> front[j] == more[j];
      if inputs[i].key in added {
        distinct := false;
        ghost var j :| 0 <= j < |front| && front[j].key == inputs[i].key;
        assert more[j].key == more[i].key;
      }
      added := added[inputs[i].key := inputs[i]];
    }
    assert inputs[..|inputs|] == inputs;
  }

  lemma {:induction false} FiledUnderOwnKey(inputs: seq<Input>)
    ensures forall key :: key in ObjectsOf(inputs) ==> ObjectsOf(inputs)[key].key == key
  {
    if inputs != [] { FiledUnderOwnKey(inputs[..|inputs| - 1]); }
  }

  ghost predicate AllAccepted(p: Profile, prev: Catalog, added: Objects, sources: seq<AuthenticatedSource>)
    requires p.slotSize >= 1 && prev.authentication.Some?
  {
    forall i :: 0 <= i < |sources| ==> SourceAccepted(p, prev, added, sources[i])
  }

  lemma NoSources(sources: seq<AuthenticatedSource>)
    requires SourcesDistinct(sources)
    ensures SourcesOf(sources) == map[] <==> sources == []
  {
    SourceKeys(sources);
    if sources != [] { assert sources[0].key in SourcesOf(sources); }
  }

  lemma UpdatableIsAccepted(p: Profile, prev: Catalog, added: Objects, sources: seq<AuthenticatedSource>)
    requires prev.authentication.Some? && SourcesDistinct(sources) && Updatable(p, prev, SourcesOf(sources), added)
    ensures sources != [] && AllAccepted(p, prev, added, sources) && added.Keys <= SourcesOf(sources).Keys
    ensures |UpdateIds(p, SourcesOf(sources).Keys)| <= MAX_PACKED_CHUNKS
  {
    NoSources(sources);
    forall i | 0 <= i < |sources| ensures SourceAccepted(p, prev, added, sources[i]) {
      OkIsAccepted(p, prev, added, sources, i);
    }
  }

  lemma AcceptedMakesUpdatable(p: Profile, prev: Catalog, added: Objects, sources: seq<AuthenticatedSource>)
    requires ValidProfile(p) && ValidCatalog(prev) && prev.formatVersion >= 2 && prev.profile == p
    requires prev.authentication.Some? && SourcesDistinct(sources)
    requires forall key :: key in added ==> added[key].key == key
    requires sources != [] && AllAccepted(p, prev, added, sources) && added.Keys <= SourcesOf(sources).Keys
    requires |UpdateIds(p, SourcesOf(sources).Keys)| <= MAX_PACKED_CHUNKS
    ensures Updatable(p, prev, SourcesOf(sources), added)
  {
    NoSources(sources);
    AcceptedIsOk(p, prev, added, sources);
  }

  /** Source by source, the demands are those of the update as a whole. */
  lemma AcceptedIsUpdatable(p: Profile, prev: Catalog, added: Objects, sources: seq<AuthenticatedSource>)
    requires ValidProfile(p) && ValidCatalog(prev) && prev.formatVersion >= 2 && prev.profile == p
    requires prev.authentication.Some? && SourcesDistinct(sources)
    requires forall key :: key in added ==> added[key].key == key
    ensures Updatable(p, prev, SourcesOf(sources), added) <==>
            && sources != [] && AllAccepted(p, prev, added, sources)
            && added.Keys <= SourcesOf(sources).Keys
            && |UpdateIds(p, SourcesOf(sources).Keys)| <= MAX_PACKED_CHUNKS
  {
    var src := SourcesOf(sources);
    if Updatable(p, prev, src, added) { UpdatableIsAccepted(p, prev, added, sources); }
    if sources != [] && AllAccepted(p, prev, added, sources) && added.Keys <= src.Keys
       && |UpdateIds(p, src.Keys)| <= MAX_PACKED_CHUNKS
    {
      AcceptedMakesUpdatable(p, prev, added, sources);
    }
  }

  lemma AcceptedIsOk(p: Profile, prev: Catalog, added: Objects, sources: seq<AuthenticatedSource>)
    requires ValidProfile(p) && prev.authentication.Some? && SourcesDistinct(sources)
    requires forall key :: key in added ==> added[key].key == key
    requires AllAccepted(p, prev, added, sources) && added.Keys <= SourcesOf(sources).Keys
    ensures var src := SourcesOf(sources);
            && (sources != [] ==> SourcesOk(p, src)) && NewInputsOk(p, src, added)
            && forall id :: id in UpdateIds(p, src.Keys - added.Keys) ==> RetainedOk(p, prev, src, id)
  {
    var src := SourcesOf(sources);
    SourceKeys(sources);
    if sources != [] { assert sources[0].key in src; }
    forall key | key in src
      ensures && key.owner != 0 && key.protectedRoot != 0 && key.objectId != 0
              && src[key].byteLen == p.sectorSize && ValidCommitment(src[key])
      ensures key in added ==> added[key].sourceCommitment == Some(src[key])
                               && |added[key].bytes| == p.sectorSize && InputOk(p, added[key])
    {
      var i :| 0 <= i < |sources| && sources[i].key == key;
      assert SourceAccepted(p, prev, added, sources[i]);
    }
    forall id | id in UpdateIds(p, src.Keys - added.Keys) ensures RetainedOk(p, prev, src, id) {
      var i :| 0 <= i < |sources| && sources[i].key == KeyOf(id);
      assert SourceAccepted(p, prev, added, sources[i]);
      assert RetainedAt(p, prev, sources[i], id.chunkIndex);
      assert id == IdOf(KeyOf(id), id.chunkIndex);
    }
  }

  lemma OkIsAccepted(p: Profile, prev: Catalog, added: Objects, sources: seq<AuthenticatedSource>, i: nat)
    requires ValidProfile(p) && prev.authentication.Some? && SourcesDistinct(sources) && i < |sources|
    requires SourcesOk(p, SourcesOf(sources)) && NewInputsOk(p, SourcesOf(sources), added)
    requires forall id :: id in UpdateIds(p, SourcesOf(sources).Keys - added.Keys) ==>
               RetainedOk(p, prev, SourcesOf(sources), id)
    ensures SourceAccepted(p, prev, added, sources[i])
  {
    var src, source := SourcesOf(sources), sources[i];
    SourceKeys(sources);
    if source.key !in added {
      forall k | 0 <= k < SlotsPerSector(p) ensures RetainedAt(p, prev, source, k) {
        assert KeyOf(IdOf(source.key, k)) == source.key;
        assert IdOf(source.key, k) in UpdateIds(p, src.Keys - added.Keys);
      }
    }
  }

  /** What the source loop has after some sources. */
  ghost predicate Gathered(p: Profile, prev: Catalog, added: Objects, sources: seq<AuthenticatedSource>,
                           seen: set<ObjectKey>, desired: Chunks)
    requires p.slotSize >= 1 && prev.authentication.Some?
  {
    && SourcesDistinct(sources) && AllAccepted(p, prev, added, sources)
    && seen == SourcesOf(sources).Keys && Desired(p, prev, added, seen, desired)
  }

  lemma GatherStep(p: Profile, prev: Catalog, added: Objects, sources: seq<AuthenticatedSource>, i: nat,
                   seen: set<ObjectKey>, desired: Chunks, more: Chunks)
    requires p.slotSize >= 1 && prev.authentication.Some? && i < |sources|
    requires Gathered(p, prev, added, sources[..i], seen, desired) && sources[i].key !in seen
    requires SourceAccepted(p, prev, added, sources[i]) && Desired(p, prev, added, seen + {sources[i].key}, more)
    ensures Gathered(p, prev, added, sources[..i + 1], seen + {sources[i].key}, more)
  {
    PrefixSources(sources, i);
    var front, next := sources[..i], sources[..i + 1];
    forall j | 0 <= j < |next| ensures SourceAccepted(p, prev, added, next[j]) {
      if j < i { assert next[j] == front[j]; }
    }
  }

  lemma RecordIsUpdate(p: Profile, prev: Catalog, src: Sources, added: Objects, id: ChunkId)
    requires Updatable(p, prev, src, added) && id in UpdateIds(p, src.Keys) && Available(p, prev, added, id)
    ensures UpdateChunk(p, prev, src, added, id) == RecordFor(p, prev, added, id)
  {
  }

  lemma DesiredAt(p: Profile, prev: Catalog, src: Sources, added: Objects, id: ChunkId, chunk: InputChunk)
    requires Updatable(p, prev, src, added) && id in UpdateIds(p, src.Keys) && OnRecord(p, prev, added, id, chunk)
    ensures UpdateChunk(p, prev, src, added, id) == chunk
  {
    assert Available(p, prev, added, id);
    RecordIsUpdate(p, prev, src, added, id);
  }

  lemma DesiredIsUpdate(p: Profile, prev: Catalog, src: Sources, added: Objects, desired: Chunks)
    requires Updatable(p, prev, src, added) && Desired(p, prev, added, src.Keys, desired)
    ensures desired == UpdateChunks(p, prev, src, added)
  {
    var update := UpdateChunks(p, prev, src, added);
    forall id ensures (id in desired <==> id in update) && (id in desired ==> desired[id] == update[id]) {
      if id in desired { DesiredAt(p, prev, src, added, id, desired[id]); }
    }
    SameMaps(desired, update);
  }

  lemma DesiredSize(p: Profile, prev: Catalog, added: Objects, keys: set<ObjectKey>, desired: Chunks)
    requires p.slotSize >= 1 && Desired(p, prev, added, keys, desired)
    ensures |desired| == |UpdateIds(p, keys)|
  {
    assert desired.Keys == UpdateIds(p, keys);
  }

  /** Walks the sources, rejecting a repeated one. */
  method GatherSources(p: Profile, prev: Catalog, added: Objects, sources: seq<AuthenticatedSource>)
    returns (r: Result<Chunks, PackingError>)
    requires ValidProfile(p) && ValidCatalog(prev) && prev.profile == p && prev.authentication.Some?
    requires forall key :: key in added ==> added[key].key == key
    ensures r.Ok? <==> SourcesDistinct(sources) && AllAccepted(p, prev, added, sources)
    ensures r.Ok? ==> Desired(p, prev, added, SourcesOf(sources).Keys, r.value)
  {
    ValidIsUsable(p, Some(prev));
    ProfileFacts(p);
    var index := IndexSlots(prev, SlotsPerSector(p));
    var seen: set<ObjectKey>, desired: Chunks := {}, map[];
    for i := 0 to |sources|
      invariant Gathered(p, prev, added, sources[..i], seen, desired)
    {
      PrefixSources(sources, i);
      if sources[i].key in seen { return Err(InvalidInput); }
      var more := AddSource(p, prev, added, index, sources[i], seen, desired);
      if more.Err? { return Err(more.error); }
      GatherStep(p, prev, added, sources, i, seen, desired, more.value);
      seen, desired := seen + {sources[i].key}, more.value;
    }
    assert sources[..|sources|] == sources;
    return Ok(desired);
  }

  /** The wanted chunks of an update, or the reason why there are none. */
  method UpdateInputs(p: Profile, prev: Catalog, sources: seq<AuthenticatedSource>, newInputs: seq<Input>)
    returns (r: Result<Chunks, PackingError>)
    requires ValidProfile(p) && ValidCatalog(prev) && prev.formatVersion >= 2 && prev.profile == p
    ensures r.Ok? <==> SourcesDistinct(sources) && KeysDistinct(newInputs)
                       && Updatable(p, prev, SourcesOf(sources), ObjectsOf(newInputs))
    ensures r.Ok? ==> r.value == UpdateChunks(p, prev, SourcesOf(sources), ObjectsOf(newInputs))
  {
    var added, distinct := ByKey(newInputs);
    FiledUnderOwnKey(newInputs);
    if !distinct { return Err(InvalidInput); }
    ghost var distinctSources := SourcesDistinct(sources);
    if distinctSources { AcceptedIsUpdatable(p, prev, added, sources); }
    if sources == [] { return Err(InvalidInput); }
    r := GatherSources(p, prev, added, sources);
    if r.Err? { return; }
    DesiredSize(p, prev, added, SourcesOf(sources).Keys, r.value);
    if !(added.Keys <= SourcesOf(sources).Keys) || |r.value| > MAX_PACKED_CHUNKS { return Err(InvalidInput); }
    DesiredIsUpdate(p, prev, SourcesOf(sources), added, r.value);
  }
}
