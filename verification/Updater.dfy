/**
 The authenticated incremental packer as it runs. It loads only sectors whose slots change,
 and it builds exactly the specified catalog.
 */
module Updater {
  import opened Base
  import opened Merkle
  import MerkleSuite
  import opened Allocator
  import opened Placement
  import opened SlotPlanner
  import opened Packing
  import opened PackingValidity
  import opened PackingUpdate
  import opened PackingEquivalence
  import opened SectorBuffer
  import opened Packer
  import opened UpdateSources

  // ---------------------------------------------------------------- sectors

  /** Every chunk kept without payload is planned where it was. */
  ghost predicate Staying(flat: Assignments, a: Assignments, chunks: Chunks)
    requires Covered(chunks, a)
  {
    forall i :: 0 <= i < |a| && NeedsPrior(chunks, a[i]) ==> i < |flat| && flat[i] == a[i]
  }

  lemma SectorStays(prev: Catalog, a: Assignments, chunks: Chunks, sps: nat, s: nat)
    requires sps >= 1 && Uniform(prev.sectors, sps) && Covered(chunks, a) && Staying(FlatIds(prev.sectors), a, chunks)
    requires Start(s, sps) + sps <= |a|
    ensures Covered(chunks, Content(a, sps, s))
    ensures forall k :: 0 <= k < sps && NeedsPrior(chunks, Content(a, sps, s)[k]) ==>
              Preserved(if s < |prev.sectors| then prev.sectors[s].slots else [], Content(a, sps, s)[k], k)
  {
    var places := Content(a, sps, s);
    FlatLength(prev.sectors, sps);
    forall k | 0 <= k < sps && NeedsPrior(chunks, places[k])
      ensures Preserved(if s < |prev.sectors| then prev.sectors[s].slots else [], places[k], k)
    {
      assert a[Start(s, sps) + k] == places[k];
      SectorBelow(s, |prev.sectors|, sps, k);
      FlatAt(prev.sectors, sps, s, k);
    }
  }

  /** Rebuilds one changed sector from the loaded previous bytes. */
  method UpdateSector(p: Profile, prev: Catalog, s: nat, places: Assignments, chunks: Chunks, load: Loader)
    returns (r: Result<PackedSector, PackingError>)
    requires ValidProfile(p) && |places| == SlotsPerSector(p) && Covered(chunks, places) && Fits(chunks, p.slotSize)
    requires forall k :: 0 <= k < |places| && NeedsPrior(chunks, places[k]) ==>
               Preserved(if s < |prev.sectors| then prev.sectors[s].slots else [], places[k], k)
    ensures r.Ok? <==> BaseOk(p, prev, s, load)
    ensures r.Ok? ==> r.value == UpdatedSector(p, prev, s, places, chunks, load)
  {
    ProfileFacts(p);
    var base, prior: seq<Slot> := Zeros(p.sectorSize), [];
    if s < |prev.sectors| {
      prior := prev.sectors[s].slots;
      var loaded := load(prev.sectors[s]);
      if loaded.Err? { return Err(loaded.error); }
      if !LoadOk(p, prev.formatVersion, prev.sectors[s], loaded) { return Err(InvalidCatalog); }
      base := loaded.value;
    }
    var overlaid := OverlaySector(base, prior, places, chunks, p.slotSize);
    var bytes := overlaid.value;
    var commitment := MerkleSuite.Commit(bytes);
    return Ok(PackedSector(MakeDescriptor(p, s, commitment.value.root, commitment.value, SlotsFor(chunks, places)),
                           bytes));
  }

  lemma UpdatedCommits(p: Profile, prev: Catalog, s: nat, places: Assignments, chunks: Chunks, load: Loader)
    requires ValidProfile(p) && |places| == SlotsPerSector(p) && Covered(chunks, places) && Fits(chunks, p.slotSize)
    requires BaseOk(p, prev, s, load)
    ensures Committed(UpdatedSector(p, prev, s, places, chunks, load))
  {
    ProfileFacts(p);
  }

  predicate Committed(x: PackedSector) {
    CommitSpec(x.bytes) == Ok(x.descriptor.commitment)
  }

  /** Sector `s` of the plan differs from the previous sector `s`, which exists. */
  ghost predicate MustLoad(p: Profile, prev: Catalog, a: Assignments, chunks: Chunks, s: nat)
    requires Planned(p, a, chunks)
  {
    && s < |prev.sectors| && s < Count(|a|, SlotsPerSector(p))
    && (PlannedContent(chunks, a, SlotsPerSector(p), s);
        !Kept(prev, s, SlotsFor(chunks, Content(a, SlotsPerSector(p), s))))
  }

  /** The planned sector could be built, and this is its descriptor. */
  ghost predicate IsUpdated(p: Profile, prev: Catalog, a: Assignments, chunks: Chunks, load: Loader, s: nat,
                            d: SectorDescriptor)
    requires ValidProfile(p) && Planned(p, a, chunks) && s < Count(|a|, SlotsPerSector(p))
  {
    SectorLoadable(p, prev, a, chunks, load, s) && d == UpdatedAt(p, prev, a, chunks, load, s)
  }

  /** What is rebuilt for sector `s` of the plan: nothing when the previous sector is kept. */
  ghost function Rebuilt(p: Profile, prev: Catalog, a: Assignments, chunks: Chunks, load: Loader, s: nat)
    : seq<PackedSector>
    requires ValidProfile(p) && Planned(p, a, chunks) && s < Count(|a|, SlotsPerSector(p))
  {
    PlannedContent(chunks, a, SlotsPerSector(p), s);
    var places := Content(a, SlotsPerSector(p), s);
    if !SectorLoadable(p, prev, a, chunks, load, s) || Kept(prev, s, SlotsFor(chunks, places)) then []
    else [UpdatedSector(p, prev, s, places, chunks, load)]
  }

  /** Everything rebuilt for the first `n` sectors of the plan, in order. */
  ghost function RebuiltTo(p: Profile, prev: Catalog, a: Assignments, chunks: Chunks, load: Loader, n: nat)
    : seq<PackedSector>
    requires ValidProfile(p) && Planned(p, a, chunks) && n <= Count(|a|, SlotsPerSector(p))
  {
    if n == 0 then []
    else RebuiltTo(p, prev, a, chunks, load, n - 1) + Rebuilt(p, prev, a, chunks, load, n - 1)
  }

  /** `x` is what is rebuilt for sector `s`; spelled so that it opens up only where it is used. */
  ghost predicate IsRebuilt(p: Profile, prev: Catalog, a: Assignments, chunks: Chunks, load: Loader, s: nat,
                            x: seq<PackedSector>)
    requires ValidProfile(p) && Planned(p, a, chunks) && s < Count(|a|, SlotsPerSector(p))
  {
    forall t: nat {:trigger Rebuilt(p, prev, a, chunks, load, t)} ::
      t == s && t < Count(|a|, SlotsPerSector(p)) ==> x == Rebuilt(p, prev, a, chunks, load, t)
  }

  ghost predicate IsRebuiltTo(p: Profile, prev: Catalog, a: Assignments, chunks: Chunks, load: Loader, n: nat,
                              x: seq<PackedSector>)
    requires ValidProfile(p) && Planned(p, a, chunks) && n <= Count(|a|, SlotsPerSector(p))
  {
    forall m: nat {:trigger RebuiltTo(p, prev, a, chunks, load, m)} ::
      m == n && m <= Count(|a|, SlotsPerSector(p)) ==> x == RebuiltTo(p, prev, a, chunks, load, m)
  }

  lemma RebuiltMore(p: Profile, prev: Catalog, a: Assignments, chunks: Chunks, load: Loader, n: nat,
                    x: seq<PackedSector>, y: seq<PackedSector>)
    requires ValidProfile(p) && Planned(p, a, chunks) && n < Count(|a|, SlotsPerSector(p))
    requires IsRebuiltTo(p, prev, a, chunks, load, n, x) && IsRebuilt(p, prev, a, chunks, load, n, y)
    ensures IsRebuiltTo(p, prev, a, chunks, load, n + 1, x + y)
  {
    assert x == RebuiltTo(p, prev, a, chunks, load, n) && y == Rebuilt(p, prev, a, chunks, load, n);
  }

  datatype SectorStep = SectorStep(descriptor: SectorDescriptor, changed: seq<PackedSector>)

  /** One planned sector: kept as it was, or rebuilt. */
  method PlanSector(p: Profile, prev: Catalog, a: Assignments, chunks: Chunks, load: Loader, s: nat)
    returns (r: Result<SectorStep, PackingError>, loaded: bool)
    requires ValidProfile(p) && Planned(p, a, chunks) && Uniform(prev.sectors, SlotsPerSector(p))
    requires Staying(FlatIds(prev.sectors), a, chunks) && s < Count(|a|, SlotsPerSector(p))
    ensures loaded <==> MustLoad(p, prev, a, chunks, s)
    ensures r.Ok? <==> SectorLoadable(p, prev, a, chunks, load, s)
    ensures r.Ok? ==> IsUpdated(p, prev, a, chunks, load, s, r.value.descriptor)
    ensures r.Ok? ==> r.value.changed == [] || (|r.value.changed| == 1 && Committed(r.value.changed[0])
                                                && r.value.changed[0].descriptor == r.value.descriptor)
    ensures r.Ok? ==> IsRebuilt(p, prev, a, chunks, load, s, r.value.changed)
  {
    var sps := SlotsPerSector(p);
    PlannedContent(chunks, a, sps, s);
    var places := Content(a, sps, s);
    if Kept(prev, s, SlotsFor(chunks, places)) { return Ok(SectorStep(prev.sectors[s], [])), false; }
    SectorStays(prev, a, chunks, sps, s);
    loaded := s < |prev.sectors|;
    var sector := UpdateSector(p, prev, s, places, chunks, load);
    if sector.Err? { return Err(sector.error), loaded; }
    UpdatedCommits(p, prev, s, places, chunks, load);
    r := Ok(SectorStep(sector.value.descriptor, [sector.value]));
  }

  datatype SectorsUpdate = SectorsUpdate(descriptors: seq<SectorDescriptor>, changed: seq<PackedSector>)

  ghost predicate Increasing(s: seq<nat>) {
    forall i, j :: 0 <= i < j < |s| ==> s[i] < s[j]
  }

  /** The previous sectors asked for are exactly those that changed, each once and in order. */
  ghost predicate LoadsTo(p: Profile, prev: Catalog, a: Assignments, chunks: Chunks, loads: seq<nat>, n: nat)
    requires Planned(p, a, chunks)
  {
    Increasing(loads) && forall s: nat :: s in loads <==> s < n && MustLoad(p, prev, a, chunks, s)
  }

  lemma LoadsStep(p: Profile, prev: Catalog, a: Assignments, chunks: Chunks, loads: seq<nat>, n: nat)
    requires Planned(p, a, chunks) && LoadsTo(p, prev, a, chunks, loads, n)
    ensures LoadsTo(p, prev, a, chunks, if MustLoad(p, prev, a, chunks, n) then loads + [n] else loads, n + 1)
  {
    assert forall i :: 0 <= i < |loads| ==> loads[i] in loads;
  }

  /** Rebuilt sectors are described in the catalog and open their commitments. */
  ghost predicate ChangedOk(descriptors: seq<SectorDescriptor>, changed: seq<PackedSector>) {
    forall i :: 0 <= i < |changed| ==> Committed(changed[i]) && changed[i].descriptor in descriptors
  }

  lemma ChangedMore(descriptors: seq<SectorDescriptor>, changed: seq<PackedSector>, step: SectorStep)
    requires ChangedOk(descriptors, changed)
    requires step.changed == [] || (|step.changed| == 1 && Committed(step.changed[0])
                                    && step.changed[0].descriptor == step.descriptor)
    ensures ChangedOk(descriptors + [step.descriptor], changed + step.changed)
  {
    assert step.descriptor == (descriptors + [step.descriptor])[|descriptors|];
    assert forall d :: d in descriptors ==> d in descriptors + [step.descriptor];
  }

  ghost predicate AllUpdated(p: Profile, prev: Catalog, a: Assignments, chunks: Chunks, load: Loader,
                             descriptors: seq<SectorDescriptor>)
    requires ValidProfile(p) && Planned(p, a, chunks)
  {
    && |descriptors| <= Count(|a|, SlotsPerSector(p))
    && forall t :: 0 <= t < |descriptors| ==> IsUpdated(p, prev, a, chunks, load, t, descriptors[t])
  }

  lemma UpdatedMore(p: Profile, prev: Catalog, a: Assignments, chunks: Chunks, load: Loader,
                    descriptors: seq<SectorDescriptor>, d: SectorDescriptor)
    requires ValidProfile(p) && Planned(p, a, chunks) && AllUpdated(p, prev, a, chunks, load, descriptors)
    requires |descriptors| < Count(|a|, SlotsPerSector(p)) && IsUpdated(p, prev, a, chunks, load, |descriptors|, d)
    ensures AllUpdated(p, prev, a, chunks, load, descriptors + [d])
  {
    var more := descriptors + [d];
    forall t | 0 <= t < |more| ensures IsUpdated(p, prev, a, chunks, load, t, more[t]) {
      if t < |descriptors| {
        assert IsUpdated(p, prev, a, chunks, load, t, descriptors[t]) && more[t] == descriptors[t];
      }
    }
  }

  /** What the walk has after some sectors. */
  ghost predicate Walked(p: Profile, prev: Catalog, a: Assignments, chunks: Chunks, load: Loader,
                         descriptors: seq<SectorDescriptor>, changed: seq<PackedSector>, loads: seq<nat>)
    requires ValidProfile(p) && Planned(p, a, chunks)
  {
    && AllUpdated(p, prev, a, chunks, load, descriptors)
    && ChangedOk(descriptors, changed) && LoadsTo(p, prev, a, chunks, loads, |descriptors|)
  }

  lemma WalkStep(p: Profile, prev: Catalog, a: Assignments, chunks: Chunks, load: Loader,
                 descriptors: seq<SectorDescriptor>, changed: seq<PackedSector>, loads: seq<nat>, step: SectorStep,
                 next: seq<nat>)
    requires ValidProfile(p) && Planned(p, a, chunks) && Walked(p, prev, a, chunks, load, descriptors, changed, loads)
    requires |descriptors| < Count(|a|, SlotsPerSector(p))
    requires IsUpdated(p, prev, a, chunks, load, |descriptors|, step.descriptor)
    requires step.changed == [] || (|step.changed| == 1 && Committed(step.changed[0])
                                    && step.changed[0].descriptor == step.descriptor)
    requires next == if MustLoad(p, prev, a, chunks, |descriptors|) then loads + [|descriptors|] else loads
    ensures Walked(p, prev, a, chunks, load, descriptors + [step.descriptor], changed + step.changed, next)
  {
    ChangedMore(descriptors, changed, step);
    LoadsStep(p, prev, a, chunks, loads, |descriptors|);
    UpdatedMore(p, prev, a, chunks, load, descriptors, step.descriptor);
  }

  lemma WalkFails(p: Profile, prev: Catalog, a: Assignments, chunks: Chunks, load: Loader, s: nat)
    requires ValidProfile(p) && Planned(p, a, chunks) && s < Count(|a|, SlotsPerSector(p))
    requires !SectorLoadable(p, prev, a, chunks, load, s)
    ensures !Loadable(p, prev, a, chunks, load)
  {
  }

  /** Walks the planned sectors; `loads` records which previous sectors were asked for. */
  method UpdateSectors(p: Profile, prev: Catalog, a: Assignments, chunks: Chunks, load: Loader)
    returns (r: Result<SectorsUpdate, PackingError>, loads: seq<nat>)
    requires ValidProfile(p) && Planned(p, a, chunks) && Uniform(prev.sectors, SlotsPerSector(p))
    requires Staying(FlatIds(prev.sectors), a, chunks)
    ensures r.Ok? <==> Loadable(p, prev, a, chunks, load)
    ensures r.Ok? ==> r.value.descriptors == UpdatedSectors(p, prev, a, chunks, load)
    ensures r.Ok? ==> ChangedOk(r.value.descriptors, r.value.changed)
    ensures r.Ok? ==> r.value.changed == RebuiltTo(p, prev, a, chunks, load, Count(|a|, SlotsPerSector(p)))
    ensures r.Ok? ==> LoadsTo(p, prev, a, chunks, loads, |r.value.descriptors|)
    ensures forall s :: s in loads ==> MustLoad(p, prev, a, chunks, s)
  {
    var n := Count(|a|, SlotsPerSector(p));
    var descriptors: seq<SectorDescriptor>, changed: seq<PackedSector> := [], [];
    loads := [];
    for s := 0 to n
      invariant |descriptors| == s && Walked(p, prev, a, chunks, load, descriptors, changed, loads)
      invariant IsRebuiltTo(p, prev, a, chunks, load, s, changed)
    {
      var step, loaded := PlanSector(p, prev, a, chunks, load, s);
      ghost var before := loads;
      if loaded { loads := loads + [s]; }
      if step.Err? {
        WalkFails(p, prev, a, chunks, load, s);
        return Err(step.error), loads;
      }
      WalkStep(p, prev, a, chunks, load, descriptors, changed, before, step.value, loads);
      RebuiltMore(p, prev, a, chunks, load, s, changed, step.value.changed);
      descriptors, changed := descriptors + [step.value.descriptor], changed + step.value.changed;
    }
    UpdatedAll(p, prev, a, chunks, load, descriptors);
    return Ok(SectorsUpdate(descriptors, changed)), loads;
  }

  lemma UpdatedAll(p: Profile, prev: Catalog, a: Assignments, chunks: Chunks, load: Loader,
                   descriptors: seq<SectorDescriptor>)
    requires ValidProfile(p) && Planned(p, a, chunks) && |descriptors| == Count(|a|, SlotsPerSector(p))
    requires AllUpdated(p, prev, a, chunks, load, descriptors)
    ensures Loadable(p, prev, a, chunks, load) && descriptors == UpdatedSectors(p, prev, a, chunks, load)
  {
    assert forall t :: 0 <= t < |descriptors| ==>
             IsUpdated(p, prev, a, chunks, load, t, descriptors[t]) && SectorLoadable(p, prev, a, chunks, load, t);
  }

  // ---------------------------------------------------------------- the update

  datatype Update = Update(catalog: Catalog, changed: seq<PackedSector>)

  lemma UpdateStays(p: Profile, prev: Catalog, src: Sources, added: Objects)
    requires Updatable(p, prev, src, added) && UsablePrevious(p, Some(prev))
    requires Planned(p, UpdatePlaces(p, prev, src), UpdateChunks(p, prev, src, added))
    ensures Staying(FlatIds(prev.sectors), UpdatePlaces(p, prev, src), UpdateChunks(p, prev, src, added))
  {
    var a, chunks := UpdatePlaces(p, prev, src), UpdateChunks(p, prev, src, added);
    forall i | 0 <= i < |a| && NeedsPrior(chunks, a[i])
      ensures i < |FlatIds(prev.sectors)| && FlatIds(prev.sectors)[i] == a[i]
    {
      var id := a[i].value;
      assert id in chunks && chunks[id] == UpdateChunk(p, prev, src, added, id);
      UpdateChunkFits(p, prev, src, added, id);
      RetainedStays(p, prev, src, added, i, id);
    }
  }

  /** When the update succeeds, short of its last self-check. */
  ghost predicate UpdateOk(p: Profile, prev: Catalog, sources: seq<AuthenticatedSource>, newInputs: seq<Input>,
                           load: Loader) {
    && SourcesDistinct(sources) && KeysDistinct(newInputs)
    && Updatable(p, prev, SourcesOf(sources), ObjectsOf(newInputs))
    && (UpdateIsPlanned(p, prev, SourcesOf(sources), ObjectsOf(newInputs));
        Loadable(p, prev, UpdatePlaces(p, prev, SourcesOf(sources)),
                 UpdateChunks(p, prev, SourcesOf(sources), ObjectsOf(newInputs)), load))
    && prev.revision + 1 < U64_LIMIT
  }

  /** The catalog of an update that goes through. */
  ghost function UpdateOutcome(p: Profile, prev: Catalog, sources: seq<AuthenticatedSource>, newInputs: seq<Input>,
                               load: Loader)
    : Catalog
    requires UpdateOk(p, prev, sources, newInputs, load)
  {
    UpdateIsPlanned(p, prev, SourcesOf(sources), ObjectsOf(newInputs));
    UpdateCatalog(p, prev, SourcesOf(sources), ObjectsOf(newInputs), load)
  }

  /** The sectors of an update that goes through: exactly the rebuilt ones, in order. */
  ghost function UpdateChanges(p: Profile, prev: Catalog, sources: seq<AuthenticatedSource>, newInputs: seq<Input>,
                               load: Loader)
    : seq<PackedSector>
    requires UpdateOk(p, prev, sources, newInputs, load)
  {
    UpdateIsPlanned(p, prev, SourcesOf(sources), ObjectsOf(newInputs));
    AllRebuilt(p, prev, UpdatePlaces(p, prev, SourcesOf(sources)),
               UpdateChunks(p, prev, SourcesOf(sources), ObjectsOf(newInputs)), load)
  }

  ghost function AllRebuilt(p: Profile, prev: Catalog, a: Assignments, chunks: Chunks, load: Loader): seq<PackedSector>
    requires ValidProfile(p) && Planned(p, a, chunks)
  {
    RebuiltTo(p, prev, a, chunks, load, Count(|a|, SlotsPerSector(p)))
  }

  /** Plans, loads and rebuilds once the sources are accepted. */
  method RebuildSectors(p: Profile, prev: Catalog, ghost src: Sources, ghost added: Objects, chunks: Chunks,
                        load: Loader)
    returns (r: Result<SectorsUpdate, PackingError>, loads: seq<nat>)
    requires Updatable(p, prev, src, added) && UsablePrevious(p, Some(prev))
    requires chunks == UpdateChunks(p, prev, src, added) && Planned(p, UpdatePlaces(p, prev, src), chunks)
    ensures r.Ok? <==> Loadable(p, prev, UpdatePlaces(p, prev, src), chunks, load)
    ensures r.Ok? ==> r.value.descriptors == UpdatedSectors(p, prev, UpdatePlaces(p, prev, src), chunks, load)
    ensures r.Ok? ==> ChangedOk(r.value.descriptors, r.value.changed)
    ensures r.Ok? ==> r.value.changed == AllRebuilt(p, prev, UpdatePlaces(p, prev, src), chunks, load)
    ensures r.Ok? ==> LoadsTo(p, prev, UpdatePlaces(p, prev, src), chunks, loads, |r.value.descriptors|)
    ensures forall s :: s in loads ==> MustLoad(p, prev, UpdatePlaces(p, prev, src), chunks, s)
  {
    PreviousIsWhole(p, Some(prev));
    var _, a := PlanSlots(FlatIds(prev.sectors), chunks.Keys, SlotsPerSector(p));
    assert a == UpdatePlaces(p, prev, src);
    UpdateStays(p, prev, src, added);
    r, loads := UpdateSectors(p, prev, a, chunks, load);
  }

  lemma ProofsAreUpdated(ids: set<ChunkId>, chunks: Chunks, r: seq<Authentication>)
    requires forall id :: id in ids ==> id in chunks && chunks[id].authentication.Some?
    requires |r| == |SortedIds(ids)|
    requires forall i :: 0 <= i < |r| ==>
               SortedIds(ids)[i] in chunks && r[i] == chunks[SortedIds(ids)[i]].authentication.value
    ensures r == UpdatedProofs(ids, chunks)
  {
  }

  method UpdateProofList(p: Profile, prev: Catalog, ghost src: Sources, ghost added: Objects, chunks: Chunks)
    returns (r: seq<Authentication>)
    requires Updatable(p, prev, src, added) && chunks == UpdateChunks(p, prev, src, added)
    ensures forall id :: id in UpdateIds(p, src.Keys) ==> id in chunks && chunks[id].authentication.Some?
    ensures r == UpdatedProofs(UpdateIds(p, src.Keys), chunks)
  {
    UpdateChunksProved(p, prev, src, added);
    r := ListProofs(chunks);
    ProofsAreUpdated(UpdateIds(p, src.Keys), chunks, r);
  }

  /** From accepted sources to the catalog. */
  method FinishUpdate(p: Profile, prev: Catalog, ghost src: Sources, ghost added: Objects, chunks: Chunks, load: Loader)
    returns (r: Result<Update, PackingError>, loads: seq<nat>)
    requires Updatable(p, prev, src, added) && UsablePrevious(p, Some(prev))
    requires chunks == UpdateChunks(p, prev, src, added) && Planned(p, UpdatePlaces(p, prev, src), chunks)
    ensures r.Ok? <==> Loadable(p, prev, UpdatePlaces(p, prev, src), chunks, load) && prev.revision + 1 < U64_LIMIT
    ensures r.Ok? ==> r.value.catalog == UpdateCatalog(p, prev, src, added, load)
    ensures r.Ok? ==> ChangedOk(r.value.catalog.sectors, r.value.changed)
    ensures r.Ok? ==> r.value.changed == AllRebuilt(p, prev, UpdatePlaces(p, prev, src), chunks, load)
    ensures r.Ok? ==> LoadsTo(p, prev, UpdatePlaces(p, prev, src), chunks, loads, |r.value.catalog.sectors|)
    ensures forall s :: s in loads ==> MustLoad(p, prev, UpdatePlaces(p, prev, src), chunks, s)
  {
    var sectors;
    sectors, loads := RebuildSectors(p, prev, src, added, chunks, load);
    if sectors.Err? { return Err(sectors.error), loads; }
    var proofs := UpdateProofList(p, prev, src, added, chunks);
    if prev.revision + 1 >= U64_LIMIT { return Err(InvalidCatalog), loads; }
    var catalog := MakeCatalog(3, prev.revision + 1, Some(prev.id), p, sectors.value.descriptors, Some(proofs));
    return Ok(Update(catalog, sectors.value.changed)), loads;
  }

  /**
   The authenticated update. `loads` lists the previous sectors that were asked for: only those
   whose slots change, and after a success every one of them, once and in order. The
   missing-object error for a displaced payload cannot occur.
   */
  method PackIncrementalAuthenticated(p: Profile, prev: Catalog, sources: seq<AuthenticatedSource>,
                                      newInputs: seq<Input>, load: Loader)
    returns (r: Result<Update, PackingError>, loads: seq<nat>)
    ensures r.Ok? <==> UpdateOk(p, prev, sources, newInputs, load)
                       && ValidCatalog(UpdateOutcome(p, prev, sources, newInputs, load))
    ensures r.Ok? ==> r.value.catalog == UpdateOutcome(p, prev, sources, newInputs, load)
    ensures r.Ok? ==> ChangedOk(r.value.catalog.sectors, r.value.changed)
    ensures r.Ok? ==> r.value.changed == UpdateChanges(p, prev, sources, newInputs, load)
    ensures r.Ok? ==> (
              UpdateIsPlanned(p, prev, SourcesOf(sources), ObjectsOf(newInputs));
              LoadsTo(p, prev, UpdatePlaces(p, prev, SourcesOf(sources)),
                      UpdateChunks(p, prev, SourcesOf(sources), ObjectsOf(newInputs)), loads,
                      |r.value.catalog.sectors|))
    ensures loads != [] ==> Updatable(p, prev, SourcesOf(sources), ObjectsOf(newInputs))
    ensures forall s :: s in loads ==>
              && Updatable(p, prev, SourcesOf(sources), ObjectsOf(newInputs))
              && (UpdateIsPlanned(p, prev, SourcesOf(sources), ObjectsOf(newInputs));
                  MustLoad(p, prev, UpdatePlaces(p, prev, SourcesOf(sources)),
                           UpdateChunks(p, prev, SourcesOf(sources), ObjectsOf(newInputs)), s))
  {
    if !ValidProfile(p) { return Err(InvalidProfile), []; }
    if !ValidCatalog(prev) { return Err(InvalidCatalog), []; }
    if prev.formatVersion < 2 || prev.profile != p { return Err(ProfileChanged), []; }
    var chunks := UpdateInputs(p, prev, sources, newInputs);
    if chunks.Err? { return Err(chunks.error), []; }
    ghost var src, added := SourcesOf(sources), ObjectsOf(newInputs);
    UpdateIsPlanned(p, prev, src, added);
    r, loads := FinishUpdate(p, prev, src, added, chunks.value, load);
    if r.Ok? && !ValidCatalog(r.value.catalog) { return Err(InvalidCatalog), loads; }
  }
}
