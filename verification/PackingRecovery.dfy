/**
 Recovery: whoever keeps the sectors that packs and updates make can unpack every object of the
 latest catalog, and gets the bytes that were packed.
 */
module PackingRecovery {
  import opened Base
  import opened Allocator
  import opened Packing
  import opened PackingValidity
  import opened PackingUpdate
  import opened PackingEquivalence
  import opened Packer
  import opened UpdateSources
  import opened Updater
  import opened Unpacking
  import opened PackingHistory

  // ---------------------------------------------------------------- supplied sectors

  /** A sector of the profile's size that opens its commitment, under the id of its own record. */
  predicate Genuine(p: Profile, x: PackedSector) {
    Committed(x) && |x.bytes| == p.sectorSize && Named(p, x.descriptor)
  }

  predicate Named(p: Profile, d: SectorDescriptor) {
    d.id == SectorId(p, d.sectorIndex, d.flatRoot, d.commitment, d.slots)
  }

  ghost predicate AllGenuine(p: Profile, sectors: seq<PackedSector>) {
    forall i :: 0 <= i < |sectors| ==> Genuine(p, sectors[i])
  }

  /** The described sector is among the supplied ones and authenticates. */
  predicate Opens(p: Profile, formatVersion: nat, sectors: seq<PackedSector>, d: SectorDescriptor) {
    Supplied(sectors, d.id).Some? && SectorOpens(p, formatVersion, d, Supplied(sectors, d.id).value)
  }

  lemma {:induction false} SuppliedJoin(a: seq<PackedSector>, b: seq<PackedSector>, id: PackingId)
    ensures Supplied(a + b, id) == if Supplied(b, id).Some? then Supplied(b, id) else Supplied(a, id)
    decreases |b|
  {
    if b == [] {
      assert a + b == a;
    } else {
      var front := b[..|b| - 1];
      assert (a + b)[..|a + b| - 1] == a + front && (a + b)[|a + b| - 1] == b[|b| - 1];
      SuppliedJoin(a, front, id);
    }
  }

  lemma GenuineOpens(p: Profile, d: SectorDescriptor, x: PackedSector)
    requires Genuine(p, x) && Named(p, d) && x.descriptor.id == d.id
    ensures SectorOpens(p, 3, d, x)
  {
  }

  /** What is described opens from old sectors and genuine new ones, when either part has it. */
  lemma JoinOpens(p: Profile, held: seq<PackedSector>, made: seq<PackedSector>, d: SectorDescriptor)
    requires AllGenuine(p, made) && Named(p, d)
    requires Opens(p, 3, held, d) || exists x :: x in made && x.descriptor == d
    ensures Opens(p, 3, held + made, d)
  {
    SuppliedJoin(held, made, d.id);
    if Supplied(made, d.id).Some? { GenuineOpens(p, d, Supplied(made, d.id).value); }
  }

  // ---------------------------------------------------------------- after an update

  lemma UpdatedIsGenuine(p: Profile, prev: Catalog, s: nat, places: Assignments, chunks: Chunks, load: Loader)
    requires ValidProfile(p) && |places| == SlotsPerSector(p) && Covered(chunks, places) && Fits(chunks, p.slotSize)
    requires BaseOk(p, prev, s, load)
    ensures Genuine(p, UpdatedSector(p, prev, s, places, chunks, load))
  {
    ProfileFacts(p);
    UpdatedCommits(p, prev, s, places, chunks, load);
  }

  lemma RebuiltIsGenuine(p: Profile, prev: Catalog, a: Assignments, chunks: Chunks, load: Loader, s: nat)
    requires ValidProfile(p) && Planned(p, a, chunks) && s < Count(|a|, SlotsPerSector(p))
    ensures AllGenuine(p, Rebuilt(p, prev, a, chunks, load, s))
  {
    PlannedContent(chunks, a, SlotsPerSector(p), s);
    var places := Content(a, SlotsPerSector(p), s);
    if SectorLoadable(p, prev, a, chunks, load, s) && !Kept(prev, s, SlotsFor(chunks, places)) {
      UpdatedIsGenuine(p, prev, s, places, chunks, load);
    }
  }

  lemma {:induction false} RebuiltToIsGenuine(p: Profile, prev: Catalog, a: Assignments, chunks: Chunks, load: Loader,
                                              n: nat)
    requires ValidProfile(p) && Planned(p, a, chunks) && n <= Count(|a|, SlotsPerSector(p))
    ensures AllGenuine(p, RebuiltTo(p, prev, a, chunks, load, n))
  {
    if n > 0 {
      RebuiltToIsGenuine(p, prev, a, chunks, load, n - 1);
      RebuiltIsGenuine(p, prev, a, chunks, load, n - 1);
    }
  }

  lemma {:induction false} RebuiltIsListed(p: Profile, prev: Catalog, a: Assignments, chunks: Chunks, load: Loader,
                                           s: nat, n: nat, x: PackedSector)
    requires ValidProfile(p) && Planned(p, a, chunks) && s < n <= Count(|a|, SlotsPerSector(p))
    requires x in Rebuilt(p, prev, a, chunks, load, s)
    ensures x in RebuiltTo(p, prev, a, chunks, load, n)
  {
    if s < n - 1 { RebuiltIsListed(p, prev, a, chunks, load, s, n - 1, x); }
  }

  /** A sector of the plan is the previous one, under a format that binds it, or it was rebuilt. */
  lemma KeptOrRebuilt(p: Profile, prev: Catalog, a: Assignments, chunks: Chunks, load: Loader, s: nat)
    requires ValidProfile(p) && Planned(p, a, chunks) && s < Count(|a|, SlotsPerSector(p))
    requires SectorLoadable(p, prev, a, chunks, load, s)
    ensures var d := UpdatedAt(p, prev, a, chunks, load, s);
            || (s < |prev.sectors| && prev.formatVersion >= 3 && d == prev.sectors[s])
            || (exists x :: x in AllRebuilt(p, prev, a, chunks, load) && x.descriptor == d)
  {
    PlannedContent(chunks, a, SlotsPerSector(p), s);
    var places := Content(a, SlotsPerSector(p), s);
    if !Kept(prev, s, SlotsFor(chunks, places)) {
      var x := UpdatedSector(p, prev, s, places, chunks, load);
      assert Rebuilt(p, prev, a, chunks, load, s) == [x];
      RebuiltIsListed(p, prev, a, chunks, load, s, Count(|a|, SlotsPerSector(p)), x);
    }
  }

  lemma SupplyOf(c: Catalog, sectors: seq<PackedSector>, key: ObjectKey, s: nat)
    requires AllSupplied(c, sectors, key) && s < |c.sectors| && HoldsKey(c.sectors[s], key)
    ensures Opens(c.profile, c.formatVersion, sectors, c.sectors[s])
  {
  }

  lemma SupplyByParts(c: Catalog, sectors: seq<PackedSector>, key: ObjectKey)
    requires forall s :: 0 <= s < |c.sectors| && HoldsKey(c.sectors[s], key) ==>
               Opens(c.profile, c.formatVersion, sectors, c.sectors[s])
    ensures AllSupplied(c, sectors, key)
  {
    forall s | 0 <= s < |c.sectors| && HoldsKey(c.sectors[s], key)
      ensures && Supplied(sectors, c.sectors[s].id).Some?
              && SectorOpens(c.profile, c.formatVersion, c.sectors[s], Supplied(sectors, c.sectors[s].id).value)
    {
      assert Opens(c.profile, c.formatVersion, sectors, c.sectors[s]);
    }
  }

  lemma NamedSector(c: Catalog, s: nat)
    requires ValidCatalog(c) && s < |c.sectors|
    ensures Named(c.profile, c.sectors[s])
  {
  }

  lemma UpdateSuppliesAt(p: Profile, prev: Catalog, a: Assignments, chunks: Chunks, load: Loader, next: Catalog,
                         held: seq<PackedSector>, key: ObjectKey, s: nat)
    requires ValidProfile(p) && Planned(p, a, chunks) && Loadable(p, prev, a, chunks, load)
    requires prev.profile == p && AllSupplied(prev, held, key)
    requires next.profile == p && next.formatVersion == 3 && next.sectors == UpdatedSectors(p, prev, a, chunks, load)
    requires s < |next.sectors| && HoldsKey(next.sectors[s], key) && Named(p, next.sectors[s])
    ensures Opens(p, 3, held + AllRebuilt(p, prev, a, chunks, load), next.sectors[s])
  {
    var d := next.sectors[s];
    assert d == UpdatedAt(p, prev, a, chunks, load, s) && SectorLoadable(p, prev, a, chunks, load, s);
    KeptOrRebuilt(p, prev, a, chunks, load, s);
    RebuiltToIsGenuine(p, prev, a, chunks, load, Count(|a|, SlotsPerSector(p)));
    if s < |prev.sectors| && prev.formatVersion >= 3 && d == prev.sectors[s] { SupplyOf(prev, held, key, s); }
    JoinOpens(p, held, AllRebuilt(p, prev, a, chunks, load), d);
  }

  /**
   Whoever could unpack an object before an update, or had nothing of it to supply, can unpack it
   afterwards from the old sectors and the ones the update returns.
   */
  lemma UpdateSupplies(p: Profile, prev: Catalog, sources: seq<AuthenticatedSource>, newInputs: seq<Input>,
                       load: Loader, held: seq<PackedSector>, key: ObjectKey)
    requires UpdateOk(p, prev, sources, newInputs, load) && AllSupplied(prev, held, key)
    requires ValidCatalog(UpdateOutcome(p, prev, sources, newInputs, load))
    ensures AllSupplied(UpdateOutcome(p, prev, sources, newInputs, load),
                        held + UpdateChanges(p, prev, sources, newInputs, load), key)
  {
    var src, added := SourcesOf(sources), ObjectsOf(newInputs);
    UpdateIsPlanned(p, prev, src, added);
    var a, chunks := UpdatePlaces(p, prev, src), UpdateChunks(p, prev, src, added);
    var next := UpdateOutcome(p, prev, sources, newInputs, load);
    UpdateShape(p, prev, src, added, load);
    forall s | 0 <= s < |next.sectors| && HoldsKey(next.sectors[s], key)
      ensures Opens(p, 3, held + AllRebuilt(p, prev, a, chunks, load), next.sectors[s])
    {
      NamedSector(next, s);
      UpdateSuppliesAt(p, prev, a, chunks, load, next, held, key, s);
    }
    SupplyByParts(next, held + AllRebuilt(p, prev, a, chunks, load), key);
  }

  // ---------------------------------------------------------------- round trips

  /**
   Updating and then unpacking: every listed source, new or retained, can be unpacked from the old
   sectors and the returned ones, and gives the bytes it was packed with.
   */
  lemma UpdateRoundTrip(p: Profile, prev: Catalog, m: Objects, sources: seq<AuthenticatedSource>,
                        newInputs: seq<Input>, load: Loader, held: seq<PackedSector>, key: ObjectKey)
    requires Sound(p, prev, m) && UpdateOk(p, prev, sources, newInputs, load) && AllSupplied(prev, held, key)
    ensures var next := UpdateOutcome(p, prev, sources, newInputs, load);
            var store := held + UpdateChanges(p, prev, sources, newInputs, load);
            var objects := Carried(SourcesOf(sources), ObjectsOf(newInputs), m);
            && ValidCatalog(next) && AllSupplied(next, store, key) && (ObjectIds(next, key) != {} <==> key in objects)
            && (forall bytes :: key in objects && Unpacked(next, store, key, bytes) ==> bytes == objects[key].bytes)
  {
    UpdateIsSound(p, prev, m, sources, newInputs, load);
    UpdateSupplies(p, prev, sources, newInputs, load, held, key);
    HonestRoundTrip(UpdateOutcome(p, prev, sources, newInputs, load),
                    Carried(SourcesOf(sources), ObjectsOf(newInputs), m),
                    held + UpdateChanges(p, prev, sources, newInputs, load), key);
  }

  // ---------------------------------------------------------------- whole histories

  /** Every sector made in a run, in order. */
  function Store(run: seq<Snapshot>): seq<PackedSector> {
    if run == [] then [] else Store(run[..|run| - 1]) + run[|run| - 1].made
  }

  lemma FullSupplies(p: Profile, previous: Option<Catalog>, inputs: seq<Input>, next: Snapshot, held: seq<PackedSector>,
                     key: ObjectKey)
    requires FullStep(p, previous, inputs, next)
    ensures AllSupplied(next.catalog, held + next.made, key)
  {
    PackableFacts(p, previous, inputs);
    BuiltResultValidIff(p, previous, ObjectsOf(inputs));
    ResultSupplies(PackingResult(next.catalog, next.made), key);
    forall s | 0 <= s < |next.catalog.sectors| && HoldsKey(next.catalog.sectors[s], key)
      ensures Opens(next.catalog.profile, next.catalog.formatVersion, held + next.made, next.catalog.sectors[s])
    {
      SupplyOf(next.catalog, next.made, key, s);
      SuppliedJoin(held, next.made, next.catalog.sectors[s].id);
    }
    SupplyByParts(next.catalog, held + next.made, key);
  }

  lemma PrefixHistory(p: Profile, run: seq<Snapshot>)
    requires History(p, run) && run != []
    ensures History(p, run[..|run| - 1])
  {
    var front := run[..|run| - 1];
    forall i | 0 <= i < |front| ensures StepAt(p, front, i) { assert StepAt(p, run, i); }
  }

  lemma StepSupplies(p: Profile, previous: Option<Snapshot>, next: Snapshot, held: seq<PackedSector>, key: ObjectKey)
    requires Step(p, previous, next) && ValidCatalog(next.catalog)
    requires previous.Some? ==> AllSupplied(previous.value.catalog, held, key)
    ensures AllSupplied(next.catalog, held + next.made, key)
  {
    if inputs :| FullStep(p, CatalogOf(previous), inputs, next) {
      FullSupplies(p, CatalogOf(previous), inputs, next, held, key);
    } else {
      var sources, newInputs, load: Loader :| UpdateStep(p, previous.value, sources, newInputs, load, next);
      UpdateSupplies(p, previous.value.catalog, sources, newInputs, load, held, key);
    }
  }

  /** Every sector that the latest catalog of a run needs was made in the run and authenticates. */
  lemma {:induction false} StoreSupplies(p: Profile, run: seq<Snapshot>, key: ObjectKey)
    requires History(p, run) && run != []
    ensures AllSupplied(run[|run| - 1].catalog, Store(run), key)
  {
    var front, last := run[..|run| - 1], |run| - 1;
    assert StepAt(p, run, last);
    HistoryIsSound(p, run, |run|);
    assert GoodAt(p, run, last);
    if front != [] {
      PrefixHistory(p, run);
      StoreSupplies(p, front, key);
    }
    StepSupplies(p, Predecessor(run, last), run[last], Store(front), key);
  }

  /**
   Recovers an object of the latest catalog from the sectors made in the whole run. It returns
   exactly the bytes the object was packed with, and an error exactly for an object that the latest
   step did not list.
   */
  method Recover(catalog: Catalog, store: seq<PackedSector>, key: ObjectKey, ghost p: Profile, ghost run: seq<Snapshot>)
    returns (r: Result<Bytes, PackingError>)
    requires History(p, run) && run != [] && catalog == run[|run| - 1].catalog && store == Store(run)
    ensures var objects := run[|run| - 1].objects;
            r == if key in objects then Ok(objects[key].bytes) else Err(MissingObject)
  {
    HistoryIsSound(p, run, |run|);
    assert GoodAt(p, run, |run| - 1);
    StoreSupplies(p, run, key);
    HonestRoundTrip(catalog, run[|run| - 1].objects, store, key);
    r := UnpackObjectFromSectors(catalog, store, key);
  }
}
