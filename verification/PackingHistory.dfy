/**
 Whole histories of a packed catalog: any run of full packs and authenticated updates, from
 nothing. What holds of every catalog in such a run is proved here.
 */
module PackingHistory {
  import opened Base
  import opened Allocator
  import opened Placement
  import opened Packing
  import opened PackingValidity
  import opened PackingUpdate
  import opened PackingEquivalence
  import opened Packer
  import opened UpdateSources
  import opened Updater

  /** A catalog, the objects packed in it, and the sectors that were made for it. */
  datatype Snapshot = Snapshot(catalog: Catalog, objects: Objects, made: seq<PackedSector>)

  function CatalogOf(previous: Option<Snapshot>): Option<Catalog> {
    if previous.Some? then Some(previous.value.catalog) else None
  }

  /** The objects after an update: new ones, and the listed others as they were. */
  function Carried(src: Sources, added: Objects, packed: Objects): Objects {
    map key | key in src && (key in added || key in packed) :: if key in added then added[key] else packed[key]
  }

  /** A full pack that succeeded. */
  ghost predicate FullStep(p: Profile, previous: Option<Catalog>, inputs: seq<Input>, next: Snapshot) {
    && PackOk(p, previous, inputs) && next.objects == ObjectsOf(inputs)
    && (PackableFacts(p, previous, inputs);
        PackingResult(next.catalog, next.made) == BuildResult(p, previous, ObjectsOf(inputs)))
  }

  /** An authenticated update that succeeded, whatever its loader returned. */
  ghost predicate UpdateStep(p: Profile, prev: Snapshot, sources: seq<AuthenticatedSource>, newInputs: seq<Input>,
                             load: Loader, next: Snapshot) {
    && UpdateOk(p, prev.catalog, sources, newInputs, load)
    && next.catalog == UpdateOutcome(p, prev.catalog, sources, newInputs, load)
    && next.made == UpdateChanges(p, prev.catalog, sources, newInputs, load)
    && next.objects == Carried(SourcesOf(sources), ObjectsOf(newInputs), prev.objects)
  }

  ghost predicate Step(p: Profile, previous: Option<Snapshot>, next: Snapshot) {
    || (exists inputs :: FullStep(p, CatalogOf(previous), inputs, next))
    || (previous.Some? && exists sources, newInputs, load: Loader ::
          UpdateStep(p, previous.value, sources, newInputs, load, next))
  }

  /** Snapshots in the order they were made, the first one from nothing. */
  ghost predicate History(p: Profile, run: seq<Snapshot>) {
    forall i :: 0 <= i < |run| ==> StepAt(p, run, i)
  }

  ghost predicate StepAt(p: Profile, run: seq<Snapshot>, i: nat)
    requires i < |run|
  {
    Step(p, Predecessor(run, i), run[i])
  }

  ghost function Predecessor(run: seq<Snapshot>, i: nat): Option<Snapshot>
    requires i < |run|
  {
    if i == 0 then None else Some(run[i - 1])
  }

  /** What every catalog of a run satisfies, with the objects of its step. */
  ghost predicate Sound(p: Profile, c: Catalog, m: Objects) {
    && ValidCatalog(c) && c.profile == p && c.revision < U64_LIMIT
    && Honest(c, m)
    && HasReserve(p, c)
  }

  /** A chunk that is in both catalogs is in the same slot of both. */
  ghost predicate SameSlots(prev: Catalog, next: Catalog) {
    forall c {:trigger SlotsKept(prev, c)} :: c == next ==> SlotsKept(prev, c)
  }

  ghost predicate SlotsKept(prev: Catalog, next: Catalog) {
    forall i :: 0 <= i < |FlatIds(prev.sectors)| ==> StaysAt(FlatIds(prev.sectors)[i], FlatIds(next.sectors), i)
  }

  ghost predicate StaysAt(slot: Option<ChunkId>, next: Assignments, i: nat) {
    slot.Some? && slot.value in IdsIn(next) ==> i < |next| && next[i] == slot
  }

  /** How a catalog follows its predecessor. */
  ghost predicate Follows(previous: Option<Catalog>, next: Catalog) {
    match previous
    case None => next.revision == 1 && next.parent == None
    case Some(prev) => next.revision == prev.revision + 1 && next.parent == Some(prev.id) && SameSlots(prev, next)
  }

  lemma BuiltReserve(p: Profile, previous: Option<Catalog>, m: Objects)
    requires ValidProfile(p) && UsablePrevious(p, previous) && GoodObjects(p, m) && SlotsPerSector(p) >= 2
    requires Whole(|PreviousSlots(previous)|, SlotsPerSector(p))
    requires CrossOwnerReserve(PreviousSlots(previous), SlotsPerSector(p))
    ensures Whole(|BuiltSlots(p, previous, m)|, SlotsPerSector(p))
    ensures CrossOwnerReserve(BuiltSlots(p, previous, m), SlotsPerSector(p))
  {
    NextSlotsKeepReserve(PreviousSlots(previous), ChunkIds(p, m), SlotsPerSector(p));
  }

  lemma PreviousReserve(p: Profile, previous: Option<Catalog>)
    requires ValidProfile(p) && UsablePrevious(p, previous) && SlotsPerSector(p) >= 2
    requires previous.Some? ==> HasReserve(p, previous.value)
    ensures Whole(|PreviousSlots(previous)|, SlotsPerSector(p))
    ensures CrossOwnerReserve(PreviousSlots(previous), SlotsPerSector(p))
  {
    PreviousIsWhole(p, previous);
  }

  /** No sector is full of one owner's chunks alone. */
  ghost predicate HasReserve(p: Profile, c: Catalog) {
    && p.slotSize >= 1
    && (SlotsPerSector(p) >= 2 ==>
          && Whole(|FlatIds(c.sectors)|, SlotsPerSector(p)) && CrossOwnerReserve(FlatIds(c.sectors), SlotsPerSector(p)))
  }

  lemma BuiltHasReserve(p: Profile, previous: Option<Catalog>, m: Objects)
    requires ValidProfile(p) && UsablePrevious(p, previous) && GoodObjects(p, m)
    requires previous.Some? ==> HasReserve(p, previous.value)
    ensures HasReserve(p, BuildCatalog(p, previous, m))
  {
    BuiltIds(p, previous, m);
    if SlotsPerSector(p) >= 2 {
      PreviousReserve(p, previous);
      BuiltReserve(p, previous, m);
    }
  }

  lemma BuiltSameSlots(p: Profile, prev: Catalog, m: Objects)
    requires ValidProfile(p) && UsablePrevious(p, Some(prev)) && GoodObjects(p, m)
    ensures SameSlots(prev, BuildCatalog(p, Some(prev), m))
  {
    BuiltIds(p, Some(prev), m);
    PreviousIsWhole(p, Some(prev));
    var flat, ids, sps := FlatIds(prev.sectors), ChunkIds(p, m), SlotsPerSector(p);
    NextSlotsAreStable(flat, ids, sps);
    var next := NextSlots(flat, ids, sps);
    forall i | 0 <= i < |flat| ensures StaysAt(flat[i], next, i) { }
  }

  lemma BuiltIsValid(p: Profile, previous: Option<Catalog>, m: Objects)
    requires ValidProfile(p) && GoodObjects(p, m) && (Authenticated(m) || Unauthenticated(m))
    requires previous.Some? ==> ValidCatalog(previous.value) && previous.value.profile == p
    requires previous.Some? ==> previous.value.revision + 1 < U64_LIMIT
    requires Authenticated(m) ==> forall key :: key in m ==> |m[key].bytes| == p.sectorSize
    ensures UsablePrevious(p, previous) && ValidCatalog(BuildCatalog(p, previous, m))
  {
    BuiltResultValidIff(p, previous, m);
  }

  lemma BuiltHeader(p: Profile, previous: Option<Catalog>, m: Objects)
    requires ValidProfile(p) && UsablePrevious(p, previous) && GoodObjects(p, m)
    ensures BuildCatalog(p, previous, m).revision == NextRevision(previous)
    ensures BuildCatalog(p, previous, m).parent == if previous.Some? then Some(previous.value.id) else None
  {
  }

  lemma BuiltFollowsPrevious(p: Profile, prev: Catalog, m: Objects)
    requires ValidProfile(p) && UsablePrevious(p, Some(prev)) && GoodObjects(p, m) && prev.revision + 1 < U64_LIMIT
    ensures Follows(Some(prev), BuildCatalog(p, Some(prev), m)) && BuildCatalog(p, Some(prev), m).revision < U64_LIMIT
  {
    BuiltHeader(p, Some(prev), m);
    BuiltSameSlots(p, prev, m);
    FollowsByParts(prev, BuildCatalog(p, Some(prev), m));
  }

  lemma BuiltFollows(p: Profile, previous: Option<Catalog>, m: Objects)
    requires ValidProfile(p) && UsablePrevious(p, previous) && GoodObjects(p, m)
    requires previous.Some? ==> previous.value.revision + 1 < U64_LIMIT
    ensures Follows(previous, BuildCatalog(p, previous, m)) && BuildCatalog(p, previous, m).revision < U64_LIMIT
  {
    match previous
    case None => BuiltHeader(p, None, m);
    case Some(prev) => BuiltFollowsPrevious(p, prev, m);
  }

  lemma FollowsByParts(prev: Catalog, next: Catalog)
    requires next.revision == prev.revision + 1 && next.parent == Some(prev.id) && SameSlots(prev, next)
    ensures Follows(Some(prev), next)
  {
  }

  /** A catalog built from a sound predecessor is sound and follows it. */
  lemma BuiltIsSound(p: Profile, previous: Option<Catalog>, before: Objects, m: Objects)
    requires ValidProfile(p) && GoodObjects(p, m) && (Authenticated(m) || Unauthenticated(m))
    requires previous.Some? ==> Sound(p, previous.value, before) && previous.value.revision + 1 < U64_LIMIT
    requires Authenticated(m) ==> forall key :: key in m ==> |m[key].bytes| == p.sectorSize
    ensures UsablePrevious(p, previous)
    ensures Sound(p, BuildCatalog(p, previous, m), m) && Follows(previous, BuildCatalog(p, previous, m))
  {
    BuiltIsValid(p, previous, m);
    BuiltIsHonest(p, previous, m);
    BuiltHasReserve(p, previous, m);
    BuiltFollows(p, previous, m);
  }

  lemma CarriedKeys(src: Sources, added: Objects, m: Objects)
    requires src.Keys - added.Keys <= m.Keys
    ensures Carried(src, added, m) == FullObjects(src, added, m) && Carried(src, added, m).Keys == src.Keys
  {
  }

  lemma ListedCommitments(p: Profile, src: Sources, m: Objects)
    requires p.slotSize >= 1 && SectorObjects(p, src, m)
    ensures m.Keys == src.Keys && forall key :: key in src ==> m[key].sourceCommitment == Some(src[key])
  {
  }

  /** An update carries exactly the listed sources, each with the commitment listed for it. */
  lemma CarriedIsFull(p: Profile, prev: Catalog, src: Sources, added: Objects, m: Objects)
    requires Honest(prev, m) && Updatable(p, prev, src, added)
    ensures src.Keys - added.Keys <= m.Keys && Carried(src, added, m) == FullObjects(src, added, m)
    ensures Carried(src, added, m).Keys == src.Keys
    ensures forall key :: key in src ==> Carried(src, added, m)[key].sourceCommitment == Some(src[key])
  {
    FullObjectsGood(p, prev, src, added, m);
    CarriedKeys(src, added, m);
    ListedCommitments(p, src, FullObjects(src, added, m));
  }

  lemma UpdateIsSound(p: Profile, prev: Catalog, m: Objects, sources: seq<AuthenticatedSource>, newInputs: seq<Input>,
                      load: Loader)
    requires Sound(p, prev, m) && UpdateOk(p, prev, sources, newInputs, load)
    ensures Sound(p, UpdateOutcome(p, prev, sources, newInputs, load),
                  Carried(SourcesOf(sources), ObjectsOf(newInputs), m))
    ensures Follows(Some(prev), UpdateOutcome(p, prev, sources, newInputs, load))
  {
    var src, added := SourcesOf(sources), ObjectsOf(newInputs);
    UpdateIsPlanned(p, prev, src, added);
    UpdateIsBuild(p, prev, src, added, m, load);
    FullObjectsGood(p, prev, src, added, m);
    CarriedIsFull(p, prev, src, added, m);
    BuiltIsSound(p, Some(prev), m, FullObjects(src, added, m));
  }

  lemma StepIsSound(p: Profile, previous: Option<Snapshot>, next: Snapshot)
    requires Step(p, previous, next)
    requires previous.Some? ==> Sound(p, previous.value.catalog, previous.value.objects)
    ensures Sound(p, next.catalog, next.objects) && Follows(CatalogOf(previous), next.catalog)
  {
    if inputs :| FullStep(p, CatalogOf(previous), inputs, next) {
      PackableFacts(p, CatalogOf(previous), inputs);
      BuiltIsSound(p, CatalogOf(previous), if previous.Some? then previous.value.objects else map[], ObjectsOf(inputs));
    } else {
      var sources, newInputs, load: Loader :| UpdateStep(p, previous.value, sources, newInputs, load, next);
      UpdateIsSound(p, previous.value.catalog, previous.value.objects, sources, newInputs, load);
    }
  }

  ghost predicate SoundTo(p: Profile, run: seq<Snapshot>, n: nat)
    requires n <= |run|
  {
    forall i :: 0 <= i < n ==> GoodAt(p, run, i)
  }

  ghost predicate GoodAt(p: Profile, run: seq<Snapshot>, i: nat)
    requires i < |run|
  {
    Sound(p, run[i].catalog, run[i].objects) && Follows(CatalogOf(Predecessor(run, i)), run[i].catalog)
  }

  lemma SoundAt(p: Profile, run: seq<Snapshot>, i: nat)
    requires i < |run| && History(p, run) && SoundTo(p, run, i)
    ensures SoundTo(p, run, i + 1)
  {
    assert StepAt(p, run, i);
    if i > 0 { assert GoodAt(p, run, i - 1); }
    StepIsSound(p, Predecessor(run, i), run[i]);
  }

  /**
   In every run of packs and updates, every catalog is valid, describes exactly the bytes of the
   objects of its step, keeps room for a second owner in every sector, and keeps each chunk that
   survives in the slot it had.
   */
  lemma {:induction false} HistoryIsSound(p: Profile, run: seq<Snapshot>, n: nat)
    requires History(p, run) && n <= |run|
    ensures SoundTo(p, run, n)
  {
    if n > 0 {
      HistoryIsSound(p, run, n - 1);
      SoundAt(p, run, n - 1);
    }
  }

  /** In every run, the update's last self-check never fails. */
  lemma UpdateCheckPasses(p: Profile, run: seq<Snapshot>, sources: seq<AuthenticatedSource>, newInputs: seq<Input>,
                          load: Loader)
    requires History(p, run) && run != [] && UpdateOk(p, run[|run| - 1].catalog, sources, newInputs, load)
    ensures ValidCatalog(UpdateOutcome(p, run[|run| - 1].catalog, sources, newInputs, load))
  {
    HistoryIsSound(p, run, |run|);
    assert GoodAt(p, run, |run| - 1);
    UpdateIsSound(p, run[|run| - 1].catalog, run[|run| - 1].objects, sources, newInputs, load);
  }
}
