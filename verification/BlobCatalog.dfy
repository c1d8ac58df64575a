/**
 The blob record state machine with its running counters, the builder that feeds it, and the
 legacy geometry loop.
 */
module BlobCatalog {
  import opened Base
  import opened Sectors
  import opened BlobRecipe
  import opened BlobStream
  import opened BlobAcceptance
  import opened BlobRoot

  datatype BlobError = Bounds | InvalidRecord | Failed

  datatype ActiveBlob =
    ActiveBlob(logicalLen: nat, expectedExtents: nat, expectedSectors: nat, extents: nat, sectors: nat,
               previousEnd: nat)

  datatype ActiveExtent = ActiveExtent(logicalLen: nat, expectedSectors: nat, sectors: nat, covered: nat)

  // ---------------------------------------------------------------- the counters of some progress

  function BlobOf(p: Progress): Option<ActiveBlob> {
    if p.open.None? then None
    else
      var b := p.open.value;
      if b.current.None? then
        Some(ActiveBlob(b.logicalLen, b.expectedExtents, b.expectedSectors, |b.extents|, CountSectors(b.extents),
                        EndOf(b.extents)))
      else
        var e := b.current.value;
        Some(ActiveBlob(b.logicalLen, b.expectedExtents, b.expectedSectors, |b.extents| + 1,
                        CountSectors(b.extents) + |e.sectors|, e.offset + e.logicalLen))
  }

  function ExtentOf(p: Progress): Option<ActiveExtent> {
    if p.open.None? || p.open.value.current.None? then None
    else
      var e := p.open.value.current.value;
      Some(ActiveExtent(e.logicalLen, e.expected, |e.sectors|, SumLens(e.sectors)))
  }

  /** Sums over everything read, the open blob and extent included. */
  function Seen(p: Progress): Totals {
    var done := TotalsOf(p.done);
    if p.open.None? then done
    else
      var b := p.open.value;
      var current := b.current.Some?;
      Totals(done.blobs + 1, done.extents + |b.extents| + (if current then 1 else 0), SectorsSeen(p), LogicalSeen(p),
             done.dataBytes + DataBytes(b.extents) + if current then SumLens(b.current.value.sectors) else 0)
  }

  /** At the end of a stream the counters are the sums over the decoded blobs. */
  lemma SeenIsTotals(p: Progress)
    requires p.Finished()
    ensures Seen(p) == TotalsOf(p.Blobs())
  {
    if p.open.Some? {
      var blobs := p.Blobs();
      assert blobs[..|blobs| - 1] == p.done;
    }
  }

  /** The data counter cannot overflow. */
  lemma DataBound(p: Progress)
    requires Sound(p)
    ensures Seen(p).dataBytes <= MAX_RECORDS * SECTOR_SIZE
  {
    ListBounds(p.done);
    if p.open.Some? {
      ExtentBounds(p.open.value.logicalLen, p.open.value.extents);
      if p.open.value.current.Some? { SumBounds(p.open.value.current.value.sectors); }
    }
  }

  // ---------------------------------------------------------------- what a record does to the counters

  /** The counters are those of some progress, and that progress is sound. */
  ghost predicate Mirrors(p: Progress, blob: Option<ActiveBlob>, extent: Option<ActiveExtent>, previous: Option<nat>,
                          seen: Totals) {
    blob == BlobOf(p) && extent == ExtentOf(p) && previous == LastOid(p) && seen == Seen(p) && SoundProgress(p)
  }

  /** The same, spelled for any equal progress, so that it opens up only where it is used. */
  ghost predicate Mirrored(p: Progress, blob: Option<ActiveBlob>, extent: Option<ActiveExtent>, previous: Option<nat>,
                           seen: Totals) {
    forall q: Progress :: q == p ==> Mirrors(q, blob, extent, previous, seen)
  }

  /** Soundness, spelled for any equal progress, so that it opens up only where it is used. */
  ghost predicate SoundProgress(p: Progress) {
    forall q: Progress :: q == p ==> Sound(q)
  }

  predicate FinishedBy(blob: Option<ActiveBlob>, extent: Option<ActiveExtent>) {
    extent.None? && (blob.Some? ==> blob.value.extents == blob.value.expectedExtents
                                    && blob.value.sectors == blob.value.expectedSectors)
  }

  lemma FinishedIff(p: Progress)
    ensures FinishedBy(BlobOf(p), ExtentOf(p)) <==> p.Finished()
  {
  }

  lemma NextSound(p: Progress, r: Record)
    requires SoundProgress(p) && Next(p, r).Some?
    ensures SoundProgress(Next(p, r).value)
  {
    assert Sound(p);
    NextIsSound(p, r);
  }

  lemma BlobCounters(p: Progress, r: Record)
    requires r.BlobHead? && RecordOk(r)
    ensures Next(p, r).Some? <==>
            && FinishedBy(BlobOf(p), ExtentOf(p)) && (LastOid(p).Some? ==> LastOid(p).value < r.oid)
            && Seen(p).logicalBytes + r.logicalLen < U64_LIMIT
    ensures Next(p, r).Some? ==>
              var q := Next(p, r).value;
              && BlobOf(q) == Some(ActiveBlob(r.logicalLen, r.extents, r.sectors, 0, 0, 0)) && ExtentOf(q) == None
              && LastOid(q) == Some(r.oid)
              && Seen(q) == Seen(p).(blobs := Seen(p).blobs + 1, logicalBytes := Seen(p).logicalBytes + r.logicalLen)
  {
    FinishedIff(p);
    if Next(p, r).Some? { SeenIsTotals(p); }
  }

  lemma ExtentCounters(p: Progress, r: Record)
    requires r.ExtentHead? && RecordOk(r) && SoundProgress(p)
    ensures Next(p, r).Some? <==>
            && BlobOf(p).Some? && ExtentOf(p).None? && r.offset + r.extentLen < U64_LIMIT
            && BlobOf(p).value.previousEnd <= r.offset && r.offset + r.extentLen <= BlobOf(p).value.logicalLen
            && BlobOf(p).value.extents != BlobOf(p).value.expectedExtents
            && r.extentSectors <= BlobOf(p).value.expectedSectors - BlobOf(p).value.sectors
    ensures Next(p, r).Some? ==>
              var q, b := Next(p, r).value, BlobOf(p).value;
              && BlobOf(q) == Some(b.(previousEnd := r.offset + r.extentLen, extents := b.extents + 1))
              && ExtentOf(q) == Some(ActiveExtent(r.extentLen, r.extentSectors, 0, 0)) && LastOid(q) == LastOid(p)
              && Seen(q) == Seen(p).(extents := Seen(p).extents + 1)
  {
    assert Sound(p);
    assert SumLens([]) == 0;
  }

  /** The extent after a run. */
  function Extended(x: ActiveExtent, r: Record): ActiveExtent
    requires r.SectorRun?
  {
    x.(covered := x.covered + SumLens(r.references), sectors := x.sectors + |r.references|)
  }

  predicate RunFits(x: ActiveExtent, sectors: nat, r: Record)
    requires r.SectorRun? && x.sectors <= x.expectedSectors
  {
    && r.firstSector == x.sectors && |r.references| == Min(x.expectedSectors - x.sectors, RUN)
    && x.covered + SumLens(r.references) <= x.logicalLen && sectors + |r.references| <= MAX_RECORDS
    && (x.sectors + |r.references| == x.expectedSectors ==> x.covered + SumLens(r.references) == x.logicalLen)
  }

  lemma RunAccepts(p: Progress, r: Record)
    requires r.SectorRun? && RecordOk(r) && SoundProgress(p)
    ensures ExtentOf(p).Some? ==> ExtentOf(p).value.sectors < ExtentOf(p).value.expectedSectors
    ensures Next(p, r).Some? <==> ExtentOf(p).Some? && RunFits(ExtentOf(p).value, Seen(p).sectors, r)
    ensures Seen(p).dataBytes + SumLens(r.references) < U64_LIMIT
  {
    assert Sound(p);
    DataBound(p);
    SumBounds(r.references);
    if ExtentOf(p).Some? { SumOfConcat(p.open.value.current.value.sectors, r.references); }
  }

  lemma PartialRunCounters(p: Progress, r: Record)
    requires r.SectorRun? && RecordOk(r) && Next(p, r).Some? && Next(p, r).value.open.value.current.Some?
    ensures var q, n, covered := Next(p, r).value, |r.references|, SumLens(r.references);
            && BlobOf(p).Some? && BlobOf(q) == Some(BlobOf(p).value.(sectors := BlobOf(p).value.sectors + n))
            && ExtentOf(p).Some? && ExtentOf(q) == Some(Extended(ExtentOf(p).value, r))
            && ExtentOf(p).value.sectors + n < ExtentOf(p).value.expectedSectors
            && Seen(q) == Seen(p).(sectors := Seen(p).sectors + n, dataBytes := Seen(p).dataBytes + covered)
            && LastOid(q) == LastOid(p)
  {
    SumOfConcat(p.open.value.current.value.sectors, r.references);
  }

  lemma LastRunCounters(p: Progress, r: Record)
    requires r.SectorRun? && RecordOk(r) && Next(p, r).Some? && Next(p, r).value.open.value.current.None?
    ensures var q, n, covered := Next(p, r).value, |r.references|, SumLens(r.references);
            && BlobOf(p).Some? && BlobOf(q) == Some(BlobOf(p).value.(sectors := BlobOf(p).value.sectors + n))
            && ExtentOf(p).Some? && ExtentOf(q) == None
            && ExtentOf(p).value.sectors + n == ExtentOf(p).value.expectedSectors
            && Seen(q) == Seen(p).(sectors := Seen(p).sectors + n, dataBytes := Seen(p).dataBytes + covered)
            && LastOid(q) == LastOid(p)
  {
    var q, b, e := Next(p, r).value, p.open.value, p.open.value.current.value;
    var closed := ClosedBy(p, r);
    SumOfConcat(e.sectors, r.references);
    ClosedExtents(b.extents, closed);
    assert q.open.value == b.(extents := b.extents + [closed], current := None) && q.done == p.done;
    CloseCounters(p, q, closed);
  }

  lemma CloseCounters(p: Progress, q: Progress, closed: Extent)
    requires p.open.Some? && p.open.value.current.Some?
    requires q == p.(open := Some(p.open.value.(extents := p.open.value.extents + [closed], current := None)))
    requires var e := p.open.value.current.value;
             && closed.offset == e.offset && closed.logicalLen == e.logicalLen
                && |closed.sectors| == e.expected >= |e.sectors|
             && SumLens(closed.sectors) == closed.logicalLen >= SumLens(e.sectors)
    requires CountSectors(p.open.value.extents + [closed]) == CountSectors(p.open.value.extents) + |closed.sectors|
    requires DataBytes(p.open.value.extents + [closed]) == DataBytes(p.open.value.extents) + closed.logicalLen
    requires EndOf(p.open.value.extents + [closed]) == closed.offset + closed.logicalLen
    ensures var e := p.open.value.current.value;
            var n, covered := |closed.sectors| - |e.sectors|, SumLens(closed.sectors) - SumLens(e.sectors);
            && BlobOf(q) == Some(BlobOf(p).value.(sectors := BlobOf(p).value.sectors + n)) && ExtentOf(q) == None
            && Seen(q) == Seen(p).(sectors := Seen(p).sectors + n, dataBytes := Seen(p).dataBytes + covered)
            && LastOid(q) == LastOid(p)
  {
  }

  /** What a run adds to the counters. */
  lemma RunCounters(p: Progress, r: Record)
    requires r.SectorRun? && RecordOk(r) && Next(p, r).Some?
    ensures var q, n, covered := Next(p, r).value, |r.references|, SumLens(r.references);
            && BlobOf(p).Some? && BlobOf(q) == Some(BlobOf(p).value.(sectors := BlobOf(p).value.sectors + n))
            && ExtentOf(p).Some?
            && ExtentOf(q) == (if ExtentOf(p).value.sectors + n == ExtentOf(p).value.expectedSectors then None
                               else Some(Extended(ExtentOf(p).value, r)))
            && Seen(q) == Seen(p).(sectors := Seen(p).sectors + n, dataBytes := Seen(p).dataBytes + covered)
            && LastOid(q) == LastOid(p)
  {
    if Next(p, r).value.open.value.current.Some? { PartialRunCounters(p, r); } else { LastRunCounters(p, r); }
  }

  // ---------------------------------------------------------------- the state machine

  class BlobState {
    var blob: Option<ActiveBlob>
    var extent: Option<ActiveExtent>
    var previous: Option<nat>
    var blobs: nat
    var extents: nat
    var sectors: nat
    var logicalBytes: nat
    var dataBytes: nat
    /** What the accepted records describe. */
    ghost var progress: Progress

    ghost predicate Valid()
      reads this
    {
      Mirrored(progress, blob, extent, previous, Totals(blobs, extents, sectors, logicalBytes, dataBytes))
    }

    constructor ()
      ensures Valid() && progress == Start()
    {
      blob, extent, previous := None, None, None;
      blobs, extents, sectors, logicalBytes, dataBytes := 0, 0, 0, 0, 0;
      progress := Start();
      assert Mirrors(Start(), None, None, None, Totals(0, 0, 0, 0, 0));
    }

    method AcceptBlob(r: Record) returns (ok: Result<(), BlobError>)
      requires Valid() && r.BlobHead? && RecordOk(r)
      modifies this
      ensures ok.Ok? <==> Next(old(progress), r).Some?
      ensures ok.Ok? ==> Valid() && Some(progress) == Next(old(progress), r)
    {
      assert Mirrors(progress, blob, extent, previous, Totals(blobs, extents, sectors, logicalBytes, dataBytes));
      BlobCounters(progress, r);
      if !FinishedBy(blob, extent) { return Err(InvalidRecord); }
      if previous.Some? && previous.value >= r.oid { return Err(InvalidRecord); }
      if logicalBytes + r.logicalLen >= U64_LIMIT { return Err(Bounds); }
      NextSound(progress, r);
      logicalBytes, blobs, previous := logicalBytes + r.logicalLen, blobs + 1, Some(r.oid);
      blob := Some(ActiveBlob(r.logicalLen, r.extents, r.sectors, 0, 0, 0));
      progress := Next(progress, r).value;
      return Ok(());
    }

    method AcceptExtent(r: Record) returns (ok: Result<(), BlobError>)
      requires Valid() && r.ExtentHead? && RecordOk(r)
      modifies this
      ensures ok.Ok? <==> Next(old(progress), r).Some?
      ensures ok.Ok? ==> Valid() && Some(progress) == Next(old(progress), r)
    {
      assert Mirrors(progress, blob, extent, previous, Totals(blobs, extents, sectors, logicalBytes, dataBytes));
      ExtentCounters(progress, r);
      if blob.None? { return Err(InvalidRecord); }
      var end := r.offset + r.extentLen;
      if end >= U64_LIMIT { return Err(Bounds); }
      if extent.Some? || r.offset < blob.value.previousEnd || end > blob.value.logicalLen
         || blob.value.extents == blob.value.expectedExtents
         || r.extentSectors > blob.value.expectedSectors - blob.value.sectors
      {
        return Err(InvalidRecord);
      }
      NextSound(progress, r);
      blob := Some(blob.value.(previousEnd := end, extents := blob.value.extents + 1));
      extents := extents + 1;
      extent := Some(ActiveExtent(r.extentLen, r.extentSectors, 0, 0));
      progress := Next(progress, r).value;
      return Ok(());
    }

    method AcceptRun(r: Record) returns (ok: Result<(), BlobError>)
      requires Valid() && r.SectorRun? && RecordOk(r)
      modifies this
      ensures ok.Ok? <==> Next(old(progress), r).Some?
      ensures ok.Ok? ==> Valid() && Some(progress) == Next(old(progress), r)
    {
      assert Mirrors(progress, blob, extent, previous, Totals(blobs, extents, sectors, logicalBytes, dataBytes));
      RunAccepts(progress, r);
      if extent.None? { return Err(InvalidRecord); }
      var expected := Min(extent.value.expectedSectors - extent.value.sectors, RUN);
      if r.firstSector != extent.value.sectors || |r.references| != expected { return Err(InvalidRecord); }
      var more := Extended(extent.value, r);
      if more.covered > more.logicalLen { return Err(InvalidRecord); }
      if sectors + |r.references| > MAX_RECORDS { return Err(Bounds); }
      if dataBytes + SumLens(r.references) >= U64_LIMIT { assert false; }
      if more.sectors == more.expectedSectors && more.covered != more.logicalLen { return Err(InvalidRecord); }
      NextSound(progress, r);
      RunCounters(progress, r);
      blob := Some(blob.value.(sectors := blob.value.sectors + |r.references|));
      sectors, dataBytes := sectors + |r.references|, dataBytes + SumLens(r.references);
      extent := if more.sectors == more.expectedSectors then None else Some(more);
      progress := Next(progress, r).value;
      return Ok(());
    }

    /** Accepts one record, or fails; after a failure the state is not used again. */
    method Accept(r: Record) returns (ok: Result<(), BlobError>)
      requires Valid()
      modifies this
      ensures ok.Ok? <==> Next(old(progress), r).Some?
      ensures ok.Ok? ==> Valid() && Some(progress) == Next(old(progress), r)
    {
      if !RecordOk(r) { return Err(InvalidRecord); }
      match r
      case BlobHead(_, _, _, _, _) => ok := AcceptBlob(r);
      case ExtentHead(_, _, _) => ok := AcceptExtent(r);
      case SectorRun(_, _) => ok := AcceptRun(r);
    }

    /** The stream ended: the announced totals must be those of the blobs described. */
    method Matches(root: Totals) returns (ok: bool)
      requires Valid()
      ensures ok <==> progress.Finished() && root == TotalsOf(progress.Blobs())
    {
      assert Mirrors(progress, blob, extent, previous, Totals(blobs, extents, sectors, logicalBytes, dataBytes));
      FinishedIff(progress);
      if progress.Finished() { SeenIsTotals(progress); }
      ok := FinishedBy(blob, extent) && blobs == root.blobs && extents == root.extents && sectors == root.sectors
            && logicalBytes == root.logicalBytes && dataBytes == root.dataBytes;
    }
  }

  // ---------------------------------------------------------------- the builder

  class BlobBuilder {
    const state: BlobState
    /** The record layer: a plain list. */
    var records: seq<Record>
    var failed: bool

    ghost predicate Valid()
      reads this, state
    {
      !failed ==> state.Valid() && Run(Start(), records) == Some(state.progress)
    }

    constructor ()
      ensures Valid() && !failed && records == [] && fresh(state) && state.progress == Start()
    {
      state := new BlobState();
      records, failed := [], false;
    }

    method PushRecord(r: Record) returns (ok: Result<(), BlobError>)
      requires Valid()
      modifies this, state
      ensures Valid() && failed == ok.Err?
      ensures ok.Ok? <==> !old(failed) && Next(old(state.progress), r).Some?
      ensures ok.Ok? ==> Some(state.progress) == Next(old(state.progress), r) && records == old(records) + [r]
    {
      if failed { return Err(Failed); }
      ok := state.Accept(r);
      if ok.Ok? {
        RunJoins(Start(), records, [r]);
        RunOne(old(state.progress), r);
        records := records + [r];
      }
      failed := ok.Err?;
    }

    /** Pushes records one after the other, stopping at the first failure. */
    method PushAll(rs: seq<Record>) returns (ok: Result<(), BlobError>)
      requires Valid() && !failed
      modifies this, state
      ensures Valid() && failed == ok.Err?
      ensures ok.Ok? <==> Run(old(state.progress), rs).Some?
      ensures ok.Ok? ==> Some(state.progress) == Run(old(state.progress), rs) && records == old(records) + rs
    {
      for i := 0 to |rs|
        invariant Valid() && !failed && Run(old(state.progress), rs[..i]) == Some(state.progress)
        invariant records == old(records) + rs[..i]
      {
        RunMore(old(state.progress), rs, i);
        Joined(old(records), rs[..i], [rs[i]], rs[..i + 1]);
        ok := PushRecord(rs[i]);
        if ok.Err? {
          RunStops(old(state.progress), rs, i + 1);
          return;
        }
      }
      assert rs[..|rs|] == rs;
      return Ok(());
    }

    /**
     Pushes one decoded recipe: its head, then each extent and its runs. It is accepted exactly
     when the legacy geometry check accepts it and it fits after what was pushed before.
     */
    method PushBlob(b: Blob) returns (ok: Result<(), BlobError>)
      requires Valid() && b.logicalLen < U64_LIMIT
      modifies this, state
      ensures Valid() && failed == ok.Err?
      ensures !old(failed) ==> (ok.Ok? <==> BlobOk(b) && MayFollow(old(state.progress), b))
      ensures ok.Ok? ==> !old(failed) && records == old(records) + BlobRecords(b)
    {
      if failed { return Err(Failed); }
      SoundInside(state);
      BlobAcceptedIff(state.progress, b);
      ok := PushRecipe(b);
    }

    /** The head of a recipe, then each extent with its runs. */
    method PushRecipe(b: Blob) returns (ok: Result<(), BlobError>)
      requires Valid() && !failed
      modifies this, state
      ensures Valid() && failed == ok.Err?
      ensures ok.Ok? <==> Run(old(state.progress), BlobRecords(b)).Some?
      ensures ok.Ok? ==> records == old(records) + BlobRecords(b)
    {
      var head := HeadOf(b);
      RecipeRuns(state.progress, b);
      Joined(records, [head], ExtentsRecords(b.extents), BlobRecords(b));
      ok := PushRecord(head);
      if ok.Err? { return; }
      ok := PushExtents(b.extents);
    }

    method PushExtents(extents: seq<Extent>) returns (ok: Result<(), BlobError>)
      requires Valid() && !failed
      modifies this, state
      ensures Valid() && failed == ok.Err?
      ensures ok.Ok? <==> Run(old(state.progress), ExtentsRecords(extents)).Some?
      ensures ok.Ok? ==> records == old(records) + ExtentsRecords(extents)
    {
      ghost var begun := state.progress;
      for i := 0 to |extents|
        invariant Valid() && !failed && Run(begun, ExtentsRecords(extents[..i])) == Some(state.progress)
        invariant records == old(records) + ExtentsRecords(extents[..i])
      {
        ExtentsStep(begun, extents, i);
        Joined(old(records), ExtentsRecords(extents[..i]), ExtentRecords(extents[i]), ExtentsRecords(extents[..i + 1]));
        ok := PushAll(ExtentRecords(extents[i]));
        if ok.Err? {
          ExtentsStop(begun, extents, i + 1);
          return;
        }
      }
      assert extents[..|extents|] == extents;
      return Ok(());
    }

    /**
     Ends the stream: the records describe exactly the pushed blobs, with these totals. The
     bounds on the root are checked last, and no accepted stream can break them.
     */
    method Finish() returns (r: Result<Totals, BlobError>)
      requires Valid()
      ensures r.Ok? <==> !failed && Accepted(records)
      ensures r.Ok? ==> ListOk(Decoded(records)) && Encode(Decoded(records)) == records
      ensures r.Ok? ==> r.value == TotalsOf(Decoded(records)) && RootOk(r.value, |records|)
      ensures r != Err(Bounds)
    {
      if failed { return Err(Failed); }
      var root := Totals(state.blobs, state.extents, state.sectors, state.logicalBytes, state.dataBytes);
      assert Mirrors(state.progress, state.blob, state.extent, state.previous, root);
      FinishedIff(state.progress);
      if !FinishedBy(state.blob, state.extent) { return Err(InvalidRecord); }
      AcceptedIsEncoded(records);
      SeenIsTotals(state.progress);
      RootIsValid(Decoded(records));
      if !RootOk(root, |records|) { return Err(Bounds); }
      return Ok(root);
    }
  }

  lemma Joined(a: seq<Record>, b: seq<Record>, c: seq<Record>, bc: seq<Record>)
    requires bc == b + c
    ensures a + b + c == a + bc
  {
  }

  lemma RunMore(p: Progress, rs: seq<Record>, i: nat)
    requires i < |rs| && Run(p, rs[..i]).Some?
    ensures Run(p, rs[..i + 1]) == Next(Run(p, rs[..i]).value, rs[i]) && rs[..i + 1] == rs[..i] + [rs[i]]
  {
    assert rs[..i + 1][..i] == rs[..i];
  }

  function HeadOf(b: Blob): Record {
    BlobHead(1, b.oid, b.logicalLen, |b.extents|, CountSectors(b.extents))
  }

  lemma RecipeRuns(p: Progress, b: Blob)
    ensures BlobRecords(b) == [HeadOf(b)] + ExtentsRecords(b.extents)
    ensures Run(p, BlobRecords(b)) ==
            if Next(p, HeadOf(b)).None? then None else Run(Next(p, HeadOf(b)).value, ExtentsRecords(b.extents))
  {
    RunJoins(p, [HeadOf(b)], ExtentsRecords(b.extents));
    RunOne(p, HeadOf(b));
  }

  lemma SoundInside(s: BlobState)
    requires s.Valid()
    ensures Sound(s.progress)
  {
    assert Mirrors(s.progress, s.blob, s.extent, s.previous,
                   Totals(s.blobs, s.extents, s.sectors, s.logicalBytes, s.dataBytes));
  }

  lemma {:induction false} RunStops(p: Progress, rs: seq<Record>, n: nat)
    requires n <= |rs| && Run(p, rs[..n]).None?
    ensures Run(p, rs).None?
  {
    assert rs == rs[..n] + rs[n..];
    RunJoins(p, rs[..n], rs[n..]);
  }

  lemma ExtentsStep(p: Progress, extents: seq<Extent>, i: nat)
    requires i < |extents| && Run(p, ExtentsRecords(extents[..i])).Some?
    ensures ExtentsRecords(extents[..i + 1]) == ExtentsRecords(extents[..i]) + ExtentRecords(extents[i])
    ensures Run(p, ExtentsRecords(extents[..i + 1])) ==
            Run(Run(p, ExtentsRecords(extents[..i])).value, ExtentRecords(extents[i]))
  {
    assert extents[..i + 1][..i] == extents[..i];
    RunJoins(p, ExtentsRecords(extents[..i]), ExtentRecords(extents[i]));
  }

  lemma {:induction false} ExtentsStop(p: Progress, extents: seq<Extent>, n: nat)
    requires n <= |extents| && Run(p, ExtentsRecords(extents[..n])).None?
    ensures Run(p, ExtentsRecords(extents)).None?
    decreases |extents|
  {
    if n == |extents| {
      assert extents[..n] == extents;
    } else {
      var front := extents[..|extents| - 1];
      assert front[..n] == extents[..n];
      ExtentsStop(p, front, n);
      RunJoins(p, ExtentsRecords(front), ExtentRecords(extents[|extents| - 1]));
    }
  }

  // ---------------------------------------------------------------- the legacy geometry loop

  /** The extent loop of the descriptor validator, with its running end and coverage. */
  method CheckGeometry(b: Blob) returns (ok: bool)
    requires b.logicalLen < U64_LIMIT
    ensures ok <==> BlobOk(b)
  {
    var previousEnd := 0;
    for i := 0 to |b.extents|
      invariant previousEnd == EndOf(b.extents[..i]) && ExtentsOk(b.logicalLen, b.extents[..i])
    {
      var e := b.extents[i];
      assert b.extents[..i + 1] == b.extents[..i] + [e];
      var end := e.offset + e.logicalLen;
      if e.logicalLen == 0 || e.offset < previousEnd || end > b.logicalLen { return false; }
      var covered := 0;
      for j := 0 to |e.sectors|
        invariant covered == SumLens(e.sectors[..j]) && SectorsOk(e.sectors[..j])
      {
        assert e.sectors[..j + 1][..j] == e.sectors[..j];
        if !SectorOk(e.sectors[j]) { return false; }
        covered := covered + e.sectors[j].logicalLen;
      }
      assert e.sectors[..|e.sectors|] == e.sectors;
      if covered != e.logicalLen { return false; }
      MoreExtents(b.logicalLen, b.extents[..i], e);
      ClosedExtents(b.extents[..i], e);
      previousEnd := end;
    }
    assert b.extents[..|b.extents|] == b.extents;
    return true;
  }
}
