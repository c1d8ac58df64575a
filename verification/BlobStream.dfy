/**
 The accepted record streams are exactly the streams of valid recipe lists, one for each.
 */
module BlobStream {
  import opened Base
  import opened Sectors
  import opened BlobRecipe

  // ---------------------------------------------------------------- what has been read is what was described

  function OpenExtentRecords(e: OpenExtent): seq<Record> {
    [ExtentHead(e.offset, e.logicalLen, e.expected)] + Runs(e.sectors, 0)
  }

  function OpenBlobRecords(b: OpenBlob): seq<Record> {
    [BlobHead(1, b.oid, b.logicalLen, b.expectedExtents, b.expectedSectors)] + ExtentsRecords(b.extents)
    + if b.current.Some? then OpenExtentRecords(b.current.value) else []
  }

  function Stream(p: Progress): seq<Record> {
    Encode(p.done) + if p.open.Some? then OpenBlobRecords(p.open.value) else []
  }

  predicate OpenExtentOk(b: OpenBlob, e: OpenExtent) {
    && |e.sectors| < e.expected && |e.sectors| % RUN == 0 && SectorsOk(e.sectors) && e.logicalLen > 0
    && SumLens(e.sectors) <= e.logicalLen
    && EndOf(b.extents) <= e.offset && e.offset + e.logicalLen <= b.logicalLen
    && |b.extents| < b.expectedExtents && CountSectors(b.extents) + e.expected <= b.expectedSectors
  }

  predicate OpenBlobOk(b: OpenBlob) {
    && b.logicalLen < U64_LIMIT && ExtentsOk(b.logicalLen, b.extents)
    && |b.extents| <= b.expectedExtents && CountSectors(b.extents) <= b.expectedSectors
    && (b.current.Some? ==> OpenExtentOk(b, b.current.value))
  }

  predicate Sound(p: Progress) {
    && ListOk(p.done) && SectorsSeen(p) <= MAX_RECORDS && LogicalSeen(p) < U64_LIMIT
    && (p.open.Some? ==> OpenBlobOk(p.open.value) && (p.done != [] ==> p.done[|p.done| - 1].oid < p.open.value.oid))
  }

  lemma OneMoreBlob(done: seq<Blob>, b: Blob)
    ensures Encode(done + [b]) == Encode(done) + BlobRecords(b)
    ensures TotalsOf(done + [b]).sectors == TotalsOf(done).sectors + CountSectors(b.extents)
    ensures TotalsOf(done + [b]).logicalBytes == TotalsOf(done).logicalBytes + b.logicalLen
  {
    assert (done + [b])[..|done|] == done;
  }

  lemma OneMoreInOrder(done: seq<Blob>, b: Blob)
    requires forall i, j :: 0 <= i < j < |done| ==> done[i].oid < done[j].oid
    requires done != [] ==> done[|done| - 1].oid < b.oid
    ensures forall i, j :: 0 <= i < j < |done + [b]| ==> (done + [b])[i].oid < (done + [b])[j].oid
  {
    var more := done + [b];
    forall i, j | 0 <= i < j < |more| ensures more[i].oid < more[j].oid {
      if j == |done| { assert i < |done| - 1 ==> done[i].oid < done[|done| - 1].oid; }
    }
  }

  lemma OneMoreInList(done: seq<Blob>, b: Blob)
    requires ListOk(done) && BlobOk(b) && (done != [] ==> done[|done| - 1].oid < b.oid)
    requires TotalsOf(done).sectors + CountSectors(b.extents) <= MAX_RECORDS
    requires TotalsOf(done).logicalBytes + b.logicalLen < U64_LIMIT
    ensures ListOk(done + [b])
  {
    OneMoreBlob(done, b);
    OneMoreInOrder(done, b);
    var more := done + [b];
    forall i | 0 <= i < |more| ensures BlobOk(more[i]) { assert i < |done| ==> BlobOk(done[i]); }
  }

  lemma ClosedCounts(p: Progress)
    requires p.Finished()
    ensures TotalsOf(p.Blobs()).sectors == SectorsSeen(p) && TotalsOf(p.Blobs()).logicalBytes == LogicalSeen(p)
    ensures Encode(p.Blobs()) == Stream(p)
  {
    if p.open.Some? {
      OneMoreBlob(p.done, p.open.value.Closed());
      ClosedRecords(p.open.value);
    }
  }

  lemma ClosedList(p: Progress)
    requires Sound(p) && p.Finished()
    ensures ListOk(p.Blobs())
    ensures TotalsOf(p.Blobs()).sectors == SectorsSeen(p) && TotalsOf(p.Blobs()).logicalBytes == LogicalSeen(p)
    ensures Encode(p.Blobs()) == Stream(p)
  {
    ClosedCounts(p);
    if p.open.Some? { OneMoreInList(p.done, p.open.value.Closed()); }
  }

  lemma ClosedRecords(b: OpenBlob)
    requires b.Finished()
    ensures OpenBlobRecords(b) == BlobRecords(b.Closed())
  {
  }

  lemma NewBlob(done: seq<Blob>, r: Record, q: Progress)
    requires ListOk(done) && r.BlobHead? && r.formatVersion == 1
             && TotalsOf(done).logicalBytes + r.logicalLen < U64_LIMIT
    requires done != [] ==> done[|done| - 1].oid < r.oid
    requires q == Progress(done, Some(OpenBlob(r.oid, r.logicalLen, r.extents, r.sectors, [], None)))
    ensures Sound(q) && Stream(q) == Encode(done) + [r]
  {
    assert ExtentsRecords([]) == [];
    assert OpenBlobRecords(q.open.value) == [r];
  }

  lemma BlobStep(p: Progress, r: Record, q: Progress)
    requires Sound(p) && r.BlobHead? && RecordOk(r) && NextBlob(p, r) == Some(q)
    ensures Sound(q) && Stream(q) == Stream(p) + [r]
  {
    ClosedList(p);
    NewBlob(p.Blobs(), r, q);
  }

  lemma ExtentStep(p: Progress, r: Record, q: Progress)
    requires Sound(p) && r.ExtentHead? && RecordOk(r) && NextExtent(p, r) == Some(q)
    ensures Sound(q) && Stream(q) == Stream(p) + [r]
  {
    var b, c := p.open.value, q.open.value;
    assert Runs([], 0) == [] && OpenExtentRecords(c.current.value) == [r];
    assert OpenBlobRecords(c) == OpenBlobRecords(b) + [r];
    StreamGrows(p, q, r);
  }

  lemma RunAppends(e: OpenExtent, run: seq<SectorRef>)
    requires |e.sectors| % RUN == 0 && 0 < |run| <= RUN
    ensures OpenExtentRecords(e.(sectors := e.sectors + run)) == OpenExtentRecords(e) + [SectorRun(|e.sectors|, run)]
  {
    RunsAppend(e.sectors, run, 0);
  }

  lemma OpenBlobGrows(b: OpenBlob, c: OpenBlob, r: Record)
    requires b.current.Some? && c.current.Some? && c == b.(current := c.current)
    requires OpenExtentRecords(c.current.value) == OpenExtentRecords(b.current.value) + [r]
    ensures OpenBlobRecords(c) == OpenBlobRecords(b) + [r]
  {
    var head := [BlobHead(1, b.oid, b.logicalLen, b.expectedExtents, b.expectedSectors)] + ExtentsRecords(b.extents);
    assert head + (OpenExtentRecords(b.current.value) + [r]) == (head + OpenExtentRecords(b.current.value)) + [r];
  }

  lemma StreamGrows(p: Progress, q: Progress, r: Record)
    requires p.open.Some? && q.open.Some? && q.done == p.done
    requires OpenBlobRecords(q.open.value) == OpenBlobRecords(p.open.value) + [r]
    ensures Stream(q) == Stream(p) + [r]
  {
    assert Encode(p.done) + (OpenBlobRecords(p.open.value) + [r]) == Stream(p) + [r];
  }

  lemma PartialRunIs(p: Progress, r: Record, q: Progress)
    requires Sound(p) && r.SectorRun? && RecordOk(r) && NextRun(p, r) == Some(q) && q.open.value.current.Some?
    ensures p.open.Some? && p.open.value.current.Some? && q.done == p.done
    ensures var e := p.open.value.current.value;
            && q.open.value == p.open.value.(current := Some(e.(sectors := e.sectors + r.references)))
            && r == SectorRun(|e.sectors|, r.references) && |e.sectors| % RUN == 0 && 0 < |r.references| <= RUN
  {
  }

  lemma PartialRunStream(p: Progress, r: Record, q: Progress)
    requires Sound(p) && r.SectorRun? && RecordOk(r) && NextRun(p, r) == Some(q) && q.open.value.current.Some?
    ensures Stream(q) == Stream(p) + [r]
  {
    PartialRunIs(p, r, q);
    RunAppends(p.open.value.current.value, r.references);
    OpenBlobGrows(p.open.value, q.open.value, r);
    StreamGrows(p, q, r);
  }

  lemma PartialRunSound(p: Progress, r: Record, q: Progress)
    requires Sound(p) && r.SectorRun? && RecordOk(r) && NextRun(p, r) == Some(q) && q.open.value.current.Some?
    ensures Sound(q)
  {
    var e := p.open.value.current.value;
    assert |r.references| == RUN;
    WholeRuns(|e.sectors|);
  }

  lemma WholeRuns(n: nat)
    requires n % RUN == 0
    ensures (n + RUN) % RUN == 0
  {
  }

  lemma ClosedExtents(extents: seq<Extent>, e: Extent)
    ensures CountSectors(extents + [e]) == CountSectors(extents) + |e.sectors|
    ensures DataBytes(extents + [e]) == DataBytes(extents) + e.logicalLen
    ensures ExtentsRecords(extents + [e]) == ExtentsRecords(extents) + ExtentRecords(e)
    ensures EndOf(extents + [e]) == e.offset + e.logicalLen
  {
    assert (extents + [e])[..|extents|] == extents;
  }

  lemma MoreExtents(logicalLen: nat, extents: seq<Extent>, e: Extent)
    requires ExtentsOk(logicalLen, extents) && ExtentOk(e) && EndOf(extents) <= e.offset
             && e.offset + e.logicalLen <= logicalLen
    ensures ExtentsOk(logicalLen, extents + [e])
  {
    var more := extents + [e];
    forall i | 0 <= i < |more|
      ensures ExtentOk(more[i]) && EndOf(more[..i]) <= more[i].offset
              && more[i].offset + more[i].logicalLen <= logicalLen
    {
      if i < |extents| { assert more[..i] == extents[..i]; } else { assert more[..i] == extents; }
    }
  }

  /** The extent that the last run closes. */
  function ClosedBy(p: Progress, r: Record): Extent
    requires p.open.Some? && p.open.value.current.Some? && r.SectorRun?
  {
    var e := p.open.value.current.value;
    Extent(e.offset, e.logicalLen, e.sectors + r.references)
  }

  lemma LastRunStream(p: Progress, r: Record, q: Progress)
    requires Sound(p) && r.SectorRun? && RecordOk(r) && NextRun(p, r) == Some(q) && q.open.value.current.None?
    ensures Stream(q) == Stream(p) + [r]
  {
    var b, c, e := p.open.value, q.open.value, p.open.value.current.value;
    ClosedExtents(b.extents, ClosedBy(p, r));
    RunAppends(e, r.references);
    var head := [BlobHead(1, b.oid, b.logicalLen, b.expectedExtents, b.expectedSectors)];
    assert OpenBlobRecords(c) == head + (ExtentsRecords(b.extents) + (OpenExtentRecords(e) + [r]));
    assert OpenBlobRecords(b) == head + ExtentsRecords(b.extents) + OpenExtentRecords(e);
    Reassociate(head, ExtentsRecords(b.extents), OpenExtentRecords(e), [r]);
    assert Encode(p.done) + (OpenBlobRecords(b) + [r]) == (Encode(p.done) + OpenBlobRecords(b)) + [r];
  }

  lemma Reassociate(a: seq<Record>, b: seq<Record>, c: seq<Record>, d: seq<Record>)
    ensures a + (b + (c + d)) == (a + b + c) + d
  {
  }

  lemma LastRunSound(p: Progress, r: Record, q: Progress)
    requires Sound(p) && r.SectorRun? && RecordOk(r) && NextRun(p, r) == Some(q) && q.open.value.current.None?
    ensures Sound(q)
  {
    var b, closed := p.open.value, ClosedBy(p, r);
    ClosedExtents(b.extents, closed);
    assert ExtentOk(closed);
    MoreExtents(b.logicalLen, b.extents, closed);
    assert OpenBlobOk(q.open.value);
  }

  /** Whatever is accepted is described, record by record. */
  lemma NextIsSound(p: Progress, r: Record)
    requires Sound(p) && Next(p, r).Some?
    ensures Sound(Next(p, r).value) && Stream(Next(p, r).value) == Stream(p) + [r]
  {
    var q := Next(p, r).value;
    match r
    case BlobHead(_, _, _, _, _) => BlobStep(p, r, q);
    case ExtentHead(_, _, _) => ExtentStep(p, r, q);
    case SectorRun(_, _) =>
      if q.open.value.current.Some? {
        PartialRunStream(p, r, q);
        PartialRunSound(p, r, q);
      } else {
        LastRunStream(p, r, q);
        LastRunSound(p, r, q);
      }
  }

  predicate Describes(p: Progress, records: seq<Record>) {
    Sound(p) && Stream(p) == records
  }

  /** The same, spelled for any equal progress, so that it opens up only where it is used. */
  ghost predicate Faithful(p: Progress, records: seq<Record>) {
    forall q: Progress :: q == p ==> Describes(q, records)
  }

  lemma StartIsFaithful()
    ensures Faithful(Start(), [])
  {
    assert Describes(Start(), []);
  }

  lemma NextIsFaithful(p: Progress, records: seq<Record>, r: Record)
    requires Faithful(p, records) && Next(p, r).Some?
    ensures Faithful(Next(p, r).value, records + [r])
  {
    assert Describes(p, records);
    NextIsSound(p, r);
  }

  lemma RunLast(start: Progress, records: seq<Record>, p: Progress) returns (before: Progress)
    requires records != [] && Run(start, records) == Some(p)
    ensures Run(start, records[..|records| - 1]) == Some(before) && Next(before, records[|records| - 1]) == Some(p)
  {
    before := Run(start, records[..|records| - 1]).value;
  }

  lemma {:induction false} RunIsFaithful(records: seq<Record>, p: Progress)
    requires Run(Start(), records) == Some(p)
    ensures Faithful(p, records)
    decreases |records|
  {
    if records == [] {
      StartIsFaithful();
    } else {
      var front, last := records[..|records| - 1], records[|records| - 1];
      var before := RunLast(Start(), records, p);
      RunIsFaithful(front, before);
      NextIsFaithful(before, front, last);
      assert front + [last] == records;
    }
  }

  /** An accepted stream is the stream of the recipes it decodes to, and these are valid. */
  lemma AcceptedIsEncoded(records: seq<Record>)
    requires Accepted(records)
    ensures ListOk(Decoded(records)) && Encode(Decoded(records)) == records
  {
    var p := Run(Start(), records).value;
    RunIsFaithful(records, p);
    assert Describes(p, records);
    ClosedList(p);
  }
}
