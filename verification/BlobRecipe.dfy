/**
 Sparse blob recipes and their record stream. The stream of a list of recipes is defined here
 once; the state machine that accepts records one by one accepts exactly these streams.
 */
module BlobRecipe {
  import opened Base
  import opened Sectors

  const RUN: nat := 128
  const MAX_RECORDS: nat := 67108864

  datatype Record =
    | BlobHead(formatVersion: nat, oid: nat, logicalLen: nat, extents: nat, sectors: nat)
    | ExtentHead(offset: nat, extentLen: nat, extentSectors: nat)
    | SectorRun(firstSector: nat, references: seq<SectorRef>)

  datatype Extent = Extent(offset: nat, logicalLen: nat, sectors: seq<SectorRef>)

  datatype Blob = Blob(oid: nat, logicalLen: nat, extents: seq<Extent>)

  // ---------------------------------------------------------------- totals

  function SumLens(sectors: seq<SectorRef>): nat {
    if sectors == [] then 0 else SumLens(sectors[..|sectors| - 1]) + sectors[|sectors| - 1].logicalLen
  }

  function CountSectors(extents: seq<Extent>): nat {
    if extents == [] then 0 else CountSectors(extents[..|extents| - 1]) + |extents[|extents| - 1].sectors|
  }

  function DataBytes(extents: seq<Extent>): nat {
    if extents == [] then 0 else DataBytes(extents[..|extents| - 1]) + extents[|extents| - 1].logicalLen
  }

  datatype Totals = Totals(blobs: nat, extents: nat, sectors: nat, logicalBytes: nat, dataBytes: nat)

  /** Sums over complete blobs. */
  function TotalsOf(blobs: seq<Blob>): Totals {
    if blobs == [] then Totals(0, 0, 0, 0, 0)
    else
      var front, last := TotalsOf(blobs[..|blobs| - 1]), blobs[|blobs| - 1];
      Totals(front.blobs + 1, front.extents + |last.extents|, front.sectors + CountSectors(last.extents),
             front.logicalBytes + last.logicalLen, front.dataBytes + DataBytes(last.extents))
  }

  lemma {:induction false} SumOfConcat(a: seq<SectorRef>, b: seq<SectorRef>)
    ensures SumLens(a + b) == SumLens(a) + SumLens(b)
    decreases |b|
  {
    if b == [] {
      assert a + b == a;
    } else {
      SumOfConcat(a, b[..|b| - 1]);
      assert (a + b)[..|a + b| - 1] == a + b[..|b| - 1];
    }
  }

  // ---------------------------------------------------------------- valid recipes

  predicate SectorOk(r: SectorRef) {
    0 < r.logicalLen <= SECTOR_SIZE
  }

  predicate SectorsOk(sectors: seq<SectorRef>) {
    forall i :: 0 <= i < |sectors| ==> SectorOk(sectors[i])
  }

  /** The sectors cover the extent exactly. */
  predicate ExtentOk(e: Extent) {
    e.logicalLen > 0 && SectorsOk(e.sectors) && SumLens(e.sectors) == e.logicalLen
  }

  function EndOf(extents: seq<Extent>): nat {
    if extents == [] then 0 else extents[|extents| - 1].offset + extents[|extents| - 1].logicalLen
  }

  /** Extents in order, without overlap, inside the blob: what the legacy geometry loop accepts. */
  predicate ExtentsOk(logicalLen: nat, extents: seq<Extent>) {
    forall i :: 0 <= i < |extents| ==>
      ExtentOk(extents[i]) && EndOf(extents[..i]) <= extents[i].offset
        && extents[i].offset + extents[i].logicalLen <= logicalLen
  }

  predicate BlobOk(b: Blob) {
    b.logicalLen < U64_LIMIT && ExtentsOk(b.logicalLen, b.extents)
  }

  /** Valid recipes in order of their ids, within the bounds of the format. */
  predicate ListOk(blobs: seq<Blob>) {
    && (forall i :: 0 <= i < |blobs| ==> BlobOk(blobs[i]))
    && (forall i, j :: 0 <= i < j < |blobs| ==> blobs[i].oid < blobs[j].oid)
    && TotalsOf(blobs).sectors <= MAX_RECORDS && TotalsOf(blobs).logicalBytes < U64_LIMIT
  }

  // ---------------------------------------------------------------- the record stream

  function Min(a: nat, b: nat): nat {
    if a <= b then a else b
  }

  /** The sector references from a position on, in runs. */
  function Runs(sectors: seq<SectorRef>, from: nat): seq<Record>
    requires from <= |sectors|
    decreases |sectors| - from
  {
    if from == |sectors| then []
    else
      var to := Min(from + RUN, |sectors|);
      [SectorRun(from, sectors[from..to])] + Runs(sectors, to)
  }

  function ExtentRecords(e: Extent): seq<Record> {
    [ExtentHead(e.offset, e.logicalLen, |e.sectors|)] + Runs(e.sectors, 0)
  }

  function ExtentsRecords(extents: seq<Extent>): seq<Record> {
    if extents == [] then [] else ExtentsRecords(extents[..|extents| - 1]) + ExtentRecords(extents[|extents| - 1])
  }

  function BlobRecords(b: Blob): seq<Record> {
    [BlobHead(1, b.oid, b.logicalLen, |b.extents|, CountSectors(b.extents))] + ExtentsRecords(b.extents)
  }

  /** The stream of a list of recipes. */
  function Encode(blobs: seq<Blob>): seq<Record> {
    if blobs == [] then [] else Encode(blobs[..|blobs| - 1]) + BlobRecords(blobs[|blobs| - 1])
  }

  /** One more run on whole runs. */
  lemma {:induction false} RunsAppend(sectors: seq<SectorRef>, run: seq<SectorRef>, from: nat)
    requires from <= |sectors| && (|sectors| - from) % RUN == 0 && 0 < |run| <= RUN
    ensures Runs(sectors + run, from) == Runs(sectors, from) + [SectorRun(|sectors|, run)]
    decreases |sectors| - from
  {
    var more := sectors + run;
    if from == |sectors| {
      assert more[from..|more|] == run;
      assert Runs(more, |more|) == [];
    } else {
      assert more[from..from + RUN] == sectors[from..from + RUN];
      RunsAppend(sectors, run, from + RUN);
    }
  }

  // ---------------------------------------------------------------- progress through a stream

  datatype OpenExtent = OpenExtent(offset: nat, logicalLen: nat, expected: nat, sectors: seq<SectorRef>)

  datatype OpenBlob =
    OpenBlob(oid: nat, logicalLen: nat, expectedExtents: nat, expectedSectors: nat, extents: seq<Extent>,
             current: Option<OpenExtent>)
  {
    function Closed(): Blob {
      Blob(oid, logicalLen, extents)
    }

    predicate Finished() {
      current.None? && |extents| == expectedExtents && CountSectors(extents) == expectedSectors
    }
  }

  /** The blobs closed so far and the one being described. */
  datatype Progress = Progress(done: seq<Blob>, open: Option<OpenBlob>) {
    predicate Finished() {
      open.Some? ==> open.value.Finished()
    }

    function Blobs(): seq<Blob> {
      if open.Some? then done + [open.value.Closed()] else done
    }
  }

  function Start(): Progress {
    Progress([], None)
  }

  /** Sectors seen so far, the open extent included. */
  function SectorsSeen(p: Progress): nat {
    TotalsOf(p.done).sectors +
    if p.open.None? then 0
    else
      CountSectors(p.open.value.extents)
      + if p.open.value.current.Some? then |p.open.value.current.value.sectors| else 0
  }

  function LogicalSeen(p: Progress): nat {
    TotalsOf(p.done).logicalBytes + if p.open.Some? then p.open.value.logicalLen else 0
  }

  function LastOid(p: Progress): Option<nat> {
    if p.open.Some? then Some(p.open.value.oid)
    else if p.done != [] then Some(p.done[|p.done| - 1].oid) else None
  }

  // ---------------------------------------------------------------- one record

  /** `GitBlobRecord::validate`. */
  predicate RecordOk(r: Record) {
    match r
    case BlobHead(version, _, _, extents, sectors) =>
      version == 1 && extents <= sectors <= MAX_RECORDS && (extents == 0 <==> sectors == 0)
    case ExtentHead(_, len, sectors) => 0 < sectors <= MAX_RECORDS && sectors <= len <= sectors * SECTOR_SIZE
    case SectorRun(_, references) => 0 < |references| <= RUN && SectorsOk(references)
  }

  function NextBlob(p: Progress, r: Record): Option<Progress>
    requires r.BlobHead?
  {
    if !p.Finished() || (LastOid(p).Some? && LastOid(p).value >= r.oid) || LogicalSeen(p) + r.logicalLen >= U64_LIMIT
       then None
    else Some(Progress(p.Blobs(), Some(OpenBlob(r.oid, r.logicalLen, r.extents, r.sectors, [], None))))
  }

  function NextExtent(p: Progress, r: Record): Option<Progress>
    requires r.ExtentHead?
  {
    if p.open.None? then None
    else
      var b := p.open.value;
      if b.current.Some? || r.offset + r.extentLen >= U64_LIMIT || r.offset < EndOf(b.extents)
         || r.offset + r.extentLen > b.logicalLen || |b.extents| >= b.expectedExtents
         || CountSectors(b.extents) + r.extentSectors > b.expectedSectors
      then None
      else Some(p.(open := Some(b.(current := Some(OpenExtent(r.offset, r.extentLen, r.extentSectors, []))))))
  }

  function NextRun(p: Progress, r: Record): Option<Progress>
    requires r.SectorRun?
  {
    if p.open.None? || p.open.value.current.None? then None
    else
      var b, e := p.open.value, p.open.value.current.value;
      var sectors := e.sectors + r.references;
      if r.firstSector != |e.sectors| || |e.sectors| > e.expected
         || |r.references| != Min(e.expected - |e.sectors|, RUN)
         || SumLens(sectors) > e.logicalLen || SectorsSeen(p) + |r.references| > MAX_RECORDS
      then None
      else if |sectors| < e.expected then Some(p.(open := Some(b.(current := Some(e.(sectors := sectors))))))
      else if SumLens(sectors) != e.logicalLen then None
      else Some(p.(open := Some(b.(extents := b.extents + [Extent(e.offset, e.logicalLen, sectors)], current := None))))
  }

  /** What one record does, if it is accepted. */
  function Next(p: Progress, r: Record): Option<Progress> {
    if !RecordOk(r) then None
    else
      match r
      case BlobHead(_, _, _, _, _) => NextBlob(p, r)
      case ExtentHead(_, _, _) => NextExtent(p, r)
      case SectorRun(_, _) => NextRun(p, r)
  }

  function Run(p: Progress, records: seq<Record>): Option<Progress> {
    if records == [] then Some(p)
    else
      var before := Run(p, records[..|records| - 1]);
      if before.None? then None else Next(before.value, records[|records| - 1])
  }

  /** A stream that is accepted to its end. */
  predicate Accepted(records: seq<Record>) {
    Run(Start(), records).Some? && Run(Start(), records).value.Finished()
  }

  function Decoded(records: seq<Record>): seq<Blob>
    requires Accepted(records)
  {
    Run(Start(), records).value.Blobs()
  }
}
