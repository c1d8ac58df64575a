/**
 Every valid recipe list is accepted and decodes to itself, and a single blob is accepted
 exactly when the legacy geometry check accepts it.
 */
module BlobAcceptance {
  import opened Base
  import opened Sectors
  import opened BlobRecipe
  import opened BlobStream

  // ---------------------------------------------------------------- running in parts

  lemma {:induction false} RunJoins(p: Progress, a: seq<Record>, b: seq<Record>)
    ensures Run(p, a + b) == if Run(p, a).None? then None else Run(Run(p, a).value, b)
    decreases |b|
  {
    if b == [] {
      assert a + b == a;
    } else {
      RunJoins(p, a, b[..|b| - 1]);
      assert (a + b)[..|a + b| - 1] == a + b[..|b| - 1] && (a + b)[|a + b| - 1] == b[|b| - 1];
    }
  }

  lemma RunOne(p: Progress, r: Record)
    ensures Run(p, [r]) == Next(p, r)
  {
    assert [r][..0] == [];
  }

  lemma RunFirst(p: Progress, r: Record, rest: seq<Record>)
    requires Next(p, r).Some?
    ensures Run(p, [r] + rest) == Run(Next(p, r).value, rest)
  {
    RunJoins(p, [r], rest);
    RunOne(p, r);
  }

  // ---------------------------------------------------------------- one extent

  lemma {:induction false} SumBounds(sectors: seq<SectorRef>)
    requires SectorsOk(sectors)
    ensures |sectors| <= SumLens(sectors) <= |sectors| * SECTOR_SIZE
  {
    if sectors != [] { SumBounds(sectors[..|sectors| - 1]); }
  }

  lemma SumOfPrefix(sectors: seq<SectorRef>, n: nat)
    requires n <= |sectors|
    ensures SumLens(sectors[..n]) <= SumLens(sectors)
  {
    assert sectors == sectors[..n] + sectors[n..];
    SumOfConcat(sectors[..n], sectors[n..]);
  }

  /** The blob with an extent under way, some of whose sectors have been read. */
  function Reading(p: Progress, e: Extent, n: nat): Progress
    requires p.open.Some? && n <= |e.sectors|
  {
    p.(open := Some(p.open.value.(current := Some(OpenExtent(e.offset, e.logicalLen, |e.sectors|, e.sectors[..n])))))
  }

  function WithExtent(p: Progress, e: Extent): Progress
    requires p.open.Some?
  {
    p.(open := Some(p.open.value.(extents := p.open.value.extents + [e], current := None)))
  }

  lemma RunStep(p: Progress, e: Extent, from: nat)
    requires p.open.Some? && p.open.value.current.None? && ExtentOk(e) && from < |e.sectors|
    requires SectorsSeen(p) + |e.sectors| <= MAX_RECORDS
    ensures var to := Min(from + RUN, |e.sectors|);
            Next(Reading(p, e, from), SectorRun(from, e.sectors[from..to]))
            == Some(if to == |e.sectors| then WithExtent(p, e) else Reading(p, e, to))
  {
    var to := Min(from + RUN, |e.sectors|);
    assert e.sectors[..from] + e.sectors[from..to] == e.sectors[..to];
    SumOfPrefix(e.sectors, to);
    assert e.sectors[..|e.sectors|] == e.sectors;
  }

  lemma {:induction false} RunRuns(p: Progress, e: Extent, from: nat)
    requires p.open.Some? && p.open.value.current.None? && ExtentOk(e) && from < |e.sectors|
    requires SectorsSeen(p) + |e.sectors| <= MAX_RECORDS
    ensures Run(Reading(p, e, from), Runs(e.sectors, from)) == Some(WithExtent(p, e))
    decreases |e.sectors| - from
  {
    var to := Min(from + RUN, |e.sectors|);
    RunStep(p, e, from);
    RunFirst(Reading(p, e, from), SectorRun(from, e.sectors[from..to]), Runs(e.sectors, to));
    if to < |e.sectors| { RunRuns(p, e, to); }
  }

  /** The open blob has room for the extent. */
  predicate HasRoom(p: Progress, e: Extent) {
    && p.open.Some? && p.open.value.current.None?
    && EndOf(p.open.value.extents) <= e.offset && e.offset + e.logicalLen <= p.open.value.logicalLen < U64_LIMIT
    && |p.open.value.extents| < p.open.value.expectedExtents
    && CountSectors(p.open.value.extents) + |e.sectors| <= p.open.value.expectedSectors
    && SectorsSeen(p) + |e.sectors| <= MAX_RECORDS
  }

  lemma RunExtent(p: Progress, e: Extent)
    requires ExtentOk(e) && HasRoom(p, e)
    ensures Run(p, ExtentRecords(e)) == Some(WithExtent(p, e))
  {
    SumBounds(e.sectors);
    var head := ExtentHead(e.offset, e.logicalLen, |e.sectors|);
    assert e.sectors[..0] == [];
    assert Next(p, head) == Some(Reading(p, e, 0));
    RunFirst(p, head, Runs(e.sectors, 0));
    RunRuns(p, e, 0);
  }

  // ---------------------------------------------------------------- one blob

  /** The blob with its first extents described. */
  function Described(done: seq<Blob>, b: Blob, n: nat): Progress
    requires n <= |b.extents|
  {
    Progress(done, Some(OpenBlob(b.oid, b.logicalLen, |b.extents|, CountSectors(b.extents), b.extents[..n], None)))
  }

  lemma {:induction false} CountOfPrefix(extents: seq<Extent>, n: nat)
    requires n <= |extents|
    ensures CountSectors(extents[..n]) <= CountSectors(extents)
    decreases |extents|
  {
    if n < |extents| {
      CountOfPrefix(extents[..|extents| - 1], n);
      assert extents[..|extents| - 1][..n] == extents[..n];
    } else {
      assert extents[..n] == extents;
    }
  }

  lemma NextExtentFits(done: seq<Blob>, b: Blob, n: nat)
    requires BlobOk(b) && TotalsOf(done).sectors + CountSectors(b.extents) <= MAX_RECORDS && n < |b.extents|
    ensures HasRoom(Described(done, b, n), b.extents[n]) && ExtentOk(b.extents[n])
    ensures WithExtent(Described(done, b, n), b.extents[n]) == Described(done, b, n + 1)
  {
    var extents := b.extents;
    assert extents[..n + 1] == extents[..n] + [extents[n]];
    ClosedExtents(extents[..n], extents[n]);
    CountOfPrefix(extents, n + 1);
  }

  lemma NextExtentRuns(done: seq<Blob>, b: Blob, n: nat)
    requires BlobOk(b) && TotalsOf(done).sectors + CountSectors(b.extents) <= MAX_RECORDS && n < |b.extents|
    ensures Run(Described(done, b, n), ExtentRecords(b.extents[n])) == Some(Described(done, b, n + 1))
  {
    NextExtentFits(done, b, n);
    RunExtent(Described(done, b, n), b.extents[n]);
  }

  lemma ExtentsRecordsMore(extents: seq<Extent>, n: nat)
    requires n < |extents|
    ensures ExtentsRecords(extents[..n + 1]) == ExtentsRecords(extents[..n]) + ExtentRecords(extents[n])
  {
    assert extents[..n + 1] == extents[..n] + [extents[n]];
    ClosedExtents(extents[..n], extents[n]);
  }

  lemma RunThrough(p: Progress, a: seq<Record>, q: Progress, b: seq<Record>, r: Progress)
    requires Run(p, a) == Some(q) && Run(q, b) == Some(r)
    ensures Run(p, a + b) == Some(r)
  {
    RunJoins(p, a, b);
  }

  lemma {:induction false} RunExtents(done: seq<Blob>, b: Blob, n: nat)
    requires BlobOk(b) && TotalsOf(done).sectors + CountSectors(b.extents) <= MAX_RECORDS && n <= |b.extents|
    ensures Run(Described(done, b, 0), ExtentsRecords(b.extents[..n])) == Some(Described(done, b, n))
  {
    if n > 0 {
      RunExtents(done, b, n - 1);
      NextExtentRuns(done, b, n - 1);
      ExtentsRecordsMore(b.extents, n - 1);
      RunThrough(Described(done, b, 0), ExtentsRecords(b.extents[..n - 1]), Described(done, b, n - 1),
                 ExtentRecords(b.extents[n - 1]), Described(done, b, n));
    }
  }

  /** The blob may follow what has been read: a greater id, and the totals stay within bounds. */
  predicate MayFollow(p: Progress, b: Blob) {
    && p.Finished() && (LastOid(p).Some? ==> LastOid(p).value < b.oid)
    && LogicalSeen(p) + b.logicalLen < U64_LIMIT && SectorsSeen(p) + CountSectors(b.extents) <= MAX_RECORDS
  }

  lemma {:induction false} CountBounds(extents: seq<Extent>)
    requires forall i :: 0 <= i < |extents| ==> ExtentOk(extents[i])
    ensures |extents| <= CountSectors(extents) && (|extents| == 0 <==> CountSectors(extents) == 0)
  {
    if extents != [] {
      CountBounds(extents[..|extents| - 1]);
      SumBounds(extents[|extents| - 1].sectors);
    }
  }

  /** A valid blob that may follow is accepted in full. */
  lemma RunBlob(p: Progress, b: Blob)
    requires Sound(p) && BlobOk(b) && MayFollow(p, b)
    ensures Run(p, BlobRecords(b)) == Some(Described(p.Blobs(), b, |b.extents|))
  {
    ClosedList(p);
    CountBounds(b.extents);
    var head := BlobHead(1, b.oid, b.logicalLen, |b.extents|, CountSectors(b.extents));
    assert b.extents[..0] == [] && b.extents[..|b.extents|] == b.extents;
    assert Next(p, head) == Some(Described(p.Blobs(), b, 0));
    RunFirst(p, head, ExtentsRecords(b.extents));
    RunExtents(p.Blobs(), b, |b.extents|);
  }

  // ---------------------------------------------------------------- whole lists

  lemma FrontOfList(blobs: seq<Blob>)
    requires ListOk(blobs) && blobs != []
    ensures ListOk(blobs[..|blobs| - 1])
  {
  }

  lemma LastMayFollow(blobs: seq<Blob>, p: Progress)
    requires ListOk(blobs) && blobs != [] && Sound(p) && p.Finished() && p.Blobs() == blobs[..|blobs| - 1]
    ensures BlobOk(blobs[|blobs| - 1]) && MayFollow(p, blobs[|blobs| - 1])
  {
    ClosedList(p);
    var front, last := blobs[..|blobs| - 1], blobs[|blobs| - 1];
    if LastOid(p).Some? { assert front[|front| - 1].oid == LastOid(p).value; }
  }

  /** Every valid list is accepted, and decodes to itself. */
  lemma {:induction false} EncodedIsAccepted(blobs: seq<Blob>)
    requires ListOk(blobs)
    ensures Accepted(Encode(blobs)) && Decoded(Encode(blobs)) == blobs
  {
    if blobs != [] {
      var front, last := blobs[..|blobs| - 1], blobs[|blobs| - 1];
      FrontOfList(blobs);
      EncodedIsAccepted(front);
      var p := Run(Start(), Encode(front)).value;
      RunIsFaithful(Encode(front), p);
      assert Describes(p, Encode(front));
      AcceptLast(blobs, p);
      RunJoins(Start(), Encode(front), BlobRecords(last));
    }
  }

  lemma AcceptLast(blobs: seq<Blob>, p: Progress)
    requires ListOk(blobs) && blobs != [] && Sound(p) && p.Finished() && p.Blobs() == blobs[..|blobs| - 1]
    ensures var q := Run(p, BlobRecords(blobs[|blobs| - 1]));
            q.Some? && q.value.Finished() && q.value.Blobs() == blobs
  {
    var last := blobs[|blobs| - 1];
    LastMayFollow(blobs, p);
    RunBlob(p, last);
    assert last.extents[..|last.extents|] == last.extents;
    assert blobs == blobs[..|blobs| - 1] + [last];
  }

  /** Different lists have different streams. */
  lemma EncodingIsInjective(a: seq<Blob>, b: seq<Blob>)
    requires ListOk(a) && ListOk(b) && Encode(a) == Encode(b)
    ensures a == b
  {
    EncodedIsAccepted(a);
    EncodedIsAccepted(b);
  }

  // ---------------------------------------------------------------- only valid blobs are accepted

  lemma RunStepNeeds(p: Progress, e: Extent, from: nat)
    requires p.open.Some? && p.open.value.current.None? && from < |e.sectors| && SectorsOk(e.sectors[..from])
    requires Next(Reading(p, e, from), SectorRun(from, e.sectors[from..Min(from + RUN, |e.sectors|)])).Some?
    ensures var to := Min(from + RUN, |e.sectors|);
            && SectorsOk(e.sectors[..to]) && SectorsSeen(p) + to <= MAX_RECORDS
            && Next(Reading(p, e, from), SectorRun(from, e.sectors[from..to]))
               == Some(if to == |e.sectors| then WithExtent(p, e) else Reading(p, e, to))
            && (to == |e.sectors| ==> SumLens(e.sectors) == e.logicalLen)
  {
    var to := Min(from + RUN, |e.sectors|);
    var run := e.sectors[from..to];
    assert e.sectors[..from] + run == e.sectors[..to];
    assert e.sectors[..|e.sectors|] == e.sectors;
    assert RecordOk(SectorRun(from, run));
    forall i | 0 <= i < to ensures SectorOk(e.sectors[..to][i]) {
      if i < from { assert e.sectors[..from][i] == e.sectors[i]; } else { assert run[i - from] == e.sectors[i]; }
    }
  }

  lemma {:induction false} RunRunsNeeds(p: Progress, e: Extent, from: nat)
    requires p.open.Some? && p.open.value.current.None? && from < |e.sectors| && SectorsOk(e.sectors[..from])
    requires Run(Reading(p, e, from), Runs(e.sectors, from)).Some?
    ensures SectorsOk(e.sectors) && SumLens(e.sectors) == e.logicalLen && SectorsSeen(p) + |e.sectors| <= MAX_RECORDS
    decreases |e.sectors| - from
  {
    var to := Min(from + RUN, |e.sectors|);
    var run := SectorRun(from, e.sectors[from..to]);
    RunJoins(Reading(p, e, from), [run], Runs(e.sectors, to));
    RunOne(Reading(p, e, from), run);
    RunStepNeeds(p, e, from);
    if to < |e.sectors| {
      RunRunsNeeds(p, e, to);
    } else {
      assert e.sectors[..to] == e.sectors;
    }
  }

  lemma ExtentHeadNeeds(p: Progress, e: Extent)
    requires Next(p, ExtentHead(e.offset, e.logicalLen, |e.sectors|)).Some?
             && (p.open.Some? ==> p.open.value.logicalLen < U64_LIMIT)
    ensures p.open.Some? && p.open.value.current.None? && |e.sectors| > 0 && e.logicalLen > 0
    ensures EndOf(p.open.value.extents) <= e.offset && e.offset + e.logicalLen <= p.open.value.logicalLen
    ensures |p.open.value.extents| < p.open.value.expectedExtents
    ensures CountSectors(p.open.value.extents) + |e.sectors| <= p.open.value.expectedSectors
    ensures Next(p, ExtentHead(e.offset, e.logicalLen, |e.sectors|)) == Some(Reading(p, e, 0))
  {
    assert e.sectors[..0] == [];
  }

  lemma RunExtentNeeds(p: Progress, e: Extent)
    requires Run(p, ExtentRecords(e)).Some? && (p.open.Some? ==> p.open.value.logicalLen < U64_LIMIT)
    ensures ExtentOk(e) && HasRoom(p, e)
  {
    var head := ExtentHead(e.offset, e.logicalLen, |e.sectors|);
    RunJoins(p, [head], Runs(e.sectors, 0));
    RunOne(p, head);
    ExtentHeadNeeds(p, e);
    RunRunsNeeds(p, e, 0);
  }

  lemma RunSplits(p: Progress, a: seq<Record>, b: seq<Record>)
    requires Run(p, a + b).Some?
    ensures Run(p, a).Some? && Run(Run(p, a).value, b) == Run(p, a + b)
  {
    RunJoins(p, a, b);
  }

  /** An accepted extent is valid and fits, and accepting it describes one more. */
  lemma ExtentNeeds(done: seq<Blob>, b: Blob, n: nat)
    requires b.logicalLen < U64_LIMIT && n < |b.extents| && ExtentsOk(b.logicalLen, b.extents[..n])
    requires TotalsOf(done).sectors + CountSectors(b.extents[..n]) <= MAX_RECORDS
    requires Run(Described(done, b, n), ExtentRecords(b.extents[n])).Some?
    ensures ExtentsOk(b.logicalLen, b.extents[..n + 1])
    ensures TotalsOf(done).sectors + CountSectors(b.extents[..n + 1]) <= MAX_RECORDS
    ensures Run(Described(done, b, n), ExtentRecords(b.extents[n])) == Some(Described(done, b, n + 1))
  {
    var front, last := b.extents[..n], b.extents[n];
    assert b.extents[..n + 1] == front + [last];
    ClosedExtents(front, last);
    RunExtentNeeds(Described(done, b, n), last);
    RunExtent(Described(done, b, n), last);
    MoreExtents(b.logicalLen, front, last);
  }

  /** Whatever extents are accepted are valid, and there was room for them. */
  lemma {:induction false} RunExtentsNeeds(done: seq<Blob>, b: Blob, n: nat)
    requires b.logicalLen < U64_LIMIT && n <= |b.extents| && TotalsOf(done).sectors <= MAX_RECORDS
    requires Run(Described(done, b, 0), ExtentsRecords(b.extents[..n])).Some?
    ensures ExtentsOk(b.logicalLen, b.extents[..n])
    ensures TotalsOf(done).sectors + CountSectors(b.extents[..n]) <= MAX_RECORDS
    ensures Run(Described(done, b, 0), ExtentsRecords(b.extents[..n])) == Some(Described(done, b, n))
  {
    if n > 0 {
      ExtentsRecordsMore(b.extents, n - 1);
      RunSplits(Described(done, b, 0), ExtentsRecords(b.extents[..n - 1]), ExtentRecords(b.extents[n - 1]));
      RunExtentsNeeds(done, b, n - 1);
      ExtentNeeds(done, b, n - 1);
    }
  }

  /**
   Within the bounds of the format, a blob is accepted exactly when it may follow and its extents
   are in order, disjoint, inside the blob and exactly covered.
   */
  lemma BlobAcceptedIff(p: Progress, b: Blob)
    requires Sound(p) && b.logicalLen < U64_LIMIT
    ensures Run(p, BlobRecords(b)).Some? <==> BlobOk(b) && MayFollow(p, b)
  {
    if BlobOk(b) && MayFollow(p, b) { RunBlob(p, b); }
    if Run(p, BlobRecords(b)).Some? { AcceptedBlobOk(p, b); }
  }

  lemma AcceptedBlobOk(p: Progress, b: Blob)
    requires Sound(p) && b.logicalLen < U64_LIMIT && Run(p, BlobRecords(b)).Some?
    ensures BlobOk(b) && MayFollow(p, b)
  {
    var head := BlobHead(1, b.oid, b.logicalLen, |b.extents|, CountSectors(b.extents));
    RunJoins(p, [head], ExtentsRecords(b.extents));
    RunOne(p, head);
    ClosedList(p);
    assert b.extents[..0] == [] && b.extents[..|b.extents|] == b.extents;
    assert Next(p, head) == Some(Described(p.Blobs(), b, 0));
    RunExtentsNeeds(p.Blobs(), b, |b.extents|);
  }
}
