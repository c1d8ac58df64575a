/**
 The blob catalog reader: records are accepted one by one, compared with the totals the root
 announces as they come, and matched with them at the end. The record layer below is the list of
 records that it yields.
 */
module BlobReader {
  import opened Base
  import opened BlobRecipe
  import opened BlobStream
  import opened BlobRoot
  import opened BlobCatalog

  predicate Within(a: Totals, b: Totals) {
    && a.blobs <= b.blobs && a.extents <= b.extents && a.sectors <= b.sectors
    && a.logicalBytes <= b.logicalBytes && a.dataBytes <= b.dataBytes
  }

  /** No record takes anything back from a counter. */
  lemma NextGrows(p: Progress, r: Record)
    requires SoundProgress(p) && Next(p, r).Some?
    ensures SoundProgress(Next(p, r).value) && Within(Seen(p), Seen(Next(p, r).value))
  {
    NextSound(p, r);
    match r
    case BlobHead(_, _, _, _, _) => BlobCounters(p, r);
    case ExtentHead(_, _, _) => ExtentCounters(p, r);
    case SectorRun(_, _) => RunCounters(p, r);
  }

  lemma {:induction false} RunIsSound(p: Progress, records: seq<Record>, q: Progress)
    requires SoundProgress(p) && Run(p, records) == Some(q)
    ensures SoundProgress(q)
    decreases |records|
  {
    if records != [] {
      var before := RunLast(p, records, q);
      RunIsSound(p, records[..|records| - 1], before);
      NextGrows(before, records[|records| - 1]);
    }
  }

  /** What was counted after some records was counted at the end. */
  lemma {:induction false} RunGrows(p: Progress, records: seq<Record>, q: Progress, n: nat)
    requires SoundProgress(p) && Run(p, records) == Some(q) && n <= |records|
    ensures Run(p, records[..n]).Some? && Within(Seen(Run(p, records[..n]).value), Seen(q))
    decreases |records|
  {
    if n == |records| {
      assert records[..n] == records;
    } else {
      var front := records[..|records| - 1];
      var before := RunLast(p, records, q);
      RunGrows(p, front, before, n);
      assert front[..n] == records[..n];
      RunIsSound(p, front, before);
      NextGrows(before, records[|records| - 1]);
    }
  }

  lemma StartIsSound()
    ensures SoundProgress(Start())
  {
    StartIsFaithful();
    assert Describes(Start(), []);
  }

  ghost predicate EndsAs(p: Progress, root: Totals) {
    p.Finished() && root == TotalsOf(p.Blobs())
  }

  /** The records describe complete blobs with exactly the announced totals. */
  ghost predicate Announced(records: seq<Record>, root: Totals) {
    Accepted(records) && root == TotalsOf(Decoded(records))
  }

  /** What the reader asks of the first `n` records. */
  ghost predicate ReadTo(records: seq<Record>, root: Totals, n: nat) {
    && n <= |records| && Run(Start(), records[..n]).Some?
    && Within(Seen(Run(Start(), records[..n]).value), root)
    && (n > 0 && n == |records| ==> EndsAs(Run(Start(), records[..n]).value, root))
  }

  /** The running comparisons refuse nothing that the match at the end would accept. */
  lemma AnnouncedReads(records: seq<Record>, root: Totals, n: nat)
    requires Announced(records, root) && n <= |records|
    ensures ReadTo(records, root, n)
  {
    StartIsSound();
    var q := Run(Start(), records).value;
    RunGrows(Start(), records, q, n);
    SeenIsTotals(q);
    if n == |records| { assert records[..n] == records; }
  }

  class BlobReader {
    const records: seq<Record>
    const root: Totals
    const state: BlobState
    var consumed: nat
    var failed: bool

    ghost predicate Valid()
      reads this, state
    {
      !failed ==>
        && state.Valid() && ReadTo(records, root, consumed)
        && Run(Start(), records[..consumed]) == Some(state.progress)
    }

    constructor (records: seq<Record>, root: Totals)
      requires RootOk(root, |records|)
      ensures Valid() && !failed && consumed == 0 && this.records == records && this.root == root && fresh(state)
    {
      this.records, this.root, consumed, failed := records, root, 0, false;
      state := new BlobState();
      new;
      assert records[..0] == [];
      assert Seen(Start()) == Totals(0, 0, 0, 0, 0);
    }

    /** The counters against the announced totals. */
    method Exceeds() returns (over: bool)
      requires state.Valid()
      ensures over <==> !Within(Seen(state.progress), root)
    {
      CountersAreSeen(state);
      over := state.blobs > root.blobs || state.extents > root.extents || state.sectors > root.sectors
              || state.logicalBytes > root.logicalBytes || state.dataBytes > root.dataBytes;
    }

    /** One record: accepted, compared, and matched if it is the last. */
    method TakeRecord() returns (ok: Result<(), BlobError>)
      requires Valid() && !failed && consumed < |records|
      modifies this`consumed, state
      ensures ok.Ok? <==> ReadTo(records, root, old(consumed) + 1)
      ensures ok.Ok? ==> Valid() && consumed == old(consumed) + 1
    {
      RunMore(Start(), records, consumed);
      ok := state.Accept(records[consumed]);
      if ok.Err? { return; }
      consumed := consumed + 1;
      var over := Exceeds();
      if over { return Err(InvalidRecord); }
      if consumed == |records| {
        var matches := state.Matches(root);
        if !matches { return Err(InvalidRecord); }
      }
    }

    /** The next record, or none at the end; after a failure every call fails. */
    method NextRecord() returns (r: Result<Option<Record>, BlobError>)
      requires Valid()
      modifies this, state
      ensures Valid() && failed == r.Err?
      ensures !old(failed) && old(consumed) < |records| ==> (r.Ok? <==> ReadTo(records, root, old(consumed) + 1))
      ensures !old(failed) && old(consumed) == |records| ==> (r.Ok? <==> Announced(records, root))
      ensures r.Ok? ==> !old(failed)
      ensures r.Ok? && old(consumed) < |records| ==>
                r.value == Some(records[old(consumed)]) && consumed == old(consumed) + 1
      ensures r.Ok? && old(consumed) == |records| ==> r.value == None && consumed == old(consumed)
    {
      if failed { return Err(Failed); }
      if consumed == |records| {
        assert records[..consumed] == records;
        var matches := state.Matches(root);
        failed := !matches;
        return if matches then Ok(None) else Err(InvalidRecord);
      }
      var at := consumed;
      var taken := TakeRecord();
      failed := taken.Err?;
      return if taken.Ok? then Ok(Some(records[at])) else Err(taken.error);
    }
  }

  lemma CountersAreSeen(s: BlobState)
    requires s.Valid()
    ensures Totals(s.blobs, s.extents, s.sectors, s.logicalBytes, s.dataBytes) == Seen(s.progress)
  {
    assert Mirrors(s.progress, s.blob, s.extent, s.previous,
                   Totals(s.blobs, s.extents, s.sectors, s.logicalBytes, s.dataBytes));
  }

  lemma AnnouncedRoot(records: seq<Record>, root: Totals)
    requires Announced(records, root)
    ensures ListOk(Decoded(records)) && Encode(Decoded(records)) == records && RootOk(root, |records|)
  {
    AcceptedIsEncoded(records);
    RootIsValid(Decoded(records));
  }

  lemma NotAnnounced(records: seq<Record>, root: Totals)
    requires !RootOk(root, |records|)
    ensures !Announced(records, root)
  {
    if Announced(records, root) { AnnouncedRoot(records, root); }
  }

  lemma ReadsAreNeeded(records: seq<Record>, root: Totals, n: nat)
    requires n <= |records|
    ensures Announced(records, root) ==> ReadTo(records, root, n)
  {
    if Announced(records, root) { AnnouncedReads(records, root, n); }
  }

  /**
   Reads a catalog to its end. It succeeds exactly for the records of valid recipes with the
   announced totals, and these are then the only recipes with these records.
   */
  method ReadBlobs(records: seq<Record>, root: Totals) returns (r: Result<seq<Record>, BlobError>)
    ensures r.Ok? <==> Announced(records, root)
    ensures r.Ok? ==> r.value == records && ListOk(Decoded(records)) && Encode(Decoded(records)) == records
  {
    if !RootOk(root, |records|) {
      NotAnnounced(records, root);
      return Err(Bounds);
    }
    var reader := new BlobReader(records, root);
    var taken: seq<Record> := [];
    while true
      invariant fresh(reader) && fresh(reader.state) && reader.records == records && reader.root == root
      invariant reader.Valid() && !reader.failed && reader.consumed <= |records| && taken == records[..reader.consumed]
      decreases |records| - reader.consumed
    {
      var at := reader.consumed;
      var next := reader.NextRecord();
      if next.Err? {
        if at < |records| { ReadsAreNeeded(records, root, at + 1); }
        return Err(next.error);
      }
      if next.value.None? {
        AnnouncedRoot(records, root);
        return Ok(taken);
      }
      taken := taken + [next.value.value];
    }
  }
}
