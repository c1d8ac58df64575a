/** The root of a blob catalog: its counts always meet the bounds that validation puts on a root. */
module BlobRoot {
  import opened Sectors
  import opened BlobRecipe
  import opened BlobAcceptance

  /** `GitBlobCatalogRoot::validate`, for totals over a stream of `records` records. */
  predicate RootOk(t: Totals, records: nat) {
    && t.blobs <= records && t.extents <= t.sectors <= MAX_RECORDS && (t.extents == 0 <==> t.sectors == 0)
    && t.sectors <= t.dataBytes <= t.sectors * SECTOR_SIZE && t.dataBytes <= t.logicalBytes
    && (t.blobs == 0 ==> records == 0 && t.logicalBytes == 0 && t.sectors == 0)
  }

  /** Disjoint extents inside a blob: one sector at least in each, one byte at least in each sector. */
  lemma {:induction false} ExtentBounds(logicalLen: nat, extents: seq<Extent>)
    requires ExtentsOk(logicalLen, extents)
    ensures |extents| <= CountSectors(extents) <= DataBytes(extents) <= EndOf(extents) <= logicalLen
    ensures DataBytes(extents) <= CountSectors(extents) * SECTOR_SIZE
    ensures extents == [] ==> CountSectors(extents) == 0
  {
    if extents != [] {
      var front, last := extents[..|extents| - 1], extents[|extents| - 1];
      FrontExtents(logicalLen, extents);
      ExtentBounds(logicalLen, front);
      assert ExtentOk(last);
      SumBounds(last.sectors);
      assert last.sectors == [] ==> SumLens(last.sectors) == 0;
    }
  }

  lemma FrontExtents(logicalLen: nat, extents: seq<Extent>)
    requires ExtentsOk(logicalLen, extents) && extents != []
    ensures ExtentsOk(logicalLen, extents[..|extents| - 1])
  {
    var front := extents[..|extents| - 1];
    forall i | 0 <= i < |front|
      ensures ExtentOk(front[i]) && EndOf(front[..i]) <= front[i].offset
              && front[i].offset + front[i].logicalLen <= logicalLen
    {
      assert front[..i] == extents[..i] && front[i] == extents[i];
    }
  }

  /** The bounds that hold of every list of valid recipes. */
  predicate Bounded(t: Totals) {
    && t.extents <= t.sectors && (t.extents == 0 <==> t.sectors == 0)
    && t.sectors <= t.dataBytes <= t.sectors * SECTOR_SIZE && t.dataBytes <= t.logicalBytes
  }

  lemma {:induction false} ListBounds(blobs: seq<Blob>)
    requires forall i :: 0 <= i < |blobs| ==> BlobOk(blobs[i])
    ensures Bounded(TotalsOf(blobs)) && TotalsOf(blobs).blobs == |blobs| <= |Encode(blobs)|
  {
    if blobs != [] {
      var last := blobs[|blobs| - 1];
      ListBounds(blobs[..|blobs| - 1]);
      ExtentBounds(last.logicalLen, last.extents);
    }
  }

  /** The final check of a finished catalog cannot fail. */
  lemma RootIsValid(blobs: seq<Blob>)
    requires ListOk(blobs)
    ensures RootOk(TotalsOf(blobs), |Encode(blobs)|)
  {
    ListBounds(blobs);
  }
}
