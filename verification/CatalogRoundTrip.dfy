/** Building a catalog and reading it back, end to end. */
module CatalogRoundTrip {
  import opened Base
  import opened Pages
  import opened CatalogTree
  import opened CatalogBuilder
  import opened CatalogReader

  function Joined(chunks: seq<Bytes>): Bytes {
    if chunks == [] then [] else Joined(chunks[..|chunks| - 1]) + chunks[|chunks| - 1]
  }

  lemma {:induction false} JoinedGrows(chunks: seq<Bytes>, n: nat)
    requires n <= |chunks|
    ensures |Joined(chunks[..n])| <= |Joined(chunks)|
    decreases |chunks|
  {
    if n < |chunks| {
      JoinedGrows(chunks[..|chunks| - 1], n);
      assert chunks[..|chunks| - 1][..n] == chunks[..n];
    } else {
      assert chunks[..n] == chunks;
    }
  }

  /** Pushes the chunks one by one and finishes. The root does not depend on the chunking. */
  method Build(cx: Context, chunks: seq<Bytes>, sink: Sink)
    returns (r: Result<PageRef, StreamError>, stored: seq<Frame>)
    requires cx.Valid()
    ensures r.Ok? ==> r.value == RootOf(cx, Joined(chunks)) && Frames(r.value) <= FrameSet(stored)
    ensures |Joined(chunks)| <= MAX_STREAM_BYTES && (forall k: nat :: sink(k)) ==> r.Ok?
    ensures r.Ok? ==> |Joined(chunks)| <= MAX_STREAM_BYTES
  {
    var builder := new Builder(cx);
    for i := 0 to |chunks|
      invariant builder.Valid() && !builder.failed && builder.cx == cx && fresh(builder)
      invariant builder.contents == Joined(chunks[..i])
    {
      assert chunks[..i + 1][..i] == chunks[..i];
      JoinedGrows(chunks, i + 1);
      var pushed := builder.Push(chunks[i], sink);
      if pushed.Err? { return Err(pushed.error), builder.sunk; }
    }
    assert chunks[..|chunks|] == chunks;
    r := builder.Finish(sink);
    stored := builder.sunk;
  }

  /** Whatever is pushed, in whatever pieces, comes back from the stored pages. */
  method BuildThenRead(cx: Context, chunks: seq<Bytes>) returns (r: Result<Bytes, StreamError>)
    requires cx.Valid() && |Joined(chunks)| <= MAX_STREAM_BYTES
    ensures r == Ok(Joined(chunks))
  {
    var root, stored := Build(cx, chunks, _ => true);
    var fetch := (n: nat, path: seq<PageRef>) =>
      if path != [] && path[|path| - 1].hash.frame in stored then Some(path[|path| - 1].hash.frame) else None;
    BuiltReadsBack(cx, Joined(chunks), FrameSet(stored), fetch);
    r := ReadAll(cx, root.value, fetch);
  }
}
