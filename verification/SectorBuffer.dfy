/**
 Filling a sector buffer slot by slot, in place: the byte loops of the two packers.
 */
module SectorBuffer {
  import opened Base
  import opened Allocator
  import opened Packing
  import opened PackingEquivalence

  function Written(b: Bytes, at: nat, part: Bytes): (r: Bytes)
    requires at + |part| <= |b|
    ensures |r| == |b|
  {
    b[..at] + part + b[at + |part|..]
  }

  /** Copies bytes into the buffer. */
  method CopyInto(buffer: array<uint8>, at: nat, part: Bytes)
    requires at + |part| <= buffer.Length
    modifies buffer
    ensures buffer[..] == Written(old(buffer[..]), at, part)
  {
    for i := 0 to |part|
      invariant forall j :: 0 <= j < i ==> buffer[at + j] == part[j]
      invariant forall j :: 0 <= j < buffer.Length && !(at <= j < at + i) ==> buffer[j] == old(buffer[j])
    {
      buffer[at + i] := part[i];
    }
    assert forall j :: at <= j < at + |part| ==> buffer[j] == buffer[at + (j - at)];
    assert buffer[..] == Written(old(buffer[..]), at, part);
  }

  method NewBuffer(n: nat) returns (buffer: array<uint8>)
    ensures fresh(buffer) && buffer[..] == Zeros(n)
  {
    buffer := new uint8[n](_ => 0);
    assert buffer[..] == Zeros(n);
  }

  lemma WrittenSame(b: Bytes, at: nat, part: Bytes, size: nat)
    requires |part| <= size && at + size <= |b|
    ensures Written(b, at, part)[at..at + size] == part + b[at..at + size][|part|..]
  {
  }

  lemma WrittenElsewhere(b: Bytes, at: nat, part: Bytes, from: nat, size: nat)
    requires at + |part| <= |b| && from + size <= |b| && (from + size <= at || at + |part| <= from)
    ensures Written(b, at, part)[from..from + size] == b[from..from + size]
  {
  }

  /** Writing at the start of part `k` changes the front of that part. */
  lemma WrittenPart(b: Bytes, size: nat, k: nat, part: Bytes)
    requires Start(k, size) + size <= |b| && |part| <= size
    ensures PartAt(Written(b, Start(k, size), part), size, k) == part + PartAt(b, size, k)[|part|..]
  {
    WrittenSame(b, Start(k, size), part, size);
  }

  /** Writing at the start of part `k` leaves the other parts. */
  lemma OtherPart(b: Bytes, size: nat, k: nat, part: Bytes, j: nat)
    requires Start(k, size) + size <= |b| && Start(j, size) + size <= |b| && |part| <= size && j != k
    ensures PartAt(Written(b, Start(k, size), part), size, j) == PartAt(b, size, j)
  {
    if j < k { StartOrder(j, k, size); } else { StartOrder(k, j, size); }
    WrittenElsewhere(b, Start(k, size), part, Start(j, size), size);
  }

  // ---------------------------------------------------------------- the full packer's buffer

  /** Only all-zero chunks are marked as virtual zeros. */
  ghost predicate ZerosMarked(chunks: Chunks) {
    forall id :: id in chunks && chunks[id].virtualZero ==> AllZero(chunks[id].bytes)
  }

  ghost predicate PartFilled(b: Bytes, chunks: Chunks, size: nat, places: Assignments, j: nat, k: nat)
    requires Covered(chunks, places) && Fits(chunks, size) && j < |places|
  {
    && Start(j, size) + size <= |b|
    && PartAt(b, size, j) == if j < k then PlaceBytes(chunks, size, places[j]) else Zeros(size)
  }

  /** The first `k` slots are filled and the others are still zero. */
  ghost predicate Filled(b: Bytes, chunks: Chunks, size: nat, places: Assignments, k: nat)
    requires Covered(chunks, places) && Fits(chunks, size)
  {
    |b| == Start(|places|, size) && forall j :: 0 <= j < |places| ==> PartFilled(b, chunks, size, places, j, k)
  }

  lemma {:induction false} ZerosFilled(chunks: Chunks, size: nat, places: Assignments)
    requires Covered(chunks, places) && Fits(chunks, size)
    ensures Filled(Zeros(Start(|places|, size)), chunks, size, places, 0)
  {
    forall j | 0 <= j < |places| ensures PartFilled(Zeros(Start(|places|, size)), chunks, size, places, j, 0) {
      StartOrder(j, |places|, size);
      assert PartAt(Zeros(Start(|places|, size)), size, j) == Zeros(size);
    }
  }

  lemma FilledIsJoined(b: Bytes, chunks: Chunks, size: nat, places: Assignments)
    requires Covered(chunks, places) && Fits(chunks, size) && Filled(b, chunks, size, places, |places|)
    ensures b == JoinPlaces(chunks, size, places)
  {
    var parts := PartsFor(chunks, size, places);
    forall j | 0 <= j < |parts| ensures Start(j, size) + size <= |b| && PartAt(b, size, j) == parts[j] {
      assert PartFilled(b, chunks, size, places, j, |places|);
    }
    PartsDetermine(b, parts, size);
  }

  /** A slot whose stored bytes are zeros needs no write. */
  lemma SkipFills(b: Bytes, chunks: Chunks, size: nat, places: Assignments, k: nat)
    requires Covered(chunks, places) && Fits(chunks, size) && Filled(b, chunks, size, places, k) && k < |places|
    requires PlaceBytes(chunks, size, places[k]) == Zeros(size)
    ensures Filled(b, chunks, size, places, k + 1)
  {
    var next := k + 1;
    forall j | 0 <= j < |places| ensures PartFilled(b, chunks, size, places, j, next) {
      assert PartFilled(b, chunks, size, places, j, k);
    }
  }

  lemma WriteFills(b: Bytes, chunks: Chunks, size: nat, places: Assignments, k: nat)
    requires Covered(chunks, places) && Fits(chunks, size) && Filled(b, chunks, size, places, k) && k < |places|
    requires places[k].Some?
    ensures Start(k, size) + size <= |b|
    ensures Filled(Written(b, Start(k, size), chunks[places[k].value].bytes), chunks, size, places, k + 1)
  {
    var part := chunks[places[k].value].bytes;
    StartOrder(k, |places|, size);
    var after, next := Written(b, Start(k, size), part), k + 1;
    forall j | 0 <= j < |places| ensures PartFilled(after, chunks, size, places, j, next) {
      assert PartFilled(b, chunks, size, places, j, k);
      if j == k {
        WrittenPart(b, size, k, part);
        assert Zeros(size)[|part|..] == Zeros(size - |part|);
      } else {
        OtherPart(b, size, k, part, j);
      }
    }
  }

  lemma MarkedIsZeros(chunk: InputChunk, size: nat)
    requires AllZero(chunk.bytes) && |chunk.bytes| <= size
    ensures Pad(chunk.bytes, size) == Zeros(size)
  {
  }

  /** Lays the chunks of one sector into a zeroed buffer, skipping the all-zero ones. */
  method FillSector(places: Assignments, chunks: Chunks, size: nat) returns (bytes: Bytes, slots: seq<Slot>)
    requires Covered(chunks, places) && Fits(chunks, size) && ZerosMarked(chunks)
    ensures bytes == JoinPlaces(chunks, size, places) && slots == SlotsFor(chunks, places)
  {
    var buffer := NewBuffer(Start(|places|, size));
    ZerosFilled(chunks, size, places);
    slots := [];
    for k := 0 to |places|
      invariant Filled(buffer[..], chunks, size, places, k)
      invariant |slots| == k && forall j :: 0 <= j < k ==> slots[j] == SlotFor(chunks, places[j])
    {
      if places[k].None? {
        slots := slots + [VirtualZero(None)];
        SkipFills(buffer[..], chunks, size, places, k);
        continue;
      }
      var chunk := chunks[places[k].value];
      if chunk.virtualZero {
        slots := slots + [VirtualZero(Some(chunk.source))];
        MarkedIsZeros(chunk, size);
        SkipFills(buffer[..], chunks, size, places, k);
      } else {
        WriteFills(buffer[..], chunks, size, places, k);
        CopyInto(buffer, Start(k, size), chunk.bytes);
        slots := slots + [Data(chunk.source)];
      }
    }
    FilledIsJoined(buffer[..], chunks, size, places);
    bytes := buffer[..];
  }

  // ---------------------------------------------------------------- the update's buffer

  ghost predicate PartOverlaid(b: Bytes, base: Bytes, chunks: Chunks, size: nat, places: Assignments, j: nat, k: nat)
    requires Covered(chunks, places) && Fits(chunks, size) && j < |places|
  {
    && Start(j, size) + size <= |base| == |b|
    && PartAt(b, size, j) == if j < k then OverlayPart(chunks, size, base, j, places[j]) else PartAt(base, size, j)
  }

  /** The first `k` slots are final and the others are still those of the base. */
  ghost predicate Overlaid(b: Bytes, base: Bytes, chunks: Chunks, size: nat, places: Assignments, k: nat)
    requires Covered(chunks, places) && Fits(chunks, size)
  {
    && |b| == |base| == Start(|places|, size)
    && forall j :: 0 <= j < |places| ==> PartOverlaid(b, base, chunks, size, places, j, k)
  }

  lemma BaseOverlaid(base: Bytes, chunks: Chunks, size: nat, places: Assignments)
    requires Covered(chunks, places) && Fits(chunks, size) && |base| == Start(|places|, size)
    ensures Overlaid(base, base, chunks, size, places, 0)
  {
    forall j | 0 <= j < |places| ensures PartOverlaid(base, base, chunks, size, places, j, 0) {
      StartOrder(j, |places|, size);
    }
  }

  lemma OverlaidIsJoined(b: Bytes, base: Bytes, chunks: Chunks, size: nat, places: Assignments)
    requires Covered(chunks, places) && Fits(chunks, size) && Overlaid(b, base, chunks, size, places, |places|)
    ensures b == JoinParts(OverlayParts(chunks, size, base, places), size)
  {
    var parts := OverlayParts(chunks, size, base, places);
    forall j | 0 <= j < |parts| ensures Start(j, size) + size <= |b| && PartAt(b, size, j) == parts[j] {
      assert PartOverlaid(b, base, chunks, size, places, j, |places|);
    }
    PartsDetermine(b, parts, size);
  }

  lemma KeepOverlays(b: Bytes, base: Bytes, chunks: Chunks, size: nat, places: Assignments, k: nat)
    requires Covered(chunks, places) && Fits(chunks, size) && Overlaid(b, base, chunks, size, places, k) && k < |places|
    requires Start(k, size) + size <= |base| && OverlayPart(chunks, size, base, k, places[k]) == PartAt(base, size, k)
    ensures Overlaid(b, base, chunks, size, places, k + 1)
  {
    var next := k + 1;
    forall j | 0 <= j < |places| ensures PartOverlaid(b, base, chunks, size, places, j, next) {
      assert PartOverlaid(b, base, chunks, size, places, j, k);
    }
  }

  /** Replacing the whole of slot `k` by its final bytes. */
  lemma ReplaceOverlays(b: Bytes, base: Bytes, chunks: Chunks, size: nat, places: Assignments, k: nat, part: Bytes)
    requires Covered(chunks, places) && Fits(chunks, size) && Overlaid(b, base, chunks, size, places, k) && k < |places|
    requires Start(k, size) + size <= |base| && part == OverlayPart(chunks, size, base, k, places[k])
    ensures Overlaid(Written(b, Start(k, size), part), base, chunks, size, places, k + 1)
  {
    var after, next := Written(b, Start(k, size), part), k + 1;
    forall j | 0 <= j < |places| ensures PartOverlaid(after, base, chunks, size, places, j, next) {
      assert PartOverlaid(b, base, chunks, size, places, j, k);
      if j == k { WrittenPart(b, size, k, part); } else { OtherPart(b, size, k, part, j); }
    }
  }

  lemma FillThenCopy(b: Bytes, at: nat, size: nat, part: Bytes)
    requires |part| <= size && at + size <= |b|
    ensures Written(Written(b, at, Zeros(size)), at, part) == Written(b, at, Pad(part, size))
  {
  }

  /** A kept payload must already be where the previous sector had it. */
  predicate Preserved(prior: seq<Slot>, place: Option<ChunkId>, k: nat) {
    k < |prior| && SlotIds(prior)[k] == place
  }

  predicate NeedsPrior(chunks: Chunks, place: Option<ChunkId>)
    requires place.Some? ==> place.value in chunks
  {
    place.Some? && !chunks[place.value].virtualZero && chunks[place.value].bytes == []
  }

  /** Lays new payloads and zeros over the bytes of the previous sector. */
  method OverlaySector(base: Bytes, prior: seq<Slot>, places: Assignments, chunks: Chunks, size: nat)
    returns (r: Result<Bytes, PackingError>)
    requires Covered(chunks, places) && Fits(chunks, size) && |base| == Start(|places|, size)
    ensures r.Ok? <==> forall k :: 0 <= k < |places| && NeedsPrior(chunks, places[k]) ==> Preserved(prior, places[k], k)
    ensures r.Ok? ==> r.value == JoinParts(OverlayParts(chunks, size, base, places), size)
    ensures r.Err? ==> r.error == MissingObject
  {
    var buffer := new uint8[|base|](i requires 0 <= i < |base| => base[i]);
    assert buffer[..] == base;
    BaseOverlaid(base, chunks, size, places);
    for k := 0 to |places|
      invariant Overlaid(buffer[..], base, chunks, size, places, k)
      invariant forall j :: 0 <= j < k && NeedsPrior(chunks, places[j]) ==> Preserved(prior, places[j], j)
    {
      StartOrder(k, |places|, size);
      ghost var before := buffer[..];
      if NeedsPrior(chunks, places[k]) {
        if !Preserved(prior, places[k], k) { return Err(MissingObject); }
        KeepOverlays(buffer[..], base, chunks, size, places, k);
      } else {
        CopyInto(buffer, Start(k, size), Zeros(size));
        if places[k].Some? && !chunks[places[k].value].virtualZero {
          CopyInto(buffer, Start(k, size), chunks[places[k].value].bytes);
          FillThenCopy(before, Start(k, size), size, chunks[places[k].value].bytes);
        }
        ReplaceOverlays(before, base, chunks, size, places, k, OverlayPart(chunks, size, base, k, places[k]));
      }
    }
    OverlaidIsJoined(buffer[..], base, chunks, size, places);
    return Ok(buffer[..]);
  }
}
