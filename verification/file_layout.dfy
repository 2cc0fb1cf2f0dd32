/**
 * How the server lays a file out in chunks: which writes it accepts, what a write makes of the
 * chunk list, what a read returns, and how this relates to one flat byte image.
 */
module FileLayout {
  import opened Basics
  import opened FileBytes

  /** The chunk list of an inode, each chunk with its contents, and the recorded file size. */
  datatype ChunkedFile = ChunkedFile(chunks: seq<Bytes>, size: nat)

  const EMPTY_FILE := ChunkedFile([], 0)

  predicate WithinChunk(chunkSize: nat, offset: nat, length: nat)
    requires chunkSize > 0
  {
    length == 0 || offset / chunkSize == (offset + length - 1) / chunkSize
  }

  /**
   * What the data plane sends to the replicas. A new chunk starts with zeros, a whole chunk
   * replaces the old one, and anything else is laid over the old contents.
   */
  function Payload(chunkSize: nat, existing: Bytes, isNew: bool, offset: nat, data: Bytes): Bytes
    requires chunkSize > 0
  {
    if isNew then Overlay([], offset % chunkSize, data)
    else if offset % chunkSize == 0 && |data| == chunkSize then data
    else Overlay(existing, offset % chunkSize, data)
  }

  /** Replacing a whole chunk is laying over it, since no chunk is longer. */
  lemma PayloadIsOverlay(chunkSize: nat, existing: Bytes, offset: nat, data: Bytes)
    requires 0 < chunkSize && |existing| <= chunkSize
    ensures Payload(chunkSize, existing, false, offset, data) == Overlay(existing, offset % chunkSize, data)
  {
  }

  /** A committed write: an index past the list appends one chunk, whatever the index was. */
  function Written(f: ChunkedFile, chunkSize: nat, offset: nat, data: Bytes): ChunkedFile
    requires chunkSize > 0
  {
    var index := offset / chunkSize;
    var size := Max(f.size, offset + |data|);
    if index >= |f.chunks| then ChunkedFile(f.chunks + [Payload(chunkSize, [], true, offset, data)], size)
    else ChunkedFile(f.chunks[index := Payload(chunkSize, f.chunks[index], false, offset, data)], size)
  }

  /** The server ignores the length and the position inside the chunk, and returns the whole chunk. */
  function ReadAt(f: ChunkedFile, chunkSize: nat, offset: nat): Bytes
    requires chunkSize > 0
  {
    if offset >= f.size || offset / chunkSize >= |f.chunks| then [] else f.chunks[offset / chunkSize]
  }

  function Flat(f: ChunkedFile): Bytes {
    Concat(f.chunks)
  }

  /* ---------- The layout invariant ---------- */

  /** All chunks but the last are full, the last one is not empty, and the size is what they hold. */
  ghost predicate Layout(f: ChunkedFile, chunkSize: nat) {
    && chunkSize > 0
    && (forall i :: 0 <= i < |f.chunks| ==> 0 < |f.chunks[i]| <= chunkSize)
    && (forall i :: 0 <= i < |f.chunks| - 1 ==> |f.chunks[i]| == chunkSize)
    && f.size == |Flat(f)|
  }

  lemma MulNext(k: nat, c: nat)
    ensures (k + 1) * c == k * c + c
  {
  }

  lemma {:induction false} FullChunks(parts: seq<Bytes>, chunkSize: nat)
    requires forall i :: 0 <= i < |parts| ==> |parts[i]| == chunkSize
    ensures |Concat(parts)| == |parts| * chunkSize
    decreases |parts|
  {
    if parts != [] {
      FullChunks(parts[1..], chunkSize);
      MulNext(|parts| - 1, chunkSize);
    }
  }

  /** Chunk k starts at k times the chunk size. */
  lemma ChunkAt(f: ChunkedFile, chunkSize: nat, k: nat)
    requires Layout(f, chunkSize) && k < |f.chunks|
    ensures |Concat(f.chunks[..k])| == k * chunkSize
    ensures Flat(f) == Concat(f.chunks[..k]) + f.chunks[k] + Concat(f.chunks[k + 1..])
    ensures k == |f.chunks| - 1 ==> Concat(f.chunks[k + 1..]) == []
  {
    FullChunks(f.chunks[..k], chunkSize);
    ConcatOne(f.chunks, k);
  }

  /** The number of chunks is the size divided by the chunk size, rounded up. */
  lemma ChunkCount(f: ChunkedFile, chunkSize: nat)
    requires Layout(f, chunkSize)
    ensures (|f.chunks| - 1) * chunkSize < f.size <= |f.chunks| * chunkSize || (f.chunks == [] && f.size == 0)
  {
    if f.chunks != [] {
      ChunkAt(f, chunkSize, |f.chunks| - 1);
      MulNext(|f.chunks| - 1, chunkSize);
    }
  }

  lemma DivideOffset(offset: nat, chunkSize: nat)
    requires chunkSize > 0
    ensures offset == (offset / chunkSize) * chunkSize + offset % chunkSize
  {
  }

  /** A write inside one chunk ends inside it. */
  lemma WithinFits(chunkSize: nat, offset: nat, length: nat)
    requires chunkSize > 0 && length > 0 && WithinChunk(chunkSize, offset, length)
    ensures offset % chunkSize + length <= chunkSize
  {
    var last := offset + length - 1;
    DivideOffset(offset, chunkSize);
    DivideOffset(last, chunkSize);
  }

  /* ---------- Writes ---------- */

  /** A write skips when the list ends, or ends in a chunk that is not full, before its chunk. */
  predicate Skips(f: ChunkedFile, chunkSize: nat, offset: nat)
    requires chunkSize > 0
  {
    offset / chunkSize > |f.chunks| || (offset / chunkSize == |f.chunks| && f.size != |f.chunks| * chunkSize)
  }

  lemma ReplaceOne(parts: seq<Bytes>, k: nat, part: Bytes)
    requires k < |parts|
    ensures Concat(parts[k := part]) == Concat(parts[..k]) + part + Concat(parts[k + 1..])
  {
    ConcatOne(parts[k := part], k);
    assert parts[k := part][..k] == parts[..k] && parts[k := part][k + 1..] == parts[k + 1..];
  }

  /** Writing at `at` inside chunk k is writing `at` bytes after the start of chunk k. */
  lemma OverwriteChunk(f: ChunkedFile, chunkSize: nat, k: nat, at: nat, data: Bytes)
    requires Layout(f, chunkSize) && k < |f.chunks| && at + |data| <= chunkSize
    ensures var part := Overlay(f.chunks[k], at, data);
            Concat(f.chunks[k := part]) == Overlay(Flat(f), |Concat(f.chunks[..k])| + at, data)
  {
    ChunkAt(f, chunkSize, k);
    OverlayInside(Concat(f.chunks[..k]), f.chunks[k], Concat(f.chunks[k + 1..]), at, data);
    ReplaceOne(f.chunks, k, Overlay(f.chunks[k], at, data));
  }

  lemma OverwriteRefines(f: ChunkedFile, chunkSize: nat, offset: nat, data: Bytes)
    requires Layout(f, chunkSize) && |data| > 0 && WithinChunk(chunkSize, offset, |data|)
    requires offset / chunkSize < |f.chunks|
    ensures Flat(Written(f, chunkSize, offset, data)) == Overlay(Flat(f), offset, data)
  {
    DivideOffset(offset, chunkSize);
    WithinFits(chunkSize, offset, |data|);
    ChunkAt(f, chunkSize, offset / chunkSize);
    OverwriteChunk(f, chunkSize, offset / chunkSize, offset % chunkSize, data);
    PayloadIsOverlay(chunkSize, f.chunks[offset / chunkSize], offset, data);
  }

  lemma AppendChunk(f: ChunkedFile, at: nat, data: Bytes)
    ensures Concat(f.chunks + [Overlay([], at, data)]) == Overlay(Flat(f), |Flat(f)| + at, data)
  {
    ConcatSnoc(f.chunks, Overlay([], at, data));
    OverlayInside(Flat(f), [], [], at, data);
    assert Flat(f) + [] + [] == Flat(f);
  }

  lemma AppendRefines(f: ChunkedFile, chunkSize: nat, offset: nat, data: Bytes)
    requires Layout(f, chunkSize) && |data| > 0 && WithinChunk(chunkSize, offset, |data|)
    requires offset / chunkSize == |f.chunks| && f.size == |f.chunks| * chunkSize
    ensures Flat(Written(f, chunkSize, offset, data)) == Overlay(Flat(f), offset, data)
  {
    DivideOffset(offset, chunkSize);
    AppendChunk(f, offset % chunkSize, data);
  }

  /** The chunk a write produces, and where it goes. */
  lemma WrittenChunk(f: ChunkedFile, chunkSize: nat, offset: nat, data: Bytes, k: nat, part: Bytes)
    requires Layout(f, chunkSize) && |data| > 0 && WithinChunk(chunkSize, offset, |data|) && k == offset / chunkSize
    requires part == Overlay(if k < |f.chunks| then f.chunks[k] else [], offset % chunkSize, data)
    ensures Written(f, chunkSize, offset, data).chunks
            == if k < |f.chunks| then f.chunks[k := part] else f.chunks + [part]
    ensures 0 < |part| <= chunkSize
  {
    WithinFits(chunkSize, offset, |data|);
    if k < |f.chunks| {
      PayloadIsOverlay(chunkSize, f.chunks[k], offset, data);
    }
  }

  lemma WriteKeepsLayout(f: ChunkedFile, chunkSize: nat, offset: nat, data: Bytes)
    requires Layout(f, chunkSize) && |data| > 0 && WithinChunk(chunkSize, offset, |data|)
    requires !Skips(f, chunkSize, offset)
    ensures Layout(Written(f, chunkSize, offset, data), chunkSize)
  {
    var k := offset / chunkSize;
    var part := Overlay(if k < |f.chunks| then f.chunks[k] else [], offset % chunkSize, data);
    WriteRefines(f, chunkSize, offset, data);
    WrittenChunk(f, chunkSize, offset, data, k, part);
    WriteShapes(f, chunkSize, k, part);
  }

  /** Replacing a chunk by one at least as long, or appending after full ones, keeps the shape. */
  lemma WriteShapes(f: ChunkedFile, chunkSize: nat, k: nat, part: Bytes)
    requires Layout(f, chunkSize) && 0 < |part| <= chunkSize
    requires (k < |f.chunks| && |f.chunks[k]| <= |part|) || (k == |f.chunks| && f.size == |f.chunks| * chunkSize)
    ensures var chunks := if k < |f.chunks| then f.chunks[k := part] else f.chunks + [part];
            && (forall i :: 0 <= i < |chunks| ==> 0 < |chunks[i]| <= chunkSize)
            && (forall i :: 0 <= i < |chunks| - 1 ==> |chunks[i]| == chunkSize)
  {
    if k == |f.chunks| && f.chunks != [] {
      LastIsFull(f, chunkSize);
    }
  }

  lemma LastIsFull(f: ChunkedFile, chunkSize: nat)
    requires Layout(f, chunkSize) && f.chunks != [] && f.size == |f.chunks| * chunkSize
    ensures |f.chunks[|f.chunks| - 1]| == chunkSize
  {
    ChunkAt(f, chunkSize, |f.chunks| - 1);
    MulNext(|f.chunks| - 1, chunkSize);
  }

  /** A write that does not skip does to the flat image exactly what a flat file would do. */
  lemma WriteRefines(f: ChunkedFile, chunkSize: nat, offset: nat, data: Bytes)
    requires Layout(f, chunkSize) && |data| > 0 && WithinChunk(chunkSize, offset, |data|)
    requires !Skips(f, chunkSize, offset)
    ensures Flat(Written(f, chunkSize, offset, data)) == Overlay(Flat(f), offset, data)
  {
    if offset / chunkSize < |f.chunks| {
      OverwriteRefines(f, chunkSize, offset, data);
    } else {
      AppendRefines(f, chunkSize, offset, data);
    }
  }

  /** A write that skips leaves a shorter file than a flat file would have. */
  lemma SkipLosesBytes(f: ChunkedFile, chunkSize: nat, offset: nat, data: Bytes)
    requires Layout(f, chunkSize) && |data| > 0 && Skips(f, chunkSize, offset)
    ensures |Flat(Written(f, chunkSize, offset, data))| < offset + |data|
  {
    var (k, at) := (offset / chunkSize, offset % chunkSize);
    DivideOffset(offset, chunkSize);
    ConcatSnoc(f.chunks, Overlay([], at, data));
    ChunkCount(f, chunkSize);
    MulNext(|f.chunks|, chunkSize);
    MulMonotone(|f.chunks| + 1, k, chunkSize);
  }

  lemma MulMonotone(a: nat, b: nat, c: nat)
    ensures a <= b ==> a * c <= b * c
  {
  }

  /** The chunk list refines a flat file on exactly the writes that do not skip. */
  lemma RefinesIffNoSkip(f: ChunkedFile, chunkSize: nat, offset: nat, data: Bytes)
    requires Layout(f, chunkSize) && |data| > 0 && WithinChunk(chunkSize, offset, |data|)
    ensures Flat(Written(f, chunkSize, offset, data)) == Overlay(Flat(f), offset, data) <==>
              !Skips(f, chunkSize, offset)
  {
    if Skips(f, chunkSize, offset) {
      SkipLosesBytes(f, chunkSize, offset, data);
    } else {
      WriteRefines(f, chunkSize, offset, data);
    }
  }

  /** A byte written at offset 4 of an empty file with chunks of two bytes becomes the first byte of the file. */
  lemma SkippedWrite(b: byte)
    ensures WithinChunk(2, 4, 1) && Skips(EMPTY_FILE, 2, 4)
    ensures Flat(Written(EMPTY_FILE, 2, 4, [b])) == [b] && Overlay(Flat(EMPTY_FILE), 4, [b]) == [0, 0, 0, 0, b]
  {
    var part := Overlay([], 0, [b]);
    assert part == [b];
    assert Written(EMPTY_FILE, 2, 4, [b]).chunks == [part];
    assert Concat([part]) == part + Concat([part][1..]);
    assert [part][1..] == [];
  }

  /** A write at or before the end of the file never skips. */
  lemma NoGapNoSkip(f: ChunkedFile, chunkSize: nat, offset: nat)
    requires Layout(f, chunkSize) && offset <= f.size
    ensures !Skips(f, chunkSize, offset)
  {
    DivideOffset(offset, chunkSize);
    ChunkCount(f, chunkSize);
    MulNext(|f.chunks|, chunkSize);
    MulMonotone(|f.chunks| + 1, offset / chunkSize, chunkSize);
  }

  /* ---------- Reads ---------- */

  /** Where the chunk that holds an offset starts and ends. */
  function ChunkStart(chunkSize: nat, offset: nat): nat
    requires chunkSize > 0
  {
    (offset / chunkSize) * chunkSize
  }

  function ChunkEnd(f: ChunkedFile, chunkSize: nat, offset: nat): nat
    requires chunkSize > 0
  {
    Min(ChunkStart(chunkSize, offset) + chunkSize, f.size)
  }

  lemma StartOfChunk(chunkSize: nat, offset: nat)
    requires chunkSize > 0
    ensures ChunkStart(chunkSize, offset) + offset % chunkSize == offset
  {
    DivideOffset(offset, chunkSize);
  }

  lemma OffsetHasChunk(f: ChunkedFile, chunkSize: nat, offset: nat)
    requires Layout(f, chunkSize) && offset < f.size
    ensures offset / chunkSize < |f.chunks|
  {
    DivideOffset(offset, chunkSize);
    ChunkCount(f, chunkSize);
    MulMonotone(|f.chunks|, offset / chunkSize, chunkSize);
  }

  /** Inside the file there is a chunk for every offset, and a read returns all of it. */
  lemma ReadReturnsChunk(f: ChunkedFile, chunkSize: nat, offset: nat, start: nat, end: nat)
    requires Layout(f, chunkSize) && offset < f.size
    requires start == ChunkStart(chunkSize, offset) && end == ChunkEnd(f, chunkSize, offset)
    ensures start <= offset < end <= |Flat(f)| && ReadAt(f, chunkSize, offset) == Flat(f)[start..end]
  {
    var k := offset / chunkSize;
    StartOfChunk(chunkSize, offset);
    OffsetHasChunk(f, chunkSize, offset);
    ChunkAt(f, chunkSize, k);
    if k < |f.chunks| - 1 {
      ChunkAt(f, chunkSize, k + 1);
    }
  }

  /**
   * A read inside the file returns the bytes from its offset to the end of the chunk if and only
   * if the offset is at a chunk boundary.
   */
  lemma ReadIsRightIffAligned(f: ChunkedFile, chunkSize: nat, offset: nat, end: nat)
    requires Layout(f, chunkSize) && offset < f.size && end == ChunkEnd(f, chunkSize, offset)
    ensures offset < end <= |Flat(f)|
    ensures ReadAt(f, chunkSize, offset) == Flat(f)[offset..end] <==> offset % chunkSize == 0
  {
    var start := ChunkStart(chunkSize, offset);
    ReadReturnsChunk(f, chunkSize, offset, start, end);
    StartOfChunk(chunkSize, offset);
    assert |ReadAt(f, chunkSize, offset)| == end - start;
  }

  /** A read at offset 1 of a two-byte file returns both bytes. */
  lemma MisalignedRead(a: byte, b: byte)
    ensures var f := ChunkedFile([[a, b]], 2);
            Layout(f, 2) && Flat(f) == [a, b] && ReadAt(f, 2, 1) == [a, b] && ReadAt(f, 2, 1) != Flat(f)[1..2]
  {
    var f := ChunkedFile([[a, b]], 2);
    assert f.chunks[1..] == [];
    assert Flat(f) == [a, b] + Concat(f.chunks[1..]);
    assert |ReadAt(f, 2, 1)| == 2;
  }
}
