/** The client library's write buffer: what callers wrote, what the buffer holds and what the server has. */
module Client {
  import opened Basics
  import opened FileBytes
  import opened FileLayout
  import opened ChunkStore
  import opened FileReplicas
  import opened FileServer
  import MetadataKeys
  import Namespace
  import NamespaceProof
  import NamespaceEffects

  const WRITE_BUFFER_LIMIT: nat := 2 * 1024 * 1024
  const WRITE_RPC_CHUNK: nat := 8 * 1024 * 1024

  /** Up to where one request may go from an offset: the next multiple of the request size. */
  function PieceLimit(offset: nat): (n: nat)
    ensures 0 < n <= WRITE_RPC_CHUNK
  {
    WRITE_RPC_CHUNK - offset % WRITE_RPC_CHUNK
  }

  /** A full piece ends at the next multiple of the request size. */
  lemma PieceEndsAtMultiple(offset: nat)
    ensures (offset + PieceLimit(offset)) % WRITE_RPC_CHUNK == 0
    ensures forall at :: offset < at < offset + PieceLimit(offset) ==> at % WRITE_RPC_CHUNK != 0
  {
    DivideOffset(offset, WRITE_RPC_CHUNK);
    DivModUnique(offset + PieceLimit(offset), offset / WRITE_RPC_CHUNK + 1, 0, WRITE_RPC_CHUNK);
    forall at | offset < at < offset + PieceLimit(offset) ensures at % WRITE_RPC_CHUNK != 0 {
      DivModUnique(at, offset / WRITE_RPC_CHUNK, at - (offset / WRITE_RPC_CHUNK) * WRITE_RPC_CHUNK, WRITE_RPC_CHUNK);
    }
  }

  /** Quotient and remainder are unique. */
  lemma DivModUnique(x: nat, q: nat, r: nat, n: nat)
    requires r < n && x == q * n + r
    ensures x / n == q && x % n == r
  {
    DivideOffset(x, n);
    MulNext(q, n);
    MulNext(x / n, n);
    MulMonotone(q + 1, x / n, n);
    MulMonotone(x / n + 1, q, n);
  }

  /** A position inside a chunk of k requests, and its position inside its request. */
  lemma ModOfMultiple(offset: nat, rpc: nat, k: nat, chunk: nat)
    requires rpc > 0 && k > 0 && chunk == k * rpc && chunk > 0
    ensures offset % chunk + (rpc - offset % rpc) <= chunk
  {
    var (q, m) := (offset / chunk, offset % chunk);
    DivideOffset(offset, chunk);
    DivideOffset(m, rpc);
    Regroup(q, k, rpc, m / rpc, m % rpc);
    DivModUnique(offset, q * k + m / rpc, m % rpc, rpc);
    MulMonotone(k, m / rpc, rpc);
    MulMonotone(m / rpc + 1, k, rpc);
    MulNext(m / rpc, rpc);
  }

  lemma Regroup(q: nat, k: nat, rpc: nat, a: nat, b: nat)
    ensures q * (k * rpc) + (a * rpc + b) == (q * k + a) * rpc + b
  {
  }

  /**
   * Whatever the client sends in one request stays inside one server chunk if the chunk size is a
   * multiple of the request size.
   */
  lemma PiecesFit(chunkSize: nat, offset: nat, length: nat)
    requires chunkSize > 0 && chunkSize % WRITE_RPC_CHUNK == 0 && length <= PieceLimit(offset)
    ensures WithinChunk(chunkSize, offset, length)
  {
    if length > 0 {
      var k := chunkSize / WRITE_RPC_CHUNK;
      DivideOffset(chunkSize, WRITE_RPC_CHUNK);
      ModOfMultiple(offset, WRITE_RPC_CHUNK, k, chunkSize);
      SameQuotient(offset, length, chunkSize);
    }
  }

  lemma SameQuotient(offset: nat, length: nat, chunkSize: nat)
    requires chunkSize > 0 && length > 0 && offset % chunkSize + length <= chunkSize
    ensures offset / chunkSize == (offset + length - 1) / chunkSize
  {
    DivideOffset(offset, chunkSize);
    DivModUnique(offset + length - 1, offset / chunkSize, offset % chunkSize + length - 1, chunkSize);
  }

  lemma QuotientZero(x: nat, n: nat)
    requires n > 0
    ensures x / n == 0 <==> x < n
  {
    DivideOffset(x, n);
    if x < n {
      DivModUnique(x, 0, x, n);
    }
  }

  /** Otherwise the request that contains the end of the first chunk crosses it. */
  lemma CrossingPiece(chunkSize: nat, offset: nat)
    requires chunkSize > 0 && chunkSize % WRITE_RPC_CHUNK != 0 && offset == chunkSize - chunkSize % WRITE_RPC_CHUNK
    ensures PieceLimit(offset) == WRITE_RPC_CHUNK && !WithinChunk(chunkSize, offset, WRITE_RPC_CHUNK)
  {
    DivideOffset(chunkSize, WRITE_RPC_CHUNK);
    DivModUnique(offset, chunkSize / WRITE_RPC_CHUNK, 0, WRITE_RPC_CHUNK);
    QuotientZero(offset, chunkSize);
    QuotientZero(offset + WRITE_RPC_CHUNK - 1, chunkSize);
  }

  /** All requests the client can send fit if and only if the chunk size is a multiple of the request size. */
  lemma PiecesFitIff(chunkSize: nat)
    requires chunkSize > 0
    ensures chunkSize % WRITE_RPC_CHUNK == 0 <==>
            forall offset: nat, length: nat :: length <= PieceLimit(offset) ==> WithinChunk(chunkSize, offset, length)
  {
    if chunkSize % WRITE_RPC_CHUNK == 0 {
      forall offset: nat, length: nat | length <= PieceLimit(offset) ensures WithinChunk(chunkSize, offset, length) {
        PiecesFit(chunkSize, offset, length);
      }
    } else {
      CrossingPiece(chunkSize, chunkSize - chunkSize % WRITE_RPC_CHUNK);
    }
  }

  lemma SuffixCut(whole: Bytes, start: nat, suffix: Bytes, n: nat)
    requires start <= |whole| && suffix == whole[start..] && n <= |suffix|
    ensures suffix[..n] == whole[start..start + n] && suffix[n..] == whole[start + n..]
  {
  }

  lemma PieceOfWhole(whole: Bytes, start: nat, payload: Bytes, from: nat, to: nat)
    requires start + |payload| <= |whole| && payload == whole[start..start + |payload|] && from <= to <= |payload|
    ensures payload[from..to] == whole[start + from..start + from + |payload[from..to]|]
  {
    var (a, b) := (payload[from..to], whole[start + from..start + to]);
    forall i | 0 <= i < |a| ensures a[i] == b[i] {
      assert a[i] == payload[from + i] == whole[start..start + |payload|][from + i];
    }
    assert a == b;
  }

  datatype Op = WriteOp(data: Bytes) | FsyncOp

  /** What requests meet: anything at all, only success, or a server that does not get its entries replicated. */
  datatype Net = Any | Reliable | Failing

  /** An open descriptor on a file that was new when it was opened. */
  class Descriptor {
    const server: Server
    var offset: nat
    var buffer: Bytes
    /** Everything the descriptor has accepted, from the start of the file on. */
    ghost var stream: Bytes

    constructor (server: Server)
      requires server.Valid() && server.chunkSize % WRITE_RPC_CHUNK == 0 && server.nodes.Keys != {}
      requires server.Image() == []
      ensures this.server == server && offset == 0 && buffer == [] && stream == [] && Valid()
    {
      this.server := server;
      offset, buffer, stream := 0, [], [];
    }

    /** The server is in order, and it holds a part of the stream that reaches at least up to the buffer. */
    ghost predicate Valid()
      reads this, server
    {
      && |stream| == offset && |buffer| <= offset
      && buffer == stream[offset - |buffer|..]
      && Holds(stream, offset - |buffer|)
    }

    /** The server is in order and holds a part of the stream that reaches at least to `reach`. */
    ghost predicate Holds(whole: Bytes, reach: nat)
      reads server
    {
      && server.Valid() && server.chunkSize % WRITE_RPC_CHUNK == 0 && server.nodes.Keys != {}
      && server.Image() <= whole && reach <= |server.Image()|
    }

    /**
     * One request, at its own place in the stream. Anything can happen at the nodes before it and
     * around it; a reliable one is any that commits and is answered.
     */
    method SendPiece(at: nat, piece: Bytes, net: Net, ghost whole: Bytes) returns (ok: bool)
      requires Holds(whole, at) && 0 < |piece| <= PieceLimit(at)
      requires at + |piece| <= |whole| && piece == whole[at..at + |piece|]
      modifies server
      ensures Holds(whole, if ok then at + |piece| else at) && |server.Image()| >= old(|server.Image()|)
      ensures (net.Reliable? ==> ok) && (net.Failing? ==> !ok)
    {
      var events: seq<Event> := *;
      server.Meanwhile(events);
      PiecesFit(server.chunkSize, at, |piece|);
      var w := AnyWeather(at, |piece|, net);
      ghost var f := server.File();
      NoGapNoSkip(f, server.chunkSize, at);
      WriteRefines(f, server.chunkSize, at, piece);
      WriteKeepsLayout(f, server.chunkSize, at, piece);
      OverlayPrefix(Flat(f), whole, at, piece);
      ok := server.HandleWrite(at, piece, w);
    }

    method AnyWeather(at: nat, length: nat, net: Net) returns (w: Weather)
      requires server.Sound() && server.nodes.Keys != {} && WithinChunk(server.chunkSize, at, length)
      ensures forall v :: v in w.placed ==> v in server.nodes
      ensures net.Reliable? ==> Commits(server.chunkList, server.chunkSize, at, length, w) && !w.replyLost
      ensures net.Failing? ==> !w.replicates
    {
      w := *;
      if exists v :: v in w.placed && v !in server.nodes {
        w := w.(placed := []);
      }
      if net.Failing? {
        w := w.(replicates := false);
      }
      if net.Reliable? && !(Commits(server.chunkList, server.chunkSize, at, length, w) && !w.replyLost) {
        var v :| v in server.nodes.Keys;
        w := Weather([v], {}, map[], true, {}, false);
        TargetsKnown(server.chunkList, server.nodes, server.contents, at / server.chunkSize, w);
        var targets := TargetsFor(server.chunkList, at / server.chunkSize, w);
        assert targets[0] in targets && targets[0] !in w.down;
      }
    }

    /** The next piece of a payload goes up to the next multiple of the request size. */
    method SendNext(startOffset: nat, payload: Bytes, written: nat, net: Net, ghost whole: Bytes)
        returns (sent: bool, end: nat)
      requires written < |payload| && Holds(whole, startOffset + written)
      requires startOffset + |payload| <= |whole| && payload == whole[startOffset..startOffset + |payload|]
      modifies server
      ensures written < end <= |payload| && Holds(whole, startOffset + if sent then end else written)
      ensures |server.Image()| >= old(|server.Image()|)
      ensures (net.Reliable? ==> sent) && (net.Failing? ==> !sent)
    {
      var at := startOffset + written;
      end := Min(written + PieceLimit(at), |payload|);
      PieceOfWhole(whole, startOffset, payload, written, end);
      sent := SendPiece(at, payload[written..end], net, whole);
    }

    /** Sends a payload piece by piece and stops at the first request that fails. */
    method SendWriteInChunks(startOffset: nat, payload: Bytes, net: Net, ghost whole: Bytes) returns (ok: bool)
      requires Holds(whole, startOffset)
      requires startOffset + |payload| <= |whole| && payload == whole[startOffset..startOffset + |payload|]
      modifies server
      ensures Holds(whole, if ok then startOffset + |payload| else startOffset)
      ensures |server.Image()| >= old(|server.Image()|)
      ensures (net.Reliable? ==> ok) && (net.Failing? && payload != [] ==> !ok)
    {
      var written := 0;
      while written < |payload|
        invariant 0 <= written <= |payload|
        invariant Holds(whole, startOffset + written) && |server.Image()| >= old(|server.Image()|)
        invariant net.Failing? ==> written == 0
      {
        var sent, end := SendNext(startOffset, payload, written, net, whole);
        if !sent {
          return false;
        }
        written := end;
      }
      return true;
    }

    method FlushBuffered(net: Net) returns (ok: bool)
      requires Valid()
      modifies `buffer, server
      ensures Valid() && (ok ==> buffer == []) && (!ok ==> buffer == old(buffer) != [])
      ensures net.Reliable? ==> ok
    {
      if |buffer| == 0 {
        return true;
      }
      ok := SendWriteInChunks(offset - |buffer|, buffer, net, stream);
      if ok {
        buffer := [];
      }
    }

    /**
     * Accepts the data whenever it reports success. A failed call has accepted nothing if the
     * flush before accepting failed (`early`), and everything if the flush after it did. The
     * first needs a buffer that is not empty, the second more data than the buffer limit. What
     * fits into the buffer stays there, and no more than the limit stays.
     */
    method Write(data: Bytes, net: Net) returns (n: nat, ok: bool, ghost early: bool)
      requires Valid()
      modifies this, server
      ensures Valid() && (net.Reliable? ==> ok) && n == (if ok then |data| else 0)
      ensures stream == if early then old(stream) else old(stream) + data
      ensures early ==> !ok && old(buffer) != [] && |old(buffer)| + |data| > WRITE_BUFFER_LIMIT
      ensures !ok && !early ==> |data| > WRITE_BUFFER_LIMIT
      ensures net.Failing? && |data| > WRITE_BUFFER_LIMIT ==> !ok
      ensures |old(buffer)| + |data| <= WRITE_BUFFER_LIMIT ==>
                ok && buffer == old(buffer) + data && server.File() == old(server.File())
      ensures ok && data != [] ==> Min(|data|, WRITE_BUFFER_LIMIT) <= |buffer| <= WRITE_BUFFER_LIMIT
    {
      early := false;
      if |data| == 0 {
        return 0, true, false;
      }
      if |buffer| > 0 && |buffer| + |data| > WRITE_BUFFER_LIMIT {
        var flushed := FlushBuffered(net);
        if !flushed {
          return 0, false, true;
        }
      }
      ok := Accept(data, net);
      n := if ok then |data| else 0;
    }

    /** Takes the data over and sends what exceeds the limit. */
    method Accept(data: Bytes, net: Net) returns (ok: bool)
      requires Valid()
      modifies this, server
      ensures Valid() && stream == old(stream) + data && (net.Reliable? ==> ok)
      ensures |old(buffer)| + |data| <= WRITE_BUFFER_LIMIT ==>
                ok && buffer == old(buffer) + data && server.File() == old(server.File())
      ensures |old(buffer)| + |data| > WRITE_BUFFER_LIMIT ==>
                (net.Failing? ==> !ok) && (ok ==> |buffer| == WRITE_BUFFER_LIMIT)
    {
      Enqueue(data);
      if |buffer| <= WRITE_BUFFER_LIMIT {
        return true;
      }
      ok := FlushOverflow(net);
    }

    method Enqueue(data: Bytes)
      requires Valid()
      modifies `buffer, `offset, `stream
      ensures Valid() && stream == old(stream) + data && buffer == old(buffer) + data
    {
      buffer, offset, stream := buffer + data, offset + |data|, stream + data;
    }

    /** Sends what exceeds the limit, from the front of the buffer. */
    method FlushOverflow(net: Net) returns (ok: bool)
      requires Valid() && |buffer| > WRITE_BUFFER_LIMIT
      modifies `buffer, server
      ensures Valid() && (net.Reliable? ==> ok) && (net.Failing? ==> !ok)
      ensures ok ==> buffer == old(buffer)[|old(buffer)| - WRITE_BUFFER_LIMIT..]
    {
      var flushBytes := |buffer| - WRITE_BUFFER_LIMIT;
      SuffixCut(stream, offset - |buffer|, buffer, flushBytes);
      ok := SendWriteInChunks(offset - |buffer|, buffer[..flushBytes], net, stream);
      if ok {
        buffer := buffer[flushBytes..];
      }
    }

    /** After a successful call the server holds everything that was accepted. */
    method Fsync(net: Net) returns (ok: bool)
      requires Valid()
      modifies `buffer, server
      ensures Valid() && (net.Reliable? ==> ok) && (ok ==> server.Image() == stream)
    {
      ok := FlushBuffered(net);
    }

    /** The descriptor is gone whatever happens; the last flush decides what is reported. */
    method Close(net: Net) returns (ok: bool)
      requires Valid()
      modifies `buffer, server
      ensures Valid() && (net.Reliable? ==> ok) && (ok ==> server.Image() == stream)
    {
      ok := FlushBuffered(net);
    }

    /** Any run of writes and syncs with requests failing at any point. */
    method Run(ops: seq<Op>) returns (synced: bool)
      requires Valid()
      modifies this, server
      ensures Valid() && old(stream) <= stream && (synced ==> server.Image() == stream)
    {
      synced := false;
      var i := 0;
      while i < |ops|
        invariant Valid() && old(stream) <= stream && (synced ==> server.Image() == stream)
      {
        match ops[i] {
          case WriteOp(data) =>
            var n, ok, early := Write(data, Any);
            synced := false;
          case FsyncOp =>
            synced := Fsync(Any);
        }
        i := i + 1;
      }
    }
  }

  /**
   * A call of more than the buffer limit fails, and its data is accepted all the same: a caller
   * that repeats the call has written the data twice.
   */
  method RetriedWriteDoubles(fd: Descriptor, data: Bytes) returns (ok: bool, again: bool)
    requires fd.Valid() && fd.buffer == [] && |data| > WRITE_BUFFER_LIMIT
    modifies fd, fd.server
    ensures fd.Valid() && !ok && again && fd.stream == old(fd.stream) + data + data
  {
    var n;
    ghost var early;
    n, ok, early := fd.Write(data, Failing);
    n, again, early := fd.Write(data, Reliable);
  }

  /* ---------- Reading back ---------- */

  /**
   * Reads a fresh descriptor until a read returns nothing. Anything can happen at the nodes
   * between the reads; a read fails if no target of the chunk answers.
   */
  method ReadToEnd(server: Server, net: Net) returns (ok: bool, all: Bytes)
    requires server.Valid()
    modifies server`nodes
    ensures server.Valid() && server.File() == old(server.File())
    ensures (ok ==> all == server.Image()) && (net.Reliable? ==> ok)
  {
    all, ok := [], true;
    var offset := 0;
    ghost var f := server.File();
    while true
      invariant server.Valid() && server.File() == f
      invariant offset <= f.size && (offset == f.size || offset % server.chunkSize == 0)
      invariant all == Flat(f)[..offset] && ok
      decreases f.size - offset
    {
      var events: seq<Event> := *;
      server.Meanwhile(events);
      var data := ReadOnce(server, offset, net);
      if data.None? {
        return false, [];
      }
      if |data.value| == 0 {
        ReadStops(f, server.chunkSize, offset);
        return;
      }
      ReadContinues(f, server.chunkSize, offset);
      all, offset := all + data.value, offset + |data.value|;
    }
  }

  /** One read, with any nodes not answering; a reliable one is any that some target answers. */
  method ReadOnce(server: Server, offset: nat, net: Net) returns (data: Option<Bytes>)
    requires server.Valid()
    ensures data.Some? ==> data.value == ReadAt(server.File(), server.chunkSize, offset)
    ensures net.Reliable? ==> data.Some?
  {
    var down: set<NodeId> := *;
    data := server.HandleRead(offset, down);
    if data.None? && net.Reliable? {
      AnsweredWhenUp(server.chunkList, server.nodes, server.contents, server.chunkSize, server.size, offset);
      data := server.HandleRead(offset, {});
    }
  }

  lemma ReadStops(f: ChunkedFile, chunkSize: nat, offset: nat)
    requires Layout(f, chunkSize) && offset <= f.size && ReadAt(f, chunkSize, offset) == []
    ensures offset == f.size
  {
    if offset < f.size {
      OffsetHasChunk(f, chunkSize, offset);
    }
  }

  lemma ReadContinues(f: ChunkedFile, chunkSize: nat, offset: nat)
    requires Layout(f, chunkSize) && offset <= f.size && (offset == f.size || offset % chunkSize == 0)
    requires ReadAt(f, chunkSize, offset) != []
    ensures var next := offset + |ReadAt(f, chunkSize, offset)|;
            && offset < next <= f.size && (next == f.size || next % chunkSize == 0)
            && Flat(f)[..offset] + ReadAt(f, chunkSize, offset) == Flat(f)[..next]
  {
    var end := ChunkEnd(f, chunkSize, offset);
    ReadIsRightIffAligned(f, chunkSize, offset, end);
    StartOfChunk(chunkSize, offset);
    MulNext(offset / chunkSize, chunkSize);
    DivModUnique(ChunkStart(chunkSize, offset) + chunkSize, offset / chunkSize + 1, 0, chunkSize);
  }

  lemma ConcatStep(parts: seq<Bytes>, i: nat)
    requires i < |parts|
    ensures Concat(parts[..i + 1]) == Concat(parts[..i]) + parts[i]
  {
    ConcatSnoc(parts[..i], parts[i]);
    assert parts[..i + 1] == parts[..i] + [parts[i]];
  }

  method WriteAll(fd: Descriptor, writes: seq<Bytes>)
    requires fd.Valid() && fd.stream == []
    modifies fd, fd.server
    ensures fd.Valid() && fd.stream == Concat(writes)
  {
    var i := 0;
    while i < |writes|
      invariant 0 <= i <= |writes| && fd.Valid() && fd.stream == Concat(writes[..i])
    {
      var n, ok, early := fd.Write(writes[i], Reliable);
      ConcatStep(writes, i);
      i := i + 1;
    }
    assert writes[..i] == writes;
  }

  /**
   * The round trip: a file is created, any writes of any sizes go to it, it is closed and read back
   * from the start until a read returns nothing; this gives back exactly what was written.
   */
  method RoundTrip(chunkSize: nat, cluster: set<NodeId>, meta: Namespace.Flat<ChunkRef>, create: Namespace.Op<ChunkRef>,
                   writes: seq<Bytes>) returns (back: Bytes)
    requires chunkSize > 0 && chunkSize % WRITE_RPC_CHUNK == 0 && cluster != {}
    requires create.Create? && NamespaceProof.Unused(meta, create) && Namespace.FlatStep(meta, create).1.None?
    ensures back == Concat(writes)
  {
    NamespaceEffects.CreateRule(meta, create);
    var server := new Server(chunkSize, cluster, Namespace.FlatStep(meta, create).0, create.id);
    var fd := new Descriptor(server);
    WriteAll(fd, writes);
    ghost var all := fd.stream;
    var ok := fd.Close(Reliable);
    assert server.Image() == all;
    ok, back := ReadToEnd(server, Reliable);
  }
}
