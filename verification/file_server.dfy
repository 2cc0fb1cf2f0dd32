/**
 * The server side of one file: reading the old chunk, preparing the new one at every target,
 * replicating the inode together with the commit, and telling the targets.
 */
module FileServer {
  import opened Basics
  import opened FileBytes
  import opened FileLayout
  import opened ChunkStore
  import opened FileReplicas
  import MetadataKeys
  import Namespace
  import NamespaceEffects

  /**
   * What happens around one write request: where a new chunk is placed (nowhere, if there are too
   * few nodes), which nodes do not answer a read, which ones fail to prepare and what they leave
   * on disk, whether the commit is replicated, which nodes hear of an abort, and whether the
   * answer to the client is lost.
   */
  datatype Weather = Weather(placed: seq<NodeId>, down: set<NodeId>, torn: map<NodeId, Bytes>, replicates: bool,
                             reached: set<NodeId>, replyLost: bool)

  /** Copies bytes into a buffer and leaves the rest of it alone. */
  method CopyInto(out: array<byte>, at: nat, src: Bytes)
    requires at + |src| <= out.Length
    modifies out
    ensures forall j :: 0 <= j < out.Length ==> out[j] == if at <= j < at + |src| then src[j - at] else old(out[j])
  {
    var i := 0;
    while i < |src|
      invariant 0 <= i <= |src|
      invariant forall j :: 0 <= j < out.Length ==> out[j] == if at <= j < at + i then src[j - at] else old(out[j])
    {
      out[at + i] := src[i];
      i := i + 1;
    }
  }

  /** Builds the payload of a write in a buffer that starts out as zeros. */
  method PrepareWritePayload(chunkSize: nat, offset: nat, data: Bytes, existing: Bytes,
                             isNew: bool) returns (payload: Bytes)
    requires chunkSize > 0
    ensures payload == Payload(chunkSize, existing, isNew, offset, data)
  {
    var writeOffset := offset % chunkSize;
    if isNew {
      payload := LaidOver([], writeOffset, data);
    } else if writeOffset == 0 && |data| == chunkSize {
      payload := data;
    } else {
      payload := LaidOver(existing, writeOffset, data);
    }
  }

  method LaidOver(existing: Bytes, writeOffset: nat, data: Bytes) returns (payload: Bytes)
    ensures payload == Overlay(existing, writeOffset, data)
  {
    var requiredLen := writeOffset + |data|;
    var finalLen := if requiredLen > |existing| then requiredLen else |existing|;
    var out := new byte[finalLen](_ => 0);
    CopyInto(out, 0, existing);
    CopyInto(out, writeOffset, data);
    payload := out[..];
  }

  /** The targets of the chunk a write goes to. */
  function TargetsFor(list: seq<ChunkRef>, index: nat, w: Weather): seq<NodeId> {
    if index < |list| then list[index].targets else w.placed
  }

  /** The old contents are read unless the chunk is new or replaced as a whole. */
  predicate ReadsFirst(list: seq<ChunkRef>, chunkSize: nat, offset: nat, length: nat)
    requires chunkSize > 0
  {
    offset / chunkSize < |list| && !(offset % chunkSize == 0 && length == chunkSize)
  }

  /** A write commits exactly when it stays in its chunk and every step before the answer succeeds. */
  predicate Commits(list: seq<ChunkRef>, chunkSize: nat, offset: nat, length: nat, w: Weather)
    requires chunkSize > 0
  {
    var targets := TargetsFor(list, offset / chunkSize, w);
    && WithinChunk(chunkSize, offset, length) && targets != [] && w.replicates
    && Prepares(targets, ReadsFirst(list, chunkSize, offset, length), w)
  }

  /** No target fails to prepare, and some target answers if the old contents are read first. */
  predicate Prepares(targets: seq<NodeId>, readsOld: bool, w: Weather) {
    && (forall v :: v in targets ==> v !in w.torn)
    && (readsOld ==> exists v :: v in targets && v !in w.down)
  }

  /** A read is answered unless every target of the chunk it needs is down. */
  ghost predicate Answered(list: seq<ChunkRef>, chunkSize: nat, size: nat, offset: nat, down: set<NodeId>)
    requires chunkSize > 0
  {
    offset >= size || offset / chunkSize >= |list| || exists v :: v in list[offset / chunkSize].targets && v !in down
  }

  lemma AnsweredWhenUp(list: seq<ChunkRef>, nodes: map<NodeId, Chunks>, chunks: seq<Bytes>, chunkSize: nat, size: nat,
                       offset: nat)
    requires chunkSize > 0 && Stored(list, nodes, chunks)
    ensures Answered(list, chunkSize, size, offset, {})
  {
    var i := offset / chunkSize;
    if offset < size && i < |list| {
      assert ServedBy(nodes, list[i], chunks[i]);
      assert list[i].targets[0] in list[i].targets;
    }
  }

  class Server {
    const chunkSize: nat
    /** The metadata state machine, the file's inode in it, and that inode as it was read last. */
    const inode: MetadataKeys.Id
    var meta: Namespace.Flat<ChunkRef>
    var chunkList: seq<ChunkRef>
    var size: nat
    var nodes: map<NodeId, Chunks>
    var committed: set<TxnId>
    var used: nat
    ghost var contents: seq<Bytes>

    /** The server of a file that has just been created. */
    constructor (chunkSize: nat, cluster: set<NodeId>, meta: Namespace.Flat<ChunkRef>, inode: MetadataKeys.Id)
      requires chunkSize > 0 && inode in meta.inodes && meta.inodes[inode].size == 0
      requires Namespace.ChunksOf(meta, inode) == []
      ensures this.chunkSize == chunkSize && nodes.Keys == cluster && File() == EMPTY_FILE && Valid()
    {
      this.chunkSize, this.meta, this.inode := chunkSize, meta, inode;
      chunkList, size, committed, used, contents := [], 0, {}, 0, [];
      nodes := map v | v in cluster :: Chunks(map[], map[], map[]);
    }

    /** The file: the contents of its chunks, which every target serves, and the recorded size. */
    ghost function File(): ChunkedFile
      reads this
    {
      ChunkedFile(contents, size)
    }

    /** The metadata have the size and the chunk list of the file. */
    ghost predicate Recorded()
      reads this
    {
      inode in meta.inodes && meta.inodes[inode].size == size && Namespace.ChunksOf(meta, inode) == chunkList
    }

    ghost predicate Sound()
      reads this
    {
      chunkSize > 0 && Recorded() && Stored(chunkList, nodes, contents) && Settled(chunkList, nodes, committed, used)
    }

    ghost predicate Valid()
      reads this
    {
      Sound() && Layout(File(), chunkSize)
    }

    /** The file as one flat image. */
    ghost function Image(): Bytes
      reads this
    {
      Flat(File())
    }

    /** Asks the targets in order until one answers. */
    method ExecuteRead(ref: ChunkRef, down: set<NodeId>, ghost data: Bytes) returns (r: Option<Bytes>)
      requires ServedBy(nodes, ref, data)
      ensures r == if exists v :: v in ref.targets && v !in down then Some(data) else None
    {
      var i := 0;
      while i < |ref.targets|
        invariant 0 <= i <= |ref.targets| && (forall j :: 0 <= j < i ==> ref.targets[j] in down)
      {
        var v := ref.targets[i];
        if v !in down {
          assert Serves(nodes, v, ref.id, data);
          var (n, answer) := Read(nodes[v], ref.id, Unknown, false);
          assert v in ref.targets && n == nodes[v];
          return Some(answer.data);
        }
        i := i + 1;
      }
      return None;
    }

    /** Asks every target to prepare the payload; one failure fails the write. */
    method PrepareAll(ref: ChunkRef, txn: TxnId, payload: Bytes, torn: map<NodeId, Bytes>) returns (ok: bool)
      requires forall v :: v in ref.targets ==> v in nodes
      modifies `nodes
      ensures FinalsSame(old(nodes), nodes) && TouchedAll(old(nodes), nodes, txn, ref.id)
      ensures ok <==> forall v :: v in ref.targets ==> v !in torn
      ensures ok ==> forall v :: v in ref.targets ==> PreparedFor(nodes, v, txn, ref.id, payload)
      ensures forall v :: v in nodes && v !in ref.targets ==> nodes[v] == old(nodes)[v]
    {
      ok := true;
      var i := 0;
      while i < |ref.targets|
        invariant 0 <= i <= |ref.targets| && PreparedUpTo(old(nodes), nodes, ref, i, txn, payload, torn)
        invariant ok <==> forall j :: 0 <= j < i ==> ref.targets[j] !in torn
      {
        var v := ref.targets[i];
        var n := PreparedOrTorn(nodes[v], v, txn, ref.id, payload, torn);
        PrepareStep(old(nodes), nodes, ref, i, txn, payload, torn);
        nodes := nodes[v := n];
        if v in torn {
          ok := false;
        }
        i := i + 1;
      }
    }

    /** The commit notifications, delivered to every target. */
    method CommitAll(ref: ChunkRef, txn: TxnId, ghost payload: Bytes)
      requires forall v :: v in ref.targets ==> PreparedFor(nodes, v, txn, ref.id, payload)
      modifies `nodes
      ensures nodes.Keys == old(nodes).Keys
      ensures forall v :: v in ref.targets ==> CommittedAt(old(nodes), nodes, v, txn, ref.id, payload)
      ensures forall v :: v in nodes && v !in ref.targets ==> nodes[v] == old(nodes)[v]
    {
      var i := 0;
      while i < |ref.targets|
        invariant 0 <= i <= |ref.targets| && nodes.Keys == old(nodes).Keys
        invariant forall j :: 0 <= j < i ==> CommittedAt(old(nodes), nodes, ref.targets[j], txn, ref.id, payload)
        invariant forall v :: v in nodes && v !in ref.targets[..i] ==> nodes[v] == old(nodes)[v]
      {
        var v := ref.targets[i];
        assert PreparedFor(old(nodes), v, txn, ref.id, payload);
        nodes := nodes[v := Commit(nodes[v], txn, ref.id).0];
        i := i + 1;
      }
    }

    /** The abort notifications, as far as they get. */
    method AbortAll(ref: ChunkRef, txn: TxnId, reached: set<NodeId>)
      requires forall v :: v in ref.targets ==> v in nodes
      modifies `nodes
      ensures FinalsSame(old(nodes), nodes) && TouchedAll(old(nodes), nodes, txn, ref.id)
    {
      var i := 0;
      while i < |ref.targets|
        invariant 0 <= i <= |ref.targets| && FinalsSame(old(nodes), nodes) && TouchedAll(old(nodes), nodes, txn, ref.id)
      {
        var v := ref.targets[i];
        if v in reached {
          TouchOne(old(nodes), nodes, v, Abort(nodes[v], txn, ref.id).0, txn, ref.id);
          nodes := nodes[v := Abort(nodes[v], txn, ref.id).0];
        }
        i := i + 1;
      }
    }

    /**
     * Reads the old contents where they are needed, and prepares the payload at every target. It
     * succeeds exactly when some target answers the read and none fails to prepare.
     */
    method ExecuteWrite(ref: ChunkRef, isNew: bool, readsOld: bool, txn: TxnId, offset: nat, data: Bytes, w: Weather,
                        ghost was: Bytes) returns (ok: bool, payload: Bytes)
      requires chunkSize > 0 && readsOld == (!isNew && !(offset % chunkSize == 0 && |data| == chunkSize))
      requires (forall v :: v in ref.targets ==> v in nodes) && (!isNew ==> ServedBy(nodes, ref, was))
      modifies `nodes
      ensures FinalsSame(old(nodes), nodes) && TouchedAll(old(nodes), nodes, txn, ref.id)
      ensures forall v :: v in nodes && v !in ref.targets ==> nodes[v] == old(nodes)[v]
      ensures ok <==> Prepares(ref.targets, readsOld, w)
      ensures ok ==> payload == Payload(chunkSize, was, isNew, offset, data)
      ensures ok ==> forall v :: v in ref.targets ==> PreparedFor(nodes, v, txn, ref.id, payload)
    {
      var existing := Some([]);
      if readsOld {
        existing := ExecuteRead(ref, w.down, was);
      }
      if existing.None? {
        return false, [];
      }
      payload := PrepareWritePayload(chunkSize, offset, data, existing.value, isNew);
      ok := PrepareAll(ref, txn, payload, w.torn);
    }

    /**
     * The metadata update of a committed write: the inode is read again, gets the longer list and
     * the larger size, and nothing else of the metadata changes but its times and version.
     */
    method RecordWrite(ref: ChunkRef, isNew: bool, newEOF: nat)
      requires Recorded()
      modifies `meta, `chunkList, `size
      ensures Recorded() && chunkList == (if isNew then old(chunkList) + [ref] else old(chunkList))
      ensures size == Max(old(size), newEOF) && meta.dentries == old(meta.dentries)
      ensures NamespaceEffects.OtherInodesSame(old(meta.inodes), meta.inodes, {inode})
    {
      var now: int := *;
      var newList := if isNew then chunkList + [ref] else chunkList;
      var newSize := if newEOF > size then newEOF else size;
      var op := Namespace.UpdateInode(inode, Some(newSize), Some(newList), Some(now), now);
      NamespaceEffects.UpdateRule(meta, op);
      meta := Namespace.FlatStep(meta, op).0;
      chunkList, size := Namespace.ChunksOf(meta, inode), meta.inodes[inode].size;
    }

    /** The inode and the commit are replicated as one entry, and then the targets are told. */
    method CommitWrite(ref: ChunkRef, isNew: bool, index: nat, txn: TxnId, newEOF: nat, ghost payload: Bytes,
                       ghost before: map<NodeId, Chunks>)
      requires chunkSize > 0 && Stored(chunkList, before, contents) && Settled(chunkList, before, committed, used)
      requires FinalsSame(before, nodes) && TouchedAll(before, nodes, txn, ref.id) && ref.targets != []
      requires |txn| == used + 1 && Recorded()
      requires forall v :: v in nodes && v !in ref.targets ==> nodes[v] == before[v]
      requires forall v :: v in ref.targets ==> PreparedFor(nodes, v, txn, ref.id, payload)
      requires if isNew then |ref.id| == used else index < |chunkList| && chunkList[index] == ref
      modifies this
      ensures Sound() && nodes.Keys == old(nodes.Keys) && size == Max(old(size), newEOF)
      ensures contents == if isNew then old(contents) + [payload] else old(contents)[index := payload]
    {
      ghost var list, chunks, prepared := chunkList, contents, nodes;
      contents := if isNew then contents + [payload] else contents[index := payload];
      RecordWrite(ref, isNew, newEOF);
      committed, used := committed + {txn}, used + 2;
      CommitAll(ref, txn, payload);
      WriteOutcome(list, before, prepared, nodes, chunks, ref, isNew, index, txn, payload, old(committed), old(used),
                   chunkList, contents, used);
    }

    /**
     * One write request. The file becomes the written one exactly when the write commits, and the
     * client is told so unless the answer is lost on the way. A write that does not commit leaves
     * the file as it was, whatever it left behind at the targets and wherever its aborts got.
     */
    method HandleWrite(offset: nat, data: Bytes, w: Weather) returns (ok: bool)
      requires Sound() && (forall v :: v in w.placed ==> v in nodes)
      modifies this
      ensures Sound() && nodes.Keys == old(nodes.Keys)
      ensures ok <==> Commits(old(chunkList), chunkSize, offset, |data|, w) && !w.replyLost
      ensures File() == if Commits(old(chunkList), chunkSize, offset, |data|, w)
                        then Written(old(File()), chunkSize, offset, data) else old(File())
    {
      if |data| > 0 && offset / chunkSize != (offset + |data| - 1) / chunkSize {
        return false;
      }
      var index := offset / chunkSize;
      var isNew := index >= |chunkList|;
      if isNew && w.placed == [] {
        return false;
      }
      var ref := if isNew then ChunkRef(NewId(used), w.placed) else chunkList[index];
      ghost var was := if isNew then [] else contents[index];
      TargetsKnown(chunkList, nodes, contents, index, w);
      var readsOld := ReadsFirst(chunkList, chunkSize, offset, |data|);
      CommitsWhen(chunkList, chunkSize, offset, |data|, w, ref.targets, readsOld);
      var done := Perform(ref, isNew, readsOld, index, offset, data, w, was);
      if done {
        PerformedIsWritten(old(File()), File(), chunkSize, offset, data, isNew, index, was);
      }
      return done && !w.replyLost;
    }

    /** Prepares, and then commits or gives up. */
    method Perform(ref: ChunkRef, isNew: bool, readsOld: bool, index: nat, offset: nat, data: Bytes, w: Weather,
                   ghost was: Bytes)
        returns (done: bool)
      requires chunkSize > 0 && readsOld == (!isNew && !(offset % chunkSize == 0 && |data| == chunkSize))
      requires Sound() && ref.targets != [] && (forall v :: v in ref.targets ==> v in nodes)
      requires if isNew then |ref.id| == used
               else index < |chunkList| && chunkList[index] == ref && was == contents[index]
      requires !isNew ==> ServedBy(nodes, ref, was)
      modifies this
      ensures Sound() && nodes.Keys == old(nodes.Keys)
      ensures done <==> w.replicates && Prepares(ref.targets, readsOld, w)
      ensures !done ==> File() == old(File())
      ensures done ==> size == Max(old(size), offset + |data|)
      ensures done ==> var payload := Payload(chunkSize, was, isNew, offset, data);
                       contents == if isNew then old(contents) + [payload] else old(contents)[index := payload]
    {
      ghost var before := nodes;
      var txn := NewId(used + 1);
      var prepared, payload := ExecuteWrite(ref, isNew, readsOld, txn, offset, data, w, was);
      done := prepared && w.replicates;
      if done {
        CommitWrite(ref, isNew, index, txn, offset + |data|, payload, before);
      } else {
        GiveUp(ref, txn, w.reached, before);
      }
    }

    method GiveUp(ref: ChunkRef, txn: TxnId, reached: set<NodeId>, ghost before: map<NodeId, Chunks>)
      requires chunkSize > 0 && Stored(chunkList, before, contents) && Settled(chunkList, before, committed, used)
      requires FinalsSame(before, nodes) && TouchedAll(before, nodes, txn, ref.id) && |txn| == used + 1
      requires Recorded() && (forall v :: v in ref.targets ==> v in nodes)
      modifies `nodes, `used
      ensures Sound() && nodes.Keys == old(nodes.Keys)
    {
      ghost var prepared := nodes;
      AbortAll(ref, txn, reached);
      used := used + 2;
      GivenUp(chunkList, before, prepared, nodes, contents, committed, old(used), used, txn, ref.id);
    }

    /** A read past the end is empty; any other returns the whole chunk, if one of its targets answers. */
    method HandleRead(offset: nat, down: set<NodeId>) returns (data: Option<Bytes>)
      requires Sound()
      ensures data == if Answered(chunkList, chunkSize, size, offset, down)
                      then Some(ReadAt(File(), chunkSize, offset)) else None
    {
      if offset >= size {
        return Some([]);
      }
      var index := offset / chunkSize;
      if index >= |chunkList| {
        return Some([]);
      }
      data := ExecuteRead(chunkList[index], down, contents[index]);
    }

    /** Between two requests late aborts and repeated commits arrive and nodes restart; the file stays. */
    method Meanwhile(events: seq<Event>)
      requires Sound()
      modifies `nodes
      ensures Sound() && nodes.Keys == old(nodes.Keys)
    {
      var i := 0;
      while i < |events|
        invariant Sound() && nodes.Keys == old(nodes.Keys)
      {
        var v := events[i].node;
        if v in nodes {
          EventStored(chunkList, nodes, contents, committed, used, v, events[i]);
          nodes := nodes[v := AfterEvent(nodes[v], events[i], committed)];
        }
        i := i + 1;
      }
    }
  }

  lemma GivenUp(list: seq<ChunkRef>, before: map<NodeId, Chunks>, prepared: map<NodeId, Chunks>,
                after: map<NodeId, Chunks>, chunks: seq<Bytes>, committed: set<TxnId>, used: nat, used': nat,
                txn: TxnId, id: ChunkId)
    requires Stored(list, before, chunks) && Settled(list, before, committed, used) && used <= |txn| < used'
    requires FinalsSame(before, prepared) && TouchedAll(before, prepared, txn, id)
    requires FinalsSame(prepared, after) && TouchedAll(prepared, after, txn, id)
    ensures Stored(list, after, chunks) && Settled(list, after, committed, used')
  {
    TouchedOn(before, prepared, after, txn, id);
    StoredStays(list, before, after, chunks);
    SettledWithout(list, before, after, committed, used, used', txn, id);
  }

  /** What a performed write has made of contents and size is the written file. */
  lemma PerformedIsWritten(f: ChunkedFile, f': ChunkedFile, chunkSize: nat, offset: nat, data: Bytes, isNew: bool,
                           index: nat, was: Bytes)
    requires chunkSize > 0 && index == offset / chunkSize && isNew == (index >= |f.chunks|)
    requires was == (if isNew then [] else f.chunks[index]) && f'.size == Max(f.size, offset + |data|)
    requires var payload := Payload(chunkSize, was, isNew, offset, data);
             f'.chunks == if isNew then f.chunks + [payload] else f.chunks[index := payload]
    ensures f' == Written(f, chunkSize, offset, data)
  {
  }

  lemma CommitsWhen(list: seq<ChunkRef>, chunkSize: nat, offset: nat, length: nat, w: Weather, targets: seq<NodeId>,
                    readsOld: bool)
    requires chunkSize > 0 && WithinChunk(chunkSize, offset, length) && targets != []
    requires targets == TargetsFor(list, offset / chunkSize, w)
    requires readsOld == ReadsFirst(list, chunkSize, offset, length)
    ensures Commits(list, chunkSize, offset, length, w) <==> w.replicates && Prepares(targets, readsOld, w)
  {
  }

  lemma TargetsKnown(list: seq<ChunkRef>, nodes: map<NodeId, Chunks>, chunks: seq<Bytes>, index: nat, w: Weather)
    requires Stored(list, nodes, chunks) && (forall v :: v in w.placed ==> v in nodes)
    ensures forall v :: v in TargetsFor(list, index, w) ==> v in nodes
    ensures index < |list| ==> ServedBy(nodes, list[index], chunks[index]) && list[index].targets != []
  {
    if index < |list| {
      assert ServedBy(nodes, list[index], chunks[index]);
      forall v | v in list[index].targets ensures v in nodes {
        assert Serves(nodes, v, list[index].id, chunks[index]);
      }
    }
  }

  lemma EventStored(list: seq<ChunkRef>, nodes: map<NodeId, Chunks>, chunks: seq<Bytes>, committed: set<TxnId>,
                    used: nat, v: NodeId, e: Event)
    requires Stored(list, nodes, chunks) && Settled(list, nodes, committed, used) && v in nodes
    ensures var nodes' := nodes[v := AfterEvent(nodes[v], e, committed)];
            Stored(list, nodes', chunks) && Settled(list, nodes', committed, used)
  {
    EventKeeps(nodes[v], e, committed, used);
    StoredStays(list, nodes, nodes[v := AfterEvent(nodes[v], e, committed)], chunks);
  }

  /** What prepare and commit of one transaction have done to one node. */
  lemma NodeOutcome(before: map<NodeId, Chunks>, prepared: map<NodeId, Chunks>, after: map<NodeId, Chunks>, v: NodeId,
                    ref: ChunkRef, txn: TxnId, payload: Bytes, committed: set<TxnId>, used: nat)
    requires v in before && v in prepared && v in after && LeftOver(before[v], committed, used) && used <= |txn|
    requires Touched(before[v], prepared[v], txn, ref.id)
    requires if v in ref.targets then CommittedAt(prepared, after, v, txn, ref.id, payload)
             else prepared[v] == before[v] && after[v] == prepared[v]
    ensures Touched(before[v], after[v], txn, ref.id) && Cleared(after[v], txn, ref.id)
  {
  }

  /** After prepare and commit at every target, each serves the payload, and no node has more than it had before. */
  lemma CommitOutcome(list: seq<ChunkRef>, before: map<NodeId, Chunks>, prepared: map<NodeId, Chunks>,
                      after: map<NodeId, Chunks>,
                      ref: ChunkRef, txn: TxnId, payload: Bytes, committed: set<TxnId>, used: nat)
    requires Settled(list, before, committed, used) && used <= |txn| && ref.targets != []
    requires FinalsSame(before, prepared) && TouchedAll(before, prepared, txn, ref.id) && after.Keys == prepared.Keys
    requires forall v :: v in prepared && v !in ref.targets ==> prepared[v] == before[v] && after[v] == prepared[v]
    requires forall v :: v in ref.targets ==> CommittedAt(prepared, after, v, txn, ref.id, payload)
    ensures FinalsKept(before, after, ref.id) && ServedBy(after, ref, payload) && TouchedAll(before, after, txn, ref.id)
    ensures forall v :: v in after ==> Cleared(after[v], txn, ref.id)
  {
    forall v | v in after ensures Touched(before[v], after[v], txn, ref.id) && Cleared(after[v], txn, ref.id) {
      NodeOutcome(before, prepared, after, v, ref, txn, payload, committed, used);
    }
    FinalsOutcome(before, prepared, after, ref, txn, payload);
  }

  lemma FinalsOutcome(before: map<NodeId, Chunks>, prepared: map<NodeId, Chunks>, after: map<NodeId, Chunks>,
                      ref: ChunkRef, txn: TxnId, payload: Bytes)
    requires FinalsSame(before, prepared) && after.Keys == prepared.Keys && ref.targets != []
    requires forall v :: v in prepared && v !in ref.targets ==> prepared[v] == before[v] && after[v] == prepared[v]
    requires forall v :: v in ref.targets ==> CommittedAt(prepared, after, v, txn, ref.id, payload)
    ensures FinalsKept(before, after, ref.id) && ServedBy(after, ref, payload)
  {
    forall v | v in ref.targets ensures Serves(after, v, ref.id, payload) {
      assert CommittedAt(prepared, after, v, txn, ref.id, payload);
    }
    forall v, c | v in before && c in before[v].finals && c != ref.id
      ensures v in after && c in after[v].finals && after[v].finals[c] == before[v].finals[c]
    {
      assert v in ref.targets ==> CommittedAt(prepared, after, v, txn, ref.id, payload);
    }
  }

  lemma CommitStored(list: seq<ChunkRef>, before: map<NodeId, Chunks>, after: map<NodeId, Chunks>, chunks: seq<Bytes>,
                     ref: ChunkRef, isNew: bool, index: nat, txn: TxnId, payload: Bytes,
                     committed: set<TxnId>, used: nat, list': seq<ChunkRef>, chunks': seq<Bytes>, used': nat)
    requires Stored(list, before, chunks) && Settled(list, before, committed, used) && |txn| == used + 1
    requires used' == used + 2
    requires if isNew then |ref.id| == used else index < |list| && list[index] == ref
    requires list' == if isNew then list + [ref] else list
    requires chunks' == if isNew then chunks + [payload] else chunks[index := payload]
    requires FinalsKept(before, after, ref.id) && ServedBy(after, ref, payload)
    requires TouchedAll(before, after, txn, ref.id)
    requires forall v :: v in after ==> Cleared(after[v], txn, ref.id)
    ensures Stored(list', after, chunks') && Settled(list', after, committed + {txn}, used')
  {
    SettledWith(list, before, after, committed, used, used', txn, ref.id);
    if isNew {
      StoredAppend(list, before, after, chunks, ref, payload);
    } else {
      StoredOverwrite(list, before, after, chunks, index, payload);
    }
  }

  lemma WriteOutcome(list: seq<ChunkRef>, before: map<NodeId, Chunks>, prepared: map<NodeId, Chunks>,
                     after: map<NodeId, Chunks>, chunks: seq<Bytes>, ref: ChunkRef, isNew: bool, index: nat,
                     txn: TxnId, payload: Bytes,
                     committed: set<TxnId>, used: nat, list': seq<ChunkRef>, chunks': seq<Bytes>, used': nat)
    requires Stored(list, before, chunks) && Settled(list, before, committed, used) && |txn| == used + 1
    requires used' == used + 2
    requires if isNew then |ref.id| == used else index < |list| && list[index] == ref
    requires FinalsSame(before, prepared) && TouchedAll(before, prepared, txn, ref.id) && ref.targets != []
    requires after.Keys == prepared.Keys
    requires forall v :: v in prepared && v !in ref.targets ==> prepared[v] == before[v] && after[v] == prepared[v]
    requires forall v :: v in ref.targets ==> CommittedAt(prepared, after, v, txn, ref.id, payload)
    requires list' == if isNew then list + [ref] else list
    requires chunks' == if isNew then chunks + [payload] else chunks[index := payload]
    ensures Stored(list', after, chunks') && Settled(list', after, committed + {txn}, used')
  {
    CommitOutcome(list, before, prepared, after, ref, txn, payload, committed, used);
    CommitStored(list, before, after, chunks, ref, isNew, index, txn, payload, committed, used, list', chunks', used');
  }

  ghost predicate PreparedFor(nodes: map<NodeId, Chunks>, v: NodeId, txn: TxnId, id: ChunkId, payload: Bytes) {
    && v in nodes && id in nodes[v].index && nodes[v].index[id] == txn
    && Temp(id, txn) in nodes[v].temps && nodes[v].temps[Temp(id, txn)] == payload
  }

  function PreparedOrTorn(n: Chunks, v: NodeId, txn: TxnId, id: ChunkId, payload: Bytes,
                          torn: map<NodeId, Bytes>): Chunks
  {
    if v in torn then PrepareTorn(n, txn, id, torn[v]) else Prepare(n, txn, id, payload)
  }

  /** The first i targets have been asked. */
  ghost predicate PreparedUpTo(nodes: map<NodeId, Chunks>, nodes': map<NodeId, Chunks>, ref: ChunkRef, i: nat,
                               txn: TxnId, payload: Bytes, torn: map<NodeId, Bytes>)
    requires i <= |ref.targets|
  {
    && FinalsSame(nodes, nodes') && TouchedAll(nodes, nodes', txn, ref.id)
    && (forall v :: v in nodes && v !in ref.targets ==> nodes'[v] == nodes[v])
    && (forall j :: 0 <= j < i && ref.targets[j] !in torn ==> PreparedFor(nodes', ref.targets[j], txn, ref.id, payload))
  }

  lemma PrepareStep(nodes: map<NodeId, Chunks>, nodes': map<NodeId, Chunks>, ref: ChunkRef, i: nat, txn: TxnId,
                    payload: Bytes, torn: map<NodeId, Bytes>)
    requires i < |ref.targets| && ref.targets[i] in nodes' && PreparedUpTo(nodes, nodes', ref, i, txn, payload, torn)
    ensures var v := ref.targets[i];
            var n := PreparedOrTorn(nodes'[v], v, txn, ref.id, payload, torn);
            PreparedUpTo(nodes, nodes'[v := n], ref, i + 1, txn, payload, torn)
  {
    var v := ref.targets[i];
    var n := PreparedOrTorn(nodes'[v], v, txn, ref.id, payload, torn);
    TouchOne(nodes, nodes', v, n, txn, ref.id);
    forall j | 0 <= j < i + 1 && ref.targets[j] !in torn
      ensures PreparedFor(nodes'[v := n], ref.targets[j], txn, ref.id, payload)
    {
      assert j < i ==> PreparedFor(nodes', ref.targets[j], txn, ref.id, payload);
    }
  }

  /** The commit made the payload the final file and left nothing prepared for the chunk. */
  ghost predicate CommittedAt(nodes: map<NodeId, Chunks>, nodes': map<NodeId, Chunks>, v: NodeId, txn: TxnId,
                              id: ChunkId, payload: Bytes)
  {
    && v in nodes && v in nodes' && var (n, n') := (nodes[v], nodes'[v]);
    && n'.finals == n.finals[id := payload] && n'.index == n.index - {id} && n'.temps == n.temps - {Temp(id, txn)}
  }
}
