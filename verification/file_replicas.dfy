/**
 * A file as the cluster stores it: an inode with a chunk list, and the chunk files of the nodes.
 * The chunks of the file are the final files, equal at all targets of a chunk.
 */
module FileReplicas {
  import opened Basics
  import opened FileBytes
  import opened ChunkStore

  /** A chunk descriptor of the inode. */
  datatype ChunkRef = ChunkRef(id: ChunkId, targets: seq<NodeId>)

  /** Node v has these bytes as the final file of the chunk. */
  ghost predicate Serves(nodes: map<NodeId, Chunks>, v: NodeId, id: ChunkId, data: Bytes) {
    v in nodes && id in nodes[v].finals && nodes[v].finals[id] == data
  }

  ghost predicate ServedBy(nodes: map<NodeId, Chunks>, ref: ChunkRef, data: Bytes) {
    ref.targets != [] && forall v :: v in ref.targets ==> Serves(nodes, v, ref.id, data)
  }

  /** Every target of every chunk serves the contents of that chunk. */
  ghost predicate Stored(list: seq<ChunkRef>, nodes: map<NodeId, Chunks>, chunks: seq<Bytes>) {
    && |chunks| == |list|
    && (forall i :: 0 <= i < |list| ==> ServedBy(nodes, list[i], chunks[i]))
    && (forall i, j :: 0 <= i < j < |list| ==> list[i].id != list[j].id)
  }

  /** Stored contents are determined by the files. */
  lemma StoredOnce(list: seq<ChunkRef>, nodes: map<NodeId, Chunks>, a: seq<Bytes>, b: seq<Bytes>)
    requires Stored(list, nodes, a) && Stored(list, nodes, b)
    ensures a == b
  {
    forall i | 0 <= i < |list| ensures a[i] == b[i] {
      var v := list[i].targets[0];
      assert ServedBy(nodes, list[i], a[i]) && ServedBy(nodes, list[i], b[i]);
      assert Serves(nodes, v, list[i].id, a[i]) && Serves(nodes, v, list[i].id, b[i]);
    }
  }

  /** No node has lost or changed a final file, except of chunk `id`. */
  ghost predicate FinalsKept(nodes: map<NodeId, Chunks>, nodes': map<NodeId, Chunks>, id: ChunkId) {
    forall v, c :: v in nodes && c in nodes[v].finals && c != id ==>
      v in nodes' && c in nodes'[v].finals && nodes'[v].finals[c] == nodes[v].finals[c]
  }

  lemma ServedStays(nodes: map<NodeId, Chunks>, nodes': map<NodeId, Chunks>, ref: ChunkRef, data: Bytes, id: ChunkId)
    requires ServedBy(nodes, ref, data) && FinalsKept(nodes, nodes', id) && ref.id != id
    ensures ServedBy(nodes', ref, data)
  {
    forall v | v in ref.targets ensures Serves(nodes', v, ref.id, data) {
      assert Serves(nodes, v, ref.id, data);
    }
  }

  /** A chunk whose targets all got a new final file. */
  lemma StoredOverwrite(list: seq<ChunkRef>, nodes: map<NodeId, Chunks>, nodes': map<NodeId, Chunks>,
                        chunks: seq<Bytes>, k: nat, data: Bytes)
    requires Stored(list, nodes, chunks) && k < |list| && FinalsKept(nodes, nodes', list[k].id)
    requires ServedBy(nodes', list[k], data)
    ensures Stored(list, nodes', chunks[k := data])
  {
    forall i | 0 <= i < |list| ensures ServedBy(nodes', list[i], chunks[k := data][i]) {
      if i != k {
        ServedStays(nodes, nodes', list[i], chunks[i], list[k].id);
      }
    }
  }

  lemma StoredAppend(list: seq<ChunkRef>, nodes: map<NodeId, Chunks>, nodes': map<NodeId, Chunks>, chunks: seq<Bytes>,
                     ref: ChunkRef, data: Bytes)
    requires Stored(list, nodes, chunks) && FinalsKept(nodes, nodes', ref.id) && ServedBy(nodes', ref, data)
    requires forall i :: 0 <= i < |list| ==> list[i].id != ref.id
    ensures Stored(list + [ref], nodes', chunks + [data])
  {
    forall i | 0 <= i < |list| + 1 ensures ServedBy(nodes', (list + [ref])[i], (chunks + [data])[i]) {
      if i < |list| {
        ServedStays(nodes, nodes', list[i], chunks[i], ref.id);
      }
    }
  }

  /** Nothing but temporary files and index entries changed. */
  ghost predicate FinalsSame(nodes: map<NodeId, Chunks>, nodes': map<NodeId, Chunks>) {
    nodes'.Keys == nodes.Keys && forall v :: v in nodes ==> nodes'[v].finals == nodes[v].finals
  }

  lemma StoredStays(list: seq<ChunkRef>, nodes: map<NodeId, Chunks>, nodes': map<NodeId, Chunks>, chunks: seq<Bytes>)
    requires Stored(list, nodes, chunks) && FinalsSame(nodes, nodes')
    ensures Stored(list, nodes', chunks)
  {
    forall i | 0 <= i < |list| ensures ServedBy(nodes', list[i], chunks[i]) {
      forall v | v in list[i].targets ensures Serves(nodes', v, list[i].id, chunks[i]) {
        assert Serves(nodes, v, list[i].id, chunks[i]);
      }
    }
  }

  /* ---------- Identifiers and what is left over ---------- */

  /** Identifiers are random in the program; here the n-th one is a string of length n. */
  function NewId(n: nat): (id: string)
    ensures |id| == n
  {
    seq(n, _ => 'u')
  }

  /** Whatever node n has prepared belongs to transactions that did not commit, and was named earlier. */
  ghost predicate LeftOver(n: Chunks, committed: set<TxnId>, used: nat) {
    && (forall f :: f in n.temps ==> f.txn !in committed && |f.txn| < used)
    && (forall c :: c in n.index ==> n.index[c] !in committed && |n.index[c]| < used)
  }

  ghost predicate Settled(list: seq<ChunkRef>, nodes: map<NodeId, Chunks>, committed: set<TxnId>, used: nat) {
    && (forall v :: v in nodes ==> LeftOver(nodes[v], committed, used))
    && (forall t :: t in committed ==> |t| < used)
    && (forall i :: 0 <= i < |list| ==> |list[i].id| < used)
  }

  /** Beyond what it had, the node has at most the file and the entry of one transaction. */
  ghost predicate Touched(n: Chunks, n': Chunks, txn: TxnId, id: ChunkId) {
    && (forall f :: f in n'.temps ==> f in n.temps || f == Temp(id, txn))
    && (forall c :: c in n'.index ==> (c in n.index && n'.index[c] == n.index[c]) || (c == id && n'.index[c] == txn))
  }

  ghost predicate Cleared(n: Chunks, txn: TxnId, id: ChunkId) {
    Temp(id, txn) !in n.temps && (id in n.index ==> n.index[id] != txn)
  }

  /** Only nodes of a list were touched, by one transaction. */
  ghost predicate TouchedAll(nodes: map<NodeId, Chunks>, nodes': map<NodeId, Chunks>, txn: TxnId, id: ChunkId) {
    nodes'.Keys == nodes.Keys && forall v :: v in nodes ==> Touched(nodes[v], nodes'[v], txn, id)
  }

  lemma TouchOne(nodes: map<NodeId, Chunks>, nodes': map<NodeId, Chunks>, v: NodeId, n: Chunks, txn: TxnId, id: ChunkId)
    requires TouchedAll(nodes, nodes', txn, id) && FinalsSame(nodes, nodes') && v in nodes'
    requires Touched(nodes'[v], n, txn, id) && n.finals == nodes'[v].finals
    ensures TouchedAll(nodes, nodes'[v := n], txn, id) && FinalsSame(nodes, nodes'[v := n])
  {
  }

  lemma TouchedOn(a: map<NodeId, Chunks>, b: map<NodeId, Chunks>, c: map<NodeId, Chunks>, txn: TxnId, id: ChunkId)
    requires TouchedAll(a, b, txn, id) && TouchedAll(b, c, txn, id) && FinalsSame(a, b) && FinalsSame(b, c)
    ensures TouchedAll(a, c, txn, id) && FinalsSame(a, c)
  {
    forall v | v in a ensures Touched(a[v], c[v], txn, id) {
      assert Touched(a[v], b[v], txn, id) && Touched(b[v], c[v], txn, id);
    }
  }

  /** A transaction that did not commit leaves at most its own files behind. */
  lemma SettledWithout(list: seq<ChunkRef>, nodes: map<NodeId, Chunks>, nodes': map<NodeId, Chunks>,
                       committed: set<TxnId>, used: nat, used': nat, txn: TxnId, id: ChunkId)
    requires Settled(list, nodes, committed, used) && TouchedAll(nodes, nodes', txn, id)
    requires used <= |txn| < used'
    ensures Settled(list, nodes', committed, used')
  {
    forall v | v in nodes' ensures LeftOver(nodes'[v], committed, used') {
      assert LeftOver(nodes[v], committed, used) && Touched(nodes[v], nodes'[v], txn, id);
    }
  }

  /** One that committed leaves nothing behind once every node has cleared it. */
  lemma SettledWith(list: seq<ChunkRef>, nodes: map<NodeId, Chunks>, nodes': map<NodeId, Chunks>, committed: set<TxnId>,
                    used: nat, used': nat, txn: TxnId, id: ChunkId)
    requires Settled(list, nodes, committed, used) && TouchedAll(nodes, nodes', txn, id)
    requires used <= |txn| < used' && (forall v :: v in nodes' ==> Cleared(nodes'[v], txn, id))
    ensures Settled(list, nodes', committed + {txn}, used')
  {
    forall v | v in nodes' ensures LeftOver(nodes'[v], committed + {txn}, used') {
      assert LeftOver(nodes[v], committed, used);
      assert Touched(nodes[v], nodes'[v], txn, id) && Cleared(nodes'[v], txn, id);
    }
  }

  /** Something that happens at a node between two requests. */
  datatype Event =
    | LateAbort(node: NodeId, txn: TxnId, chunk: ChunkId)
    | RepeatedCommit(node: NodeId, txn: TxnId, chunk: ChunkId)
    | RestartOf(node: NodeId, listing: seq<Temp>)

  /** Late aborts, repeated commits of committed transactions, and restarts; no other notification is ever sent. */
  function AfterEvent(n: Chunks, e: Event, committed: set<TxnId>): Chunks {
    match e
    case LateAbort(_, txn, chunk) => if txn in committed then n else Abort(n, txn, chunk).0
    case RepeatedCommit(_, txn, chunk) => if txn in committed then Commit(n, txn, chunk).0 else n
    case RestartOf(_, listing) => if forall f :: f in listing ==> f in n.temps then Restarted(n, listing) else n
  }

  lemma EventKeeps(n: Chunks, e: Event, committed: set<TxnId>, used: nat)
    requires LeftOver(n, committed, used)
    ensures AfterEvent(n, e, committed).finals == n.finals && LeftOver(AfterEvent(n, e, committed), committed, used)
  {
    if e.RestartOf? {
      var n' := AfterEvent(n, e, committed);
      forall c | c in n'.index ensures n'.index[c] !in committed && |n'.index[c]| < used {
        ReindexFinds(map[], e.listing, c);
      }
    }
  }
}
