/**
 * Two-phase chunk writes over many nodes. A write prepares its payload at every target, commits
 * by replicating an intent, and then sends commit notifications that may be lost, duplicated or
 * reordered; a write that fails sends abort notifications instead.
 *
 * A node works on many calls at once. Preparing writes the file and then indexes it. Commit,
 * abort and read copy the index entry in one step and act on their copy in a later one; commit
 * and abort hold the finalize lock in between, reads take it for the second step only, and
 * preparing never takes it. Prepared files do not expire.
 */
module ChunkProtocol {
  import opened Basics
  import opened FileBytes
  import opened ChunkStore

  datatype Txn = Txn(chunk: ChunkId, targets: set<NodeId>, data: Bytes)

  /** Where the coordinator of a transaction stands. */
  datatype Phase = Preparing | Succeeded | Errored | GivenUp

  datatype At = At(txn: TxnId, node: NodeId)
  datatype Place = Place(node: NodeId, chunk: ChunkId)
  datatype Note = CommitNote(node: NodeId, txn: TxnId) | AbortNote(node: NodeId, txn: TxnId)

  datatype Kind = Committing | Aborting | Reading

  /** A call in progress: a read that found no final file, or a call with a copy of the index entry. */
  datatype Call =
    | Missed(node: NodeId, chunk: ChunkId)
    | Taken(kind: Kind, node: NodeId, chunk: ChunkId, txn: TxnId)

  /**
   * The nodes with their calls, the transactions, the notifications, and what has happened: which
   * prepares were tried, are written but not indexed yet, were torn, or were answered; which
   * transactions are committed; which were made final or dropped where; whose bytes each final
   * file has; and which transaction a node was last asked to prepare for a chunk, undisturbed.
   */
  datatype Sys = Sys(
    nodes: map<NodeId, Chunks>,
    calls: map<nat, Call>,
    txns: map<TxnId, Txn>,
    phase: map<TxnId, Phase>,
    net: set<Note>,
    tried: set<At>,
    written: set<At>,
    torn: set<At>,
    ready: set<At>,
    committed: set<TxnId>,
    finalised: set<At>,
    dropped: set<At>,
    shown: map<Place, TxnId>,
    latest: map<Place, TxnId>)

  datatype Step =
    | Begin(id: TxnId, txn: Txn)
    | WriteAt(id: TxnId, node: NodeId)
    | TearAt(id: TxnId, node: NodeId, torn: Bytes)
    | IndexAt(id: TxnId, node: NodeId, replied: bool)
    | ReplicateOk(id: TxnId)
    | ReplicateError(id: TxnId)
    | LateCommit(id: TxnId)
    | GiveUp(id: TxnId)
    | TakeCommit(call: nat, id: TxnId, node: NodeId)
    | TakeAbort(call: nat, id: TxnId, node: NodeId)
    | MissFinal(call: nat, node: NodeId, chunk: ChunkId)
    | TakeRead(call: nat)
    | EndRead(call: nat)
    | Finish(call: nat)
    | DeleteAt(node: NodeId, chunk: ChunkId)
    | RestartAt(node: NodeId, listing: seq<Temp>)

  ghost predicate AllReady(s: Sys, id: TxnId) {
    id in s.txns && (forall v :: v in s.txns[id].targets ==> At(id, v) in s.ready)
  }

  /** No commit or abort is between its look-up and its end at node v. */
  ghost predicate LockFree(s: Sys, v: NodeId) {
    forall k :: k in s.calls && s.calls[k].node == v ==> s.calls[k].Missed? || s.calls[k].kind.Reading?
  }

  ghost predicate CanFinish(s: Sys, call: Call) {
    && call.Taken? && call.node in s.nodes
    && (call.kind.Reading? && call.txn in s.committed ==> LockFree(s, call.node))
  }

  ghost predicate Preparable(s: Sys, id: TxnId, v: NodeId) {
    id in s.txns && v in s.txns[id].targets && v in s.nodes && At(id, v) !in s.tried
  }

  ghost predicate Deciding(s: Sys, id: TxnId) {
    id in s.txns && id in s.phase && s.phase[id].Preparing?
  }

  ghost predicate Enabled(s: Sys, a: Step) {
    match a
    case Begin(id, txn) => id !in s.txns && txn.targets <= s.nodes.Keys
    case WriteAt(id, v) => Preparable(s, id, v)
    case TearAt(id, v, _) => Preparable(s, id, v)
    case IndexAt(id, v, _) => At(id, v) in s.written && id in s.txns && v in s.nodes
    case ReplicateOk(id) => Deciding(s, id) && AllReady(s, id)
    case ReplicateError(id) => Deciding(s, id) && AllReady(s, id)
    case LateCommit(id) => id in s.phase && s.phase[id].Errored?
    case GiveUp(id) => Deciding(s, id)
    case TakeCommit(k, id, v) =>
      CommitNote(v, id) in s.net && id in s.txns && v in s.nodes && k !in s.calls && LockFree(s, v)
    case TakeAbort(k, id, v) =>
      AbortNote(v, id) in s.net && id in s.txns && v in s.nodes && k !in s.calls && LockFree(s, v)
    case MissFinal(k, v, c) => v in s.nodes && k !in s.calls && c !in s.nodes[v].finals
    case TakeRead(k) => k in s.calls && s.calls[k].Missed? && s.calls[k].node in s.nodes
    case EndRead(k) => k in s.calls && (s.calls[k].Missed? || s.calls[k].kind.Reading?)
    case Finish(k) => k in s.calls && CanFinish(s, s.calls[k])
    case DeleteAt(v, _) => v in s.nodes
    case RestartAt(v, listing) => v in s.nodes && Lists(listing, s.nodes[v])
  }

  /* ---------- What the end of a call does ---------- */

  /** What the metadata say of a transaction; no intent is ever recorded as aborted. */
  ghost function IntentOf(committed: set<TxnId>, txn: TxnId): Intent {
    if txn in committed then Committed else Unknown
  }

  /** The call makes the file of its transaction final, which a read only does for a committed one. */
  ghost predicate Renames(n: Chunks, call: Call, committed: set<TxnId>) {
    && call.Taken? && Temp(call.chunk, call.txn) in n.temps
    && (call.kind.Committing? || (call.kind.Reading? && call.txn in committed && call.chunk !in n.finals))
  }

  /** The call deletes the index entry of its chunk, whosever entry it is by then. */
  ghost predicate Removes(n: Chunks, call: Call, committed: set<TxnId>) {
    || Renames(n, call, committed)
    || (call.Taken? && call.kind.Aborting?)
    || (call.Taken? && call.kind.Reading? && call.txn in committed && call.chunk in n.finals)
  }

  /**
   * The call deletes the entry of a transaction it does not make final: another one than it found,
   * or the same one behind a final file that has appeared meanwhile. Or it replaces a final file
   * when nothing is indexed.
   */
  ghost predicate Overtakes(n: Chunks, call: Call, committed: set<TxnId>) {
    if call.chunk in n.index
    then
      && Removes(n, call, committed)
      && (n.index[call.chunk] != call.txn || (call.kind.Reading? && call.chunk in n.finals))
    else Renames(n, call, committed)
  }

  ghost function Finished(n: Chunks, call: Call, committed: set<TxnId>): Chunks
    requires call.Taken?
  {
    match call.kind
    case Committing => Finalize(n, call.txn, call.chunk)
    case Aborting => Drop(n, call.txn, call.chunk)
    case Reading => FinishRead(n, call.txn, call.chunk, IntentOf(committed, call.txn), false).0
  }

  ghost function AfterFinish(s: Sys, k: nat): Sys
    requires k in s.calls && CanFinish(s, s.calls[k])
  {
    var call := s.calls[k];
    var (n, p, x) := (s.nodes[call.node], Place(call.node, call.chunk), At(call.txn, call.node));
    s.(nodes := s.nodes[call.node := Finished(n, call, s.committed)], calls := s.calls - {k},
       shown := if Renames(n, call, s.committed) then s.shown[p := call.txn] else s.shown,
       finalised := if Renames(n, call, s.committed) then s.finalised + {x} else s.finalised,
       dropped := if call.kind.Aborting? then s.dropped + {x} else s.dropped,
       latest := if Overtakes(n, call, s.committed) then s.latest - {p} else s.latest)
  }

  /* ---------- The steps ---------- */

  ghost function Notes(s: Sys, id: TxnId, commit: bool): set<Note>
    requires id in s.txns
  {
    set v | v in s.txns[id].targets :: if commit then CommitNote(v, id) else AbortNote(v, id)
  }

  /** A commit or abort goes on only if it finds its own transaction in the index. */
  ghost function AfterTake(s: Sys, k: nat, kind: Kind, id: TxnId, v: NodeId): Sys
    requires id in s.txns && v in s.nodes
  {
    var c := s.txns[id].chunk;
    if c in s.nodes[v].index && s.nodes[v].index[c] == id then s.(calls := s.calls[k := Taken(kind, v, c, id)]) else s
  }

  ghost function AfterTakeRead(s: Sys, k: nat): Sys
    requires k in s.calls && s.calls[k].node in s.nodes
  {
    var (v, c) := (s.calls[k].node, s.calls[k].chunk);
    if c in s.nodes[v].index then s.(calls := s.calls[k := Taken(Reading, v, c, s.nodes[v].index[c])])
    else s.(calls := s.calls - {k})
  }

  ghost function AfterIndex(s: Sys, id: TxnId, v: NodeId, replied: bool): Sys
    requires id in s.txns && v in s.nodes
  {
    var c := s.txns[id].chunk;
    s.(nodes := s.nodes[v := s.nodes[v].(index := s.nodes[v].index[c := id])], written := s.written - {At(id, v)},
       ready := if replied then s.ready + {At(id, v)} else s.ready, latest := s.latest[Place(v, c) := id])
  }

  /** A restarted process has no calls, and no prepare of the old one gets to the index. */
  ghost function AfterRestart(s: Sys, v: NodeId, listing: seq<Temp>): Sys
    requires v in s.nodes
  {
    s.(nodes := s.nodes[v := Restarted(s.nodes[v], listing)],
       calls := map k | k in s.calls && s.calls[k].node != v :: s.calls[k],
       written := (set x | x in s.written && x.node != v),
       latest := map p | p in s.latest && (p.node == v ==> NoOrphan(s.nodes[v], p.chunk)) :: s.latest[p])
  }

  ghost function Next(s: Sys, a: Step): Sys
    requires Enabled(s, a)
  {
    match a
    case Begin(id, txn) => s.(txns := s.txns[id := txn], phase := s.phase[id := Preparing])
    case WriteAt(id, v) =>
      s.(nodes := s.nodes[v := PrepareTorn(s.nodes[v], id, s.txns[id].chunk, s.txns[id].data)],
         tried := s.tried + {At(id, v)}, written := s.written + {At(id, v)})
    case TearAt(id, v, torn) =>
      s.(nodes := s.nodes[v := PrepareTorn(s.nodes[v], id, s.txns[id].chunk, torn)],
         tried := s.tried + {At(id, v)}, torn := s.torn + {At(id, v)})
    case IndexAt(id, v, replied) => AfterIndex(s, id, v, replied)
    case ReplicateOk(id) =>
      s.(phase := s.phase[id := Succeeded], committed := s.committed + {id}, net := s.net + Notes(s, id, true))
    case ReplicateError(id) => s.(phase := s.phase[id := Errored], net := s.net + Notes(s, id, false))
    case LateCommit(id) => s.(committed := s.committed + {id})
    case GiveUp(id) => s.(phase := s.phase[id := GivenUp], net := s.net + Notes(s, id, false))
    case TakeCommit(k, id, v) => AfterTake(s, k, Committing, id, v)
    case TakeAbort(k, id, v) => AfterTake(s, k, Aborting, id, v)
    case MissFinal(k, v, c) => s.(calls := s.calls[k := Missed(v, c)])
    case TakeRead(k) => AfterTakeRead(s, k)
    case EndRead(k) => s.(calls := s.calls - {k})
    case Finish(k) => AfterFinish(s, k)
    case DeleteAt(v, c) =>
      s.(nodes := s.nodes[v := Delete(s.nodes[v], c)], shown := s.shown - {Place(v, c)},
         latest := s.latest - {Place(v, c)})
    case RestartAt(v, listing) => AfterRestart(s, v, listing)
  }

  /* ---------- Invariants ---------- */

  /** The transaction's file is the indexed one, or the final one with nothing prepared over it. */
  ghost predicate Held(s: Sys, p: Place, t: TxnId) {
    && p.node in s.nodes
    && if p.chunk in s.nodes[p.node].index then s.nodes[p.node].index[p.chunk] == t
       else p in s.shown && s.shown[p] == t
  }

  ghost predicate Alive(s: Sys, t: TxnId) {
    t in s.phase && (s.phase[t].Preparing? || s.phase[t].Succeeded?)
  }

  ghost predicate TxnOk(s: Sys, t: TxnId) {
    && t in s.txns && t in s.phase
    && (t in s.committed ==> s.phase[t].Succeeded? || s.phase[t].Errored?)
    && (s.phase[t].Errored? || s.phase[t].Succeeded? ==> AllReady(s, t))
    && (s.phase[t].Succeeded? ==> t in s.committed)
  }

  ghost predicate TxnsOk(s: Sys) {
    s.txns.Keys == s.phase.Keys && s.committed <= s.txns.Keys && (forall t :: t in s.phase ==> TxnOk(s, t))
  }

  ghost predicate TriedOk(s: Sys) {
    && s.ready <= s.tried && s.written <= s.tried && s.torn <= s.tried && s.finalised <= s.tried
    && s.written !! s.torn && s.ready !! s.torn && s.written !! s.ready
    && (forall x :: x in s.tried ==> x.txn in s.txns && x.node in s.txns[x.txn].targets && x.node in s.nodes)
  }

  ghost predicate NoteOk(s: Sys, m: Note) {
    && m.txn in s.txns && m.txn in s.phase
    && (if m.CommitNote? then m.txn in s.committed else !Alive(s, m.txn))
  }

  ghost predicate NotesOk(s: Sys) {
    forall m :: m in s.net ==> NoteOk(s, m)
  }

  ghost predicate TempOk(s: Sys, v: NodeId, f: Temp, data: Bytes) {
    && f.txn in s.txns && f.chunk == s.txns[f.txn].chunk && At(f.txn, v) in s.tried && At(f.txn, v) !in s.finalised
    && (data == s.txns[f.txn].data || At(f.txn, v) in s.torn)
  }

  /** A final file has the bytes of a committed transaction of the chunk. */
  ghost predicate FinalOk(s: Sys, v: NodeId, c: ChunkId, data: Bytes) {
    && Place(v, c) in s.shown
    && var t := s.shown[Place(v, c)];
       t in s.committed && t in s.txns && s.txns[t].chunk == c && s.txns[t].data == data && At(t, v) in s.finalised
  }

  ghost predicate NodeOk(s: Sys, v: NodeId, n: Chunks) {
    && (forall f :: f in n.temps ==> TempOk(s, v, f, n.temps[f]))
    && (forall c :: c in n.index ==> Temp(c, n.index[c]) in n.temps && At(n.index[c], v) !in s.written)
    && (forall c :: c in n.finals ==> FinalOk(s, v, c, n.finals[c]))
    && (forall c :: Place(v, c) in s.shown ==> c in n.finals)
  }

  ghost predicate NodesOk(s: Sys) {
    forall v :: v in s.nodes ==> NodeOk(s, v, s.nodes[v])
  }

  /** The file of x is there, whole. */
  ghost predicate OnDisk(s: Sys, x: At) {
    && x.node in s.nodes && x.txn in s.txns
    && var f := Temp(s.txns[x.txn].chunk, x.txn);
       f in s.nodes[x.node].temps && s.nodes[x.node].temps[f] == s.txns[x.txn].data
  }

  ghost predicate WrittenOk(s: Sys) {
    forall x :: x in s.written ==> OnDisk(s, x)
  }

  /** An answered prepare is on disk until it is made final or dropped by its own abort. */
  ghost predicate ReadyOk(s: Sys) {
    && (forall x :: x in s.ready ==> OnDisk(s, x) || x in s.finalised || x in s.dropped)
    && (forall x :: x in s.dropped ==> x.txn in s.phase && !Alive(s, x.txn))
    && (forall x :: x in s.finalised ==> x.txn in s.committed)
  }

  ghost predicate CallOk(s: Sys, call: Call) {
    call.Taken? ==>
      && call.txn in s.txns && s.txns[call.txn].chunk == call.chunk && At(call.txn, call.node) in s.tried
      && At(call.txn, call.node) !in s.written
      && (call.kind.Committing? ==> call.txn in s.committed)
      && (call.kind.Aborting? ==> call.txn in s.phase && !Alive(s, call.txn))
  }

  ghost predicate CallsOk(s: Sys) {
    forall k :: k in s.calls ==> CallOk(s, s.calls[k])
  }

  ghost predicate LatestOk(s: Sys, p: Place, t: TxnId) {
    && p.node in s.nodes && t in s.txns && t in s.phase && s.txns[t].chunk == p.chunk
    && At(t, p.node) in s.tried && At(t, p.node) !in s.torn
    && (Alive(s, t) ==> Held(s, p, t))
  }

  ghost predicate LatestsOk(s: Sys) {
    forall p :: p in s.latest ==> LatestOk(s, p, s.latest[p])
  }

  ghost predicate Inv(s: Sys) {
    TxnsOk(s) && TriedOk(s) && NotesOk(s) && NodesOk(s) && WrittenOk(s) && ReadyOk(s) && CallsOk(s) && LatestsOk(s)
  }

  ghost predicate Init(s: Sys) {
    && s == Sys(s.nodes, map[], map[], map[], {}, {}, {}, {}, {}, {}, {}, {}, map[], map[])
    && (forall v :: v in s.nodes ==> s.nodes[v] == Chunks(map[], map[], map[]))
  }

  lemma InitKeeps(s: Sys)
    requires Init(s)
    ensures Inv(s)
  {
  }
}
