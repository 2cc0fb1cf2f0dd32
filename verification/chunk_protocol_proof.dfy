/** Every step of the chunk protocol keeps its invariants. */
module ChunkProtocolProof {
  import opened Basics
  import opened FileBytes
  import opened ChunkStore
  import opened ChunkProtocol

  /* ---------- Deciding ---------- */

  ghost predicate Decides(a: Step) {
    a.Begin? || a.ReplicateOk? || a.ReplicateError? || a.LateCommit? || a.GiveUp?
  }

  /** Transactions only make progress, and nothing on any node changes. */
  ghost predicate Progress(s: Sys, s': Sys) {
    && s' == s.(txns := s'.txns, phase := s'.phase, committed := s'.committed, net := s'.net)
    && (forall t :: t in s.txns ==> t in s'.txns && s'.txns[t] == s.txns[t])
    && (forall t :: t in s.phase ==> t in s'.phase && (Alive(s', t) ==> Alive(s, t)))
    && s.committed <= s'.committed
  }

  lemma DecideProgresses(s: Sys, a: Step)
    requires Enabled(s, a) && Decides(a) && s.txns.Keys == s.phase.Keys
    ensures Progress(s, Next(s, a))
  {
  }

  lemma ProgressKeeps(s: Sys, s': Sys)
    requires Inv(s) && Progress(s, s')
    ensures TriedOk(s') && NodesOk(s') && WrittenOk(s') && ReadyOk(s') && CallsOk(s') && LatestsOk(s')
  {
    forall v | v in s'.nodes ensures NodeOk(s', v, s'.nodes[v]) {
      assert NodeOk(s, v, s.nodes[v]);
    }
    forall k | k in s'.calls ensures CallOk(s', s'.calls[k]) {
      assert CallOk(s, s.calls[k]);
    }
    forall p | p in s'.latest ensures LatestOk(s', p, s'.latest[p]) {
      assert LatestOk(s, p, s.latest[p]);
    }
    forall x | x in s'.ready ensures OnDisk(s', x) || x in s'.finalised || x in s'.dropped {
      assert OnDisk(s, x) ==> OnDisk(s', x);
    }
    forall x | x in s'.written ensures OnDisk(s', x) {
      assert OnDisk(s, x);
    }
  }

  lemma DecideTxns(s: Sys, a: Step)
    requires TxnsOk(s) && Enabled(s, a) && Decides(a)
    ensures TxnsOk(Next(s, a))
  {
    var s' := Next(s, a);
    forall t | t in s'.phase ensures TxnOk(s', t) {
      assert t in s.phase ==> TxnOk(s, t);
    }
  }

  lemma DecideNotes(s: Sys, a: Step)
    requires NotesOk(s) && TxnsOk(s) && Enabled(s, a) && Decides(a)
    ensures NotesOk(Next(s, a))
  {
    var s' := Next(s, a);
    forall m | m in s'.net ensures NoteOk(s', m) {
      assert m in s.net ==> NoteOk(s, m);
    }
  }

  lemma DecideKeeps(s: Sys, a: Step)
    requires Inv(s) && Enabled(s, a) && Decides(a)
    ensures Inv(Next(s, a))
  {
    DecideProgresses(s, a);
    ProgressKeeps(s, Next(s, a));
    DecideTxns(s, a);
    DecideNotes(s, a);
  }

  /* ---------- Calls ---------- */

  ghost predicate Looks(a: Step) {
    a.TakeCommit? || a.TakeAbort? || a.MissFinal? || a.TakeRead? || a.EndRead?
  }

  lemma CallsMove(s: Sys, calls: map<nat, Call>)
    requires Inv(s) && (forall k :: k in calls ==> CallOk(s, calls[k]))
    ensures Inv(s.(calls := calls))
  {
    var s' := s.(calls := calls);
    forall v | v in s'.nodes ensures NodeOk(s', v, s'.nodes[v]) {
      assert NodeOk(s, v, s.nodes[v]);
    }
    forall p | p in s'.latest ensures LatestOk(s', p, s'.latest[p]) {
      assert LatestOk(s, p, s.latest[p]);
    }
    forall t | t in s'.phase ensures TxnOk(s', t) {
      assert TxnOk(s, t);
    }
    forall m | m in s'.net ensures NoteOk(s', m) {
      assert NoteOk(s, m);
    }
    forall k | k in s'.calls ensures CallOk(s', s'.calls[k]) {
      assert CallOk(s, calls[k]);
    }
    RestMoves(s, s');
  }

  lemma RestMoves(s: Sys, s': Sys)
    requires TriedOk(s) && WrittenOk(s) && ReadyOk(s) && s' == s.(calls := s'.calls)
    ensures TriedOk(s') && WrittenOk(s') && ReadyOk(s')
  {
    forall x | x in s'.ready ensures OnDisk(s', x) || x in s'.finalised || x in s'.dropped {
      assert OnDisk(s, x) ==> OnDisk(s', x);
    }
    forall x | x in s'.written ensures OnDisk(s', x) {
      assert OnDisk(s, x);
    }
  }

  /** Whatever the index names is a prepare that was tried and is not waiting to be indexed. */
  lemma IndexedIsTried(s: Sys, v: NodeId, c: ChunkId)
    requires NodesOk(s) && v in s.nodes && c in s.nodes[v].index
    ensures var t := s.nodes[v].index[c];
            && t in s.txns && s.txns[t].chunk == c && At(t, v) in s.tried && At(t, v) !in s.written
  {
    var n := s.nodes[v];
    assert NodeOk(s, v, n);
    var f := Temp(c, n.index[c]);
    assert TempOk(s, v, f, n.temps[f]);
  }

  lemma AddCall(s: Sys, k: nat, call: Call)
    requires Inv(s) && CallOk(s, call)
    ensures Inv(s.(calls := s.calls[k := call]))
  {
    CallsMove(s, s.calls[k := call]);
  }

  lemma DropCall(s: Sys, k: nat)
    requires Inv(s)
    ensures Inv(s.(calls := s.calls - {k}))
  {
    CallsMove(s, s.calls - {k});
  }

  lemma TakeKeeps(s: Sys, k: nat, kind: Kind, id: TxnId, v: NodeId)
    requires Inv(s) && id in s.txns && v in s.nodes && !kind.Reading?
    requires if kind.Committing? then id in s.committed else id in s.phase && !Alive(s, id)
    ensures Inv(AfterTake(s, k, kind, id, v))
  {
    var c := s.txns[id].chunk;
    if c in s.nodes[v].index && s.nodes[v].index[c] == id {
      IndexedIsTried(s, v, c);
      AddCall(s, k, Taken(kind, v, c, id));
    }
  }

  lemma TakeReadKeeps(s: Sys, k: nat)
    requires Inv(s) && k in s.calls && s.calls[k].node in s.nodes
    ensures Inv(AfterTakeRead(s, k))
  {
    var (v, c) := (s.calls[k].node, s.calls[k].chunk);
    if c in s.nodes[v].index {
      IndexedIsTried(s, v, c);
      AddCall(s, k, Taken(Reading, v, c, s.nodes[v].index[c]));
    } else {
      DropCall(s, k);
    }
  }

  lemma LookKeeps(s: Sys, a: Step)
    requires Inv(s) && Enabled(s, a) && Looks(a)
    ensures Inv(Next(s, a))
  {
    match a
    case TakeCommit(k, id, v) =>
      assert NoteOk(s, CommitNote(v, id));
      TakeKeeps(s, k, Committing, id, v);
    case TakeAbort(k, id, v) =>
      assert NoteOk(s, AbortNote(v, id));
      TakeKeeps(s, k, Aborting, id, v);
    case MissFinal(k, v, c) => AddCall(s, k, Missed(v, c));
    case TakeRead(k) => TakeReadKeeps(s, k);
    case EndRead(k) => DropCall(s, k);
  }

  /* ---------- Preparing ---------- */

  /** Nothing but node v, with its files, and the history changes. */
  ghost predicate SameTxns(s: Sys, s': Sys) {
    s'.txns == s.txns && s'.phase == s.phase && s'.committed == s.committed && s'.net == s.net && s.ready <= s'.ready
  }

  lemma TxnsStay(s: Sys, s': Sys)
    requires TxnsOk(s) && NotesOk(s) && SameTxns(s, s')
    ensures TxnsOk(s') && NotesOk(s')
  {
    forall t | t in s'.phase ensures TxnOk(s', t) {
      assert TxnOk(s, t);
    }
    forall m | m in s'.net ensures NoteOk(s', m) {
      assert NoteOk(s, m);
    }
  }

  /** What another node holds does not depend on what happens at v. */
  ghost predicate SameElsewhere(s: Sys, s': Sys, v: NodeId) {
    && SameTxns(s, s') && s'.nodes.Keys == s.nodes.Keys
    && (forall w :: w in s.nodes && w != v ==> s'.nodes[w] == s.nodes[w])
    && (forall x: At :: x.node != v ==>
          && (x in s'.tried <==> x in s.tried) && (x in s'.written <==> x in s.written)
          && (x in s'.torn <==> x in s.torn)
          && (x in s'.ready <==> x in s.ready)
          && (x in s'.finalised <==> x in s.finalised) && (x in s'.dropped <==> x in s.dropped))
    && (forall p: Place :: p.node != v ==>
          && (p in s'.shown <==> p in s.shown) && (p in s.shown ==> s'.shown[p] == s.shown[p])
          && (p in s'.latest ==> p in s.latest && s'.latest[p] == s.latest[p]))
    && (forall k :: k in s'.calls && s'.calls[k].node != v ==> k in s.calls && s.calls[k] == s'.calls[k])
  }

  lemma OtherNodeStays(s: Sys, s': Sys, v: NodeId, w: NodeId)
    requires SameElsewhere(s, s', v) && w != v && w in s.nodes && NodeOk(s, w, s.nodes[w])
    ensures NodeOk(s', w, s'.nodes[w])
  {
    var n := s.nodes[w];
    forall f | f in n.temps ensures TempOk(s', w, f, n.temps[f]) {
      assert TempOk(s, w, f, n.temps[f]);
    }
    forall c | c in n.finals ensures FinalOk(s', w, c, n.finals[c]) {
      assert FinalOk(s, w, c, n.finals[c]);
    }
    forall c | Place(w, c) in s'.shown ensures c in n.finals {
      assert Place(w, c) in s.shown;
    }
    forall c | c in n.index ensures Temp(c, n.index[c]) in n.temps && At(n.index[c], w) !in s'.written {
      assert At(n.index[c], w) !in s.written;
    }
  }

  lemma OtherDiskStays(s: Sys, s': Sys, v: NodeId, x: At)
    requires SameElsewhere(s, s', v) && x.node != v
    ensures OnDisk(s', x) <==> OnDisk(s, x)
  {
  }

  lemma OtherLatestStays(s: Sys, s': Sys, v: NodeId, p: Place)
    requires SameElsewhere(s, s', v) && p.node != v && p in s'.latest && LatestsOk(s)
    ensures LatestOk(s', p, s'.latest[p])
  {
    var t := s.latest[p];
    assert LatestOk(s, p, t);
    assert Held(s, p, t) ==> Held(s', p, t);
    assert At(t, p.node) in s'.tried && At(t, p.node) !in s'.torn;
  }

  lemma OtherCallStays(s: Sys, s': Sys, v: NodeId, k: nat)
    requires SameElsewhere(s, s', v) && k in s'.calls && s'.calls[k].node != v && CallsOk(s)
    ensures CallOk(s', s'.calls[k])
  {
    assert CallOk(s, s.calls[k]);
  }

  /** The invariants of one node. */
  ghost predicate OkAt(s: Sys, v: NodeId) {
    && v in s.nodes && NodeOk(s, v, s.nodes[v])
    && (forall x :: x in s.written && x.node == v ==> OnDisk(s, x))
    && (forall x :: x in s.ready && x.node == v ==> OnDisk(s, x) || x in s.finalised || x in s.dropped)
    && (forall x :: x in s.dropped && x.node == v ==> x.txn in s.phase && !Alive(s, x.txn))
    && (forall x :: x in s.finalised && x.node == v ==> x.txn in s.committed)
    && (forall k :: k in s.calls && s.calls[k].node == v ==> CallOk(s, s.calls[k]))
    && (forall p :: p in s.latest && p.node == v ==> LatestOk(s, p, s.latest[p]))
  }

  lemma OthersKeep(s: Sys, s': Sys, v: NodeId)
    requires Inv(s) && SameElsewhere(s, s', v) && v in s.nodes && OkAt(s', v)
    ensures NodesOk(s') && CallsOk(s') && LatestsOk(s')
  {
    forall w | w in s'.nodes ensures NodeOk(s', w, s'.nodes[w]) {
      if w != v {
        OtherNodeStays(s, s', v, w);
      }
    }
    forall k | k in s'.calls ensures CallOk(s', s'.calls[k]) {
      if s'.calls[k].node != v {
        OtherCallStays(s, s', v, k);
      }
    }
    forall p | p in s'.latest ensures LatestOk(s', p, s'.latest[p]) {
      if p.node != v {
        OtherLatestStays(s, s', v, p);
      }
    }
  }

  lemma OthersKeepDisks(s: Sys, s': Sys, v: NodeId)
    requires Inv(s) && SameElsewhere(s, s', v) && OkAt(s', v)
    ensures WrittenOk(s') && ReadyOk(s')
  {
    forall x | x in s'.written ensures OnDisk(s', x) {
      if x.node != v {
        OtherDiskStays(s, s', v, x);
      }
    }
    forall x | x in s'.ready ensures OnDisk(s', x) || x in s'.finalised || x in s'.dropped {
      if x.node != v {
        OtherDiskStays(s, s', v, x);
      }
    }
  }

  /** A step at v keeps everything if it keeps the invariants of v. */
  lemma StepAt(s: Sys, s': Sys, v: NodeId)
    requires Inv(s) && SameElsewhere(s, s', v) && v in s.nodes && TriedOk(s') && OkAt(s', v)
    ensures Inv(s')
  {
    TxnsStay(s, s');
    OthersKeep(s, s', v);
    OthersKeepDisks(s, s', v);
  }

  /** No file, entry or call speaks of a prepare that was not tried. */
  lemma Untried(s: Sys, v: NodeId, id: TxnId, c: ChunkId)
    requires Inv(s) && v in s.nodes && At(id, v) !in s.tried
    ensures Temp(c, id) !in s.nodes[v].temps
    ensures c in s.nodes[v].index ==> s.nodes[v].index[c] != id
  {
    assert NodeOk(s, v, s.nodes[v]);
    assert Temp(c, id) in s.nodes[v].temps ==> TempOk(s, v, Temp(c, id), s.nodes[v].temps[Temp(c, id)]);
    if c in s.nodes[v].index {
      IndexedIsTried(s, v, c);
    }
  }

  lemma FileNode(s: Sys, s': Sys, id: TxnId, v: NodeId, data: Bytes)
    requires Inv(s) && Preparable(s, id, v) && SameTxns(s, s') && s'.shown == s.shown && s'.finalised == s.finalised
    requires v in s'.nodes && s'.nodes[v] == PrepareTorn(s.nodes[v], id, s.txns[id].chunk, data)
    requires s'.tried == s.tried + {At(id, v)} && s.torn <= s'.torn && s'.written <= s.written + {At(id, v)}
    requires data == s.txns[id].data || At(id, v) in s'.torn
    ensures NodeOk(s', v, s'.nodes[v])
  {
    var (n, n', c) := (s.nodes[v], s'.nodes[v], s.txns[id].chunk);
    assert NodeOk(s, v, n);
    forall f | f in n'.temps ensures TempOk(s', v, f, n'.temps[f]) {
      assert f in n.temps ==> TempOk(s, v, f, n.temps[f]);
    }
    forall d | d in n'.index ensures Temp(d, n'.index[d]) in n'.temps && At(n'.index[d], v) !in s'.written {
      Untried(s, v, id, d);
    }
    forall d | d in n'.finals ensures FinalOk(s', v, d, n'.finals[d]) {
      assert FinalOk(s, v, d, n.finals[d]);
    }
  }

  lemma FileDisks(s: Sys, s': Sys, id: TxnId, v: NodeId, data: Bytes)
    requires Inv(s) && Preparable(s, id, v) && SameTxns(s, s') && v in s'.nodes
    requires s'.nodes[v] == PrepareTorn(s.nodes[v], id, s.txns[id].chunk, data)
    ensures forall x: At :: x.node == v && x in s.tried && OnDisk(s, x) ==> OnDisk(s', x)
  {
  }

  lemma FileLatest(s: Sys, s': Sys, id: TxnId, v: NodeId, p: Place)
    requires Inv(s) && Preparable(s, id, v) && SameTxns(s, s') && s'.shown == s.shown && s'.latest == s.latest
    requires v in s'.nodes && s'.nodes[v].index == s.nodes[v].index
    requires s'.tried == s.tried + {At(id, v)} && s'.torn <= s.torn + {At(id, v)} && p in s'.latest && p.node == v
    ensures LatestOk(s', p, s'.latest[p])
  {
    assert LatestOk(s, p, s.latest[p]);
    assert Held(s, p, s.latest[p]) ==> Held(s', p, s.latest[p]);
  }

  lemma FileOk(s: Sys, s': Sys, id: TxnId, v: NodeId, data: Bytes)
    requires Inv(s) && Preparable(s, id, v)
    requires s' == s.(nodes := s.nodes[v := PrepareTorn(s.nodes[v], id, s.txns[id].chunk, data)],
                      tried := s.tried + {At(id, v)}, written := s'.written, torn := s'.torn)
    requires (data == s.txns[id].data && s'.written == s.written + {At(id, v)} && s'.torn == s.torn)
             || (s'.torn == s.torn + {At(id, v)} && s'.written == s.written)
    ensures OkAt(s', v)
  {
    FileNode(s, s', id, v, data);
    FileDisks(s, s', id, v, data);
    forall k | k in s'.calls && s'.calls[k].node == v ensures CallOk(s', s'.calls[k]) {
      assert CallOk(s, s.calls[k]);
    }
    forall p | p in s'.latest && p.node == v ensures LatestOk(s', p, s'.latest[p]) {
      FileLatest(s, s', id, v, p);
    }
    forall x | x in s'.written && x.node == v ensures OnDisk(s', x) {
      assert x in s.written ==> OnDisk(s, x);
    }
  }

  lemma FileKeeps(s: Sys, a: Step)
    requires Inv(s) && Enabled(s, a) && (a.WriteAt? || a.TearAt?)
    ensures Inv(Next(s, a))
  {
    FileOk(s, Next(s, a), a.id, a.node, if a.TearAt? then a.torn else s.txns[a.id].data);
    FileSame(s, a);
    StepAt(s, Next(s, a), a.node);
  }

  lemma FileSame(s: Sys, a: Step)
    requires Enabled(s, a) && (a.WriteAt? || a.TearAt?)
    ensures SameElsewhere(s, Next(s, a), a.node) && (TriedOk(s) ==> TriedOk(Next(s, a)))
  {
  }

  /* ---------- Indexing ---------- */

  lemma IndexNode(s: Sys, id: TxnId, v: NodeId, replied: bool)
    requires Inv(s) && Enabled(s, IndexAt(id, v, replied))
    ensures var s' := AfterIndex(s, id, v, replied); NodeOk(s', v, s'.nodes[v])
  {
    var s' := AfterIndex(s, id, v, replied);
    var (n, n') := (s.nodes[v], s'.nodes[v]);
    assert NodeOk(s, v, n) && OnDisk(s, At(id, v));
    forall f | f in n'.temps ensures TempOk(s', v, f, n'.temps[f]) {
      assert TempOk(s, v, f, n.temps[f]);
    }
    forall d | d in n'.finals ensures FinalOk(s', v, d, n'.finals[d]) {
      assert FinalOk(s, v, d, n.finals[d]);
    }
  }

  lemma IndexLatest(s: Sys, id: TxnId, v: NodeId, replied: bool, p: Place)
    requires Inv(s) && Enabled(s, IndexAt(id, v, replied)) && p in AfterIndex(s, id, v, replied).latest && p.node == v
    ensures var s' := AfterIndex(s, id, v, replied); LatestOk(s', p, s'.latest[p])
  {
    var s' := AfterIndex(s, id, v, replied);
    if p != Place(v, s.txns[id].chunk) {
      assert LatestOk(s, p, s.latest[p]);
      assert Held(s, p, s.latest[p]) ==> Held(s', p, s.latest[p]);
    }
  }

  lemma IndexOk(s: Sys, id: TxnId, v: NodeId, replied: bool)
    requires Inv(s) && Enabled(s, IndexAt(id, v, replied))
    ensures OkAt(AfterIndex(s, id, v, replied), v)
  {
    var s' := AfterIndex(s, id, v, replied);
    IndexNode(s, id, v, replied);
    assert OnDisk(s, At(id, v));
    forall x: At | x.node == v && OnDisk(s, x) ensures OnDisk(s', x) {
    }
    forall k | k in s'.calls && s'.calls[k].node == v ensures CallOk(s', s'.calls[k]) {
      assert CallOk(s, s.calls[k]);
    }
    forall p | p in s'.latest && p.node == v ensures LatestOk(s', p, s'.latest[p]) {
      IndexLatest(s, id, v, replied, p);
    }
  }

  lemma IndexKeeps(s: Sys, id: TxnId, v: NodeId, replied: bool)
    requires Inv(s) && Enabled(s, IndexAt(id, v, replied))
    ensures Inv(AfterIndex(s, id, v, replied))
  {
    IndexOk(s, id, v, replied);
    IndexSame(s, id, v, replied);
    StepAt(s, AfterIndex(s, id, v, replied), v);
  }

  lemma IndexSame(s: Sys, id: TxnId, v: NodeId, replied: bool)
    requires Enabled(s, IndexAt(id, v, replied))
    ensures var s' := AfterIndex(s, id, v, replied); SameElsewhere(s, s', v) && (TriedOk(s) ==> TriedOk(s'))
  {
  }

  /* ---------- Deleting and restarting ---------- */

  lemma DeleteNode(s: Sys, v: NodeId, c: ChunkId)
    requires Inv(s) && v in s.nodes
    ensures var s' := Next(s, DeleteAt(v, c)); NodeOk(s', v, s'.nodes[v])
  {
    var s' := Next(s, DeleteAt(v, c));
    var (n, n') := (s.nodes[v], s'.nodes[v]);
    assert NodeOk(s, v, n);
    forall f | f in n'.temps ensures TempOk(s', v, f, n'.temps[f]) {
      assert TempOk(s, v, f, n.temps[f]);
    }
    forall d | d in n'.finals ensures FinalOk(s', v, d, n'.finals[d]) {
      assert FinalOk(s, v, d, n.finals[d]);
    }
  }

  lemma DeleteOk(s: Sys, v: NodeId, c: ChunkId)
    requires Inv(s) && v in s.nodes
    ensures OkAt(Next(s, DeleteAt(v, c)), v)
  {
    var s' := Next(s, DeleteAt(v, c));
    DeleteNode(s, v, c);
    forall x: At | x.node == v && OnDisk(s, x) ensures OnDisk(s', x) {
    }
    forall k | k in s'.calls && s'.calls[k].node == v ensures CallOk(s', s'.calls[k]) {
      assert CallOk(s, s.calls[k]);
    }
    forall p | p in s'.latest && p.node == v ensures LatestOk(s', p, s'.latest[p]) {
      assert LatestOk(s, p, s.latest[p]);
      assert Held(s, p, s.latest[p]) ==> Held(s', p, s.latest[p]);
    }
  }

  lemma DeleteKeeps(s: Sys, v: NodeId, c: ChunkId)
    requires Inv(s) && v in s.nodes
    ensures Inv(Next(s, DeleteAt(v, c)))
  {
    DeleteOk(s, v, c);
    StepAt(s, Next(s, DeleteAt(v, c)), v);
  }

  /** Without an orphan file a restart finds the chunk's entry again, or none where there was none. */
  lemma RestartFinds(n: Chunks, listing: seq<Temp>, c: ChunkId)
    requires Lists(listing, n) && NoOrphan(n, c) && (c in n.index ==> Temp(c, n.index[c]) in n.temps)
    ensures c in Restarted(n, listing).index <==> c in n.index
    ensures c in n.index ==> Restarted(n, listing).index[c] == n.index[c]
  {
    ReindexFinds(map[], listing, c);
    if c in n.index {
      assert Temp(c, n.index[c]) in listing;
    }
  }

  lemma RestartNode(s: Sys, v: NodeId, listing: seq<Temp>)
    requires Inv(s) && Enabled(s, RestartAt(v, listing))
    ensures var s' := AfterRestart(s, v, listing); NodeOk(s', v, s'.nodes[v])
  {
    var s' := AfterRestart(s, v, listing);
    var (n, n') := (s.nodes[v], s'.nodes[v]);
    assert NodeOk(s, v, n);
    forall f | f in n'.temps ensures TempOk(s', v, f, n'.temps[f]) {
      assert TempOk(s, v, f, n.temps[f]);
    }
    forall d | d in n'.index ensures Temp(d, n'.index[d]) in n'.temps && At(n'.index[d], v) !in s'.written {
      ReindexFinds(map[], listing, d);
    }
    forall d | d in n'.finals ensures FinalOk(s', v, d, n'.finals[d]) {
      assert FinalOk(s, v, d, n.finals[d]);
    }
  }

  lemma RestartHeld(s: Sys, v: NodeId, listing: seq<Temp>, p: Place, t: TxnId)
    requires v in s.nodes && p.node == v && Lists(listing, s.nodes[v]) && NoOrphan(s.nodes[v], p.chunk) && Held(s, p, t)
    requires p.chunk in s.nodes[v].index ==> Temp(p.chunk, s.nodes[v].index[p.chunk]) in s.nodes[v].temps
    ensures Held(AfterRestart(s, v, listing), p, t)
  {
    RestartFinds(s.nodes[v], listing, p.chunk);
  }

  lemma RestartLatest(s: Sys, v: NodeId, listing: seq<Temp>, p: Place)
    requires Inv(s) && Enabled(s, RestartAt(v, listing)) && p in AfterRestart(s, v, listing).latest && p.node == v
    ensures var s' := AfterRestart(s, v, listing); LatestOk(s', p, s'.latest[p])
  {
    assert LatestOk(s, p, s.latest[p]) && NodeOk(s, v, s.nodes[v]);
    if Held(s, p, s.latest[p]) {
      RestartHeld(s, v, listing, p, s.latest[p]);
    }
  }

  lemma RestartKeeps(s: Sys, v: NodeId, listing: seq<Temp>)
    requires Inv(s) && Enabled(s, RestartAt(v, listing))
    ensures Inv(AfterRestart(s, v, listing))
  {
    var s' := AfterRestart(s, v, listing);
    RestartNode(s, v, listing);
    forall x: At | x.node == v && OnDisk(s, x) ensures OnDisk(s', x) {
    }
    forall p | p in s'.latest && p.node == v ensures LatestOk(s', p, s'.latest[p]) {
      RestartLatest(s, v, listing, p);
    }
    StepAt(s, s', v);
  }

  /* ---------- Ending a call ---------- */

  /** The file of a committed transaction is whole wherever it is. */
  lemma CommittedIsWhole(s: Sys, v: NodeId, c: ChunkId, t: TxnId)
    requires Inv(s) && v in s.nodes && Temp(c, t) in s.nodes[v].temps && t in s.committed
    ensures s.nodes[v].temps[Temp(c, t)] == s.txns[t].data && s.txns[t].chunk == c
  {
    assert NodeOk(s, v, s.nodes[v]);
    assert TempOk(s, v, Temp(c, t), s.nodes[v].temps[Temp(c, t)]);
    assert At(t, v) in s.tried && TxnOk(s, t);
  }

  /** What the end of a call does, in one form for all three kinds. */
  lemma FinishedShape(n: Chunks, call: Call, committed: set<TxnId>)
    requires call.Taken?
    ensures var (n', c, f) := (Finished(n, call, committed), call.chunk, Temp(call.chunk, call.txn));
            && n'.index == (if Removes(n, call, committed) then n.index - {c} else n.index)
            && n'.temps == (if Renames(n, call, committed) || call.kind.Aborting? then n.temps - {f} else n.temps)
            && n'.finals == (if Renames(n, call, committed) then n.finals[c := n.temps[f]] else n.finals)
  {
  }

  /** The bytes a call makes final are those of its transaction, which is committed. */
  lemma RenamedBytes(s: Sys, k: nat)
    requires Inv(s) && Enabled(s, Finish(k)) && Renames(s.nodes[s.calls[k].node], s.calls[k], s.committed)
    ensures var call := s.calls[k];
            && call.txn in s.committed && call.txn in s.txns && s.txns[call.txn].chunk == call.chunk
            && s.nodes[call.node].temps[Temp(call.chunk, call.txn)] == s.txns[call.txn].data
  {
    var call := s.calls[k];
    assert CallOk(s, call);
    CommittedIsWhole(s, call.node, call.chunk, call.txn);
  }

  lemma FinishTemps(s: Sys, k: nat, f: Temp)
    requires Inv(s) && Enabled(s, Finish(k))
    ensures var (s', v) := (AfterFinish(s, k), s.calls[k].node);
            f in s'.nodes[v].temps ==> TempOk(s', v, f, s'.nodes[v].temps[f])
  {
    var call := s.calls[k];
    var n := s.nodes[call.node];
    FinishedShape(n, call, s.committed);
    assert NodeOk(s, call.node, n) && CallOk(s, call);
    assert f in n.temps ==> TempOk(s, call.node, f, n.temps[f]);
  }

  lemma FinishFinals(s: Sys, k: nat, d: ChunkId)
    requires Inv(s) && Enabled(s, Finish(k))
    ensures var (s', v) := (AfterFinish(s, k), s.calls[k].node);
            && (d in s'.nodes[v].finals ==> FinalOk(s', v, d, s'.nodes[v].finals[d]))
            && (Place(v, d) in s'.shown ==> d in s'.nodes[v].finals)
  {
    var call := s.calls[k];
    var n := s.nodes[call.node];
    FinishedShape(n, call, s.committed);
    assert NodeOk(s, call.node, n);
    assert d in n.finals ==> FinalOk(s, call.node, d, n.finals[d]);
    if Renames(n, call, s.committed) {
      RenamedBytes(s, k);
    }
  }

  lemma FinishIndex(s: Sys, k: nat, d: ChunkId)
    requires Inv(s) && Enabled(s, Finish(k))
    ensures var (s', v) := (AfterFinish(s, k), s.calls[k].node);
            var n' := s'.nodes[v];
            d in n'.index ==> Temp(d, n'.index[d]) in n'.temps && At(n'.index[d], v) !in s'.written
  {
    var call := s.calls[k];
    FinishedShape(s.nodes[call.node], call, s.committed);
    assert NodeOk(s, call.node, s.nodes[call.node]);
  }

  lemma FinishNode(s: Sys, k: nat)
    requires Inv(s) && Enabled(s, Finish(k))
    ensures var (s', v) := (AfterFinish(s, k), s.calls[k].node); NodeOk(s', v, s'.nodes[v])
  {
    var (s', v) := (AfterFinish(s, k), s.calls[k].node);
    forall f | f in s'.nodes[v].temps ensures TempOk(s', v, f, s'.nodes[v].temps[f]) {
      FinishTemps(s, k, f);
    }
    forall d | d in s'.nodes[v].finals ensures FinalOk(s', v, d, s'.nodes[v].finals[d]) {
      FinishFinals(s, k, d);
    }
    forall d | Place(v, d) in s'.shown ensures d in s'.nodes[v].finals {
      FinishFinals(s, k, d);
    }
    forall d | d in s'.nodes[v].index
      ensures Temp(d, s'.nodes[v].index[d]) in s'.nodes[v].temps && At(s'.nodes[v].index[d], v) !in s'.written
    {
      FinishIndex(s, k, d);
    }
  }

  /** A file leaves the disk only by becoming final or by its own abort. */
  lemma FinishDisk(s: Sys, k: nat, x: At)
    requires Inv(s) && Enabled(s, Finish(k)) && x.node == s.calls[k].node && OnDisk(s, x)
    ensures var s' := AfterFinish(s, k);
            OnDisk(s', x) || (x.txn == s.calls[k].txn && (x in s'.finalised || x in s'.dropped))
  {
    FinishedShape(s.nodes[x.node], s.calls[k], s.committed);
  }

  lemma FinishLatest(s: Sys, k: nat, p: Place)
    requires Inv(s) && Enabled(s, Finish(k)) && p in AfterFinish(s, k).latest && p.node == s.calls[k].node
    ensures var s' := AfterFinish(s, k); LatestOk(s', p, s'.latest[p])
  {
    var (call, t) := (s.calls[k], s.latest[p]);
    assert LatestOk(s, p, t) && CallOk(s, call);
    FinishedShape(s.nodes[call.node], call, s.committed);
    if Alive(s, t) {
      StillHeld(s, k, p, t);
    }
  }

  /** A call that does not overtake the transaction leaves it held, indexed or final. */
  lemma StillHeld(s: Sys, k: nat, p: Place, t: TxnId)
    requires Enabled(s, Finish(k)) && Held(s, p, t) && p.node == s.calls[k].node && Alive(s, t) && CallOk(s, s.calls[k])
    requires p.chunk == s.calls[k].chunk ==> !Overtakes(s.nodes[p.node], s.calls[k], s.committed)
    ensures Held(AfterFinish(s, k), p, t)
  {
    FinishedShape(s.nodes[p.node], s.calls[k], s.committed);
  }

  lemma FinishOk(s: Sys, k: nat)
    requires Inv(s) && Enabled(s, Finish(k))
    ensures OkAt(AfterFinish(s, k), s.calls[k].node)
  {
    var (s', v) := (AfterFinish(s, k), s.calls[k].node);
    FinishNode(s, k);
    FinishHistory(s, k);
    forall j | j in s'.calls && s'.calls[j].node == v ensures CallOk(s', s'.calls[j]) {
      assert CallOk(s, s.calls[j]);
    }
    forall p | p in s'.latest && p.node == v ensures LatestOk(s', p, s'.latest[p]) {
      FinishLatest(s, k, p);
    }
  }

  lemma FinishHistory(s: Sys, k: nat)
    requires Inv(s) && Enabled(s, Finish(k))
    ensures var (s', v) := (AfterFinish(s, k), s.calls[k].node);
            && (forall x :: x in s'.written && x.node == v ==> OnDisk(s', x))
            && (forall x :: x in s'.ready && x.node == v ==> OnDisk(s', x) || x in s'.finalised || x in s'.dropped)
            && (forall x :: x in s'.dropped && x.node == v ==> x.txn in s'.phase && !Alive(s', x.txn))
            && (forall x :: x in s'.finalised && x.node == v ==> x.txn in s'.committed)
  {
    var (s', v, call) := (AfterFinish(s, k), s.calls[k].node, s.calls[k]);
    assert CallOk(s, call);
    forall x | x in s'.written && x.node == v ensures OnDisk(s', x) {
      assert OnDisk(s, x);
      FinishDisk(s, k, x);
    }
    forall x | x in s'.ready && x.node == v ensures OnDisk(s', x) || x in s'.finalised || x in s'.dropped {
      if OnDisk(s, x) {
        FinishDisk(s, k, x);
      }
    }
    if Renames(s.nodes[v], call, s.committed) {
      RenamedBytes(s, k);
    }
  }

  lemma FinishKeeps(s: Sys, k: nat)
    requires Inv(s) && Enabled(s, Finish(k))
    ensures Inv(AfterFinish(s, k))
  {
    FinishOk(s, k);
    FinishSame(s, k);
    StepAt(s, AfterFinish(s, k), s.calls[k].node);
  }

  lemma FinishSame(s: Sys, k: nat)
    requires Enabled(s, Finish(k)) && CallsOk(s)
    ensures var s' := AfterFinish(s, k); SameElsewhere(s, s', s.calls[k].node) && (TriedOk(s) ==> TriedOk(s'))
  {
    assert CallOk(s, s.calls[k]);
  }

  lemma StepKeeps(s: Sys, a: Step)
    requires Inv(s) && Enabled(s, a)
    ensures Inv(Next(s, a))
  {
    if Decides(a) {
      DecideKeeps(s, a);
    } else if Looks(a) {
      LookKeeps(s, a);
    } else {
      match a
      case IndexAt(id, v, replied) => IndexKeeps(s, id, v, replied);
      case Finish(k) => FinishKeeps(s, k);
      case DeleteAt(v, c) => DeleteKeeps(s, v, c);
      case RestartAt(v, listing) => RestartKeeps(s, v, listing);
      case _ => FileKeeps(s, a);
    }
  }
}
