/** What the two-phase chunk protocol promises over whole runs. */
module ChunkTheorems {
  import opened Basics
  import opened FileBytes
  import opened ChunkStore
  import opened ChunkProtocol
  import opened ChunkProtocolProof

  datatype History = History(states: seq<Sys>, steps: seq<Step>)

  ghost predicate IsRun(r: History) {
    && |r.states| == |r.steps| + 1 && Init(r.states[0])
    && (forall i {:trigger r.steps[i]} :: 0 <= i < |r.steps| ==>
          Enabled(r.states[i], r.steps[i]) && r.states[i + 1] == Next(r.states[i], r.steps[i]))
  }

  lemma RunStep(r: History, i: nat, j: nat)
    requires IsRun(r) && i + 1 == j < |r.states|
    ensures Enabled(r.states[i], r.steps[i]) && r.states[j] == Next(r.states[i], r.steps[i])
  {
    assert r.states[i + 1] == Next(r.states[i], r.steps[i]);
  }

  /** The invariants of nodes, transactions, calls and notifications hold in every state of every run. */
  lemma {:induction false} RunKeeps(r: History, i: nat)
    requires IsRun(r) && i < |r.states|
    ensures Inv(r.states[i])
    decreases i
  {
    if i == 0 {
      InitKeeps(r.states[0]);
    } else {
      RunKeeps(r, i - 1);
      RunStep(r, i - 1, i);
      StepKeeps(r.states[i - 1], r.steps[i - 1]);
    }
  }

  /* ---------- What never changes ---------- */

  lemma NextGrows(s: Sys, a: Step)
    requires Enabled(s, a)
    ensures var s' := Next(s, a);
            && s'.nodes.Keys == s.nodes.Keys
            && (forall t :: t in s.txns ==> t in s'.txns && s'.txns[t] == s.txns[t])
  {
  }

  lemma GrowsStep(r: History, i: nat, j: nat, t: TxnId)
    requires IsRun(r) && i + 1 == j < |r.states|
    ensures r.states[j].nodes.Keys == r.states[i].nodes.Keys
    ensures t in r.states[i].txns ==> t in r.states[j].txns && r.states[j].txns[t] == r.states[i].txns[t]
  {
    RunStep(r, i, j);
    NextGrows(r.states[i], r.steps[i]);
  }

  lemma {:induction false} Persists(r: History, i: nat, j: nat, t: TxnId)
    requires IsRun(r) && i <= j < |r.states|
    ensures r.states[j].nodes.Keys == r.states[i].nodes.Keys
    ensures t in r.states[i].txns ==> t in r.states[j].txns && r.states[j].txns[t] == r.states[i].txns[t]
    decreases j
  {
    if i < j {
      Persists(r, i, j - 1, t);
      GrowsStep(r, j - 1, j, t);
    }
  }

  lemma AliveBefore(r: History, i: nat, j: nat, t: TxnId)
    requires IsRun(r) && i + 1 == j < |r.states| && t in r.states[i].phase && Alive(r.states[j], t)
    ensures Alive(r.states[i], t)
  {
    RunStep(r, i, j);
    RunKeeps(r, i);
  }

  lemma PhaseStays(r: History, i: nat, j: nat, t: TxnId)
    requires IsRun(r) && i + 1 == j < |r.states| && t in r.states[i].phase
    ensures t in r.states[j].phase
  {
    RunStep(r, i, j);
  }

  /** A transaction that has not failed by j had not failed before. */
  lemma {:induction false} WasAlive(r: History, i: nat, j: nat, t: TxnId)
    requires IsRun(r) && i <= j < |r.states| && t in r.states[i].phase && Alive(r.states[j], t)
    ensures Alive(r.states[i], t)
    decreases j - i
  {
    if i < j {
      PhaseStays(r, i, i + 1, t);
      WasAlive(r, i + 1, j, t);
      AliveBefore(r, i, i + 1, t);
    }
  }

  /* ---------- Acknowledged writes ---------- */

  /** Another prepare of the chunk at the node, a delete, or a restart over an orphan file of the chunk. */
  ghost predicate Disturbs(s: Sys, a: Step, p: Place) {
    match a
    case IndexAt(id, v, _) => id in s.txns && Place(v, s.txns[id].chunk) == p
    case DeleteAt(v, c) => Place(v, c) == p
    case RestartAt(v, _) => v == p.node && v in s.nodes && !NoOrphan(s.nodes[v], p.chunk)
    case _ => false
  }

  /** A call of another transaction, or a read behind a final file, deletes the entry of the chunk. */
  ghost predicate Overtaken(s: Sys, a: Step, p: Place) {
    && a.Finish? && a.call in s.calls && s.calls[a.call].node in s.nodes
    && Place(s.calls[a.call].node, s.calls[a.call].chunk) == p
    && Overtakes(s.nodes[p.node], s.calls[a.call], s.committed)
  }

  ghost predicate Undisturbed(r: History, i: nat, j: nat, p: Place) {
    && j < |r.states| && |r.states| == |r.steps| + 1
    && forall k {:trigger r.steps[k]} :: i <= k < j ==> !Disturbs(r.states[k], r.steps[k], p)
  }

  ghost predicate NotOvertaken(r: History, i: nat, j: nat, p: Place) {
    && j < |r.states| && |r.states| == |r.steps| + 1
    && forall k {:trigger r.steps[k]} :: i <= k < j ==> !Overtaken(r.states[k], r.steps[k], p)
  }

  lemma LatestStays(s: Sys, a: Step, p: Place)
    requires Enabled(s, a) && p in s.latest && !Disturbs(s, a, p) && !Overtaken(s, a, p)
    ensures p in Next(s, a).latest && Next(s, a).latest[p] == s.latest[p]
  {
  }

  lemma LatestStep(r: History, i: nat, j: nat, p: Place)
    requires IsRun(r) && i + 1 == j < |r.states| && p in r.states[i].latest
    requires !Disturbs(r.states[i], r.steps[i], p) && !Overtaken(r.states[i], r.steps[i], p)
    ensures p in r.states[j].latest && r.states[j].latest[p] == r.states[i].latest[p]
  {
    RunStep(r, i, j);
    LatestStays(r.states[i], r.steps[i], p);
  }

  lemma {:induction false} LatestPersists(r: History, i: nat, j: nat, p: Place, t: TxnId)
    requires IsRun(r) && i <= j < |r.states| && p in r.states[i].latest && r.states[i].latest[p] == t
    requires Undisturbed(r, i, j, p) && NotOvertaken(r, i, j, p)
    ensures p in r.states[j].latest && r.states[j].latest[p] == t
    decreases j
  {
    if i < j {
      LatestPersists(r, i, j - 1, p, t);
      LatestStep(r, j - 1, j, p);
    }
  }

  /** The payload is there, byte for byte: indexed, or final with nothing prepared over it. */
  ghost predicate Holds(n: Chunks, chunk: ChunkId, txn: TxnId, data: Bytes) {
    if chunk in n.index then n.index[chunk] == txn && Temp(chunk, txn) in n.temps && n.temps[Temp(chunk, txn)] == data
    else chunk in n.finals && n.finals[chunk] == data
  }

  lemma HeldBytes(s: Sys, p: Place, t: TxnId)
    requires Inv(s) && p in s.latest && s.latest[p] == t && Alive(s, t)
    ensures p.node in s.nodes && t in s.txns && s.txns[t].chunk == p.chunk
    ensures Holds(s.nodes[p.node], p.chunk, t, s.txns[t].data)
  {
    assert LatestOk(s, p, t) && NodeOk(s, p.node, s.nodes[p.node]);
    var n := s.nodes[p.node];
    if p.chunk in n.index {
      assert TempOk(s, p.node, Temp(p.chunk, t), n.temps[Temp(p.chunk, t)]);
    } else {
      assert FinalOk(s, p.node, p.chunk, n.finals[p.chunk]);
    }
  }

  /** Step k prepared transaction t at node v. */
  ghost predicate PreparedAt(r: History, k: nat, t: TxnId, v: NodeId) {
    && k < |r.steps| && |r.states| == |r.steps| + 1 && r.steps[k].IndexAt? && r.steps[k].id == t && r.steps[k].node == v
    && t in r.states[k].txns
  }

  ghost function PlaceOf(r: History, k: nat, t: TxnId, v: NodeId): Place
    requires PreparedAt(r, k, t, v)
  {
    Place(v, r.states[k].txns[t].chunk)
  }

  ghost predicate SucceededAt(r: History, j: nat, t: TxnId) {
    j < |r.states| && t in r.states[j].txns && t in r.states[j].phase && r.states[j].phase[t].Succeeded?
  }

  lemma PreparedIsLatest(r: History, k: nat, t: TxnId, v: NodeId)
    requires IsRun(r) && PreparedAt(r, k, t, v)
    ensures var (p, s') := (PlaceOf(r, k, t, v), r.states[k + 1]);
            p in s'.latest && s'.latest[p] == t && t in s'.txns && s'.txns[t] == r.states[k].txns[t]
  {
    RunStep(r, k, k + 1);
  }

  /**
   * An acknowledged write is at its target, byte for byte, as the indexed prepared file or as the
   * final file, whatever happens to notifications, until the chunk is disturbed or overtaken there.
   */
  lemma AcknowledgedIsHeld(r: History, k: nat, j: nat, t: TxnId, v: NodeId)
    requires IsRun(r) && k < j && PreparedAt(r, k, t, v) && SucceededAt(r, j, t)
    requires Undisturbed(r, k + 1, j, PlaceOf(r, k, t, v)) && NotOvertaken(r, k + 1, j, PlaceOf(r, k, t, v))
    ensures v in r.states[j].nodes && r.states[j].txns[t] == r.states[k].txns[t]
    ensures Held(r.states[j], PlaceOf(r, k, t, v), t)
    ensures Holds(r.states[j].nodes[v], r.states[k].txns[t].chunk, t, r.states[k].txns[t].data)
  {
    var p := PlaceOf(r, k, t, v);
    RunKeeps(r, j);
    PreparedIsLatest(r, k, t, v);
    LatestPersists(r, k + 1, j, p, t);
    Persists(r, k + 1, j, t);
    HeldBytes(r.states[j], p, t);
    assert LatestOk(r.states[j], p, t);
  }

  /** Whatever is ready was prepared in some earlier step. */
  lemma {:induction false} ReadyWasPrepared(r: History, j: nat, t: TxnId, v: NodeId) returns (k: nat)
    requires IsRun(r) && j < |r.states| && At(t, v) in r.states[j].ready
    ensures k < j && PreparedAt(r, k, t, v)
    decreases j
  {
    if j > 0 {
      RunStep(r, j - 1, j);
      if At(t, v) in r.states[j - 1].ready {
        k := ReadyWasPrepared(r, j - 1, t, v);
      } else {
        k := j - 1;
      }
    }
  }

  /**
   * When a write has reported success, every target had prepared its payload, and holds it unless
   * the chunk was disturbed or overtaken at that target after that prepare.
   */
  lemma AcknowledgedEverywhere(r: History, j: nat, t: TxnId, v: NodeId) returns (k: nat)
    requires IsRun(r) && SucceededAt(r, j, t) && v in r.states[j].txns[t].targets
    ensures k < j && PreparedAt(r, k, t, v) && v in r.states[j].nodes
    ensures Undisturbed(r, k + 1, j, PlaceOf(r, k, t, v)) && NotOvertaken(r, k + 1, j, PlaceOf(r, k, t, v)) ==>
              Holds(r.states[j].nodes[v], r.states[j].txns[t].chunk, t, r.states[j].txns[t].data)
  {
    RunKeeps(r, j);
    assert TxnOk(r.states[j], t);
    k := ReadyWasPrepared(r, j, t, v);
    if Undisturbed(r, k + 1, j, PlaceOf(r, k, t, v)) && NotOvertaken(r, k + 1, j, PlaceOf(r, k, t, v)) {
      AcknowledgedIsHeld(r, k, j, t, v);
    }
  }

  /* ---------- When a prepare can be overtaken ---------- */

  /**
   * A step that does not disturb the chunk ends the hold of a live transaction if and only if it
   * is the end of a call that overtakes it.
   */
  lemma HeldStaysIff(s: Sys, a: Step, p: Place, t: TxnId)
    requires Inv(s) && Enabled(s, a) && !Disturbs(s, a, p) && p in s.latest && s.latest[p] == t
    requires Alive(s, t) && Alive(Next(s, a), t)
    ensures Held(Next(s, a), p, t) <==> !Overtaken(s, a, p)
  {
    assert LatestOk(s, p, t);
    if Overtaken(s, a, p) {
      OvertakenLoses(s, a.call, p, t);
    } else {
      LatestStays(s, a, p);
      StepKeeps(s, a);
      assert LatestOk(Next(s, a), p, t);
    }
  }

  lemma OvertakenLoses(s: Sys, k: nat, p: Place, t: TxnId)
    requires Inv(s) && Enabled(s, Finish(k)) && Overtaken(s, Finish(k), p) && Held(s, p, t)
    ensures !Held(AfterFinish(s, k), p, t)
  {
    var (n, call) := (s.nodes[p.node], s.calls[k]);
    FinishedShape(n, call, s.committed);
    assert NodeOk(s, p.node, n);
    if p.chunk in n.index {
      var f := Temp(p.chunk, t);
      assert TempOk(s, p.node, f, n.temps[f]);
      assert p in s.shown ==> FinalOk(s, p.node, p.chunk, n.finals[p.chunk]);
    } else {
      var f := Temp(p.chunk, call.txn);
      assert TempOk(s, p.node, f, n.temps[f]);
      assert FinalOk(s, p.node, p.chunk, n.finals[p.chunk]);
    }
  }

  /** No final file stands in front of an indexed one. */
  ghost predicate Front(n: Chunks, c: ChunkId) {
    c !in n.finals || c !in n.index
  }

  /** A call in progress that can do transaction t no harm. */
  ghost predicate Harmless(n: Chunks, call: Call, t: TxnId) {
    match call
    case Missed(_, c) => Front(n, c)
    case Taken(kind, _, c, x) =>
      && (kind.Reading? ==> Front(n, c))
      && (x == t || (!kind.Aborting? && Temp(c, x) !in n.temps))
  }

  /** Of a call with a copy of the entry, harmful means exactly that its end overtakes an indexed t. */
  lemma OvertakesIffHarmful(n: Chunks, call: Call, t: TxnId, committed: set<TxnId>)
    requires call.Taken? && call.chunk in n.index && n.index[call.chunk] == t
    ensures Overtakes(n, call, committed) <==> !Harmless(n, call, t) && (call.kind.Reading? ==> call.txn in committed)
  {
  }

  /** A read that once missed the final file, and now finds t behind one, overtakes t when it goes on. */
  lemma MissedReadOvertakes(s: Sys, k: nat, p: Place, t: TxnId)
    requires k in s.calls && s.calls[k] == Missed(p.node, p.chunk) && p.node in s.nodes && LockFree(s, p.node)
    requires p.chunk in s.nodes[p.node].index && s.nodes[p.node].index[p.chunk] == t && t in s.committed
    requires !Harmless(s.nodes[p.node], s.calls[k], t)
    ensures Enabled(s, TakeRead(k)) && Enabled(Next(s, TakeRead(k)), Finish(k))
    ensures Overtaken(Next(s, TakeRead(k)), Finish(k), p)
  {
    var s' := Next(s, TakeRead(k));
    forall j | j in s'.calls && s'.calls[j].node == p.node ensures s'.calls[j].Missed? || s'.calls[j].kind.Reading? {
      if j != k {
        assert s'.calls[j] == s.calls[j];
      }
    }
  }

  ghost predicate Quiet(s: Sys, p: Place, t: TxnId) {
    && p.node in s.nodes
    && forall k :: k in s.calls && Place(s.calls[k].node, s.calls[k].chunk) == p ==>
                     Harmless(s.nodes[p.node], s.calls[k], t)
  }

  lemma HarmlessEnd(s: Sys, k: nat, p: Place, t: TxnId)
    requires Inv(s) && Enabled(s, Finish(k)) && Held(s, p, t) && Place(s.calls[k].node, s.calls[k].chunk) == p
    requires Harmless(s.nodes[p.node], s.calls[k], t)
    ensures !Overtakes(s.nodes[p.node], s.calls[k], s.committed)
  {
    var (n, call) := (s.nodes[p.node], s.calls[k]);
    assert NodeOk(s, p.node, n);
    if p.chunk !in n.index {
      assert FinalOk(s, p.node, p.chunk, n.finals[p.chunk]);
      assert Temp(p.chunk, t) in n.temps ==> TempOk(s, p.node, Temp(p.chunk, t), n.temps[Temp(p.chunk, t)]);
    }
  }

  /** While a harmless call ends, the other calls on the chunk stay harmless. */
  lemma HarmlessOthers(s: Sys, k: nat, p: Place, t: TxnId, call: Call)
    requires Inv(s) && Enabled(s, Finish(k)) && Held(s, p, t) && p.node == s.calls[k].node
    requires p.chunk == s.calls[k].chunk ==> Harmless(s.nodes[p.node], s.calls[k], t)
    requires Place(call.node, call.chunk) == p && Harmless(s.nodes[p.node], call, t)
    ensures Harmless(AfterFinish(s, k).nodes[p.node], call, t)
  {
    FinishedShape(s.nodes[p.node], s.calls[k], s.committed);
    if p.chunk == s.calls[k].chunk {
      HarmlessEnd(s, k, p, t);
    }
  }

  lemma QuietFinish(s: Sys, k: nat, p: Place, t: TxnId)
    requires Inv(s) && Enabled(s, Finish(k)) && Held(s, p, t) && Quiet(s, p, t)
    ensures Quiet(AfterFinish(s, k), p, t) && !Overtaken(s, Finish(k), p)
  {
    var s' := AfterFinish(s, k);
    if s.calls[k].node == p.node {
      if s.calls[k].chunk == p.chunk {
        HarmlessEnd(s, k, p, t);
      }
      forall j | j in s'.calls && Place(s'.calls[j].node, s'.calls[j].chunk) == p
        ensures Harmless(s'.nodes[p.node], s'.calls[j], t)
      {
        HarmlessOthers(s, k, p, t, s.calls[j]);
      }
    }
  }

  lemma QuietAdd(s: Sys, k: nat, call: Call, p: Place, t: TxnId)
    requires Quiet(s, p, t) && (Place(call.node, call.chunk) == p ==> Harmless(s.nodes[p.node], call, t))
    ensures Quiet(s.(calls := s.calls[k := call]), p, t)
  {
  }

  lemma QuietLess(s: Sys, k: nat, p: Place, t: TxnId)
    requires Quiet(s, p, t)
    ensures Quiet(s.(calls := s.calls - {k}), p, t)
  {
  }

  /** Whoever looks the chunk up finds t. */
  lemma QuietTake(s: Sys, k: nat, kind: Kind, id: TxnId, v: NodeId, p: Place, t: TxnId)
    requires id in s.txns && v in s.nodes && !kind.Reading? && Held(s, p, t) && Quiet(s, p, t)
    ensures Quiet(AfterTake(s, k, kind, id, v), p, t)
  {
    QuietAdd(s, k, Taken(kind, v, s.txns[id].chunk, if Place(v, s.txns[id].chunk) == p then t else id), p, t);
  }

  lemma QuietTakeRead(s: Sys, k: nat, p: Place, t: TxnId)
    requires k in s.calls && s.calls[k].Missed? && s.calls[k].node in s.nodes && Held(s, p, t) && Quiet(s, p, t)
    ensures Quiet(AfterTakeRead(s, k), p, t)
  {
    var (v, c) := (s.calls[k].node, s.calls[k].chunk);
    QuietLess(s, k, p, t);
    if c in s.nodes[v].index {
      QuietAdd(s, k, Taken(Reading, v, c, s.nodes[v].index[c]), p, t);
    }
  }

  lemma QuietLook(s: Sys, a: Step, p: Place, t: TxnId)
    requires Enabled(s, a) && Looks(a) && Held(s, p, t) && Quiet(s, p, t)
    ensures Quiet(Next(s, a), p, t)
  {
    match a
    case TakeCommit(k, id, v) => QuietTake(s, k, Committing, id, v, p, t);
    case TakeAbort(k, id, v) => QuietTake(s, k, Aborting, id, v, p, t);
    case MissFinal(k, v, c) => QuietAdd(s, k, Missed(v, c), p, t);
    case TakeRead(k) => QuietTakeRead(s, k, p, t);
    case EndRead(k) => QuietLess(s, k, p, t);
  }

  /** Files of other transactions are new, so no call in progress waits for them. */
  lemma QuietFile(s: Sys, a: Step, p: Place, t: TxnId)
    requires Inv(s) && Enabled(s, a) && (a.WriteAt? || a.TearAt?) && Quiet(s, p, t)
    ensures Quiet(Next(s, a), p, t)
  {
    var s' := Next(s, a);
    forall j | j in s'.calls && Place(s'.calls[j].node, s'.calls[j].chunk) == p
      ensures Harmless(s'.nodes[p.node], s'.calls[j], t)
    {
      assert CallOk(s, s.calls[j]);
    }
  }

  /** The node has the same index entry, final file and temporary files of the chunk. */
  ghost predicate SameChunk(n: Chunks, n': Chunks, c: ChunkId) {
    && (c in n'.index <==> c in n.index) && (c in n'.finals <==> c in n.finals)
    && (forall t :: Temp(c, t) in n'.temps <==> Temp(c, t) in n.temps)
  }

  lemma QuietSame(s: Sys, s': Sys, p: Place, t: TxnId)
    requires Quiet(s, p, t) && p.node in s'.nodes && SameChunk(s.nodes[p.node], s'.nodes[p.node], p.chunk)
    requires forall k :: k in s'.calls ==> k in s.calls && s'.calls[k] == s.calls[k]
    ensures Quiet(s', p, t)
  {
  }

  lemma QuietRestart(s: Sys, v: NodeId, listing: seq<Temp>, p: Place, t: TxnId)
    requires v in s.nodes && Quiet(s, p, t)
    ensures Quiet(AfterRestart(s, v, listing), p, t)
  {
  }

  lemma QuietOther(s: Sys, a: Step, p: Place, t: TxnId)
    requires Enabled(s, a) && !Disturbs(s, a, p) && Quiet(s, p, t) && (Decides(a) || a.IndexAt? || a.DeleteAt?)
    ensures Quiet(Next(s, a), p, t)
  {
    QuietSame(s, Next(s, a), p, t);
  }

  lemma QuietStep(s: Sys, a: Step, p: Place, t: TxnId)
    requires Inv(s) && Enabled(s, a) && !Disturbs(s, a, p) && Held(s, p, t) && Quiet(s, p, t)
    ensures Quiet(Next(s, a), p, t) && !Overtaken(s, a, p)
  {
    if a.Finish? {
      QuietFinish(s, a.call, p, t);
    } else if Looks(a) {
      QuietLook(s, a, p, t);
    } else if a.WriteAt? || a.TearAt? {
      QuietFile(s, a, p, t);
    } else if a.RestartAt? {
      QuietRestart(s, a.node, a.listing, p, t);
    } else {
      QuietOther(s, a, p, t);
    }
  }

  /** While a live transaction is neither disturbed nor overtaken, it is held. */
  lemma HeldInRun(r: History, k: nat, i: nat, t: TxnId, v: NodeId)
    requires IsRun(r) && k < i < |r.states| && PreparedAt(r, k, t, v) && Alive(r.states[i], t)
    requires Undisturbed(r, k + 1, i, PlaceOf(r, k, t, v)) && NotOvertaken(r, k + 1, i, PlaceOf(r, k, t, v))
    ensures Inv(r.states[i]) && Held(r.states[i], PlaceOf(r, k, t, v), t)
  {
    var p := PlaceOf(r, k, t, v);
    RunKeeps(r, i);
    PreparedIsLatest(r, k, t, v);
    LatestPersists(r, k + 1, i, p, t);
    assert LatestOk(r.states[i], p, t);
  }

  lemma QuietRunStep(r: History, i: nat, j: nat, p: Place, t: TxnId)
    requires IsRun(r) && i + 1 == j < |r.states| && Inv(r.states[i]) && !Disturbs(r.states[i], r.steps[i], p)
    requires Held(r.states[i], p, t) && Quiet(r.states[i], p, t)
    ensures Quiet(r.states[j], p, t) && !Overtaken(r.states[i], r.steps[i], p)
  {
    RunStep(r, i, j);
    QuietStep(r.states[i], r.steps[i], p, t);
  }

  lemma NotOvertakenOn(r: History, i: nat, m: nat, j: nat, p: Place)
    requires NotOvertaken(r, i, m, p) && m + 1 == j < |r.states| && !Overtaken(r.states[m], r.steps[m], p)
    ensures NotOvertaken(r, i, j, p)
  {
  }

  lemma AliveEarlier(r: History, k: nat, i: nat, j: nat, t: TxnId)
    requires IsRun(r) && k <= i <= j < |r.states| && t in r.states[k].txns && Alive(r.states[j], t)
    ensures Alive(r.states[i], t)
  {
    PhasePersists(r, k, i, t);
    WasAlive(r, i, j, t);
  }

  lemma {:induction false} QuietPersists(r: History, k: nat, j: nat, t: TxnId, v: NodeId)
    requires IsRun(r) && k < j < |r.states| && PreparedAt(r, k, t, v) && Alive(r.states[j], t)
    requires Undisturbed(r, k + 1, j, PlaceOf(r, k, t, v)) && Quiet(r.states[k + 1], PlaceOf(r, k, t, v), t)
    ensures NotOvertaken(r, k + 1, j, PlaceOf(r, k, t, v)) && Quiet(r.states[j], PlaceOf(r, k, t, v), t)
    decreases j
  {
    var p := PlaceOf(r, k, t, v);
    if k + 1 < j {
      AliveEarlier(r, k, j - 1, j, t);
      QuietPersists(r, k, j - 1, t, v);
      HeldInRun(r, k, j - 1, t, v);
      QuietRunStep(r, j - 1, j, p, t);
      NotOvertakenOn(r, k + 1, j - 1, j, p);
    }
  }

  lemma {:induction false} PhasePersists(r: History, k: nat, j: nat, t: TxnId)
    requires IsRun(r) && k <= j < |r.states| && t in r.states[k].txns
    ensures t in r.states[j].phase
    decreases j
  {
    if k == j {
      RunKeeps(r, k);
    } else {
      PhasePersists(r, k, j - 1, t);
      PhaseStays(r, j - 1, j, t);
    }
  }

  /**
   * If no call on the chunk that could do harm is in progress at the node when it prepares the
   * write, an acknowledged write is held there until the chunk is disturbed. In particular it is
   * if no call on the chunk is in progress at all.
   */
  lemma QuietPrepareIsHeld(r: History, k: nat, j: nat, t: TxnId, v: NodeId)
    requires IsRun(r) && k < j && PreparedAt(r, k, t, v) && SucceededAt(r, j, t)
    requires Quiet(r.states[k + 1], PlaceOf(r, k, t, v), t) && Undisturbed(r, k + 1, j, PlaceOf(r, k, t, v))
    ensures v in r.states[j].nodes && r.states[j].txns[t] == r.states[k].txns[t]
    ensures Holds(r.states[j].nodes[v], r.states[k].txns[t].chunk, t, r.states[k].txns[t].data)
  {
    QuietPersists(r, k, j, t, v);
    AcknowledgedIsHeld(r, k, j, t, v);
  }

  /* ---------- The payload stays on disk ---------- */

  /** Step a makes the file of t at v final. */
  ghost predicate Finalises(s: Sys, a: Step, t: TxnId, v: NodeId) {
    && a.Finish? && a.call in s.calls && s.calls[a.call].Taken? && s.calls[a.call].txn == t && s.calls[a.call].node == v
    && v in s.nodes && Renames(s.nodes[v], s.calls[a.call], s.committed)
  }

  /** Step a puts another final file in the place, or removes it. */
  ghost predicate Replaces(s: Sys, a: Step, p: Place) {
    || a == DeleteAt(p.node, p.chunk)
    || (a.Finish? && a.call in s.calls && Place(s.calls[a.call].node, s.calls[a.call].chunk) == p
        && p.node in s.nodes && Renames(s.nodes[p.node], s.calls[a.call], s.committed))
  }

  lemma {:induction false} FinalisedInStep(r: History, j: nat, t: TxnId, v: NodeId) returns (i: nat)
    requires IsRun(r) && j < |r.states| && At(t, v) in r.states[j].finalised
    ensures i < j && Finalises(r.states[i], r.steps[i], t, v)
    decreases j
  {
    if j > 0 {
      RunStep(r, j - 1, j);
      if At(t, v) in r.states[j - 1].finalised {
        i := FinalisedInStep(r, j - 1, t, v);
      } else {
        i := j - 1;
      }
    }
  }

  lemma OthersKeepShown(s: Sys, a: Step)
    requires Enabled(s, a) && !a.Finish? && !a.DeleteAt?
    ensures Next(s, a).shown == s.shown
  {
  }

  lemma ShownStays(s: Sys, a: Step, p: Place)
    requires Enabled(s, a) && p in s.shown && !Replaces(s, a, p)
    ensures p in Next(s, a).shown && Next(s, a).shown[p] == s.shown[p]
  {
    if !a.Finish? && !a.DeleteAt? {
      OthersKeepShown(s, a);
    }
  }

  lemma ShownStep(r: History, i: nat, j: nat, p: Place)
    requires IsRun(r) && i + 1 == j < |r.states| && p in r.states[i].shown && !Replaces(r.states[i], r.steps[i], p)
    ensures p in r.states[j].shown && r.states[j].shown[p] == r.states[i].shown[p]
  {
    RunStep(r, i, j);
    ShownStays(r.states[i], r.steps[i], p);
  }

  ghost predicate NotReplaced(r: History, i: nat, j: nat, p: Place) {
    && j < |r.states| && |r.states| == |r.steps| + 1
    && forall m {:trigger r.steps[m]} :: i <= m < j ==> !Replaces(r.states[m], r.steps[m], p)
  }

  lemma {:induction false} ShownPersists(r: History, i: nat, j: nat, p: Place, t: TxnId)
    requires IsRun(r) && i <= j < |r.states| && p in r.states[i].shown && r.states[i].shown[p] == t
    requires NotReplaced(r, i, j, p)
    ensures p in r.states[j].shown && r.states[j].shown[p] == t
    decreases j
  {
    if i < j {
      ShownPersists(r, i, j - 1, p, t);
      ShownStep(r, j - 1, j, p);
    }
  }

  lemma FinalisedIsShown(r: History, i: nat, t: TxnId, v: NodeId)
    requires IsRun(r) && i < |r.steps| && Finalises(r.states[i], r.steps[i], t, v)
    ensures t in r.states[i].txns
    ensures var p := Place(v, r.states[i].txns[t].chunk); p in r.states[i + 1].shown && r.states[i + 1].shown[p] == t
  {
    RunKeeps(r, i);
    RunStep(r, i, i + 1);
    assert CallOk(r.states[i], r.states[i].calls[r.steps[i].call]);
  }

  lemma ShownBytes(s: Sys, p: Place, t: TxnId)
    requires Inv(s) && p.node in s.nodes && p in s.shown && s.shown[p] == t
    ensures t in s.txns && p.chunk in s.nodes[p.node].finals && s.nodes[p.node].finals[p.chunk] == s.txns[t].data
  {
    assert NodeOk(s, p.node, s.nodes[p.node]);
    assert FinalOk(s, p.node, p.chunk, s.nodes[p.node].finals[p.chunk]);
  }

  /** The bytes of an acknowledged write are a temporary file of the target, or were made its final file. */
  ghost predicate Survives(r: History, j: nat, t: TxnId, v: NodeId)
    requires j < |r.states| && |r.states| == |r.steps| + 1
  {
    || OnDisk(r.states[j], At(t, v))
    || exists i {:trigger r.steps[i]} ::
         0 <= i < j && Finalises(r.states[i], r.steps[i], t, v) && FinalSince(r, i, j, t, v)
  }

  /** The final file has the bytes of t, unless another one was put in its place after step i. */
  ghost predicate FinalSince(r: History, i: nat, j: nat, t: TxnId, v: NodeId)
    requires i < j < |r.states| && |r.states| == |r.steps| + 1
  {
    var s := r.states[j];
    && t in s.txns && v in s.nodes
    && var c := s.txns[t].chunk;
       || (c in s.nodes[v].finals && s.nodes[v].finals[c] == s.txns[t].data)
       || exists m {:trigger r.steps[m]} :: i < m < j && Replaces(r.states[m], r.steps[m], Place(v, c))
  }

  lemma FinalStays(r: History, i: nat, j: nat, t: TxnId, v: NodeId)
    requires IsRun(r) && i < j < |r.states| && Finalises(r.states[i], r.steps[i], t, v)
    ensures FinalSince(r, i, j, t, v)
  {
    FinalisedIsShown(r, i, t, v);
    Persists(r, i, j, t);
    var p := Place(v, r.states[j].txns[t].chunk);
    if NotReplaced(r, i + 1, j, p) {
      ShownPersists(r, i + 1, j, p, t);
      RunKeeps(r, j);
      ShownBytes(r.states[j], p, t);
    }
  }

  /** No interleaving of calls removes the bytes of an acknowledged write from any of its targets. */
  lemma PayloadSurvives(r: History, j: nat, t: TxnId, v: NodeId)
    requires IsRun(r) && SucceededAt(r, j, t) && v in r.states[j].txns[t].targets
    ensures Survives(r, j, t, v)
  {
    RunKeeps(r, j);
    assert TxnOk(r.states[j], t);
    CommittedSurvives(r, j, t, v);
  }

  /**
   * A committed transaction, acknowledged or not, is on disk or was made final at each of its
   * targets, unless the target has executed its abort.
   */
  lemma CommittedSurvives(r: History, j: nat, t: TxnId, v: NodeId)
    requires IsRun(r) && j < |r.states| && t in r.states[j].committed && t in r.states[j].txns
    requires v in r.states[j].txns[t].targets && At(t, v) !in r.states[j].dropped
    ensures Survives(r, j, t, v)
  {
    var s := r.states[j];
    RunKeeps(r, j);
    assert TxnOk(s, t) && At(t, v) in s.ready;
    if !OnDisk(s, At(t, v)) {
      var i := FinalisedInStep(r, j, t, v);
      FinalStays(r, i, j, t, v);
    }
  }

  /* ---------- Reads ---------- */

  /** Bytes that some committed transaction prepared for the chunk. */
  ghost predicate CommittedBytes(s: Sys, chunk: ChunkId, data: Bytes) {
    exists t :: t in s.committed && t in s.txns && s.txns[t].chunk == chunk && s.txns[t].data == data
  }

  /** A final file always has the bytes of a committed transaction. */
  lemma FinalsAreCommitted(r: History, i: nat, v: NodeId, c: ChunkId)
    requires IsRun(r) && i < |r.states| && v in r.states[i].nodes && c in r.states[i].nodes[v].finals
    ensures CommittedBytes(r.states[i], c, r.states[i].nodes[v].finals[c])
  {
    RunKeeps(r, i);
    assert NodeOk(r.states[i], v, r.states[i].nodes[v]);
    assert FinalOk(r.states[i], v, c, r.states[i].nodes[v].finals[c]);
  }

  /**
   * What a read returns at its end was committed, whatever came between its halves, whatever the
   * node's metadata say of the transaction it found, as long as they call none committed that is
   * not, and however old the entry is.
   */
  lemma ReadsAreCommitted(r: History, i: nat, k: nat, intent: Intent, expired: bool)
    requires IsRun(r) && i < |r.states| && k in r.states[i].calls && r.states[i].calls[k].Taken?
    requires r.states[i].calls[k].node in r.states[i].nodes
    requires intent.Committed? ==> r.states[i].calls[k].txn in r.states[i].committed
    ensures var (s, call) := (r.states[i], r.states[i].calls[k]);
            var result := FinishRead(s.nodes[call.node], call.txn, call.chunk, intent, expired).1;
            result.Found? ==> CommittedBytes(s, call.chunk, result.data)
  {
    var (s, call) := (r.states[i], r.states[i].calls[k]);
    RunKeeps(r, i);
    FinishReadRule(s.nodes[call.node], call.txn, call.chunk, intent, expired);
    if call.chunk in s.nodes[call.node].finals {
      FinalsAreCommitted(r, i, call.node, call.chunk);
    } else if FinishRead(s.nodes[call.node], call.txn, call.chunk, intent, expired).1.Found? {
      CommittedIsWhole(s, call.node, call.chunk, call.txn);
    }
  }

  /** The same for a read with nothing between its halves. */
  lemma WholeReadsAreCommitted(r: History, i: nat, v: NodeId, c: ChunkId, intent: Intent, expired: bool)
    requires IsRun(r) && i < |r.states| && v in r.states[i].nodes
    requires intent.Committed? ==>
               c in r.states[i].nodes[v].index && r.states[i].nodes[v].index[c] in r.states[i].committed
    ensures var result := Read(r.states[i].nodes[v], c, intent, expired).1;
            result.Found? ==> CommittedBytes(r.states[i], c, result.data)
  {
    var s := r.states[i];
    RunKeeps(r, i);
    ReadRule(s.nodes[v], c, intent, expired);
    if c in s.nodes[v].finals {
      FinalsAreCommitted(r, i, v, c);
    } else if Read(s.nodes[v], c, intent, expired).1.Found? {
      CommittedIsWhole(s, v, c, s.nodes[v].index[c]);
    }
  }

  /** What a node has as final file of a chunk. */
  ghost function FinalOf(n: Chunks, c: ChunkId): Option<Bytes> {
    if c in n.finals then Some(n.finals[c]) else None
  }

  ghost predicate FinalisedBetween(r: History, i: nat, j: nat, t: TxnId, v: NodeId)
    requires j < |r.states| && |r.states| == |r.steps| + 1
  {
    exists m {:trigger r.steps[m]} :: i <= m < j && Finalises(r.states[m], r.steps[m], t, v)
  }

  lemma FinishKeepsFinal(s: Sys, k: nat, p: Place, t: TxnId)
    requires Inv(s) && Enabled(s, Finish(k)) && Held(s, p, t) && !Overtaken(s, Finish(k), p)
    requires !Finalises(s, Finish(k), t, p.node)
    ensures FinalOf(AfterFinish(s, k).nodes[p.node], p.chunk) == FinalOf(s.nodes[p.node], p.chunk)
  {
    if s.calls[k].node == p.node {
      FinishedShape(s.nodes[p.node], s.calls[k], s.committed);
    }
  }

  lemma OtherKeepsFinal(s: Sys, a: Step, p: Place)
    requires Enabled(s, a) && !a.Finish? && p.node in s.nodes && !Disturbs(s, a, p)
    ensures p.node in Next(s, a).nodes
    ensures FinalOf(Next(s, a).nodes[p.node], p.chunk) == FinalOf(s.nodes[p.node], p.chunk)
  {
  }

  lemma FinalFileStep(r: History, i: nat, j: nat, p: Place, t: TxnId)
    requires IsRun(r) && i + 1 == j < |r.states| && Inv(r.states[i]) && Held(r.states[i], p, t)
    requires !Disturbs(r.states[i], r.steps[i], p) && !Overtaken(r.states[i], r.steps[i], p)
    requires !Finalises(r.states[i], r.steps[i], t, p.node)
    ensures p.node in r.states[j].nodes
    ensures FinalOf(r.states[j].nodes[p.node], p.chunk) == FinalOf(r.states[i].nodes[p.node], p.chunk)
  {
    RunStep(r, i, j);
    if r.steps[i].Finish? {
      FinishKeepsFinal(r.states[i], r.steps[i].call, p, t);
    } else {
      OtherKeepsFinal(r.states[i], r.steps[i], p);
    }
  }

  lemma IndexKeepsFinals(r: History, k: nat, j: nat, t: TxnId, v: NodeId)
    requires IsRun(r) && k + 1 == j && PreparedAt(r, k, t, v)
    ensures v in r.states[j].nodes && v in r.states[k].nodes
    ensures r.states[j].nodes[v].finals == r.states[k].nodes[v].finals
  {
    RunStep(r, k, j);
  }

  /** Until the prepared file is made final, the final file is the one that was there before. */
  lemma {:induction false} FinalFileSince(r: History, k: nat, j: nat, t: TxnId, v: NodeId)
    requires IsRun(r) && k < j < |r.states| && PreparedAt(r, k, t, v) && Alive(r.states[j], t)
    requires Undisturbed(r, k + 1, j, PlaceOf(r, k, t, v)) && NotOvertaken(r, k + 1, j, PlaceOf(r, k, t, v))
    requires !FinalisedBetween(r, k + 1, j, t, v)
    ensures v in r.states[j].nodes && v in r.states[k].nodes
    ensures var c := r.states[k].txns[t].chunk; FinalOf(r.states[j].nodes[v], c) == FinalOf(r.states[k].nodes[v], c)
    decreases j
  {
    var p := PlaceOf(r, k, t, v);
    if k + 1 == j {
      IndexKeepsFinals(r, k, j, t, v);
    } else {
      AliveEarlier(r, k, j - 1, j, t);
      FinalFileSince(r, k, j - 1, t, v);
      HeldInRun(r, k, j - 1, t, v);
      FinalFileStep(r, j - 1, j, p, t);
    }
  }

  /** Once made final, the file stays until the chunk is prepared again. */
  lemma FinalisedStays(r: History, k: nat, i: nat, j: nat, t: TxnId, v: NodeId)
    requires IsRun(r) && k < i < j < |r.states| && PreparedAt(r, k, t, v) && SucceededAt(r, j, t)
    requires Undisturbed(r, k + 1, j, PlaceOf(r, k, t, v)) && NotOvertaken(r, k + 1, j, PlaceOf(r, k, t, v))
    requires Finalises(r.states[i], r.steps[i], t, v)
    ensures v in r.states[j].nodes
    ensures FinalOf(r.states[j].nodes[v], r.states[k].txns[t].chunk) == Some(r.states[k].txns[t].data)
  {
    var (p, s) := (PlaceOf(r, k, t, v), r.states[j]);
    AcknowledgedIsHeld(r, k, j, t, v);
    RunKeeps(r, j);
    FinalisedLast(r, i, j, t, v);
    FinalisedIsGone(s, p.chunk, t, v);
    ShownBytes(s, p, t);
  }

  lemma FinalisedIsGone(s: Sys, c: ChunkId, t: TxnId, v: NodeId)
    requires Inv(s) && v in s.nodes && At(t, v) in s.finalised
    ensures c in s.nodes[v].index ==> s.nodes[v].index[c] != t
  {
    var n := s.nodes[v];
    assert NodeOk(s, v, n);
    assert c in n.index ==> TempOk(s, v, Temp(c, n.index[c]), n.temps[Temp(c, n.index[c])]);
  }

  lemma FinalisedGrows(s: Sys, a: Step)
    requires Enabled(s, a)
    ensures s.finalised <= Next(s, a).finalised
  {
  }

  lemma FinalisesNow(s: Sys, a: Step, t: TxnId, v: NodeId)
    requires Enabled(s, a) && Finalises(s, a, t, v)
    ensures At(t, v) in Next(s, a).finalised
  {
  }

  lemma {:induction false} FinalisedLast(r: History, i: nat, j: nat, t: TxnId, v: NodeId)
    requires IsRun(r) && i < j < |r.states| && Finalises(r.states[i], r.steps[i], t, v)
    ensures At(t, v) in r.states[j].finalised
    decreases j
  {
    RunStep(r, j - 1, j);
    if i + 1 == j {
      FinalisesNow(r.states[i], r.steps[i], t, v);
    } else {
      FinalisedLast(r, i, j - 1, t, v);
      FinalisedGrows(r.states[j - 1], r.steps[j - 1]);
    }
  }

  /**
   * A node that prepared an acknowledged write, undisturbed since, serves it on a read if and only
   * if the file was made final there, or no other bytes were the final file when it was prepared.
   */
  lemma ReadIsFreshIff(r: History, k: nat, j: nat, t: TxnId, v: NodeId)
    requires IsRun(r) && k < j && PreparedAt(r, k, t, v) && SucceededAt(r, j, t)
    requires Undisturbed(r, k + 1, j, PlaceOf(r, k, t, v)) && NotOvertaken(r, k + 1, j, PlaceOf(r, k, t, v))
    ensures v in r.states[j].nodes && v in r.states[k].nodes
    ensures var (c, data) := (r.states[k].txns[t].chunk, r.states[k].txns[t].data);
            Read(r.states[j].nodes[v], c, Committed, false).1 == Found(data)
            <==> FinalisedBetween(r, k + 1, j, t, v) || FinalOf(r.states[k].nodes[v], c) in {None, Some(data)}
  {
    var (c, data) := (r.states[k].txns[t].chunk, r.states[k].txns[t].data);
    AcknowledgedIsHeld(r, k, j, t, v);
    Persists(r, k, j, t);
    if FinalisedBetween(r, k + 1, j, t, v) {
      var i :| k + 1 <= i < j && Finalises(r.states[i], r.steps[i], t, v);
      FinalisedStays(r, k, i, j, t, v);
    } else {
      FinalFileSince(r, k, j, t, v);
    }
  }
}
