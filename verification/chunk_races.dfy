/** Runs of the chunk protocol on one node in which an acknowledged write is lost or not served. */
module ChunkRaces {
  import opened Basics
  import opened FileBytes
  import opened ChunkStore
  import opened ChunkProtocol
  import opened ChunkProtocolProof
  import opened ChunkTheorems

  /* ---------- Building a run step by step ---------- */

  ghost function Last(r: History): Sys
    requires |r.states| > 0
  {
    r.states[|r.states| - 1]
  }

  lemma Go(r: History, a: Step) returns (q: History)
    requires IsRun(r) && Enabled(Last(r), a)
    ensures IsRun(q) && Last(q) == Next(Last(r), a) && q.steps == r.steps + [a] && q.states == r.states + [Last(q)]
  {
    var s := Next(Last(r), a);
    q := History(r.states + [s], r.steps + [a]);
    forall i {:trigger q.steps[i]} | 0 <= i < |q.steps|
      ensures Enabled(q.states[i], q.steps[i]) && q.states[i + 1] == Next(q.states[i], q.steps[i])
    {
      if i < |r.steps| {
        RunStep(r, i, i + 1);
      } else {
        assert q.states[i] == Last(r) && q.states[i + 1] == s;
      }
    }
  }

  ghost predicate Extends(q: History, r: History) {
    r.states <= q.states && |r.states| < |q.states|
  }

  const V: NodeId := "v"

  /** A transaction that has been prepared at the only node, and one that has been acknowledged too. */
  ghost predicate IsPrepared(s: Sys, t: TxnId) {
    && t in s.txns && t in s.phase && s.txns[t].targets == {V} && At(t, V) in s.ready
    && (s.phase[t].Succeeded? ==> t in s.committed && CommitNote(V, t) in s.net)
  }

  /** The only node has these files and calls, and every transaction begun so far is prepared. */
  ghost predicate Stands(r: History, n: Chunks, calls: map<nat, Call>, txns: map<TxnId, Txn>) {
    && IsRun(r) && Last(r).nodes == map[V := n] && Last(r).calls == calls && Last(r).txns == txns
    && (forall t :: t in txns ==> IsPrepared(Last(r), t))
    && (forall x :: x in Last(r).tried ==> x.txn in txns) && Last(r).written == {}
  }

  lemma Start() returns (r: History)
    ensures Stands(r, Chunks(map[], map[], map[]), map[], map[]) && r.steps == []
  {
    var n := Chunks(map[], map[], map[]);
    r := History([Sys(map[V := n], map[], map[], map[], {}, {}, {}, {}, {}, {}, {}, {}, map[], map[])], []);
  }

  ghost function PreparedState(s: Sys, n: Chunks, id: TxnId, c: ChunkId, data: Bytes): Sys {
    s.(nodes := map[V := Prepare(n, id, c, data)], txns := s.txns[id := Txn(c, {V}, data)],
       phase := s.phase[id := Preparing], tried := s.tried + {At(id, V)},
       ready := s.ready + {At(id, V)}, latest := s.latest[Place(V, c) := id])
  }

  ghost function WrittenState(s: Sys, n: Chunks, id: TxnId, c: ChunkId, data: Bytes): Sys {
    s.(nodes := map[V := PrepareTorn(n, id, c, data)], txns := s.txns[id := Txn(c, {V}, data)],
       phase := s.phase[id := Preparing], tried := s.tried + {At(id, V)}, written := {At(id, V)})
  }

  lemma WriteSteps(s: Sys, n: Chunks, id: TxnId, c: ChunkId, data: Bytes)
    requires s.nodes == map[V := n] && id !in s.txns && At(id, V) !in s.tried && s.written == {}
    ensures Enabled(s, Begin(id, Txn(c, {V}, data)))
    ensures var s1 := Next(s, Begin(id, Txn(c, {V}, data)));
            Enabled(s1, WriteAt(id, V)) && Next(s1, WriteAt(id, V)) == WrittenState(s, n, id, c, data)
  {
    assert map[V := n][V := PrepareTorn(n, id, c, data)] == map[V := PrepareTorn(n, id, c, data)];
  }

  lemma IndexSteps(s: Sys, n: Chunks, id: TxnId, c: ChunkId, data: Bytes)
    requires s.written == {}
    ensures var s2 := WrittenState(s, n, id, c, data);
            Enabled(s2, IndexAt(id, V, true)) && Next(s2, IndexAt(id, V, true)) == PreparedState(s, n, id, c, data)
  {
    var s2 := WrittenState(s, n, id, c, data);
    assert Next(s2, IndexAt(id, V, true)).nodes == map[V := Prepare(n, id, c, data)];
    assert s2.written - {At(id, V)} == {};
  }

  lemma PreparedStands(s: Sys, n: Chunks, id: TxnId, c: ChunkId, data: Bytes)
    requires (forall t :: t in s.txns ==> IsPrepared(s, t)) && id !in s.txns
    ensures var s' := PreparedState(s, n, id, c, data); forall t :: t in s'.txns ==> IsPrepared(s', t)
  {
    var s' := PreparedState(s, n, id, c, data);
    forall t | t in s'.txns ensures IsPrepared(s', t) {
      assert t != id ==> IsPrepared(s, t);
    }
  }

  /** A write begins, and the node writes and indexes its file; the coordinator still has to decide. */
  lemma Prepares(r: History, n: Chunks, calls: map<nat, Call>, txns: map<TxnId, Txn>, id: TxnId, c: ChunkId,
                 data: Bytes)
      returns (q: History)
    requires Stands(r, n, calls, txns) && id !in txns
    ensures Stands(q, Prepare(n, id, c, data), calls, txns[id := Txn(c, {V}, data)])
    ensures Last(q).phase == Last(r).phase[id := Preparing] && Last(q).committed == Last(r).committed
    ensures q.steps == r.steps + [Begin(id, Txn(c, {V}, data)), WriteAt(id, V), IndexAt(id, V, true)]
    ensures PreparedAt(q, |q.steps| - 1, id, V) && PlaceOf(q, |q.steps| - 1, id, V) == Place(V, c) && Extends(q, r)
  {
    WriteSteps(Last(r), n, id, c, data);
    IndexSteps(Last(r), n, id, c, data);
    PreparedStands(Last(r), n, id, c, data);
    q := Go(r, Begin(id, Txn(c, {V}, data)));
    q := Go(q, WriteAt(id, V));
    q := Go(q, IndexAt(id, V, true));
  }

  /** The commit is replicated, the caller is told, and the notification is sent. */
  lemma Succeeds(r: History, n: Chunks, calls: map<nat, Call>, txns: map<TxnId, Txn>, id: TxnId) returns (q: History)
    requires Stands(r, n, calls, txns) && id in txns && id in Last(r).phase && Last(r).phase[id].Preparing?
    ensures Stands(q, n, calls, txns) && Last(q).phase == Last(r).phase[id := Succeeded]
    ensures q.steps == r.steps + [ReplicateOk(id)] && q.states == r.states + [Last(q)]
  {
    assert IsPrepared(Last(r), id);
    q := Go(r, ReplicateOk(id));
    var s := Last(q);
    assert CommitNote(V, id) in Notes(Last(r), id, true);
    forall t | t in s.txns ensures IsPrepared(s, t) {
      assert IsPrepared(Last(r), t);
    }
  }

  /** The notification arrives and finds its transaction in the index. */
  lemma Takes(r: History, n: Chunks, calls: map<nat, Call>, txns: map<TxnId, Txn>, id: TxnId,
              k: nat) returns (q: History)
    requires Stands(r, n, calls, txns) && id in txns && id in Last(r).phase && Last(r).phase[id].Succeeded?
    requires txns[id].chunk in n.index && n.index[txns[id].chunk] == id
    requires k !in calls && (forall j :: j in calls ==> calls[j].Missed?)
    ensures Stands(q, n, calls[k := Taken(Committing, V, txns[id].chunk, id)], txns)
    ensures Last(q).phase == Last(r).phase && Last(q).committed == Last(r).committed
    ensures q.steps == r.steps + [TakeCommit(k, id, V)] && q.states == r.states + [Last(q)]
  {
    assert IsPrepared(Last(r), id);
    q := Go(r, TakeCommit(k, id, V));
    forall t | t in txns ensures IsPrepared(Last(q), t) {
      assert IsPrepared(Last(r), t);
    }
  }

  lemma Ends(r: History, n: Chunks, calls: map<nat, Call>, txns: map<TxnId, Txn>, k: nat) returns (q: History)
    requires Stands(r, n, calls, txns) && k in calls && CanFinish(Last(r), calls[k]) && calls[k].node == V
    ensures Stands(q, Finished(n, calls[k], Last(r).committed), calls - {k}, txns)
    ensures Last(q).phase == Last(r).phase && Last(q).committed == Last(r).committed
    ensures q.steps == r.steps + [Finish(k)] && q.states == r.states + [Last(q)]
  {
    q := Go(r, Finish(k));
    forall t | t in txns ensures IsPrepared(Last(q), t) {
      assert IsPrepared(Last(r), t);
    }
  }

  /** Prepared and acknowledged. */
  lemma Acknowledges(r: History, n: Chunks, calls: map<nat, Call>, txns: map<TxnId, Txn>, id: TxnId, c: ChunkId,
                     data: Bytes)
      returns (q: History)
    requires Stands(r, n, calls, txns) && id !in txns
    ensures Stands(q, Prepare(n, id, c, data), calls, txns[id := Txn(c, {V}, data)])
    ensures Last(q).phase == Last(r).phase[id := Succeeded] && Extends(q, r)
  {
    q := Prepares(r, n, calls, txns, id, c, data);
    q := Succeeds(q, Prepare(n, id, c, data), calls, txns[id := Txn(c, {V}, data)], id);
  }

  /** The notification of an acknowledged write is delivered, with nothing in between. */
  lemma Delivers(r: History, n: Chunks, txns: map<TxnId, Txn>, id: TxnId, c: ChunkId) returns (q: History)
    requires Stands(r, n, map[], txns) && id in txns && id in Last(r).phase && Last(r).phase[id].Succeeded?
    requires txns[id].chunk == c && c in n.index && n.index[c] == id
    ensures Stands(q, Finalize(n, id, c), map[], txns) && Last(q).phase == Last(r).phase && Extends(q, r)
  {
    var call := Taken(Committing, V, c, id);
    q := Takes(r, n, map[], txns, id, 0);
    assert map[][0 := call] == map[0 := call];
    q := Ends(q, n, map[0 := call], txns, 0);
    assert map[0 := call] - {0} == map[];
  }

  lemma Writes(r: History, n: Chunks, txns: map<TxnId, Txn>, id: TxnId, c: ChunkId, data: Bytes) returns (q: History)
    requires Stands(r, n, map[], txns) && id !in txns
    ensures Stands(q, Finalize(Prepare(n, id, c, data), id, c), map[], txns[id := Txn(c, {V}, data)])
    ensures Last(q).phase == Last(r).phase[id := Succeeded] && Extends(q, r)
  {
    q := Acknowledges(r, n, map[], txns, id, c, data);
    q := Delivers(q, Prepare(n, id, c, data), txns[id := Txn(c, {V}, data)], id, c);
  }

  /* ---------- A commit overtakes the next write ---------- */

  const C: ChunkId := "c"

  /**
   * The node as a write leaves it whose entry another call has deleted: an older final file and a
   * file nobody knows.
   */
  ghost function Overtook(older: Bytes, newer: Bytes): Chunks {
    Chunks(map[], map[Temp(C, "t2") := newer], map[C := older])
  }

  /** The first write is acknowledged, and its commit has looked up the entry. */
  lemma FirstTaken(older: Bytes) returns (r: History)
    ensures Stands(r, Chunks(map[C := "t1"], map[Temp(C, "t1") := older], map[]),
                   map[0 := Taken(Committing, V, C, "t1")], map["t1" := Txn(C, {V}, older)])
    ensures Last(r).phase == map["t1" := Succeeded] && "t1" in Last(r).committed
  {
    var empty := Chunks(map[], map[], map[]);
    r := Start();
    r := Acknowledges(r, empty, map[], map[], "t1", C, older);
    var (n, txns) := (Chunks(map[C := "t1"], map[Temp(C, "t1") := older], map[]), map["t1" := Txn(C, {V}, older)]);
    assert Prepare(empty, "t1", C, older) == n && map[]["t1" := Txn(C, {V}, older)] == txns;
    r := Takes(r, n, map[], txns, "t1", 0);
    assert map[][0 := Taken(Committing, V, C, "t1")] == map[0 := Taken(Committing, V, C, "t1")];
    assert IsPrepared(Last(r), "t1");
  }

  ghost function Both(older: Bytes, newer: Bytes): map<TxnId, Txn> {
    map["t1" := Txn(C, {V}, older), "t2" := Txn(C, {V}, newer)]
  }

  /** The second write is prepared while that commit is on its way. */
  lemma SecondPrepared(older: Bytes, newer: Bytes) returns (r: History)
    ensures var n := Chunks(map[C := "t2"], map[Temp(C, "t1") := older, Temp(C, "t2") := newer], map[]);
            Stands(r, n, map[0 := Taken(Committing, V, C, "t1")], Both(older, newer))
    ensures Last(r).phase == map["t1" := Succeeded, "t2" := Preparing]
    ensures |r.steps| > 0 && PreparedAt(r, |r.steps| - 1, "t2", V) && PlaceOf(r, |r.steps| - 1, "t2", V) == Place(V, C)
  {
    var (n, call) := (Chunks(map[C := "t1"], map[Temp(C, "t1") := older], map[]), Taken(Committing, V, C, "t1"));
    r := FirstTaken(older);
    r := Prepares(r, n, map[0 := call], map["t1" := Txn(C, {V}, older)], "t2", C, newer);
    var n2 := Chunks(map[C := "t2"], map[Temp(C, "t1") := older, Temp(C, "t2") := newer], map[]);
    assert Prepare(n, "t2", C, newer) == n2;
    assert map["t1" := Txn(C, {V}, older)]["t2" := Txn(C, {V}, newer)] == Both(older, newer);
    assert map["t1" := Succeeded]["t2" := Preparing] == map["t1" := Succeeded, "t2" := Preparing];
  }

  lemma PreparedStays(r: History, q: History, k: nat, t: TxnId)
    requires IsRun(r) && PreparedAt(r, k, t, V) && r.steps <= q.steps && r.states <= q.states
    requires |q.states| == |q.steps| + 1
    ensures PreparedAt(q, k, t, V) && PlaceOf(q, k, t, V) == PlaceOf(r, k, t, V)
  {
  }

  /** Then the commit ends. */
  lemma FirstEnds(older: Bytes, newer: Bytes) returns (r: History, k: nat)
    ensures Stands(r, Overtook(older, newer), map[], Both(older, newer))
    ensures Last(r).phase == map["t1" := Succeeded, "t2" := Preparing]
    ensures PreparedAt(r, k, "t2", V) && PlaceOf(r, k, "t2", V) == Place(V, C) && r.steps[k + 1..] == [Finish(0)]
  {
    var calls := map[0 := Taken(Committing, V, C, "t1")];
    var n := Chunks(map[C := "t2"], map[Temp(C, "t1") := older, Temp(C, "t2") := newer], map[]);
    var q := SecondPrepared(older, newer);
    k := |q.steps| - 1;
    r := Ends(q, n, calls, Both(older, newer), 0);
    PreparedStays(q, r, k, "t2");
    assert calls - {0} == map[];
    assert Finalize(n, "t1", C) == Overtook(older, newer);
  }

  /** A file that is still temporary is not the final one. */
  lemma PreparedIsNotShown(s: Sys, v: NodeId, c: ChunkId, t: TxnId)
    requires Inv(s) && v in s.nodes && Temp(c, t) in s.nodes[v].temps && c in s.nodes[v].finals
    ensures Place(v, c) in s.shown && s.shown[Place(v, c)] != t
  {
    assert NodeOk(s, v, s.nodes[v]);
    assert FinalOk(s, v, c, s.nodes[v].finals[c]);
    assert TempOk(s, v, Temp(c, t), s.nodes[v].temps[Temp(c, t)]);
  }

  /** Neither the end of a call nor a decision disturbs a chunk. */
  lemma CalmSince(r: History, k: nat, p: Place, rest: seq<Step>)
    requires |r.states| == |r.steps| + 1 && k < |r.steps| && r.steps[k + 1..] == rest
    requires forall i :: 0 <= i < |rest| ==> rest[i].Finish? || rest[i].ReplicateOk? || rest[i].TakeRead?
    ensures Undisturbed(r, k + 1, |r.states| - 1, p)
  {
    forall i {:trigger r.steps[i]} | k + 1 <= i < |r.states| - 1 ensures !Disturbs(r.states[i], r.steps[i], p) {
      assert r.steps[i] == rest[i - k - 1];
    }
  }

  lemma OvertookServes(older: Bytes, newer: Bytes)
    ensures var n := Overtook(older, newer);
            Commit(n, "t2", C) == (n, true) && Read(n, C, Committed, false).1 == Found(older)
  {
  }

  /**
   * A commit between its look-up and its end, and a prepare of the next write meanwhile: the write
   * is acknowledged, nothing disturbs the chunk after its prepare, and yet its entry is gone. Its
   * own commit then changes nothing and reports success, and reads go on serving the older bytes.
   */
  lemma CommitOvertakesPrepare(older: Bytes, newer: Bytes) returns (r: History, k: nat)
    ensures IsRun(r) && PreparedAt(r, k, "t2", V) && k < |r.states| - 1 && SucceededAt(r, |r.states| - 1, "t2")
    ensures Undisturbed(r, k + 1, |r.states| - 1, PlaceOf(r, k, "t2", V))
    ensures !Held(Last(r), PlaceOf(r, k, "t2", V), "t2")
    ensures V in Last(r).nodes && Last(r).txns["t2"].data == newer
    ensures Commit(Last(r).nodes[V], "t2", C) == (Last(r).nodes[V], true)
    ensures Read(Last(r).nodes[V], C, Committed, false).1 == Found(older)
  {
    var q;
    q, k := FirstEnds(older, newer);
    r := Succeeds(q, Overtook(older, newer), map[], Both(older, newer), "t2");
    PreparedStays(q, r, k, "t2");
    CalmSince(r, k, Place(V, C), [Finish(0), ReplicateOk("t2")]);
    RunKeeps(r, |r.states| - 1);
    PreparedIsNotShown(Last(r), V, C, "t2");
    OvertookServes(older, newer);
  }

  /* ---------- A read overtakes a write ---------- */

  lemma Misses(r: History, n: Chunks, calls: map<nat, Call>, txns: map<TxnId, Txn>, k: nat,
               c: ChunkId) returns (q: History)
    requires Stands(r, n, calls, txns) && k !in calls && c !in n.finals
    ensures Stands(q, n, calls[k := Missed(V, c)], txns)
    ensures Last(q).phase == Last(r).phase && q.steps == r.steps + [MissFinal(k, V, c)]
    ensures q.states == r.states + [Last(q)]
  {
    q := Go(r, MissFinal(k, V, c));
    forall t | t in txns ensures IsPrepared(Last(q), t) {
      assert IsPrepared(Last(r), t);
    }
  }

  lemma LooksUp(r: History, n: Chunks, calls: map<nat, Call>, txns: map<TxnId, Txn>, k: nat,
                c: ChunkId) returns (q: History)
    requires Stands(r, n, calls, txns) && k in calls && calls[k] == Missed(V, c) && c in n.index
    ensures Stands(q, n, calls[k := Taken(Reading, V, c, n.index[c])], txns) && Last(q).committed == Last(r).committed
    ensures Last(q).phase == Last(r).phase && q.steps == r.steps + [TakeRead(k)] && q.states == r.states + [Last(q)]
  {
    q := Go(r, TakeRead(k));
    forall t | t in txns ensures IsPrepared(Last(q), t) {
      assert IsPrepared(Last(r), t);
    }
  }

  /** A read misses the final file; then the first write is made final. */
  lemma ReadMisses(older: Bytes) returns (r: History)
    ensures Stands(r, Chunks(map[], map[], map[C := older]), map[0 := Missed(V, C)], map["t1" := Txn(C, {V}, older)])
    ensures Last(r).phase == map["t1" := Succeeded]
  {
    var empty := Chunks(map[], map[], map[]);
    var (n, txns) := (Chunks(map[C := "t1"], map[Temp(C, "t1") := older], map[]), map["t1" := Txn(C, {V}, older)]);
    var missed, taken := map[0 := Missed(V, C)], map[0 := Missed(V, C), 1 := Taken(Committing, V, C, "t1")];
    r := Start();
    r := Acknowledges(r, empty, map[], map[], "t1", C, older);
    assert Prepare(empty, "t1", C, older) == n && map[]["t1" := Txn(C, {V}, older)] == txns;
    r := Misses(r, n, map[], txns, 0, C);
    assert map[][0 := Missed(V, C)] == missed;
    r := Takes(r, n, missed, txns, "t1", 1);
    assert missed[1 := Taken(Committing, V, C, "t1")] == taken;
    assert IsPrepared(Last(r), "t1");
    r := Ends(r, n, taken, txns, 1);
    assert taken - {1} == missed && Finalize(n, "t1", C) == Chunks(map[], map[], map[C := older]);
  }

  /** The second write is prepared and acknowledged before the read goes on. */
  lemma SecondBehindRead(older: Bytes, newer: Bytes) returns (r: History, k: nat)
    ensures var n := Chunks(map[C := "t2"], map[Temp(C, "t2") := newer], map[C := older]);
            Stands(r, n, map[0 := Missed(V, C)], Both(older, newer))
    ensures Last(r).phase == map["t1" := Succeeded, "t2" := Succeeded] && "t2" in Last(r).committed
    ensures PreparedAt(r, k, "t2", V) && PlaceOf(r, k, "t2", V) == Place(V, C)
    ensures r.steps[k + 1..] == [ReplicateOk("t2")]
  {
    var (n1, missed) := (Chunks(map[], map[], map[C := older]), map[0 := Missed(V, C)]);
    var n2 := Chunks(map[C := "t2"], map[Temp(C, "t2") := newer], map[C := older]);
    r := ReadMisses(older);
    var q := Prepares(r, n1, missed, map["t1" := Txn(C, {V}, older)], "t2", C, newer);
    k := |q.steps| - 1;
    assert map["t1" := Txn(C, {V}, older)]["t2" := Txn(C, {V}, newer)] == Both(older, newer);
    assert Prepare(n1, "t2", C, newer) == n2;
    r := Succeeds(q, n2, missed, Both(older, newer), "t2");
    PreparedStays(q, r, k, "t2");
    assert IsPrepared(Last(r), "t2");
  }

  /** The read goes on: it finds the second write in the index, and then a final file in front of it. */
  lemma ReadGoesOn(older: Bytes, newer: Bytes) returns (r: History, k: nat)
    ensures Stands(r, Overtook(older, newer), map[], Both(older, newer))
    ensures Last(r).phase == map["t1" := Succeeded, "t2" := Succeeded]
    ensures PreparedAt(r, k, "t2", V) && PlaceOf(r, k, "t2", V) == Place(V, C)
    ensures r.steps[k + 1..] == [ReplicateOk("t2"), TakeRead(0), Finish(0)]
  {
    var (n, call) := (Chunks(map[C := "t2"], map[Temp(C, "t2") := newer], map[C := older]), Taken(Reading, V, C, "t2"));
    var q0, q1;
    q0, k := SecondBehindRead(older, newer);
    q1 := LooksUp(q0, n, map[0 := Missed(V, C)], Both(older, newer), 0, C);
    assert map[0 := Missed(V, C)][0 := call] == map[0 := call];
    r := Ends(q1, n, map[0 := call], Both(older, newer), 0);
    PreparedStays(q0, r, k, "t2");
    assert map[0 := call] - {0} == map[];
    assert Finished(n, call, Last(q1).committed) == Overtook(older, newer);
  }

  /**
   * No call has looked anything up when the write is prepared; a read has only missed the final
   * file that has appeared since. The write is acknowledged, and then the read deletes its entry.
   */
  lemma ReadOvertakesPrepare(older: Bytes, newer: Bytes) returns (r: History, k: nat)
    ensures IsRun(r) && PreparedAt(r, k, "t2", V) && k < |r.states| - 1 && SucceededAt(r, |r.states| - 1, "t2")
    ensures Undisturbed(r, k + 1, |r.states| - 1, PlaceOf(r, k, "t2", V))
    ensures !Held(Last(r), PlaceOf(r, k, "t2", V), "t2")
    ensures V in Last(r).nodes && Last(r).txns["t2"].data == newer
    ensures Commit(Last(r).nodes[V], "t2", C) == (Last(r).nodes[V], true)
    ensures Read(Last(r).nodes[V], C, Committed, false).1 == Found(older)
  {
    r, k := ReadGoesOn(older, newer);
    CalmSince(r, k, Place(V, C), [ReplicateOk("t2"), TakeRead(0), Finish(0)]);
    RunKeeps(r, |r.states| - 1);
    PreparedIsNotShown(Last(r), V, C, "t2");
    OvertookServes(older, newer);
  }

  /* ---------- A write over a stale read ---------- */

  /** One write is final; a second one is acknowledged, and its notification is still to come. */
  lemma SecondWaits(older: Bytes, newer: Bytes) returns (r: History)
    ensures var n := Chunks(map[C := "t2"], map[Temp(C, "t2") := newer], map[C := older]);
            Stands(r, n, map[], Both(older, newer)) && Last(r).phase == map["t1" := Succeeded, "t2" := Succeeded]
  {
    var (empty, n1) := (Chunks(map[], map[], map[]), Chunks(map[], map[], map[C := older]));
    r := Start();
    r := Writes(r, empty, map[], "t1", C, older);
    assert map[]["t1" := Txn(C, {V}, older)] == map["t1" := Txn(C, {V}, older)];
    assert Finalize(Prepare(empty, "t1", C, older), "t1", C) == n1;
    r := Acknowledges(r, n1, map[], map["t1" := Txn(C, {V}, older)], "t2", C, newer);
    assert map["t1" := Txn(C, {V}, older)]["t2" := Txn(C, {V}, newer)] == Both(older, newer);
    assert Prepare(n1, "t2", C, newer) == Chunks(map[C := "t2"], map[Temp(C, "t2") := newer], map[C := older]);
  }

  /**
   * A third write is laid over what a read returns before that notification: bytes of the
   * acknowledged second write are gone for good. Here its byte 2 becomes 0.
   */
  lemma StaleReadLosesBytes() returns (r: History, i: nat, third: Bytes)
    ensures IsRun(r) && i < |r.states| - 1 && V in r.states[i].nodes && V in Last(r).nodes
    ensures SucceededAt(r, i, "t2") && r.states[i].txns["t2"] == Txn(C, {V}, [1, 2])
    ensures Read(r.states[i].nodes[V], C, Committed, false).1.Found?
    ensures third == Overlay(Read(r.states[i].nodes[V], C, Committed, false).1.data, 2, [3])
    ensures SucceededAt(r, |r.states| - 1, "t3") && C in Last(r).nodes[V].finals && Last(r).nodes[V].finals[C] == third
    ensures third == [1, 0, 3]
  {
    var q := SecondWaits([1], [1, 2]);
    var n := Chunks(map[C := "t2"], map[Temp(C, "t2") := [1, 2]], map[C := [1]]);
    i := |q.states| - 1;
    third := Overlay([1], 2, [3]);
    r := Writes(q, n, Both([1], [1, 2]), "t3", C, third);
  }

  /* ---------- A restart over an orphan file ---------- */

  lemma Restarts(r: History, n: Chunks, txns: map<TxnId, Txn>, listing: seq<Temp>) returns (q: History)
    requires Stands(r, n, map[], txns) && Lists(listing, n)
    ensures Stands(q, Restarted(n, listing), map[], txns) && Last(q).phase == Last(r).phase && Extends(q, r)
  {
    q := Go(r, RestartAt(V, listing));
    forall t | t in txns ensures IsPrepared(Last(q), t) {
      assert IsPrepared(Last(r), t);
    }
  }

  /** The first write is acknowledged and its notification delayed; the second one is made final. */
  lemma FirstWaits(older: Bytes, newer: Bytes) returns (r: History)
    ensures var n := Chunks(map[], map[Temp(C, "t1") := older], map[C := newer]);
            Stands(r, n, map[], Both(older, newer)) && Last(r).phase == map["t1" := Succeeded, "t2" := Succeeded]
  {
    var (empty, n1) := (Chunks(map[], map[], map[]), Chunks(map[C := "t1"], map[Temp(C, "t1") := older], map[]));
    r := Start();
    r := Acknowledges(r, empty, map[], map[], "t1", C, older);
    assert Prepare(empty, "t1", C, older) == n1;
    assert map[]["t1" := Txn(C, {V}, older)] == map["t1" := Txn(C, {V}, older)];
    r := Writes(r, n1, map["t1" := Txn(C, {V}, older)], "t2", C, newer);
    assert map["t1" := Txn(C, {V}, older)]["t2" := Txn(C, {V}, newer)] == Both(older, newer);
    var n2 := Chunks(map[], map[Temp(C, "t1") := older], map[C := newer]);
    assert Finalize(Prepare(n1, "t2", C, newer), "t2", C) == n2;
  }

  /**
   * With an orphan file a restart can undo a newer write: the file of the older transaction is
   * indexed again, and its late notification puts it in the place of the newer final file.
   */
  lemma OrphanOverwrites(older: Bytes, newer: Bytes) returns (r: History, i: nat)
    ensures IsRun(r) && i < |r.states| - 1 && V in r.states[i].nodes && V in Last(r).nodes && SucceededAt(r, i, "t2")
    ensures r.states[i].txns["t2"] == Txn(C, {V}, newer)
    ensures C in r.states[i].nodes[V].finals && r.states[i].nodes[V].finals[C] == newer
    ensures C in Last(r).nodes[V].finals && Last(r).nodes[V].finals[C] == older
  {
    var n := Chunks(map[], map[Temp(C, "t1") := older], map[C := newer]);
    var q := FirstWaits(older, newer);
    i := |q.states| - 1;
    r := Restarts(q, n, Both(older, newer), [Temp(C, "t1")]);
    assert Reindex(map[], [Temp(C, "t1")]) == map[C := "t1"] by {
      assert [Temp(C, "t1")][1..] == [];
    }
    r := Delivers(r, n.(index := map[C := "t1"]), Both(older, newer), "t1", C);
  }

  /* ---------- An aborted write commits after all ---------- */

  /** Replicating reports an error, and the abort is delivered. */
  lemma AbortsFirst(data: Bytes) returns (r: History)
    ensures IsRun(r) && "t1" in Last(r).phase && Last(r).phase["t1"].Errored?
    ensures Last(r).txns == map["t1" := Txn(C, {V}, data)]
    ensures Last(r).nodes == map[V := Chunks(map[], map[], map[])]
  {
    var (empty, n) := (Chunks(map[], map[], map[]), Chunks(map[C := "t1"], map[Temp(C, "t1") := data], map[]));
    r := Start();
    r := Prepares(r, empty, map[], map[], "t1", C, data);
    assert Prepare(empty, "t1", C, data) == n && IsPrepared(Last(r), "t1");
    r := Go(r, ReplicateError("t1"));
    assert AbortNote(V, "t1") in Last(r).net;
    r := Aborts(r, n, "t1", C);
    assert Drop(n, "t1", C) == empty;
  }

  lemma Aborts(r: History, n: Chunks, id: TxnId, c: ChunkId) returns (q: History)
    requires IsRun(r) && Last(r).nodes == map[V := n] && Last(r).calls == map[] && AbortNote(V, id) in Last(r).net
    requires id in Last(r).txns && Last(r).txns[id].chunk == c && c in n.index && n.index[c] == id
    ensures IsRun(q) && Last(q).nodes == map[V := Drop(n, id, c)] && Last(q).txns == Last(r).txns
    ensures Last(q).phase == Last(r).phase
  {
    q := Go(r, TakeAbort(0, id, V));
    assert Last(q).calls == map[0 := Taken(Aborting, V, c, id)];
    q := Go(q, Finish(0));
  }

  /** The entry commits all the same: the transaction is committed, and its bytes are nowhere. */
  lemma CommittedButAborted(data: Bytes) returns (r: History)
    ensures IsRun(r) && "t1" in Last(r).committed && Last(r).txns == map["t1" := Txn(C, {V}, data)]
    ensures Last(r).nodes == map[V := Chunks(map[], map[], map[])]
  {
    r := AbortsFirst(data);
    r := Go(r, LateCommit("t1"));
  }
}
