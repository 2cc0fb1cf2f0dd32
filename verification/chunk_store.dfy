/**
 * The chunk files of one node: temporary files per chunk and transaction, final files per chunk,
 * and the index of the transaction last prepared for each chunk.
 */
module ChunkStore {
  import opened Basics
  import opened FileBytes

  type ChunkId = string
  type TxnId = string

  datatype Temp = Temp(chunk: ChunkId, txn: TxnId)

  datatype Chunks = Chunks(index: map<ChunkId, TxnId>, temps: map<Temp, Bytes>, finals: map<ChunkId, Bytes>)

  /** What the metadata service knows about a transaction. */
  datatype Intent = Unknown | Committed | Aborted

  datatype ReadResult = Found(data: Bytes) | NotFound | Locked | Gone | Broken

  /* ---------- The operations ---------- */

  function Prepare(n: Chunks, txn: TxnId, chunk: ChunkId, data: Bytes): Chunks {
    n.(index := n.index[chunk := txn], temps := n.temps[Temp(chunk, txn) := data])
  }

  /** A failed write leaves whatever got to disk, and no index entry of its own. */
  function PrepareTorn(n: Chunks, txn: TxnId, chunk: ChunkId, torn: Bytes): Chunks {
    n.(temps := n.temps[Temp(chunk, txn) := torn])
  }

  /*
   * Commit, abort and read first copy the index entry under a lock, release it, and later change
   * the files and delete whatever entry the chunk then has. The functions below are the second
   * halves, for the transaction `txn` that the first half found.
   */

  /** Renaming the prepared file over the final one. */
  function Finalize(n: Chunks, txn: TxnId, chunk: ChunkId): Chunks {
    if Temp(chunk, txn) !in n.temps then n
    else Chunks(n.index - {chunk}, n.temps - {Temp(chunk, txn)}, n.finals[chunk := n.temps[Temp(chunk, txn)]])
  }

  function Drop(n: Chunks, txn: TxnId, chunk: ChunkId): Chunks {
    n.(index := n.index - {chunk}, temps := n.temps - {Temp(chunk, txn)})
  }

  /** A final file that has appeared meanwhile is returned instead of the prepared one. */
  function FinishRead(n: Chunks, txn: TxnId, chunk: ChunkId, intent: Intent, expired: bool): (Chunks, ReadResult) {
    if intent.Committed? then
      if chunk in n.finals then (n.(index := n.index - {chunk}), Found(n.finals[chunk]))
      else if Temp(chunk, txn) !in n.temps then (n, Broken)
      else (Finalize(n, txn, chunk), Found(n.temps[Temp(chunk, txn)]))
    else if intent.Aborted? || expired then (Drop(n, txn, chunk), Gone)
    else (n, Locked)
  }

  /* The whole calls, when nothing comes between their halves. */

  /** A commit only concerns the transaction in the index; for any other one it changes nothing. */
  function Commit(n: Chunks, txn: TxnId, chunk: ChunkId): (Chunks, bool) {
    if chunk !in n.index then (n, chunk in n.finals)
    else if n.index[chunk] != txn then (n, false)
    else (Finalize(n, txn, chunk), Temp(chunk, txn) in n.temps)
  }

  function Abort(n: Chunks, txn: TxnId, chunk: ChunkId): (Chunks, bool) {
    if chunk !in n.index then (n, true)
    else if n.index[chunk] != txn then (n, false)
    else (Drop(n, txn, chunk), true)
  }

  /** A final file wins; without one, a prepared file whose transaction is committed is made final. */
  function Read(n: Chunks, chunk: ChunkId, intent: Intent, expired: bool): (Chunks, ReadResult) {
    if chunk in n.finals then (n, Found(n.finals[chunk]))
    else if chunk !in n.index then (n, NotFound)
    else FinishRead(n, n.index[chunk], chunk, intent, expired)
  }

  /* ---------- What the calls do, outcome by outcome ---------- */

  /** Nothing but the entry of one chunk and the file of one transaction of it can differ. */
  ghost predicate SameBeside(n: Chunks, n': Chunks, txn: TxnId, chunk: ChunkId) {
    && (forall c :: c != chunk ==> (c in n'.index <==> c in n.index) && (c in n.index ==> n'.index[c] == n.index[c]))
    && (forall f :: f != Temp(chunk, txn) ==>
          (f in n'.temps <==> f in n.temps) && (f in n.temps ==> n'.temps[f] == n.temps[f]))
    && (forall c :: c != chunk ==>
          (c in n'.finals <==> c in n.finals) && (c in n.finals ==> n'.finals[c] == n.finals[c]))
  }

  /** Neither entry nor file is left, and the final file is untouched. */
  ghost predicate Dropped(n: Chunks, n': Chunks, txn: TxnId, chunk: ChunkId) {
    chunk !in n'.index && Temp(chunk, txn) !in n'.temps && n'.finals == n.finals && SameBeside(n, n', txn, chunk)
  }

  /** The file has become the final one, and neither entry nor temporary file is left. */
  ghost predicate MadeFinal(n: Chunks, n': Chunks, txn: TxnId, chunk: ChunkId) {
    && Temp(chunk, txn) in n.temps && chunk in n'.finals && n'.finals[chunk] == n.temps[Temp(chunk, txn)]
    && chunk !in n'.index && Temp(chunk, txn) !in n'.temps && SameBeside(n, n', txn, chunk)
  }

  /**
   * The end of a read. Only a committed intent serves anything, and makes a file final unless a
   * final one is there; an aborted or expired one is dropped; an unknown one changes nothing.
   */
  lemma FinishReadRule(n: Chunks, txn: TxnId, chunk: ChunkId, intent: Intent, expired: bool)
    ensures var (n', r) := FinishRead(n, txn, chunk, intent, expired);
            && (r.Found? ==> intent.Committed?) && (!intent.Committed? ==> n'.finals == n.finals)
            && (intent.Committed? && chunk in n.finals ==>
                  r == Found(n.finals[chunk]) && n' == n.(index := n'.index) && n'.index == n.index - {chunk})
            && (intent.Committed? && chunk !in n.finals && Temp(chunk, txn) in n.temps ==>
                  r == Found(n.temps[Temp(chunk, txn)]) && MadeFinal(n, n', txn, chunk))
            && (intent.Committed? && chunk !in n.finals && Temp(chunk, txn) !in n.temps ==> r == Broken && n' == n)
            && (intent.Aborted? || (intent.Unknown? && expired) ==> r == Gone && Dropped(n, n', txn, chunk))
            && (intent.Unknown? && !expired ==> r == Locked && n' == n)
  {
  }

  /**
   * A whole read. A final file is served as it is. Without one, bytes are returned if and only if
   * the intent of the indexed transaction is committed and its file is there, and then they are
   * that file.
   */
  lemma ReadRule(n: Chunks, chunk: ChunkId, intent: Intent, expired: bool)
    ensures var (n', r) := Read(n, chunk, intent, expired);
            && (chunk in n.finals ==> n' == n && r == Found(n.finals[chunk]))
            && (chunk !in n.finals && chunk !in n.index ==> n' == n && r == NotFound)
            && (!intent.Committed? ==> n'.finals == n.finals)
            && (chunk !in n.finals && chunk in n.index ==>
                  var txn := n.index[chunk];
                  && (r.Found? <==> intent.Committed? && Temp(chunk, txn) in n.temps)
                  && (r.Found? ==> r.data == n.temps[Temp(chunk, txn)] && MadeFinal(n, n', txn, chunk))
                  && (intent.Aborted? || (intent.Unknown? && expired) ==> r == Gone && Dropped(n, n', txn, chunk))
                  && (intent.Unknown? && !expired ==> r == Locked && n' == n))
  {
    if chunk in n.index {
      FinishReadRule(n, n.index[chunk], chunk, intent, expired);
    }
  }

  /** A commit succeeds if and only if it makes its file final, or finds nothing prepared and a final file. */
  lemma CommitRule(n: Chunks, txn: TxnId, chunk: ChunkId)
    ensures var (n', ok) := Commit(n, txn, chunk);
            && (ok <==> if chunk in n.index then n.index[chunk] == txn && Temp(chunk, txn) in n.temps
                        else chunk in n.finals)
            && (if ok && chunk in n.index then MadeFinal(n, n', txn, chunk) else n' == n)
  {
  }

  /** An abort is refused if and only if another transaction is indexed; only its own is dropped. */
  lemma AbortRule(n: Chunks, txn: TxnId, chunk: ChunkId)
    ensures var (n', ok) := Abort(n, txn, chunk);
            && (ok <==> !(chunk in n.index && n.index[chunk] != txn))
            && (if chunk in n.index && n.index[chunk] == txn then Dropped(n, n', txn, chunk) else n' == n)
  {
  }

  /** Preparing indexes the whole file; a torn write leaves its bytes and no entry of its own. */
  lemma PrepareRule(n: Chunks, txn: TxnId, chunk: ChunkId, data: Bytes)
    ensures var n' := Prepare(n, txn, chunk, data);
            && chunk in n'.index && n'.index[chunk] == txn && n'.finals == n.finals && SameBeside(n, n', txn, chunk)
            && Temp(chunk, txn) in n'.temps && n'.temps[Temp(chunk, txn)] == data
    ensures var n' := PrepareTorn(n, txn, chunk, data);
            && n'.index == n.index && n'.finals == n.finals && SameBeside(n, n', txn, chunk)
            && Temp(chunk, txn) in n'.temps && n'.temps[Temp(chunk, txn)] == data
  {
  }

  function Delete(n: Chunks, chunk: ChunkId): Chunks {
    n.(finals := n.finals - {chunk})
  }

  /** Every temporary file of the chunk is the indexed one. */
  ghost predicate NoOrphan(n: Chunks, chunk: ChunkId) {
    forall t :: Temp(chunk, t) in n.temps ==> chunk in n.index && n.index[chunk] == t
  }

  /** A restart indexes the temporary files in the order the directory lists them; the last one of a chunk stays. */
  function Reindex(index: map<ChunkId, TxnId>, listing: seq<Temp>): map<ChunkId, TxnId>
    decreases |listing|
  {
    if listing == [] then index else Reindex(index[listing[0].chunk := listing[0].txn], listing[1..])
  }

  function Restarted(n: Chunks, listing: seq<Temp>): Chunks {
    n.(index := Reindex(map[], listing))
  }

  /** Each temporary file once. File names end in random identifiers, so the order can be any. */
  ghost predicate Lists(listing: seq<Temp>, n: Chunks) {
    && (forall f :: f in listing <==> f in n.temps)
    && (forall i, j :: 0 <= i < j < |listing| ==> listing[i] != listing[j])
  }

  /** What a restart indexes is a temporary file, and a chunk with one has an entry. */
  lemma {:induction false} ReindexFinds(index: map<ChunkId, TxnId>, listing: seq<Temp>, chunk: ChunkId)
    ensures var after := Reindex(index, listing);
            && (chunk in after ==>
                  Temp(chunk, after[chunk]) in listing || (chunk in index && after[chunk] == index[chunk]))
            && ((exists t :: Temp(chunk, t) in listing) || chunk in index ==> chunk in after)
    decreases |listing|
  {
    if listing != [] {
      ReindexFinds(index[listing[0].chunk := listing[0].txn], listing[1..], chunk);
    }
  }

  lemma {:induction false} ReindexSnoc(index: map<ChunkId, TxnId>, listing: seq<Temp>, last: Temp)
    ensures Reindex(index, listing + [last]) == Reindex(index, listing)[last.chunk := last.txn]
    decreases |listing|
  {
    if listing == [] {
      assert [last][1..] == [];
    } else {
      assert (listing + [last])[1..] == listing[1..] + [last];
      ReindexSnoc(index[listing[0].chunk := listing[0].txn], listing[1..], last);
    }
  }

  /** A listing with its k-th file moved to the end. */
  function MovedLast(listing: seq<Temp>, k: nat): (l: seq<Temp>)
    requires k < |listing|
    ensures |l| == |listing| && l[|l| - 1] == listing[k]
    ensures forall i :: 0 <= i < |l| - 1 ==> l[i] == listing[if i < k then i else i + 1]
  {
    listing[..k] + listing[k + 1..] + [listing[k]]
  }

  lemma MovedLastMembers(listing: seq<Temp>, k: nat, f: Temp)
    requires k < |listing|
    ensures f in MovedLast(listing, k) <==> f in listing
  {
    var l := MovedLast(listing, k);
    if f in listing {
      var i :| 0 <= i < |listing| && listing[i] == f;
      assert l[if i < k then i else if i == k then |l| - 1 else i - 1] == f;
    }
  }

  lemma MovedLastUnique(listing: seq<Temp>, k: nat)
    requires k < |listing| && (forall i, j :: 0 <= i < j < |listing| ==> listing[i] != listing[j])
    ensures var l := MovedLast(listing, k); forall i, j :: 0 <= i < j < |l| ==> l[i] != l[j]
  {
    var l := MovedLast(listing, k);
    forall i, j | 0 <= i < j < |l| ensures l[i] != l[j] {
      assert l[i] == listing[if i < k then i else i + 1];
    }
  }

  /** Any temporary file can be the last one listed. */
  lemma ListsLast(n: Chunks, listing: seq<Temp>, last: Temp) returns (l: seq<Temp>)
    requires Lists(listing, n) && last in n.temps
    ensures Lists(l, n) && last.chunk in Restarted(n, l).index && Restarted(n, l).index[last.chunk] == last.txn
  {
    var k :| 0 <= k < |listing| && listing[k] == last;
    l := MovedLast(listing, k);
    forall f ensures f in l <==> f in n.temps {
      MovedLastMembers(listing, k, f);
    }
    MovedLastUnique(listing, k);
    assert l == l[..|l| - 1] + [last];
    ReindexSnoc(map[], l[..|l| - 1], last);
  }

  ghost predicate SameEntry(n: Chunks, n': Chunks, chunk: ChunkId) {
    chunk in n.index && chunk in n'.index && n'.index[chunk] == n.index[chunk]
  }

  /**
   * Whatever order the directory is listed in, a restart keeps the index entry of a chunk, if and
   * only if every temporary file of the chunk is the indexed one.
   */
  lemma RestartKeepsIff(n: Chunks, chunk: ChunkId, listing: seq<Temp>)
    requires chunk in n.index && Temp(chunk, n.index[chunk]) in n.temps && Lists(listing, n)
    ensures (forall l :: Lists(l, n) ==> SameEntry(n, Restarted(n, l), chunk)) <==> NoOrphan(n, chunk)
  {
    if NoOrphan(n, chunk) {
      forall l | Lists(l, n) ensures SameEntry(n, Restarted(n, l), chunk) {
        ReindexFinds(map[], l, chunk);
        assert Temp(chunk, n.index[chunk]) in l;
      }
    } else {
      var t :| Temp(chunk, t) in n.temps && n.index[chunk] != t;
      var l := ListsLast(n, listing, Temp(chunk, t));
      assert !SameEntry(n, Restarted(n, l), chunk);
    }
  }

  /* ---------- The service as the program keeps it ---------- */

  class LocalDisc {
    var preparedIndex: map<ChunkId, TxnId>
    var temps: map<Temp, Bytes>
    var finals: map<ChunkId, Bytes>

    ghost function State(): Chunks
      reads this
    {
      Chunks(preparedIndex, temps, finals)
    }

    /** A process that finds these files: the index is rebuilt from the temporary ones. */
    constructor (temps: map<Temp, Bytes>, finals: map<ChunkId, Bytes>, listing: seq<Temp>, ghost before: Chunks)
      requires before.temps == temps && before.finals == finals
      ensures State() == Restarted(before, listing)
    {
      this.temps, this.finals := temps, finals;
      preparedIndex := map[];
      new;
      var i := 0;
      while i < |listing|
        invariant 0 <= i <= |listing|
        invariant this.temps == temps && this.finals == finals
        invariant Reindex(preparedIndex, listing[i..]) == Reindex(map[], listing)
      {
        preparedIndex := preparedIndex[listing[i].chunk := listing[i].txn];
        i := i + 1;
      }
    }

    /** Preparing again what is already there writes nothing; a write that fails is not indexed. */
    method PrepareChunk(txn: TxnId, chunk: ChunkId, data: Bytes, fails: bool, torn: Bytes) returns (ok: bool)
      modifies this
      ensures var whole := Temp(chunk, txn) in old(temps) && old(temps)[Temp(chunk, txn)] == data;
              && ok == (whole || !fails)
              && State() == if ok then Prepare(old(State()), txn, chunk, data)
                            else PrepareTorn(old(State()), txn, chunk, torn)
    {
      var file := Temp(chunk, txn);
      if file in temps && temps[file] == data {
        preparedIndex := preparedIndex[chunk := txn];
        assert temps == temps[file := data];
        return true;
      }
      if fails {
        temps := temps[file := torn];
        return false;
      }
      temps := temps[file := data];
      preparedIndex := preparedIndex[chunk := txn];
      return true;
    }

    /** The first half of commit, abort and read: a copy of the entry. */
    method TakeEntry(chunk: ChunkId) returns (entry: Option<TxnId>)
      ensures entry == if chunk in preparedIndex then Some(preparedIndex[chunk]) else None
    {
      if chunk in preparedIndex {
        return Some(preparedIndex[chunk]);
      }
      return None;
    }

    /** The second half of a commit, for the entry that was found: a later entry of the chunk goes too. */
    method FinishCommit(txn: TxnId, chunk: ChunkId) returns (ok: bool)
      modifies this
      ensures State() == Finalize(old(State()), txn, chunk) && ok == (Temp(chunk, txn) in old(temps))
    {
      var file := Temp(chunk, txn);
      if file !in temps {
        return false;
      }
      finals := finals[chunk := temps[file]];
      temps := temps - {file};
      preparedIndex := preparedIndex - {chunk};
      return true;
    }

    method FinishAbort(txn: TxnId, chunk: ChunkId)
      modifies this
      ensures State() == Drop(old(State()), txn, chunk)
    {
      temps := temps - {Temp(chunk, txn)};
      preparedIndex := preparedIndex - {chunk};
    }

    method FinishReadChunk(txn: TxnId, chunk: ChunkId, intent: Intent, expired: bool) returns (r: ReadResult)
      modifies this
      ensures (State(), r) == FinishRead(old(State()), txn, chunk, intent, expired)
    {
      var file := Temp(chunk, txn);
      if intent.Committed? {
        if chunk !in finals {
          if file !in temps {
            return Broken;
          }
          finals := finals[chunk := temps[file]];
          temps := temps - {file};
        }
        preparedIndex := preparedIndex - {chunk};
        return Found(finals[chunk]);
      }
      if intent.Aborted? || expired {
        FinishAbort(txn, chunk);
        return Gone;
      }
      return Locked;
    }

    /** A commit with nothing between its halves. */
    method CommitChunk(txn: TxnId, chunk: ChunkId) returns (ok: bool)
      modifies this
      ensures (State(), ok) == Commit(old(State()), txn, chunk)
    {
      var entry := TakeEntry(chunk);
      if entry.None? {
        return chunk in finals;
      }
      if entry.value != txn {
        return false;
      }
      ok := FinishCommit(txn, chunk);
    }

    method AbortChunk(txn: TxnId, chunk: ChunkId) returns (ok: bool)
      modifies this
      ensures (State(), ok) == Abort(old(State()), txn, chunk)
    {
      var entry := TakeEntry(chunk);
      if entry.None? {
        return true;
      }
      if entry.value != txn {
        return false;
      }
      FinishAbort(txn, chunk);
      return true;
    }

    method ReadChunk(chunk: ChunkId, intent: Intent, expired: bool) returns (r: ReadResult)
      modifies this
      ensures (State(), r) == Read(old(State()), chunk, intent, expired)
    {
      if chunk in finals {
        return Found(finals[chunk]);
      }
      var entry := TakeEntry(chunk);
      if entry.None? {
        return NotFound;
      }
      r := FinishReadChunk(entry.value, chunk, intent, expired);
    }

    method DeleteChunkLocal(chunk: ChunkId)
      modifies this
      ensures State() == Delete(old(State()), chunk)
    {
      finals := finals - {chunk};
    }
  }
}
