/**
 * The write-ahead log store as a value: a map of entries with a last index and a compaction
 * mark, the operations on it, and the sequence with a hidden prefix that it stands for.
 */
module LogStore {
  import opened Basics
  import opened RaftTypes

  datatype Error = NotFound | Compacted | Missing | CannotAppend | WriteFailed

  /** The largest unsigned 64-bit number, which asks DeleteRange for everything from `min` on. */
  const UNLIMITED: nat := 0xFFFF_FFFF_FFFF_FFFF

  datatype Store = Store(logs: map<nat, Entry>, last: nat, compactedUntil: nat, compactedTerm: nat)

  const EMPTY := Store(map[], 0, 0, 0)

  /* ---------- The operations ---------- */

  function Put(st: Store, e: Entry): Store {
    st.(logs := st.logs[e.index := e], last := Max(st.last, e.index))
  }

  /** Entries are taken one by one until one is at or below the compaction mark. */
  function PutAll(st: Store, entries: seq<Entry>): (Store, bool)
    decreases |entries|
  {
    if entries == [] then (st, true)
    else if entries[0].index <= st.compactedUntil then (st, false)
    else PutAll(Put(st, entries[0]), entries[1..])
  }

  function Lookup(st: Store, index: nat): Result<Entry, Error> {
    if index <= st.compactedUntil then Err(Compacted)
    else if index in st.logs then Ok(st.logs[index])
    else Err(NotFound)
  }

  function LastOf(st: Store): Result<(nat, nat), Error> {
    if st.last == 0 then Ok((0, 0))
    else if st.last == st.compactedUntil then Ok((st.compactedUntil, st.compactedTerm))
    else if st.last in st.logs then Ok((st.last, st.logs[st.last].term))
    else Err(Missing)
  }

  /** The highest key, or the floor when no key is above it. */
  ghost predicate IsHighest(keys: set<nat>, floor: nat, h: nat) {
    floor <= h && (h == floor || h in keys) && (forall k :: k in keys ==> k <= h)
  }

  /** The highest key above the floor and up to `top`. */
  function HighestUpTo(logs: map<nat, Entry>, floor: nat, top: nat): (h: nat)
    ensures floor <= h && (h == floor || h in logs) && (forall k :: k in logs && k <= top ==> k <= h)
    decreases top
  {
    if top <= floor then floor else if top in logs then top else HighestUpTo(logs, floor, top - 1)
  }

  lemma HighestIsOne(keys: set<nat>, floor: nat, a: nat, b: nat)
    requires IsHighest(keys, floor, a) && IsHighest(keys, floor, b)
    ensures a == b
  {
  }

  /** How far a range reaches: never past the last index. */
  function Top(st: Store, max: nat): nat {
    if max == UNLIMITED || max > st.last then st.last else max
  }

  /** A range that starts at 0 raises the compaction mark. */
  function Marked(st: Store, min: nat, top: nat): Store {
    if min == 0 && top > st.compactedUntil then
      st.(compactedUntil := top, compactedTerm := if top in st.logs then st.logs[top].term else st.compactedTerm)
    else st
  }

  /** What is deleted starts above the compaction mark. */
  function Low(st: Store, min: nat): nat {
    if min <= st.compactedUntil then st.compactedUntil + 1 else min
  }

  function Without(logs: map<nat, Entry>, low: nat, top: nat): map<nat, Entry> {
    map i | i in logs && !(low <= i <= top) :: logs[i]
  }

  function Delete(st: Store, min: nat, max: nat): Store {
    var top := Top(st, max);
    if min > max || top == 0 then st
    else
      var m := Marked(st, min, top);
      var logs := Without(m.logs, Low(m, min), top);
      m.(logs := logs, last := HighestUpTo(logs, m.compactedUntil, st.last))
  }

  /* ---------- What the store stands for ---------- */

  /** The store stands for `full`, with everything up to the compaction mark hidden. */
  ghost predicate Represents(st: Store, full: seq<Entry>) {
    && st.last == |full| && st.compactedUntil <= |full|
    && st.compactedTerm == TermAt(full, st.compactedUntil)
    && (forall i :: st.compactedUntil < i <= |full| ==> i in st.logs && st.logs[i] == full[i - 1])
    && (forall k :: k in st.logs ==> 0 < k <= |full| && st.logs[k].index == k)
  }

  lemma LookupAnswers(st: Store, full: seq<Entry>, index: nat)
    requires Represents(st, full)
    ensures Lookup(st, index) == if index <= st.compactedUntil then Err(Compacted)
                                 else if index <= |full| then Ok(full[index - 1])
                                 else Err(NotFound)
  {
  }

  /** The last term is known even when everything is compacted. */
  lemma LastAnswers(st: Store, full: seq<Entry>)
    requires Represents(st, full)
    ensures LastOf(st) == Ok((|full|, LastTerm(full)))
  {
  }

  lemma {:induction false} PutAllAppends(st: Store, full: seq<Entry>, entries: seq<Entry>)
    requires Represents(st, full)
    requires forall i :: 0 <= i < |entries| ==> entries[i].index == |full| + i + 1
    ensures PutAll(st, entries).1 && Represents(PutAll(st, entries).0, full + entries)
    ensures PutAll(st, entries).0.compactedUntil == st.compactedUntil
    decreases |entries|
  {
    if entries == [] {
      assert full + entries == full;
    } else {
      assert entries[0].index == |full| + 0 + 1;
      assert Represents(Put(st, entries[0]), full + [entries[0]]);
      PutAllAppends(Put(st, entries[0]), full + [entries[0]], entries[1..]);
      assert full + [entries[0]] + entries[1..] == full + entries;
    }
  }

  /** Storing is refused if and only if some entry is at or below the compaction mark; those before it are stored. */
  lemma {:induction false} PutAllRefuses(st: Store, entries: seq<Entry>)
    ensures PutAll(st, entries).1 <==> forall i :: 0 <= i < |entries| ==> entries[i].index > st.compactedUntil
    ensures forall k :: 0 <= k < |entries| && entries[k].index <= st.compactedUntil
                        && (forall i :: 0 <= i < k ==> entries[i].index > st.compactedUntil) ==>
              PutAll(st, entries).0 == PutAll(st, entries[..k]).0
    decreases |entries|
  {
    if entries != [] && entries[0].index > st.compactedUntil {
      PutAllRefuses(Put(st, entries[0]), entries[1..]);
      forall k | 0 <= k < |entries| && entries[k].index <= st.compactedUntil
                 && (forall i :: 0 <= i < k ==> entries[i].index > st.compactedUntil)
        ensures PutAll(st, entries).0 == PutAll(st, entries[..k]).0
      {
        assert entries[..k][1..] == entries[1..][..k - 1] && entries[..k][0] == entries[0];
        assert entries[1..][k - 1] == entries[k];
        assert forall i :: 0 <= i < k - 1 ==> entries[1..][i] == entries[i + 1];
      }
    }
  }

  /** After storing, an index has the last entry stored under it, or what it had. */
  lemma {:induction false} PutAllStores(st: Store, entries: seq<Entry>, i: nat)
    requires PutAll(st, entries).1 && i < |entries|
    requires forall j :: i < j < |entries| ==> entries[j].index != entries[i].index
    ensures Lookup(PutAll(st, entries).0, entries[i].index) == Ok(entries[i])
    decreases |entries|
  {
    if i == 0 {
      PutAllSpares(Put(st, entries[0]), entries[1..], entries[0].index);
      PutAllKeepsMark(Put(st, entries[0]), entries[1..]);
    } else {
      PutAllStores(Put(st, entries[0]), entries[1..], i - 1);
    }
  }

  lemma {:induction false} PutAllSpares(st: Store, entries: seq<Entry>, k: nat)
    requires forall j :: 0 <= j < |entries| ==> entries[j].index != k
    ensures k in PutAll(st, entries).0.logs <==> k in st.logs
    ensures k in st.logs ==> PutAll(st, entries).0.logs[k] == st.logs[k]
    decreases |entries|
  {
    if entries != [] && entries[0].index > st.compactedUntil {
      PutAllSpares(Put(st, entries[0]), entries[1..], k);
    }
  }

  /**
   * Any range: it ends at the last index at most; one that starts at 0 raises the compaction mark to
   * its end; what lies in it above the mark is deleted and nothing else; the last index is the
   * highest one left, or the mark.
   */
  lemma DeleteRule(st: Store, min: nat, max: nat, top: nat)
    requires top == if max == UNLIMITED || max > st.last then st.last else max
    ensures min > max || top == 0 ==> Delete(st, min, max) == st
    ensures min <= max && top > 0 ==>
              var st' := Delete(st, min, max);
              && st'.compactedUntil == (if min == 0 then Max(st.compactedUntil, top) else st.compactedUntil)
              && (forall i :: i in st'.logs <==> i in st.logs && !(min <= i <= top && i > st'.compactedUntil))
              && (forall i :: i in st'.logs ==> st'.logs[i] == st.logs[i])
              && st'.last >= st'.compactedUntil && (st'.last == st'.compactedUntil || st'.last in st'.logs)
              && (forall i :: i in st'.logs && i <= st.last ==> i <= st'.last)
  {
  }

  /** Deleting a suffix leaves exactly the shorter log, and nothing below the compaction mark is lost. */
  lemma DeleteTruncates(st: Store, full: seq<Entry>, min: nat)
    requires Represents(st, full) && 0 < min <= UNLIMITED
    ensures var keep := Max(st.compactedUntil, Min(min - 1, |full|));
            && Represents(Delete(st, min, UNLIMITED), full[..keep])
            && Delete(st, min, UNLIMITED).compactedUntil == st.compactedUntil
  {
    var keep := Max(st.compactedUntil, Min(min - 1, |full|));
    var st' := Delete(st, min, UNLIMITED);
    if |full| > 0 {
      var logs := Without(st.logs, Low(st, min), |full|);
      assert IsHighest(logs.Keys, st.compactedUntil, keep);
      HighestIsOne(logs.Keys, st.compactedUntil, keep, st'.last);
    }
  }

  /** Compacting hides a prefix and changes nothing else: the hidden entries stay in the map. */
  lemma DeleteCompacts(st: Store, full: seq<Entry>, max: nat)
    requires Represents(st, full)
    ensures Represents(Delete(st, 0, max), full) && Delete(st, 0, max).logs == st.logs
    ensures Delete(st, 0, max).compactedUntil == Max(st.compactedUntil, Top(st, max))
  {
    var top := Top(st, max);
    if top > 0 {
      var m := Marked(st, 0, top);
      assert Without(m.logs, Low(m, 0), top) == m.logs;
      assert IsHighest(m.logs.Keys, m.compactedUntil, |full|);
      HighestIsOne(m.logs.Keys, m.compactedUntil, |full|, Delete(st, 0, max).last);
    }
  }

  /* ---------- Runs of operations ---------- */

  datatype Op = StoreOp(entries: seq<Entry>) | DeleteOp(min: nat, max: nat)

  function Step(st: Store, op: Op): Store {
    match op
    case StoreOp(entries) => PutAll(st, entries).0
    case DeleteOp(min, max) => Delete(st, min, max)
  }

  function Steps(st: Store, ops: seq<Op>): Store
    decreases |ops|
  {
    if ops == [] then st else Steps(Step(st, ops[0]), ops[1..])
  }

  lemma {:induction false} PutAllKeepsMark(st: Store, entries: seq<Entry>)
    ensures PutAll(st, entries).0.compactedUntil == st.compactedUntil
    decreases |entries|
  {
    if entries != [] && entries[0].index > st.compactedUntil {
      PutAllKeepsMark(Put(st, entries[0]), entries[1..]);
    }
  }

  /** Once hidden, an index is reported as compacted for ever, whatever is stored or deleted. */
  lemma {:induction false} HiddenStaysHidden(st: Store, ops: seq<Op>, index: nat)
    requires Lookup(st, index) == Err(Compacted)
    ensures Lookup(Steps(st, ops), index) == Err(Compacted)
    decreases |ops|
  {
    if ops != [] {
      if ops[0].StoreOp? {
        PutAllKeepsMark(st, ops[0].entries);
      }
      HiddenStaysHidden(Step(st, ops[0]), ops[1..], index);
    }
  }

  /* ---------- Saving and loading ---------- */

  /** The write-ahead log file: the compaction mark and all entries of the map, hidden ones too. */
  datatype Wal = Wal(compactedUntil: nat, compactedTerm: nat, entries: seq<Entry>)

  predicate SortedByIndex(entries: seq<Entry>) {
    forall i, j :: 0 <= i < j < |entries| ==> entries[i].index < entries[j].index
  }

  ghost predicate Saves(st: Store, wal: Wal) {
    && wal.compactedUntil == st.compactedUntil && wal.compactedTerm == st.compactedTerm
    && SortedByIndex(wal.entries)
    && (forall k :: k in st.logs ==> st.logs[k] in wal.entries)
    && (forall e :: e in wal.entries ==> e.index in st.logs && st.logs[e.index] == e)
  }

  function LoadAll(st: Store, entries: seq<Entry>): Store
    decreases |entries|
  {
    if entries == [] then st else LoadAll(Put(st, entries[0]), entries[1..])
  }

  function Load(wal: Wal): Store {
    LoadAll(Store(map[], wal.compactedUntil, wal.compactedUntil, wal.compactedTerm), wal.entries)
  }

  /** Every entry sits at its own index, and the last index is the highest one there is. */
  ghost predicate WellKeyed(st: Store) {
    (forall k :: k in st.logs ==> st.logs[k].index == k) && IsHighest(st.logs.Keys, st.compactedUntil, st.last)
  }

  lemma {:induction false} LoadAllWellKeyed(st: Store, entries: seq<Entry>)
    requires WellKeyed(st)
    ensures WellKeyed(LoadAll(st, entries)) && LoadAll(st, entries).compactedUntil == st.compactedUntil
    ensures LoadAll(st, entries).compactedTerm == st.compactedTerm
    decreases |entries|
  {
    if entries != [] {
      LoadAllWellKeyed(Put(st, entries[0]), entries[1..]);
    }
  }

  /** What is loaded was there before or is among the entries. */
  lemma {:induction false} LoadAllOnly(st: Store, entries: seq<Entry>, k: nat)
    requires k in LoadAll(st, entries).logs
    ensures (k in st.logs && LoadAll(st, entries).logs[k] == st.logs[k]) || LoadAll(st, entries).logs[k] in entries
    decreases |entries|
  {
    if entries != [] {
      LoadAllOnly(Put(st, entries[0]), entries[1..], k);
    }
  }

  lemma {:induction false} LoadAllSpares(st: Store, entries: seq<Entry>, k: nat)
    requires k in st.logs && (forall i :: 0 <= i < |entries| ==> k < entries[i].index)
    ensures k in LoadAll(st, entries).logs && LoadAll(st, entries).logs[k] == st.logs[k]
    decreases |entries|
  {
    if entries != [] {
      LoadAllSpares(Put(st, entries[0]), entries[1..], k);
    }
  }

  /** Every entry is loaded, since no other one has its index. */
  lemma {:induction false} LoadAllHas(st: Store, entries: seq<Entry>, i: nat)
    requires SortedByIndex(entries) && i < |entries|
    ensures entries[i].index in LoadAll(st, entries).logs && LoadAll(st, entries).logs[entries[i].index] == entries[i]
    decreases |entries|
  {
    if i == 0 {
      LoadAllSpares(Put(st, entries[0]), entries[1..], entries[0].index);
    } else {
      LoadAllHas(Put(st, entries[0]), entries[1..], i - 1);
    }
  }

  /** Loading what was saved gives the same store back. */
  lemma ReloadRestores(st: Store, wal: Wal)
    requires WellKeyed(st) && Saves(st, wal)
    ensures Load(wal) == st
  {
    var start := Store(map[], wal.compactedUntil, wal.compactedUntil, wal.compactedTerm);
    LoadAllWellKeyed(start, wal.entries);
    forall k | k in st.logs ensures k in Load(wal).logs && Load(wal).logs[k] == st.logs[k] {
      var i :| 0 <= i < |wal.entries| && wal.entries[i] == st.logs[k];
      LoadAllHas(start, wal.entries, i);
    }
    forall k | k in Load(wal).logs ensures k in st.logs {
      LoadAllOnly(start, wal.entries, k);
    }
    assert Load(wal).logs == st.logs;
    HighestIsOne(st.logs.Keys, st.compactedUntil, st.last, Load(wal).last);
  }

  lemma {:induction false} PutAllWellKeyed(st: Store, entries: seq<Entry>)
    requires WellKeyed(st)
    ensures WellKeyed(PutAll(st, entries).0)
    decreases |entries|
  {
    if entries != [] && entries[0].index > st.compactedUntil {
      PutAllWellKeyed(Put(st, entries[0]), entries[1..]);
    }
  }

  /** Deleting keeps entries at their indexes, and the new last index is the highest one left. */
  lemma DeleteWellKeyed(st: Store, min: nat, max: nat, h: nat)
    requires WellKeyed(st) && min <= max && Top(st, max) > 0
    requires var m := Marked(st, min, Top(st, max));
             IsHighest(Without(m.logs, Low(m, min), Top(st, max)).Keys, m.compactedUntil, h)
    ensures WellKeyed(Delete(st, min, max)) && Delete(st, min, max).last == h
  {
    var m := Marked(st, min, Top(st, max));
    var logs := Without(m.logs, Low(m, min), Top(st, max));
    HighestIsOne(logs.Keys, m.compactedUntil, h, HighestUpTo(logs, m.compactedUntil, st.last));
  }

  /** Every state reachable from the empty store can be saved and loaded, whatever the calls were. */
  lemma {:induction false} StepsWellKeyed(st: Store, ops: seq<Op>)
    requires WellKeyed(st)
    ensures WellKeyed(Steps(st, ops))
    decreases |ops|
  {
    if ops != [] {
      if ops[0].StoreOp? {
        PutAllWellKeyed(st, ops[0].entries);
      }
      StepsWellKeyed(Step(st, ops[0]), ops[1..]);
    }
  }
}
