/** The chunk lists of all inodes in one table, one row per chunk, keyed by inode and chunk number. */
module ChunkLists {
  import opened Basics
  import opened MetadataKeys
  import opened OrderedBucket

  /** The rows of one inode's list from a position on. */
  function RowsOf<V>(inode: Id, list: seq<V>, n: nat): seq<Row<V>>
    requires n <= |list| < LIMIT
  {
    seq(n, i requires 0 <= i < n => Row(ChunkKey(inode, i), list[i]))
  }

  /** Reads the rows of an inode in key order, filling gaps with blanks; fails on a key of the wrong width. */
  function LoadFrom<V>(found: seq<Row<V>>, list: seq<V>, blank: V): (r: seq<V>)
    decreases |found|
  {
    if found == [] then list else LoadFrom(found[1..], Store(list, Number(found[0].key), found[0].value, blank), blank)
  }

  function Number(key: Key): nat {
    if |key| == 16 then DecodeInodeKey(key[8..]) else 0
  }

  function Store<V>(list: seq<V>, index: nat, value: V, blank: V): seq<V> {
    if index < |list| then list[index := value] else list + seq(index - |list|, _ => blank) + [value]
  }

  /** A row goes to its position; positions before it that had none are blank. */
  lemma StoreRule<V>(list: seq<V>, index: nat, value: V, blank: V)
    ensures var r := Store(list, index, value, blank);
            && |r| == Max(|list|, index + 1) && r[index] == value
            && (forall i :: 0 <= i < |r| && i != index ==> r[i] == if i < |list| then list[i] else blank)
  {
  }

  method LoadChunkList<V(0)>(rows: seq<Row<V>>, inode: Id, blank: V) returns (ok: bool, list: seq<V>)
    requires Ordered(rows)
    ensures ok <==> forall i :: 0 <= i < |Under(rows, InodeKey(inode))| ==> |Under(rows, InodeKey(inode))[i].key| == 16
    ensures ok ==> list == LoadFrom(Under(rows, InodeKey(inode)), [], blank)
  {
    var found := Scan(rows, InodeKey(inode));
    ok, list := LoadRows(found, blank);
  }

  method LoadRows<V(0)>(found: seq<Row<V>>, blank: V) returns (ok: bool, list: seq<V>)
    ensures ok <==> forall i :: 0 <= i < |found| ==> |found[i].key| == 16
    ensures ok ==> list == LoadFrom(found, [], blank)
  {
    list := [];
    var i := 0;
    while i < |found|
      invariant 0 <= i <= |found|
      invariant forall j :: 0 <= j < i ==> |found[j].key| == 16
      invariant LoadFrom(found[i..], list, blank) == LoadFrom(found, [], blank)
    {
      if |found[i].key| != 16 {
        return false, [];
      }
      assert found[i..][0] == found[i] && found[i..][1..] == found[i + 1..];
      list := Stored(list, Number(found[i].key), found[i].value, blank);
      i := i + 1;
    }
    return true, list;
  }

  /** Grows the list one blank at a time until the index is in it, and then sets it. */
  method Stored<V>(list: seq<V>, index: nat, value: V, blank: V) returns (r: seq<V>)
    ensures r == Store(list, index, value, blank)
  {
    r := list;
    while |r| <= index
      invariant |r| >= |list| && (|r| > |list| ==> |r| <= index + 1)
      invariant r == list + seq(|r| - |list|, _ => blank)
      decreases index + 1 - |r|
    {
      r := r + [blank];
    }
    r := r[index := value];
  }

  method DeleteChunkList<V>(rows: seq<Row<V>>, inode: Id) returns (out: seq<Row<V>>)
    requires Ordered(rows)
    ensures out == Outside(rows, InodeKey(inode))
  {
    var found := Scan(rows, InodeKey(inode));
    out := rows;
    var i := 0;
    while i < |found|
      invariant 0 <= i <= |found|
      invariant RemoveAll(out, found[i..]) == RemoveAll(rows, found)
    {
      out := Remove(out, found[i].key);
      i := i + 1;
    }
    RemoveUnder(rows, InodeKey(inode));
  }

  /** The scan of one inode finds exactly the new list, and scans of other inodes find what they found before. */
  method ReplaceChunkList<V>(rows: seq<Row<V>>, inode: Id, list: seq<V>) returns (out: seq<Row<V>>)
    requires Ordered(rows) && |list| < LIMIT
    ensures Ordered(out) && Under(out, InodeKey(inode)) == RowsOf(inode, list, |list|)
    ensures forall other: Id :: other != inode ==> Under(out, InodeKey(other)) == Under(rows, InodeKey(other))
  {
    out := DeleteChunkList(rows, inode);
    DeletedClean(rows, inode);
    var i := 0;
    while i < |list|
      invariant 0 <= i <= |list| && Ordered(out)
      invariant Under(out, InodeKey(inode)) == RowsOf(inode, list, i)
      invariant forall other: Id :: other != inode ==> Under(out, InodeKey(other)) == Under(rows, InodeKey(other))
    {
      PutOrdered(out, ChunkKey(inode, i), list[i]);
      PutNext(out, inode, list, i);
      forall other: Id | other != inode
        ensures Under(Put(out, ChunkKey(inode, i), list[i]), InodeKey(other)) == Under(out, InodeKey(other))
      {
        PrefixIsParent(other, inode, InodeKey(i));
        PutElsewhere(out, ChunkKey(inode, i), list[i], InodeKey(other));
      }
      out := Put(out, ChunkKey(inode, i), list[i]);
      i := i + 1;
    }
  }

  lemma DeletedClean<V>(rows: seq<Row<V>>, inode: Id)
    requires Ordered(rows)
    ensures Ordered(Outside(rows, InodeKey(inode))) && Under(Outside(rows, InodeKey(inode)), InodeKey(inode)) == []
    ensures forall other: Id :: other != inode ==>
              Under(Outside(rows, InodeKey(inode)), InodeKey(other)) == Under(rows, InodeKey(other))
  {
    OutsideOrdered(rows, InodeKey(inode));
    OutsideHasNone(rows, InodeKey(inode));
    UnderNone(Outside(rows, InodeKey(inode)), InodeKey(inode));
    forall other: Id | other != inode
      ensures Under(Outside(rows, InodeKey(inode)), InodeKey(other)) == Under(rows, InodeKey(other))
    {
      forall i | 0 <= i < |rows| ensures !(InodeKey(inode) <= rows[i].key && InodeKey(other) <= rows[i].key) {
        OnePrefix(rows[i].key, inode, other);
      }
      OutsideUnder(rows, InodeKey(inode), InodeKey(other));
    }
  }

  lemma OnePrefix(key: Key, a: Id, b: Id)
    requires a != b
    ensures !(InodeKey(a) <= key && InodeKey(b) <= key)
  {
    if InodeKey(a) <= key {
      assert key == InodeKey(a) + key[8..];
      PrefixIsParent(b, a, key[8..]);
    }
  }

  lemma ChunkKeyOrder(inode: Id, a: Id, b: Id)
    requires a < b
    ensures Less(ChunkKey(inode, a), ChunkKey(inode, b))
  {
    InodeKeyOrder(a, b);
    LessAfterPrefix(InodeKey(inode), InodeKey(a), InodeKey(b));
  }

  lemma RowsSnoc<V>(inode: Id, list: seq<V>, i: nat)
    requires i < |list| < LIMIT
    ensures RowsOf(inode, list, i + 1) == RowsOf(inode, list, i) + [Row(ChunkKey(inode, i), list[i])]
  {
  }

  /** All rows of the inode so far come before the next chunk number. */
  lemma RowsBefore<V>(out: seq<Row<V>>, inode: Id, list: seq<V>, i: nat, j: nat)
    requires i < |list| < LIMIT && Under(out, InodeKey(inode)) == RowsOf(inode, list, i)
    requires j < |out| && InodeKey(inode) <= out[j].key
    ensures Less(out[j].key, ChunkKey(inode, i))
  {
    UnderComplete(out, InodeKey(inode), j);
    var m :| 0 <= m < i && out[j] == RowsOf(inode, list, i)[m];
    ChunkKeyOrder(inode, m, i);
  }

  lemma PutNext<V>(out: seq<Row<V>>, inode: Id, list: seq<V>, i: nat)
    requires Ordered(out) && i < |list| < LIMIT && Under(out, InodeKey(inode)) == RowsOf(inode, list, i)
    ensures Under(Put(out, ChunkKey(inode, i), list[i]), InodeKey(inode)) == RowsOf(inode, list, i + 1)
  {
    forall j | 0 <= j < |out| && InodeKey(inode) <= out[j].key ensures Less(out[j].key, ChunkKey(inode, i)) {
      RowsBefore(out, inode, list, i, j);
    }
    PutLast(out, ChunkKey(inode, i), list[i], InodeKey(inode));
    RowsSnoc(inode, list, i);
  }

  lemma NumberOfKey(inode: Id, n: Id)
    ensures Number(ChunkKey(inode, n)) == n
  {
    assert ChunkKey(inode, n)[8..] == InodeKey(n);
    InodeKeyRoundTrip(n);
  }

  /** Loading the rows of a list gives the list back. */
  lemma {:induction false} LoadRestores<V>(inode: Id, list: seq<V>, n: nat, blank: V)
    requires n <= |list| < LIMIT
    ensures LoadFrom(RowsOf(inode, list, |list|)[n..], list[..n], blank) == list
    decreases |list| - n
  {
    var rows := RowsOf(inode, list, |list|);
    if n < |list| {
      assert rows[n..][0] == Row(ChunkKey(inode, n), list[n]) && rows[n..][1..] == rows[n + 1..];
      NumberOfKey(inode, n);
      assert Store(list[..n], n, list[n], blank) == list[..n + 1];
      LoadRestores(inode, list, n + 1, blank);
    } else {
      assert list[..n] == list;
    }
  }

  /** Replacing a list and loading it gives it back. */
  method ReplaceThenLoad<V(0)>(rows: seq<Row<V>>, inode: Id, list: seq<V>, blank: V) returns (back: seq<V>)
    requires Ordered(rows) && |list| < LIMIT
    ensures back == list
  {
    var out := ReplaceChunkList(rows, inode, list);
    var ok;
    ok, back := LoadChunkList(out, inode, blank);
    LoadRestores(inode, list, 0, blank);
    assert RowsOf(inode, list, |list|)[0..] == RowsOf(inode, list, |list|) && list[..0] == [];
  }
}
