/**
 * The byte-keyed tables of the metadata service and the maps they stand for: one row per
 * directory entry, and one row per chunk of every inode.
 */
module MetadataTables {
  import opened Basics
  import opened MetadataKeys
  import opened OrderedBucket
  import opened Namespace
  import opened ChunkLists

  /* ---------- Single keys ---------- */

  function Find<V>(rows: seq<Row<V>>, key: Key): (r: Option<V>)
    decreases |rows|
  {
    if rows == [] then None else if rows[0].key == key then Some(rows[0].value) else Find(rows[1..], key)
  }

  /** In a table in key order a key is found with exactly the value it has. */
  lemma {:induction false} FindIff<V>(rows: seq<Row<V>>, key: Key, value: V)
    requires Ordered(rows)
    ensures Find(rows, key) == Some(value) <==> Row(key, value) in rows
    decreases |rows|
  {
    if rows != [] {
      OrderedTail(rows);
      FindIff(rows[1..], key, value);
      if rows[0].key == key {
        LessIrreflexive(key);
      }
      assert Row(key, value) in rows <==> rows[0] == Row(key, value) || Row(key, value) in rows[1..];
    }
  }

  /** A row of the table after a Put is the new one or an old one with another key. */
  lemma {:induction false} PutHas<V>(rows: seq<Row<V>>, key: Key, value: V, r: Row<V>)
    requires Ordered(rows)
    ensures r in Put(rows, key, value) <==> r == Row(key, value) || (r in rows && r.key != key)
    decreases |rows|
  {
    if rows == [] {
    } else if Less(key, rows[0].key) {
      NotYet(rows, key);
      assert r in [Row(key, value)] + rows <==> r == Row(key, value) || r in rows;
    } else {
      OrderedTail(rows);
      assert rows == [rows[0]] + rows[1..];
      assert r in rows <==> r == rows[0] || r in rows[1..];
      if rows[0].key == key {
        LessIrreflexive(key);
        assert r in [Row(key, value)] + rows[1..] <==> r == Row(key, value) || r in rows[1..];
      } else {
        PutHas(rows[1..], key, value, r);
        assert r in Put(rows, key, value) <==> r == rows[0] || r in Put(rows[1..], key, value);
      }
    }
  }

  lemma NotYet<V>(rows: seq<Row<V>>, key: Key)
    requires Ordered(rows) && rows != [] && Less(key, rows[0].key)
    ensures forall r :: r in rows ==> r.key != key
  {
    forall r | r in rows ensures r.key != key {
      var i :| 0 <= i < |rows| && rows[i] == r;
      if i > 0 {
        LessTransitive(key, rows[0].key, rows[i].key);
      }
      LessIrreflexive(key);
    }
  }

  lemma {:induction false} RemoveHas<V>(rows: seq<Row<V>>, key: Key, r: Row<V>)
    requires Ordered(rows)
    ensures r in OrderedBucket.Remove(rows, key) <==> r in rows && r.key != key
    decreases |rows|
  {
    if rows != [] {
      OrderedTail(rows);
      assert r in rows <==> r == rows[0] || r in rows[1..];
      if rows[0].key == key {
        LessIrreflexive(key);
      } else {
        RemoveHas(rows[1..], key, r);
      }
    }
  }

  lemma {:induction false} RemoveOrdered<V>(rows: seq<Row<V>>, key: Key)
    requires Ordered(rows)
    ensures Ordered(OrderedBucket.Remove(rows, key))
    ensures forall k :: AllAfter(rows, k) ==> AllAfter(OrderedBucket.Remove(rows, key), k)
    decreases |rows|
  {
    if rows != [] && rows[0].key != key {
      OrderedTail(rows);
      RemoveOrdered(rows[1..], key);
      OrderedCons(rows[0], OrderedBucket.Remove(rows[1..], key));
      forall k | AllAfter(rows, k) ensures AllAfter(OrderedBucket.Remove(rows, key), k) {
        assert AllAfter(rows[1..], k);
      }
    }
  }

  /* ---------- The entry table ---------- */

  function RowFor(d: Dentry, id: Id): Row<Id> {
    Row(DentryKey(d.parent, d.name), id)
  }

  /** The table holds exactly these entries, in key order. */
  ghost predicate Tabulates(rows: seq<Row<Id>>, dentries: map<Dentry, Id>) {
    && Ordered(rows)
    && (forall d :: d in dentries ==> RowFor(d, dentries[d]) in rows)
    && (forall r :: r in rows ==> exists d :: d in dentries && r == RowFor(d, dentries[d]))
  }

  lemma RowForInjective(d: Dentry, e: Dentry, i: Id, j: Id)
    ensures RowFor(d, i).key == RowFor(e, j).key <==> d == e
  {
    DentryKeyInjective(d.parent, d.name, e.parent, e.name);
  }

  lemma TableFinds(rows: seq<Row<Id>>, dentries: map<Dentry, Id>, d: Dentry)
    requires Tabulates(rows, dentries)
    ensures Find(rows, DentryKey(d.parent, d.name)) == if d in dentries then Some(dentries[d]) else None
  {
    var key := DentryKey(d.parent, d.name);
    if d in dentries {
      FindIff(rows, key, dentries[d]);
    } else if Find(rows, key).Some? {
      FindIff(rows, key, Find(rows, key).value);
      var e :| e in dentries && Row(key, Find(rows, key).value) == RowFor(e, dentries[e]);
      RowForInjective(d, e, dentries[e], dentries[e]);
      assert false;
    }
  }

  /** Storing an entry under its key is adding it to the map. */
  lemma PutTabulates(rows: seq<Row<Id>>, dentries: map<Dentry, Id>, d: Dentry, id: Id)
    requires Tabulates(rows, dentries)
    ensures Tabulates(Put(rows, DentryKey(d.parent, d.name), id), dentries[d := id])
  {
    var (key, after) := (DentryKey(d.parent, d.name), dentries[d := id]);
    var rows' := Put(rows, key, id);
    PutOrdered(rows, key, id);
    forall e | e in after ensures RowFor(e, after[e]) in rows' {
      RowForInjective(d, e, id, after[e]);
      PutHas(rows, key, id, RowFor(e, after[e]));
    }
    forall r | r in rows' ensures exists e :: e in after && r == RowFor(e, after[e]) {
      PutHas(rows, key, id, r);
      if r == Row(key, id) {
        assert r == RowFor(d, after[d]);
      } else {
        var e :| e in dentries && r == RowFor(e, dentries[e]);
        assert e in after && r == RowFor(e, after[e]);
      }
    }
  }

  lemma RemoveTabulates(rows: seq<Row<Id>>, dentries: map<Dentry, Id>, d: Dentry)
    requires Tabulates(rows, dentries)
    ensures Tabulates(OrderedBucket.Remove(rows, DentryKey(d.parent, d.name)), dentries - {d})
  {
    var (key, after) := (DentryKey(d.parent, d.name), dentries - {d});
    var rows' := OrderedBucket.Remove(rows, key);
    RemoveOrdered(rows, key);
    forall e | e in after ensures RowFor(e, after[e]) in rows' {
      RowForInjective(d, e, after[e], after[e]);
      RemoveHas(rows, key, RowFor(e, after[e]));
    }
    forall r | r in rows' ensures exists e :: e in after && r == RowFor(e, after[e]) {
      RemoveHas(rows, key, r);
      var e :| e in dentries && r == RowFor(e, dentries[e]);
      assert e in after && r == RowFor(e, after[e]);
    }
  }

  /* ---------- The chunk table ---------- */

  /** The rows of every inode are its chunk list, in order. */
  ghost predicate TabulatesChunks<C>(rows: seq<Row<C>>, chunks: map<Id, seq<C>>) {
    && Ordered(rows)
    && (forall i: Id :: i in chunks ==> |chunks[i]| < LIMIT)
    && (forall i: Id :: Under(rows, InodeKey(i)) == if i in chunks then RowsOf(i, chunks[i], |chunks[i]|) else [])
  }

  lemma ReplaceTabulates<C>(rows: seq<Row<C>>, rows': seq<Row<C>>, chunks: map<Id, seq<C>>, inode: Id, list: seq<C>)
    requires TabulatesChunks(rows, chunks) && |list| < LIMIT && Ordered(rows')
    requires Under(rows', InodeKey(inode)) == RowsOf(inode, list, |list|)
    requires forall other: Id :: other != inode ==> Under(rows', InodeKey(other)) == Under(rows, InodeKey(other))
    ensures TabulatesChunks(rows', chunks[inode := list])
  {
  }
}
