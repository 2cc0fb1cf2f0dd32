/** A table whose keys are kept in byte order, with the cursor scan over one key prefix. */
module OrderedBucket {
  import opened Basics
  import opened MetadataKeys

  datatype Row<V> = Row(key: Key, value: V)

  ghost predicate Ordered<V>(rows: seq<Row<V>>) {
    forall i, j :: 0 <= i < j < |rows| ==> Less(rows[i].key, rows[j].key)
  }

  /** The rows with a prefix, in order: what a scan should return. */
  function Under<V>(rows: seq<Row<V>>, prefix: Key): seq<Row<V>>
    decreases |rows|
  {
    if rows == [] then []
    else if prefix <= rows[0].key then [rows[0]] + Under(rows[1..], prefix)
    else Under(rows[1..], prefix)
  }

  lemma {:induction false} UnderSplit<V>(a: seq<Row<V>>, b: seq<Row<V>>, prefix: Key)
    ensures Under(a + b, prefix) == Under(a, prefix) + Under(b, prefix)
    decreases |a|
  {
    if a == [] {
      assert a + b == b;
    } else {
      UnderSplit(a[1..], b, prefix);
      assert (a + b)[1..] == a[1..] + b;
    }
  }

  lemma {:induction false} UnderNone<V>(rows: seq<Row<V>>, prefix: Key)
    requires forall i :: 0 <= i < |rows| ==> !(prefix <= rows[i].key)
    ensures Under(rows, prefix) == []
    decreases |rows|
  {
    if rows != [] {
      UnderNone(rows[1..], prefix);
    }
  }

  /** The position of the first key that is not below the given one. */
  method Seek<V>(rows: seq<Row<V>>, key: Key) returns (i: nat)
    ensures i <= |rows| && (forall j :: 0 <= j < i ==> Less(rows[j].key, key))
    ensures i < |rows| ==> !Less(rows[i].key, key)
  {
    i := 0;
    while i < |rows| && Less(rows[i].key, key)
      invariant i <= |rows| && (forall j :: 0 <= j < i ==> Less(rows[j].key, key))
    {
      i := i + 1;
    }
  }

  /** Seeks the prefix and walks on as long as keys have it: this finds every key that has it, in order. */
  method Scan<V>(rows: seq<Row<V>>, prefix: Key) returns (found: seq<Row<V>>)
    requires Ordered(rows)
    ensures found == Under(rows, prefix)
  {
    var i := Seek(rows, prefix);
    ghost var start := i;
    found := [];
    NoneBelow(rows[..i], prefix);
    while i < |rows| && prefix <= rows[i].key
      invariant start <= i <= |rows| && found == Under(rows[..i], prefix)
      invariant i < |rows| ==> !Less(rows[i].key, prefix)
    {
      UnderSnoc(rows, prefix, i);
      found := found + [rows[i]];
      if i + 1 < |rows| {
        StillPast(rows[i].key, rows[i + 1].key, prefix);
      }
      i := i + 1;
    }
    NoneAfter(rows, prefix, i);
    UnderSplit(rows[..i], rows[i..], prefix);
    assert rows == rows[..i] + rows[i..];
  }

  lemma UnderSnoc<V>(rows: seq<Row<V>>, prefix: Key, i: nat)
    requires i < |rows| && prefix <= rows[i].key
    ensures Under(rows[..i + 1], prefix) == Under(rows[..i], prefix) + [rows[i]]
  {
    UnderSplit(rows[..i], [rows[i]], prefix);
    assert rows[..i + 1] == rows[..i] + [rows[i]];
    assert Under([rows[i]], prefix) == [rows[i]];
  }

  lemma NoneBelow<V>(rows: seq<Row<V>>, prefix: Key)
    requires forall j :: 0 <= j < |rows| ==> Less(rows[j].key, prefix)
    ensures Under(rows, prefix) == []
  {
    forall j | 0 <= j < |rows| ensures !(prefix <= rows[j].key) {
      if prefix <= rows[j].key {
        PrefixNotBelow(prefix, rows[j].key);
        assert false;
      }
    }
    UnderNone(rows, prefix);
  }

  lemma StillPast(k: Key, later: Key, prefix: Key)
    requires Less(k, later) && !Less(k, prefix)
    ensures !Less(later, prefix)
  {
    if Less(later, prefix) {
      LessTransitive(k, later, prefix);
      assert false;
    }
  }

  lemma NoneAfter<V>(rows: seq<Row<V>>, prefix: Key, i: nat)
    requires Ordered(rows) && i <= |rows|
    requires i < |rows| ==> !Less(rows[i].key, prefix) && !(prefix <= rows[i].key)
    ensures Under(rows[i..], prefix) == []
  {
    forall j | 0 <= j < |rows[i..]| ensures !(prefix <= rows[i..][j].key) {
      if j > 0 {
        PastPrefix(prefix, rows[i].key, rows[i + j].key);
      }
    }
    UnderNone(rows[i..], prefix);
  }

  /* ---------- Reading and writing single keys ---------- */

  function Put<V>(rows: seq<Row<V>>, key: Key, value: V): seq<Row<V>>
    decreases |rows|
  {
    if rows == [] || Less(key, rows[0].key) then [Row(key, value)] + rows
    else if rows[0].key == key then [Row(key, value)] + rows[1..]
    else [rows[0]] + Put(rows[1..], key, value)
  }

  function Remove<V>(rows: seq<Row<V>>, key: Key): seq<Row<V>>
    decreases |rows|
  {
    if rows == [] then [] else if rows[0].key == key then rows[1..] else [rows[0]] + Remove(rows[1..], key)
  }

  /** Every key of the rows comes after k. */
  ghost predicate AllAfter<V>(rows: seq<Row<V>>, k: Key) {
    forall i :: 0 <= i < |rows| ==> Less(k, rows[i].key)
  }

  lemma OrderedTail<V>(rows: seq<Row<V>>)
    requires Ordered(rows) && rows != []
    ensures Ordered(rows[1..]) && AllAfter(rows[1..], rows[0].key)
  {
  }

  lemma OrderedCons<V>(row: Row<V>, rows: seq<Row<V>>)
    requires Ordered(rows) && AllAfter(rows, row.key)
    ensures Ordered([row] + rows)
  {
  }

  lemma {:induction false} PutOrdered<V>(rows: seq<Row<V>>, key: Key, value: V)
    requires Ordered(rows)
    ensures Ordered(Put(rows, key, value))
    ensures forall k :: AllAfter(rows, k) && Less(k, key) ==> AllAfter(Put(rows, key, value), k)
    decreases |rows|
  {
    if rows == [] {
    } else if Less(key, rows[0].key) {
      forall i | 0 <= i < |rows| ensures Less(key, rows[i].key) {
        if i > 0 {
          LessTransitive(key, rows[0].key, rows[i].key);
        }
      }
      OrderedCons(Row(key, value), rows);
    } else if rows[0].key == key {
      OrderedTail(rows);
      OrderedCons(Row(key, value), rows[1..]);
    } else {
      OrderedTail(rows);
      LessTotal(key, rows[0].key);
      PutOrdered(rows[1..], key, value);
      OrderedCons(rows[0], Put(rows[1..], key, value));
    }
  }

  /** A key without the prefix is not seen by a scan of it. */
  lemma {:induction false} PutElsewhere<V>(rows: seq<Row<V>>, key: Key, value: V, prefix: Key)
    requires !(prefix <= key)
    ensures Under(Put(rows, key, value), prefix) == Under(rows, prefix)
    decreases |rows|
  {
    if rows != [] && !Less(key, rows[0].key) && rows[0].key != key {
      PutElsewhere(rows[1..], key, value, prefix);
    }
  }

  /** A key after all others with its prefix is seen last. */
  lemma {:induction false} PutLast<V>(rows: seq<Row<V>>, key: Key, value: V, prefix: Key)
    requires Ordered(rows) && prefix <= key
    requires forall i :: 0 <= i < |rows| && prefix <= rows[i].key ==> Less(rows[i].key, key)
    ensures Under(Put(rows, key, value), prefix) == Under(rows, prefix) + [Row(key, value)]
    decreases |rows|
  {
    if rows == [] {
      assert Under([Row(key, value)], prefix) == [Row(key, value)];
    } else if Less(key, rows[0].key) {
      NotBothWays(rows, key, prefix);
      UnderNone(rows, prefix);
    } else if rows[0].key == key {
      LessIrreflexive(key);
      assert false;
    } else {
      PutLast(rows[1..], key, value, prefix);
    }
  }

  lemma NotBothWays<V>(rows: seq<Row<V>>, key: Key, prefix: Key)
    requires Ordered(rows) && rows != [] && Less(key, rows[0].key)
    requires forall i :: 0 <= i < |rows| && prefix <= rows[i].key ==> Less(rows[i].key, key)
    ensures forall i :: 0 <= i < |rows| ==> !(prefix <= rows[i].key)
  {
    forall i | 0 <= i < |rows| ensures !(prefix <= rows[i].key) {
      if prefix <= rows[i].key {
        if i > 0 {
          LessTransitive(key, rows[0].key, rows[i].key);
        }
        LessTransitive(key, rows[i].key, key);
        LessIrreflexive(key);
        assert false;
      }
    }
  }

  /* ---------- Removing everything under a prefix ---------- */

  function Outside<V>(rows: seq<Row<V>>, prefix: Key): seq<Row<V>>
    decreases |rows|
  {
    if rows == [] then []
    else if prefix <= rows[0].key then Outside(rows[1..], prefix)
    else [rows[0]] + Outside(rows[1..], prefix)
  }

  function RemoveAll<V>(rows: seq<Row<V>>, gone: seq<Row<V>>): seq<Row<V>>
    decreases |gone|
  {
    if gone == [] then rows else RemoveAll(Remove(rows, gone[0].key), gone[1..])
  }

  lemma {:induction false} RemoveAllSkips<V>(rows: seq<Row<V>>, gone: seq<Row<V>>)
    requires rows != [] && (forall i :: 0 <= i < |gone| ==> gone[i].key != rows[0].key)
    ensures RemoveAll(rows, gone) == [rows[0]] + RemoveAll(rows[1..], gone)
    decreases |gone|
  {
    if gone != [] {
      RemoveAllSkips(Remove(rows, gone[0].key), gone[1..]);
      assert Remove(rows, gone[0].key)[1..] == Remove(rows[1..], gone[0].key);
    }
  }

  lemma {:induction false} UnderHasPrefix<V>(rows: seq<Row<V>>, prefix: Key)
    ensures forall i :: 0 <= i < |Under(rows, prefix)| ==>
              prefix <= Under(rows, prefix)[i].key && Under(rows, prefix)[i] in rows
    decreases |rows|
  {
    if rows != [] {
      UnderHasPrefix(rows[1..], prefix);
    }
  }

  lemma {:induction false} UnderComplete<V>(rows: seq<Row<V>>, prefix: Key, j: nat)
    requires j < |rows| && prefix <= rows[j].key
    ensures rows[j] in Under(rows, prefix)
    decreases |rows|
  {
    if j > 0 {
      UnderComplete(rows[1..], prefix, j - 1);
    }
  }

  lemma {:induction false} RemoveUnder<V>(rows: seq<Row<V>>, prefix: Key)
    ensures RemoveAll(rows, Under(rows, prefix)) == Outside(rows, prefix)
    decreases |rows|
  {
    if rows != [] {
      RemoveUnder(rows[1..], prefix);
      UnderHasPrefix(rows[1..], prefix);
      if prefix <= rows[0].key {
        assert Under(rows, prefix)[1..] == Under(rows[1..], prefix);
      } else {
        RemoveAllSkips(rows, Under(rows[1..], prefix));
      }
    }
  }

  lemma {:induction false} OutsideOrdered<V>(rows: seq<Row<V>>, prefix: Key)
    requires Ordered(rows)
    ensures Ordered(Outside(rows, prefix)) && (forall k :: AllAfter(rows, k) ==> AllAfter(Outside(rows, prefix), k))
    decreases |rows|
  {
    if rows != [] {
      OrderedTail(rows);
      OutsideOrdered(rows[1..], prefix);
      assert AllAfter(Outside(rows[1..], prefix), rows[0].key);
      forall k | AllAfter(rows, k) ensures AllAfter(Outside(rows, prefix), k) {
        assert AllAfter(rows[1..], k);
      }
    }
  }

  /** Removing one prefix leaves scans of other prefixes alone, if no key has both. */
  lemma {:induction false} OutsideUnder<V>(rows: seq<Row<V>>, prefix: Key, other: Key)
    requires forall i :: 0 <= i < |rows| ==> !(prefix <= rows[i].key && other <= rows[i].key)
    ensures Under(Outside(rows, prefix), other) == Under(rows, other)
    decreases |rows|
  {
    if rows != [] {
      OutsideUnder(rows[1..], prefix, other);
      if !(prefix <= rows[0].key) {
        assert Outside(rows, prefix)[1..] == Outside(rows[1..], prefix);
      }
    }
  }

  lemma {:induction false} OutsideHasNone<V>(rows: seq<Row<V>>, prefix: Key)
    ensures forall i :: 0 <= i < |Outside(rows, prefix)| ==> !(prefix <= Outside(rows, prefix)[i].key)
    decreases |rows|
  {
    if rows != [] {
      OutsideHasNone(rows[1..], prefix);
    }
  }
}
