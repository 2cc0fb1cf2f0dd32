/** Reading a directory: a prefix scan of the entry table, returned in pages that the client puts together. */
module DirectoryListing {
  import opened Basics
  import opened MetadataKeys
  import opened OrderedBucket
  import opened Namespace
  import opened NamespaceProof
  import opened MetadataTables

  datatype DirEntry = DirEntry(name: Name, id: Id, kind: Kind)

  datatype Page = Page(entries: seq<DirEntry>, cookie: int, eof: bool)

  datatype Listing<T> = Listed(value: T) | Refused(error: Error) | MissingChild

  const BATCH := 100

  ghost predicate ChildrenPresent(found: seq<Row<Id>>, inodes: map<Id, Attrs>) {
    forall i :: 0 <= i < |found| ==> found[i].value in inodes && |found[i].key| >= 8
  }

  ghost function EntriesOf(found: seq<Row<Id>>, inodes: map<Id, Attrs>): seq<DirEntry>
    requires ChildrenPresent(found, inodes)
  {
    seq(|found|, i requires 0 <= i < |found| => DirEntry(found[i].key[8..], found[i].value,
                                                         inodes[found[i].value].kind))
  }

  method ReadEntries(rows: seq<Row<Id>>, inodes: map<Id, Attrs>, parent: Id) returns (r: Listing<seq<DirEntry>>)
    requires Ordered(rows)
    ensures parent !in inodes ==> r == Refused(NotFound)
    ensures parent in inodes && inodes[parent].kind != Directory ==> r == Refused(NotDir)
    ensures parent in inodes && inodes[parent].kind == Directory ==>
              var found := Under(rows, InodeKey(parent));
              if ChildrenPresent(found, inodes) then r == Listed(EntriesOf(found, inodes)) else r == MissingChild
  {
    if parent !in inodes {
      return Refused(NotFound);
    }
    if inodes[parent].kind != Directory {
      return Refused(NotDir);
    }
    var found := Scan(rows, InodeKey(parent));
    UnderHasPrefix(rows, InodeKey(parent));
    var entries, i := [], 0;
    while i < |found|
      invariant 0 <= i <= |found| && |entries| == i
      invariant forall j :: 0 <= j < i ==>
        && found[j].value in inodes && |found[j].key| >= 8
        && entries[j] == DirEntry(found[j].key[8..], found[j].value, inodes[found[j].value].kind)
    {
      if found[i].value !in inodes {
        return MissingChild;
      }
      entries := entries + [DirEntry(found[i].key[8..], found[i].value, inodes[found[i].value].kind)];
      i := i + 1;
    }
    assert entries == EntriesOf(found, inodes);
    return Listed(entries);
  }

  /** One page: a cookie past the end gives nothing, and no limit gives the rest. */
  function PageOf(all: seq<DirEntry>, cookie: int, maxEntries: int): Page {
    var start := if cookie < 0 then 0 else cookie;
    if start >= |all| then Page([], start, true)
    else
      var count := if maxEntries <= 0 then |all| - start else maxEntries;
      var end := if start + count > |all| then |all| else start + count;
      Page(all[start..end], end, end == |all|)
  }

  /**
   * The client asks for pages until the end is reported. On an unchanged directory this ends and
   * puts the whole listing together.
   */
  method ListDir(rows: seq<Row<Id>>, inodes: map<Id, Attrs>, parent: Id) returns (r: Listing<seq<DirEntry>>)
    requires Ordered(rows)
    ensures parent !in inodes ==> r == Refused(NotFound)
    ensures parent in inodes && inodes[parent].kind != Directory ==> r == Refused(NotDir)
    ensures parent in inodes && inodes[parent].kind == Directory ==>
              var found := Under(rows, InodeKey(parent));
              if ChildrenPresent(found, inodes) then r == Listed(EntriesOf(found, inodes)) else r == MissingChild
  {
    var all, cookie, eof := [], 0, false;
    ghost var found := Under(rows, InodeKey(parent));
    while !eof
      invariant cookie > 0 || eof ==>
                parent in inodes && inodes[parent].kind == Directory && ChildrenPresent(found, inodes)
      invariant cookie >= 0
      invariant cookie > 0 || eof ==> cookie <= |found| && all == EntriesOf(found, inodes)[..cookie]
      invariant cookie == 0 ==> all == []
      invariant eof ==> cookie == |found|
      decreases !eof, |found| - cookie
    {
      var whole := ReadEntries(rows, inodes, parent);
      if !whole.Listed? {
        return whole;
      }
      var page := PageOf(whole.value, cookie, BATCH);
      all, cookie, eof := all + page.entries, page.cookie, page.eof;
    }
    assert EntriesOf(found, inodes)[..|found|] == EntriesOf(found, inodes);
    return Listed(all);
  }

  /** The children of the directory, each once, in the order of their names, with their inodes and kinds. */
  ghost predicate ListsOnce<C>(b: Flat<C>, parent: Id, es: seq<DirEntry>) {
    && (forall i, j :: 0 <= i < j < |es| ==> Less(es[i].name, es[j].name))
    && (forall i :: 0 <= i < |es| ==> IsChild(b, parent, es[i]))
    && (forall n :: Dentry(parent, n) in b.dentries ==> exists i :: 0 <= i < |es| && es[i].name == n)
  }

  ghost predicate IsChild<C>(b: Flat<C>, parent: Id, e: DirEntry) {
    && Dentry(parent, e.name) in b.dentries && b.dentries[Dentry(parent, e.name)] == e.id
    && e.id in b.inodes && b.inodes[e.id].kind == e.kind
  }

  /** In a well-formed namespace no child is missing and the scan lists every child once, in order. */
  lemma ListedOnceInOrder<C>(rows: seq<Row<Id>>, b: Flat<C>, root: Id, parent: Id)
    requires Tabulates(rows, b.dentries) && WellNamed(b, root)
    ensures ChildrenPresent(Under(rows, InodeKey(parent)), b.inodes)
    ensures ListsOnce(b, parent, EntriesOf(Under(rows, InodeKey(parent)), b.inodes))
  {
    var found := Under(rows, InodeKey(parent));
    forall i | 0 <= i < |found| ensures IsEntry(b, parent, found[i]) {
      FoundIsEntry(rows, b, parent, i);
    }
    UnderOrdered(rows, InodeKey(parent));
    var es := EntriesOf(found, b.inodes);
    forall i, j | 0 <= i < j < |es| ensures Less(es[i].name, es[j].name) {
      SiblingsByName(parent, es[i].name, es[j].name);
    }
    forall n | Dentry(parent, n) in b.dentries ensures exists i :: 0 <= i < |es| && es[i].name == n {
      EntryIsFound(rows, b, parent, n);
      var i :| 0 <= i < |found| && found[i].key == DentryKey(parent, n);
      assert es[i].name == n;
    }
  }

  /** A row of the parent: its key is the parent followed by the name. */
  ghost predicate IsEntry<C>(b: Flat<C>, parent: Id, r: Row<Id>) {
    && |r.key| >= 8 && r.key == DentryKey(parent, r.key[8..]) && r.value in b.inodes
    && Dentry(parent, r.key[8..]) in b.dentries && b.dentries[Dentry(parent, r.key[8..])] == r.value
  }

  lemma FoundIsEntry<C>(rows: seq<Row<Id>>, b: Flat<C>, parent: Id, i: nat)
    requires Tabulates(rows, b.dentries) && i < |Under(rows, InodeKey(parent))|
    requires forall d :: d in b.dentries ==> b.dentries[d] in b.inodes
    ensures IsEntry(b, parent, Under(rows, InodeKey(parent))[i])
  {
    UnderHasPrefix(rows, InodeKey(parent));
    var r := Under(rows, InodeKey(parent))[i];
    var d :| d in b.dentries && r == RowFor(d, b.dentries[d]);
    PrefixIsParent(parent, d.parent, d.name);
    assert r.key[8..] == d.name;
  }

  lemma EntryIsFound<C>(rows: seq<Row<Id>>, b: Flat<C>, parent: Id, n: Name)
    requires Tabulates(rows, b.dentries) && Dentry(parent, n) in b.dentries
    ensures var found := Under(rows, InodeKey(parent));
            exists i :: 0 <= i < |found| && found[i].key == DentryKey(parent, n)
  {
    var d := Dentry(parent, n);
    assert RowFor(d, b.dentries[d]) in rows;
    var j :| 0 <= j < |rows| && rows[j] == RowFor(d, b.dentries[d]);
    UnderComplete(rows, InodeKey(parent), j);
  }

  lemma {:induction false} UnderOrdered(rows: seq<Row<Id>>, prefix: Key)
    requires Ordered(rows)
    ensures Ordered(Under(rows, prefix))
    decreases |rows|
  {
    if rows != [] {
      OrderedTail(rows);
      UnderOrdered(rows[1..], prefix);
      UnderHasPrefix(rows[1..], prefix);
      if prefix <= rows[0].key {
        OrderedCons(rows[0], Under(rows[1..], prefix));
      }
    }
  }
}
