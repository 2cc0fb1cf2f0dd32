/**
 * The two metadata services as the program keeps them: tables changed row by row, and inode
 * objects changed in place.
 */
module MetadataServices {
  import opened Basics
  import opened MetadataKeys
  import opened Namespace
  import opened NamespaceProof
  import opened NamespaceEffects
  import opened OrderedBucket
  import opened ChunkLists
  import opened MetadataTables
  import opened DirectoryListing

  /** Sets the attributes that are given, one by one; the change time is always set. */
  method ChangedAttrs<C>(a: Attrs, op: Op<C>) returns (r: Attrs)
    requires op.SetAttr?
    ensures r == WithAttrs(a, op)
  {
    r := a;
    if op.setMode.Some? {
      r := r.(mode := op.setMode.value);
    }
    if op.setUid.Some? {
      r := r.(uid := op.setUid.value);
    }
    if op.setGid.Some? {
      r := r.(gid := op.setGid.value);
    }
    if op.setAtime.Some? {
      r := r.(atime := op.setAtime.value);
    }
    if op.setMtime.Some? {
      r := r.(mtime := op.setMtime.value);
    }
    r := r.(ctime := op.now);
  }

  /* ---------- Flat tables ---------- */

  /** Each method is one transaction: it returns an error before it changes anything. */
  class TableService<C(0)> {
    var inodes: map<Id, Attrs>
    var dentries: seq<Row<Id>>
    var chunks: seq<Row<C>>
    /** What the tables stand for. */
    ghost var view: Flat<C>

    constructor (root: Id, attrs: Attrs)
      ensures Valid() && view == NewFlat(root, attrs)
    {
      inodes, dentries, chunks, view := map[root := attrs], [], [], NewFlat(root, attrs);
    }

    /** The byte-keyed tables hold exactly the entries and chunk lists of the view. */
    ghost predicate Valid()
      reads this
    {
      inodes == view.inodes && Tabulates(dentries, view.dentries) && TabulatesChunks(chunks, view.chunks)
    }

    method ApplyCreate(op: Op<C>) returns (error: Option<Error>)
      requires Valid() && op.Create?
      modifies `inodes, `dentries, `view
      ensures Valid() && (view, error) == FlatStep(old(view), op)
    {
      if op.parent !in inodes {
        return Some(NotFound);
      }
      var parent := inodes[op.parent];
      if parent.kind != Directory {
        return Some(NotFound);
      }
      var d := Dentry(op.parent, op.name);
      var taken := FindEntry(d);
      if taken.Some? {
        return Some(AlreadyExists);
      }
      var child := Attrs(op.kind, 1, op.mode, op.uid, op.gid, 0, 0, op.now, op.now, op.now);
      if op.kind == Directory {
        child := child.(links := 2);
        parent := parent.(links := parent.links + 1);
      }
      inodes := inodes[op.id := child];
      AddEntry(d, op.id);
      parent := parent.(mtime := op.now, ctime := op.now);
      inodes := inodes[op.parent := parent];
      view := Flat(inodes, view.dentries[d := op.id], view.chunks);
      return None;
    }

    method AddEntry(d: Dentry, id: Id)
      requires Tabulates(dentries, view.dentries)
      modifies `dentries
      ensures Tabulates(dentries, view.dentries[d := id])
    {
      PutTabulates(dentries, view.dentries, d, id);
      dentries := Put(dentries, DentryKey(d.parent, d.name), id);
    }

    method DropEntry(d: Dentry)
      requires Tabulates(dentries, view.dentries)
      modifies `dentries
      ensures Tabulates(dentries, view.dentries - {d})
    {
      RemoveTabulates(dentries, view.dentries, d);
      dentries := OrderedBucket.Remove(dentries, DentryKey(d.parent, d.name));
    }

    /** What the entry table answers for one entry. */
    method FindEntry(d: Dentry) returns (found: Option<Id>)
      requires Tabulates(dentries, view.dentries)
      ensures found == if d in view.dentries then Some(view.dentries[d]) else None
    {
      TableFinds(dentries, view.dentries, d);
      found := Find(dentries, DentryKey(d.parent, d.name));
    }

    /** Deletes an inode and stores its parent again. */
    method DropInode(id: Id, parentId: Id, now: int)
      requires id in inodes && parentId in inodes
      modifies `inodes
      ensures var parent := old(inodes)[parentId];
              var links := parent.links - if old(inodes)[id].kind.Directory? then 1 else 0;
              inodes == (old(inodes) - {id})[parentId := Touched(parent.(links := links), now)]
    {
      var parent, child := inodes[parentId], inodes[id];
      inodes := inodes - {id};
      if child.kind == Directory {
        parent := parent.(links := parent.links - 1);
      }
      parent := parent.(mtime := now, ctime := now);
      inodes := inodes[parentId := parent];
    }

    method ApplyRemove(op: Op<C>) returns (error: Option<Error>)
      requires Valid() && op.Remove?
      modifies `inodes, `dentries, `view
      ensures Valid() && (view, error) == FlatStep(old(view), op)
    {
      var d := Dentry(op.parent, op.name);
      var found := FindEntry(d);
      if found.None? || op.parent !in inodes || found.value !in inodes {
        return Some(NotFound);
      }
      DropInode(found.value, op.parent, op.now);
      RemoveShape(view, op, inodes);
      DropEntry(d);
      view := Flat(inodes, view.dentries - {d}, view.chunks);
      return None;
    }

    /** Moves an entry and tells which inode the destination named before. */
    method MoveEntry(src: Dentry, dst: Dentry, child: Id) returns (overwritten: Option<Id>)
      requires Tabulates(dentries, view.dentries)
      modifies `dentries
      ensures Tabulates(dentries, (view.dentries - {src})[dst := child])
      ensures overwritten == if dst in view.dentries && dst != src then Some(view.dentries[dst]) else None
    {
      var srcKey, dstKey := DentryKey(src.parent, src.name), DentryKey(dst.parent, dst.name);
      RemoveTabulates(dentries, view.dentries, src);
      dentries := OrderedBucket.Remove(dentries, srcKey);
      overwritten := Find(dentries, dstKey);
      TableFinds(dentries, view.dentries - {src}, dst);
      PutTabulates(dentries, view.dentries - {src}, dst, child);
      dentries := Put(dentries, dstKey, child);
    }

    method ApplyRename(op: Op<C>) returns (error: Option<Error>)
      requires Valid() && op.Rename?
      modifies `inodes, `dentries, `view
      ensures Valid() && (view, error) == FlatStep(old(view), op)
    {
      var src, dst := Dentry(op.parent, op.name), Dentry(op.dstParent, op.dstName);
      var child := FindEntry(src);
      if op.parent !in inodes || op.dstParent !in inodes || child.None? {
        return Some(NotFound);
      }
      var srcParent, dstParent := inodes[op.parent], inodes[op.dstParent];
      var overwritten := MoveEntry(src, dst, child.value);
      if overwritten.Some? {
        inodes := inodes - {overwritten.value};
      }
      inodes := inodes[op.parent := srcParent.(mtime := op.now, ctime := op.now)];
      inodes := inodes[op.dstParent := dstParent.(mtime := op.now, ctime := op.now)];
      RenameShape(view, op, overwritten, inodes);
      view := Flat(inodes, (view.dentries - {src})[dst := child.value], view.chunks);
      return None;
    }

    method ApplySetAttr(op: Op<C>) returns (error: Option<Error>)
      requires Valid() && op.SetAttr?
      modifies `inodes, `view
      ensures Valid() && (view, error) == FlatStep(old(view), op)
      ensures op.id in old(inodes) ==> op.id in inodes && AttrsSet(old(inodes)[op.id], inodes[op.id], op)
    {
      SetAttrRule(view, op);
      if op.id !in inodes {
        return Some(NotFound);
      }
      var changed := ChangedAttrs(inodes[op.id], op);
      inodes := inodes[op.id := changed];
      view := FlatStep(view, op).0;
      return None;
    }

    /** Chunks are numbered with 64 bits. */
    method ApplyUpdateInode(op: Op<C>) returns (error: Option<Error>)
      requires Valid() && op.UpdateInode? && (op.newChunks.Some? ==> |op.newChunks.value| < LIMIT)
      modifies `inodes, `chunks, `view
      ensures Valid() && (view, error) == FlatStep(old(view), op)
      ensures op.id in old(inodes) ==>
                && op.id in inodes && FileUpdated(old(inodes)[op.id], inodes[op.id], op)
                && ChunksOf(view, op.id) == if op.newChunks.Some? then op.newChunks.value
                  else ChunksOf(old(view), op.id)
    {
      UpdateRule(view, op);
      if op.id !in inodes {
        return Some(NotFound);
      }
      var inode := inodes[op.id];
      if op.newSize.Some? {
        inode := inode.(size := op.newSize.value);
      }
      if op.setMtime.Some? {
        inode := inode.(mtime := op.setMtime.value);
      }
      inodes := inodes[op.id := inode.(version := inode.version + 1, ctime := op.now)];
      if op.newChunks.Some? {
        var replaced := ReplaceChunkList(chunks, op.id, op.newChunks.value);
        ReplaceTabulates(chunks, replaced, view.chunks, op.id, op.newChunks.value);
        chunks := replaced;
      }
      view := FlatStep(view, op).0;
      return None;
    }

    method Apply(op: Op<C>) returns (error: Option<Error>)
      requires Valid() && Numbered(op)
      modifies this
      ensures Valid() && (view, error) == FlatStep(old(view), op)
    {
      match op
      case Create(_, _, _, _, _, _, _, _) => error := ApplyCreate(op);
      case Remove(_, _, _) => error := ApplyRemove(op);
      case Rename(_, _, _, _, _) => error := ApplyRename(op);
      case SetAttr(_, _, _, _, _, _, _) => error := ApplySetAttr(op);
      case UpdateInode(_, _, _, _, _) => error := ApplyUpdateInode(op);
    }

    /** The chunk list of an inode, read back from its rows. */
    method ChunkList(id: Id, blank: C) returns (list: seq<C>)
      requires Valid()
      ensures list == ChunksOf(view, id)
    {
      var ok;
      ok, list := LoadChunkList(chunks, id, blank);
      ghost var stored := ChunksOf(view, id);
      assert Under(chunks, InodeKey(id)) == RowsOf(id, stored, |stored|);
      LoadRestores(id, stored, 0, blank);
      assert RowsOf(id, stored, |stored|)[0..] == RowsOf(id, stored, |stored|) && stored[..0] == [];
    }

    /** Walks the path part by part from the root. */
    method LookupPath(root: Id, parts: seq<Name>) returns (r: Result<Id, Error>)
      requires Valid()
      ensures r == FlatLookup(view, root, parts)
    {
      var current, i := root, 0;
      while i < |parts|
        invariant 0 <= i <= |parts|
        invariant FlatLookup(view, current, parts[i..]) == FlatLookup(view, root, parts)
      {
        var part := parts[i];
        i := i + 1;
        if Skipped(part) {
          continue;
        }
        if current !in inodes {
          return Err(NotFound);
        }
        if inodes[current].kind != Directory {
          return Err(NotDir);
        }
        var child := FindEntry(Dentry(current, part));
        if child.None? {
          return Err(NotFound);
        }
        current := child.value;
      }
      return Ok(current);
    }

    /** Lists a directory of a well-formed namespace: every child once, in order, and none missing. */
    method ListDirectory(parent: Id, ghost root: Id) returns (r: Listing<seq<DirEntry>>)
      requires Valid() && WellNamed(view, root)
      ensures Answers(view, parent, r)
    {
      r := ListDir(dentries, inodes, parent);
      ListedOnceInOrder(dentries, view, root, parent);
    }
  }

  lemma RemoveShape<C>(b: Flat<C>, op: Op<C>, inodes: map<Id, Attrs>)
    requires op.Remove? && Dentry(op.parent, op.name) in b.dentries && op.parent in b.inodes
    requires var child := b.dentries[Dentry(op.parent, op.name)];
             && child in b.inodes
             && var links := b.inodes[op.parent].links - if b.inodes[child].kind.Directory? then 1 else 0;
                inodes == (b.inodes - {child})[op.parent := Touched(b.inodes[op.parent].(links := links), op.now)]
    ensures FlatStep(b, op) == (Flat(inodes, b.dentries - {Dentry(op.parent, op.name)}, b.chunks), None)
  {
  }

  lemma RenameShape<C>(b: Flat<C>, op: Op<C>, overwritten: Option<Id>, inodes: map<Id, Attrs>)
    requires op.Rename? && op.parent in b.inodes && op.dstParent in b.inodes && Dentry(op.parent, op.name) in b.dentries
    requires var (src, dst) := (Dentry(op.parent, op.name), Dentry(op.dstParent, op.dstName));
             overwritten == if dst in b.dentries && dst != src then Some(b.dentries[dst]) else None
    requires var rest := if overwritten.Some? then b.inodes - {overwritten.value} else b.inodes;
             inodes == rest[op.parent := Touched(b.inodes[op.parent], op.now)]
                           [op.dstParent := Touched(b.inodes[op.dstParent], op.now)]
    ensures var (src, dst) := (Dentry(op.parent, op.name), Dentry(op.dstParent, op.dstName));
            FlatStep(b, op) == (Flat(inodes, (b.dentries - {src})[dst := b.dentries[src]], b.chunks), None)
  {
  }

  function NewFlat<C>(root: Id, attrs: Attrs): Flat<C> {
    Flat(map[root := attrs], map[], map[])
  }

  predicate Numbered<C>(op: Op<C>) {
    op.UpdateInode? && op.newChunks.Some? ==> |op.newChunks.value| < LIMIT
  }

  /** The listing of a directory, or the error for a missing one or a file; never a missing child. */
  ghost predicate Answers<C>(b: Flat<C>, parent: Id, r: Listing<seq<DirEntry>>) {
    if parent !in b.inodes then r == Refused(NotFound)
    else if b.inodes[parent].kind != Directory then r == Refused(NotDir)
    else r.Listed? && ListsOnce(b, parent, r.value)
  }

  /**
   * A new file system, any operations with unused inode numbers, and a listing: it never reports
   * a missing child, and lists every child of the directory once, in order.
   */
  method RunThenList<C(0)>(root: Id, attrs: Attrs, ops: seq<Op<C>>, parent: Id) returns (r: Listing<seq<DirEntry>>)
    requires AllUnused(NewFlat(root, attrs), ops) && (forall i :: 0 <= i < |ops| ==> Numbered(ops[i]))
    ensures Answers(FlatRun(NewFlat(root, attrs), ops), parent, r)
  {
    var service := new TableService<C>(root, attrs);
    var i := 0;
    while i < |ops|
      invariant 0 <= i <= |ops| && service.Valid() && fresh(service)
      invariant FlatRun(service.view, ops[i..]) == FlatRun(NewFlat(root, attrs), ops)
    {
      var error := service.Apply(ops[i]);
      i := i + 1;
    }
    NewFileSystem<C>(root, attrs);
    RunKeepsNames(NewFlat<C>(root, attrs), ops, root);
    r := service.ListDirectory(parent, root);
  }

  /* ---------- Inode objects ---------- */

  class InodeObject<C> {
    var attrs: Attrs
    var children: map<Name, Id>
    var chunks: seq<C>

    constructor (attrs: Attrs)
      ensures this.attrs == attrs && children == map[] && chunks == []
    {
      this.attrs, children, chunks := attrs, map[], [];
    }
  }

  /**
   * Operations hold on to inode objects while they change the map, so an object that was deleted
   * from the map can still be changed, without effect.
   */
  class ObjectService<C> {
    var inodes: map<Id, InodeObject<C>>

    /** Different numbers are different objects. */
    ghost predicate Valid()
      reads this
    {
      forall i, j :: i in inodes && j in inodes && inodes[i] == inodes[j] ==> i == j
    }

    ghost function View(): Nested<C>
      reads this, inodes.Values
    {
      map i | i in inodes :: Inode(inodes[i].attrs, inodes[i].children, inodes[i].chunks)
    }

    constructor (root: Id, attrs: Attrs)
      ensures Valid() && View() == map[root := Inode(attrs, map[], [])] && fresh(inodes.Values)
    {
      var object_ := new InodeObject(attrs);
      inodes := map[root := object_];
    }

    /** Object `o` stands for `id`, in the map or deleted from it. */
    ghost predicate StandsFor(o: InodeObject<C>, id: Id)
      reads this
    {
      if id in inodes then inodes[id] == o else o !in inodes.Values
    }

    /** Changes an object in place; the map shows it if the object is still there. */
    method Assign(o: InodeObject<C>, ghost id: Id, attrs: Attrs, children: map<Name, Id>)
      requires Valid() && StandsFor(o, id)
      modifies o
      ensures View() == Change(old(View()), id, Inode(attrs, children, old(o.chunks)))
      ensures o.attrs == attrs && o.children == children && o.chunks == old(o.chunks)
    {
      o.attrs, o.children := attrs, children;
      assert View() == Change(old(View()), id, Inode(attrs, children, old(o.chunks)));
    }

    method Forget(id: Id)
      requires Valid()
      modifies `inodes
      ensures Valid() && inodes == old(inodes) - {id} && View() == old(View()) - {id}
    {
      inodes := inodes - {id};
      assert View() == old(View()) - {id};
    }

    method Insert(id: Id, attrs: Attrs)
      requires Valid() && id !in inodes
      modifies `inodes
      ensures Valid() && View() == old(View())[id := Inode(attrs, map[], [])]
      ensures id in inodes && inodes == old(inodes)[id := inodes[id]] && fresh(inodes[id])
    {
      var object_ := new InodeObject<C>(attrs);
      inodes := inodes[id := object_];
      assert View() == old(View())[id := Inode(attrs, map[], [])];
    }

    method ApplyCreate(op: Op<C>) returns (error: Option<Error>)
      requires Valid() && op.Create? && op.id !in inodes
      modifies this, inodes.Values
      ensures Valid() && (View(), error) == NestedCreate(old(View()), op) && fresh(inodes.Values - old(inodes.Values))
    {
      if op.parent !in inodes || inodes[op.parent].attrs.kind != Directory {
        return Some(NotFound);
      }
      var parent := inodes[op.parent];
      if op.name in parent.children {
        return None;
      }
      var links := if op.kind == Directory then parent.attrs.links + 1 else parent.attrs.links;
      var own := if op.kind == Directory then 2 else 1;
      Insert(op.id, Attrs(op.kind, own, op.mode, op.uid, op.gid, 0, 0, op.now, op.now, op.now));
      Assign(parent, op.parent, parent.attrs.(links := links, mtime := op.now, ctime := op.now),
             parent.children[op.name := op.id]);
      return None;
    }

    method ApplyRemove(op: Op<C>) returns (error: Option<Error>)
      requires Valid() && op.Remove?
      modifies this, inodes.Values
      ensures Valid() && (View(), error) == NestedRemove(old(View()), op) && inodes.Values <= old(inodes.Values)
    {
      if op.parent !in inodes {
        return None;
      }
      var parent := inodes[op.parent];
      if op.name !in parent.children {
        return None;
      }
      var childId, links := parent.children[op.name], parent.attrs.links;
      if childId in inodes && inodes[childId].attrs.kind == Directory {
        links := links - 1;
      }
      Forget(childId);
      Assign(parent, op.parent, parent.attrs.(links := links, mtime := op.now, ctime := op.now),
             parent.children - {op.name});
      return None;
    }

    /** The destination has to be a directory: the children of a file cannot be assigned to. */
    method ApplyRename(op: Op<C>) returns (error: Option<Error>)
      requires Valid() && op.Rename? && (op.dstParent in inodes ==> inodes[op.dstParent].attrs.kind == Directory)
      modifies this, inodes.Values
      ensures Valid() && (View(), error) == NestedRename(old(View()), op) && inodes.Values <= old(inodes.Values)
    {
      if op.parent !in inodes || op.dstParent !in inodes {
        return Some(NotFound);
      }
      var srcParent, dstParent := inodes[op.parent], inodes[op.dstParent];
      if op.name !in srcParent.children {
        return None;
      }
      var childId := srcParent.children[op.name];
      Assign(srcParent, op.parent, srcParent.attrs.(mtime := op.now, ctime := op.now), srcParent.children - {op.name});
      PutUnder(dstParent, op.dstParent, op.dstName, childId, op.now);
      return None;
    }

    method PutUnder(dst: InodeObject<C>, ghost id: Id, name: Name, child: Id, now: int)
      requires Valid() && id in inodes && inodes[id] == dst
      modifies `inodes, dst
      ensures Valid() && View() == PutInto(old(View()), id, old(View()[id]), name, child, now)
      ensures inodes.Values <= old(inodes.Values)
    {
      if name in dst.children {
        Forget(dst.children[name]);
      }
      Assign(dst, id, dst.attrs.(mtime := now, ctime := now), dst.children[name := child]);
    }

    method ApplySetAttr(op: Op<C>)
      requires Valid() && op.SetAttr?
      modifies inodes.Values
      ensures View() == NestedStep(old(View()), op).0
      ensures op.id in inodes ==> AttrsSet(old(inodes[op.id].attrs), inodes[op.id].attrs, op)
    {
      if op.id in inodes {
        var inode := inodes[op.id];
        var changed := ChangedAttrs(inode.attrs, op);
        Assign(inode, op.id, changed, inode.children);
      }
    }

    method ApplyUpdateInode(op: Op<C>)
      requires Valid() && op.UpdateInode?
      modifies inodes.Values
      ensures View() == NestedStep(old(View()), op).0
      ensures op.id in inodes ==>
                && FileUpdated(old(inodes[op.id].attrs), inodes[op.id].attrs, op)
                && inodes[op.id].chunks == if op.newChunks.Some? then op.newChunks.value else old(inodes[op.id].chunks)
    {
      if op.id in inodes {
        var inode := inodes[op.id];
        if op.newChunks.Some? {
          inode.chunks := op.newChunks.value;
        }
        if op.newSize.Some? {
          inode.attrs := inode.attrs.(size := op.newSize.value);
        }
        if op.setMtime.Some? {
          inode.attrs := inode.attrs.(mtime := op.setMtime.value);
        }
        inode.attrs := inode.attrs.(version := inode.attrs.version + 1, ctime := op.now);
      }
      assert View() == NestedStep(old(View()), op).0;
    }

    method LookupPath(root: Id, parts: seq<Name>) returns (r: Result<Id, Error>)
      ensures r == NestedLookup(View(), root, parts)
    {
      var current, i := root, 0;
      while i < |parts|
        invariant 0 <= i <= |parts|
        invariant NestedLookup(View(), current, parts[i..]) == NestedLookup(View(), root, parts)
      {
        var part := parts[i];
        i := i + 1;
        if Skipped(part) {
          continue;
        }
        if current !in inodes {
          return Err(NotFound);
        }
        var inode := inodes[current];
        if inode.attrs.kind != Directory {
          return Err(NotDir);
        }
        if part !in inode.children {
          return Err(NotFound);
        }
        current := inode.children[part];
      }
      return Ok(current);
    }
  }
}
