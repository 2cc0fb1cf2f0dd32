/**
 * What each metadata operation does, field by field: to the inodes it names, to the entries, to
 * the chunk lists, and to nothing else. For the flat tables and for the nested inodes.
 */
module NamespaceEffects {
  import opened Basics
  import opened MetadataKeys
  import opened Namespace

  /* ---------- Single inodes ---------- */

  /** A new inode is empty, has all times set to now, and two links if it is a directory. */
  ghost predicate IsNew<C>(a: Attrs, op: Op<C>)
    requires op.Create?
  {
    && a.kind == op.kind && a.mode == op.mode && a.uid == op.uid && a.gid == op.gid && a.size == 0 && a.version == 0
    && a.atime == a.mtime == a.ctime == op.now && a.links == if op.kind == Directory then 2 else 1
  }

  /** A parent gets this many more links and the times of the change; the rest of it stays. */
  ghost predicate ParentChanged(a: Attrs, a': Attrs, more: int, now: int) {
    && a'.links == a.links + more && a'.mtime == a'.ctime == now && a'.atime == a.atime
    && a'.kind == a.kind && a'.mode == a.mode && a'.uid == a.uid && a'.gid == a.gid
    && a'.size == a.size && a'.version == a.version
  }

  /** The given attributes are set, the others stay, and the change time is now. */
  ghost predicate AttrsSet<C>(a: Attrs, a': Attrs, op: Op<C>)
    requires op.SetAttr?
  {
    && a'.mode == (if op.setMode.Some? then op.setMode.value else a.mode)
    && a'.uid == (if op.setUid.Some? then op.setUid.value else a.uid)
    && a'.gid == (if op.setGid.Some? then op.setGid.value else a.gid)
    && a'.atime == (if op.setAtime.Some? then op.setAtime.value else a.atime)
    && a'.mtime == (if op.setMtime.Some? then op.setMtime.value else a.mtime)
    && a'.ctime == op.now && a'.kind == a.kind && a'.links == a.links && a'.size == a.size && a'.version == a.version
  }

  /** The given size and modification time are set, the version counts up, and the change time is now. */
  ghost predicate FileUpdated<C>(a: Attrs, a': Attrs, op: Op<C>)
    requires op.UpdateInode?
  {
    && a'.size == (if op.newSize.Some? then op.newSize.value else a.size)
    && a'.mtime == (if op.setMtime.Some? then op.setMtime.value else a.mtime)
    && a'.version == a.version + 1 && a'.ctime == op.now
    && a'.kind == a.kind && a'.links == a.links && a'.mode == a.mode && a'.uid == a.uid && a'.gid == a.gid
    && a'.atime == a.atime
  }

  /* ---------- Flat tables ---------- */

  /** Nothing but the inodes of a set differs. */
  ghost predicate OtherInodesSame(m: map<Id, Attrs>, m': map<Id, Attrs>, ids: set<Id>) {
    forall i :: i !in ids ==> (i in m' <==> i in m) && (i in m ==> m'[i] == m[i])
  }

  /** A create makes the child and its entry, unless the parent is no directory or the name is taken. */
  lemma CreateRule<C>(b: Flat<C>, op: Op<C>)
    requires op.Create? && op.id !in b.inodes
    ensures var (b', error) := FlatStep(b, op);
            var d := Dentry(op.parent, op.name);
            if op.parent !in b.inodes || b.inodes[op.parent].kind != Directory then b' == b && error == Some(NotFound)
            else if d in b.dentries then b' == b && error == Some(AlreadyExists)
            else
              && error == None && b'.chunks == b.chunks && b'.dentries == b.dentries[d := op.id]
              && op.id in b'.inodes && IsNew(b'.inodes[op.id], op) && op.parent in b'.inodes
              && ParentChanged(b.inodes[op.parent], b'.inodes[op.parent], if op.kind == Directory then 1 else 0, op.now)
              && OtherInodesSame(b.inodes, b'.inodes, {op.id, op.parent})
  {
  }

  /** A remove deletes the entry and its inode, unless one of them or the parent is missing. */
  lemma RemoveRule<C>(b: Flat<C>, op: Op<C>)
    requires op.Remove?
    ensures var (b', error) := FlatStep(b, op);
            var d := Dentry(op.parent, op.name);
            if d !in b.dentries || op.parent !in b.inodes || b.dentries[d] !in b.inodes
            then b' == b && error == Some(NotFound)
            else
              var child := b.dentries[d];
              && error == None && b'.chunks == b.chunks && b'.dentries == b.dentries - {d}
              && (child != op.parent ==> child !in b'.inodes) && op.parent in b'.inodes
              && ParentChanged(b.inodes[op.parent], b'.inodes[op.parent],
                               if b.inodes[child].kind == Directory then -1 else 0, op.now)
              && OtherInodesSame(b.inodes, b'.inodes, {child, op.parent})
  {
  }

  /** The inode a rename overwrites: what the destination names, if it is not the source. */
  ghost function Overwritten<C>(b: Flat<C>, op: Op<C>): Option<Id>
    requires op.Rename?
  {
    var (src, dst) := (Dentry(op.parent, op.name), Dentry(op.dstParent, op.dstName));
    if dst in b.dentries && dst != src then Some(b.dentries[dst]) else None
  }

  /** A rename moves the entry and deletes what it overwrites, unless the entry or a parent is missing. */
  lemma RenameRule<C>(b: Flat<C>, op: Op<C>)
    requires op.Rename?
    ensures var (b', error) := FlatStep(b, op);
            var (src, dst) := (Dentry(op.parent, op.name), Dentry(op.dstParent, op.dstName));
            if op.parent !in b.inodes || op.dstParent !in b.inodes || src !in b.dentries
            then b' == b && error == Some(NotFound)
            else
              && error == None && b'.chunks == b.chunks
              && dst in b'.dentries && b'.dentries[dst] == b.dentries[src] && (src != dst ==> src !in b'.dentries)
              && (forall d :: d != src && d != dst ==>
                    (d in b'.dentries <==> d in b.dentries) && (d in b.dentries ==> b'.dentries[d] == b.dentries[d]))
              && op.parent in b'.inodes && ParentChanged(b.inodes[op.parent], b'.inodes[op.parent], 0, op.now)
              && op.dstParent in b'.inodes && ParentChanged(b.inodes[op.dstParent], b'.inodes[op.dstParent], 0, op.now)
              && (forall i :: i !in {op.parent, op.dstParent} ==>
                    && (i in b'.inodes <==> i in b.inodes && Overwritten(b, op) != Some(i))
                    && (i in b'.inodes ==> b'.inodes[i] == b.inodes[i]))
  {
  }

  lemma SetAttrRule<C>(b: Flat<C>, op: Op<C>)
    requires op.SetAttr?
    ensures var (b', error) := FlatStep(b, op);
            if op.id !in b.inodes then b' == b && error == Some(NotFound)
            else
              && error == None && b'.dentries == b.dentries && b'.chunks == b.chunks
              && op.id in b'.inodes && AttrsSet(b.inodes[op.id], b'.inodes[op.id], op)
              && OtherInodesSame(b.inodes, b'.inodes, {op.id})
  {
  }

  /** An update stores size, times, version and chunk list of its inode and leaves everything else alone. */
  lemma UpdateRule<C>(b: Flat<C>, op: Op<C>)
    requires op.UpdateInode?
    ensures var (b', error) := FlatStep(b, op);
            if op.id !in b.inodes then b' == b && error == Some(NotFound)
            else
              && error == None && b'.dentries == b.dentries
              && op.id in b'.inodes && FileUpdated(b.inodes[op.id], b'.inodes[op.id], op)
              && OtherInodesSame(b.inodes, b'.inodes, {op.id})
              && ChunksOf(b', op.id) == (if op.newChunks.Some? then op.newChunks.value else ChunksOf(b, op.id))
              && (forall i :: i != op.id ==> ChunksOf(b', i) == ChunksOf(b, i))
  {
  }

  /* ---------- Nested inodes ---------- */

  ghost predicate OthersSame<C>(m: Nested<C>, m': Nested<C>, ids: set<Id>) {
    forall i :: i !in ids ==> (i in m' <==> i in m) && (i in m ==> m'[i] == m[i])
  }

  /** A parent whose children are now these. */
  ghost predicate HolderChanged<C>(a: Inode<C>, a': Inode<C>, children: map<Name, Id>, more: int, now: int) {
    ParentChanged(a.attrs, a'.attrs, more, now) && a'.children == children && a'.chunks == a.chunks
  }

  /** A name that is taken is reported as success and changes nothing. */
  lemma NestedCreateRule<C>(m: Nested<C>, op: Op<C>)
    requires op.Create? && op.id !in m
    ensures var (m', error) := NestedStep(m, op);
            if op.parent !in m || m[op.parent].attrs.kind != Directory then m' == m && error == Some(NotFound)
            else if op.name in m[op.parent].children then m' == m && error == None
            else
              && error == None && op.id in m' && op.parent in m'
              && IsNew(m'[op.id].attrs, op) && m'[op.id].children == map[] && m'[op.id].chunks == []
              && HolderChanged(m[op.parent], m'[op.parent], m[op.parent].children[op.name := op.id],
                               if op.kind == Directory then 1 else 0, op.now)
              && OthersSame(m, m', {op.id, op.parent})
  {
  }

  /** A name that is missing is reported as success and changes nothing. */
  lemma NestedRemoveRule<C>(m: Nested<C>, op: Op<C>)
    requires op.Remove?
    ensures var (m', error) := NestedStep(m, op);
            && error == None
            && if op.parent !in m || op.name !in m[op.parent].children then m' == m
               else
                 var child := m[op.parent].children[op.name];
                 && child !in m' && OthersSame(m, m', {child, op.parent})
                 && (child != op.parent ==>
                       && op.parent in m'
                       && HolderChanged(m[op.parent], m'[op.parent], m[op.parent].children - {op.name},
                                        if child in m && m[child].attrs.kind == Directory then -1 else 0, op.now))
  {
  }

  /** Of two different parents one loses the child and the other gets it; what it overwrites is gone. */
  lemma NestedRenameRule<C>(m: Nested<C>, op: Op<C>)
    requires op.Rename? && op.parent != op.dstParent
    ensures var (m', error) := NestedStep(m, op);
            if op.parent !in m || op.dstParent !in m then m' == m && error == Some(NotFound)
            else if op.name !in m[op.parent].children then m' == m && error == None
            else
              var (src, dst, child) := (m[op.parent], m[op.dstParent], m[op.parent].children[op.name]);
              var gone := if op.dstName in dst.children then {dst.children[op.dstName]} else {};
              && error == None && OthersSame(m, m', gone + {op.parent, op.dstParent}) && gone !! m'.Keys
              && (op.parent !in gone ==>
                    op.parent in m' && HolderChanged(src, m'[op.parent], src.children - {op.name}, 0, op.now))
              && (op.dstParent !in gone ==>
                    op.dstParent in m'
                    && HolderChanged(dst, m'[op.dstParent], dst.children[op.dstName := child], 0, op.now))
  {
  }

  /** Within one parent the child leaves its old name first. */
  lemma NestedRenameWithinRule<C>(m: Nested<C>, op: Op<C>)
    requires op.Rename? && op.parent == op.dstParent && op.parent in m && op.name in m[op.parent].children
    ensures var (m', error) := NestedStep(m, op);
            var (p, child) := (m[op.parent], m[op.parent].children[op.name]);
            var rest := p.children - {op.name};
            var gone := if op.dstName in rest then {rest[op.dstName]} else {};
            && error == None && OthersSame(m, m', gone + {op.parent}) && gone !! m'.Keys
            && (op.parent !in gone ==>
                  op.parent in m' && HolderChanged(p, m'[op.parent], rest[op.dstName := child], 0, op.now))
  {
  }

  lemma NestedSetAttrRule<C>(m: Nested<C>, op: Op<C>)
    requires op.SetAttr?
    ensures var (m', error) := NestedStep(m, op);
            && error == None && OthersSame(m, m', {op.id}) && (op.id in m' <==> op.id in m)
            && (op.id in m ==>
                  && AttrsSet(m[op.id].attrs, m'[op.id].attrs, op)
                  && m'[op.id].children == m[op.id].children && m'[op.id].chunks == m[op.id].chunks)
  {
  }

  lemma NestedUpdateRule<C>(m: Nested<C>, op: Op<C>)
    requires op.UpdateInode?
    ensures var (m', error) := NestedStep(m, op);
            && error == None && OthersSame(m, m', {op.id}) && (op.id in m' <==> op.id in m)
            && (op.id in m ==>
                  && FileUpdated(m[op.id].attrs, m'[op.id].attrs, op) && m'[op.id].children == m[op.id].children
                  && m'[op.id].chunks == if op.newChunks.Some? then op.newChunks.value else m[op.id].chunks)
  {
  }
}
