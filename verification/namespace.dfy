/**
 * The metadata state machine twice: as flat tables of inodes and directory entries, and as inodes
 * that hold their children. Each operation is all or nothing in the flat tables.
 */
module Namespace {
  import opened Basics
  import opened MetadataKeys

  type Name = Key

  datatype Kind = File | Directory

  datatype Error = NotFound | NotDir | AlreadyExists

  datatype Attrs = Attrs(kind: Kind, links: int, mode: nat, uid: nat, gid: nat, size: nat, version: nat,
                         atime: int, mtime: int, ctime: int)

  datatype Dentry = Dentry(parent: Id, name: Name)

  /** A replicated metadata operation. Lists of chunks are given by any type of chunk descriptor. */
  datatype Op<C> =
    | Create(parent: Id, name: Name, id: Id, kind: Kind, mode: nat, uid: nat, gid: nat, now: int)
    | Remove(parent: Id, name: Name, now: int)
    | Rename(parent: Id, name: Name, dstParent: Id, dstName: Name, now: int)
    | SetAttr(id: Id, setMode: Option<nat>, setUid: Option<nat>, setGid: Option<nat>, setAtime: Option<int>,
              setMtime: Option<int>, now: int)
    | UpdateInode(id: Id, newSize: Option<nat>, newChunks: Option<seq<C>>, setMtime: Option<int>, now: int)

  function Or<T>(o: Option<T>, old_: T): T {
    if o.Some? then o.value else old_
  }

  function NewInode<C>(op: Op<C>): Attrs
    requires op.Create?
  {
    Attrs(op.kind, if op.kind.Directory? then 2 else 1, op.mode, op.uid, op.gid, 0, 0, op.now, op.now, op.now)
  }

  function Touched(a: Attrs, now: int): Attrs {
    a.(mtime := now, ctime := now)
  }

  function WithAttrs<C>(a: Attrs, op: Op<C>): Attrs
    requires op.SetAttr?
  {
    a.(mode := Or(op.setMode, a.mode), uid := Or(op.setUid, a.uid), gid := Or(op.setGid, a.gid),
       atime := Or(op.setAtime, a.atime), mtime := Or(op.setMtime, a.mtime), ctime := op.now)
  }

  function Updated<C>(a: Attrs, op: Op<C>): Attrs
    requires op.UpdateInode?
  {
    a.(size := Or(op.newSize, a.size), mtime := Or(op.setMtime, a.mtime), version := a.version + 1, ctime := op.now)
  }

  /* ---------- Flat tables ---------- */

  datatype Flat<C> = Flat(inodes: map<Id, Attrs>, dentries: map<Dentry, Id>, chunks: map<Id, seq<C>>)

  function FlatCreate<C>(b: Flat<C>, op: Op<C>): (Flat<C>, Option<Error>)
    requires op.Create?
  {
    var d := Dentry(op.parent, op.name);
    if op.parent !in b.inodes || !b.inodes[op.parent].kind.Directory? then (b, Some(NotFound))
    else if d in b.dentries then (b, Some(AlreadyExists))
    else
      var p := b.inodes[op.parent];
      var links := if op.kind.Directory? then p.links + 1 else p.links;
      (b.(inodes := b.inodes[op.id := NewInode(op)][op.parent := Touched(p.(links := links), op.now)],
          dentries := b.dentries[d := op.id]), None)
  }

  /** The parent is stored again after the child is deleted, even if they are the same inode. */
  function FlatRemove<C>(b: Flat<C>, op: Op<C>): (Flat<C>, Option<Error>)
    requires op.Remove?
  {
    var d := Dentry(op.parent, op.name);
    if d !in b.dentries || op.parent !in b.inodes || b.dentries[d] !in b.inodes then (b, Some(NotFound))
    else
      var (p, child) := (b.inodes[op.parent], b.dentries[d]);
      var links := if b.inodes[child].kind.Directory? then p.links - 1 else p.links;
      (b.(inodes := (b.inodes - {child})[op.parent := Touched(p.(links := links), op.now)],
          dentries := b.dentries - {d}), None)
  }

  /** Both parents are stored again after an overwritten inode is deleted. */
  function FlatRename<C>(b: Flat<C>, op: Op<C>): (Flat<C>, Option<Error>)
    requires op.Rename?
  {
    var (src, dst) := (Dentry(op.parent, op.name), Dentry(op.dstParent, op.dstName));
    if op.parent !in b.inodes || op.dstParent !in b.inodes || src !in b.dentries then (b, Some(NotFound))
    else
      var (child, rest) := (b.dentries[src], b.dentries - {src});
      var inodes := if dst in rest then b.inodes - {rest[dst]} else b.inodes;
      (b.(inodes := inodes[op.parent := Touched(b.inodes[op.parent], op.now)]
                          [op.dstParent := Touched(b.inodes[op.dstParent], op.now)],
          dentries := rest[dst := child]), None)
  }

  function FlatStep<C>(b: Flat<C>, op: Op<C>): (Flat<C>, Option<Error>) {
    match op
    case Create(_, _, _, _, _, _, _, _) => FlatCreate(b, op)
    case Remove(_, _, _) => FlatRemove(b, op)
    case Rename(_, _, _, _, _) => FlatRename(b, op)
    case SetAttr(id, _, _, _, _, _, _) =>
      if id !in b.inodes then (b, Some(NotFound)) else (b.(inodes := b.inodes[id := WithAttrs(b.inodes[id], op)]), None)
    case UpdateInode(id, _, newChunks, _, _) =>
      if id !in b.inodes then (b, Some(NotFound))
      else (b.(inodes := b.inodes[id := Updated(b.inodes[id], op)],
               chunks := if newChunks.Some? then b.chunks[id := newChunks.value] else b.chunks), None)
  }

  function ChunksOf<C>(b: Flat<C>, id: Id): seq<C> {
    if id in b.chunks then b.chunks[id] else []
  }

  /* ---------- Nested inodes ---------- */

  datatype Inode<C> = Inode(attrs: Attrs, children: map<Name, Id>, chunks: seq<C>)

  type Nested<C> = map<Id, Inode<C>>

  function NestedCreate<C>(m: Nested<C>, op: Op<C>): (Nested<C>, Option<Error>)
    requires op.Create?
  {
    if op.parent !in m || !m[op.parent].attrs.kind.Directory? then (m, Some(NotFound))
    else if op.name in m[op.parent].children then (m, None)
    else
      var p := m[op.parent];
      var links := if op.kind.Directory? then p.attrs.links + 1 else p.attrs.links;
      (m[op.id := Inode(NewInode(op), map[], [])]
        [op.parent := p.(attrs := Touched(p.attrs.(links := links), op.now),
                         children := p.children[op.name := op.id])], None)
  }

  /** A change to an inode that is no longer in the map is a change to nothing. */
  function Change<C>(m: Nested<C>, id: Id, inode: Inode<C>): Nested<C> {
    if id in m then m[id := inode] else m
  }

  function NestedRemove<C>(m: Nested<C>, op: Op<C>): (Nested<C>, Option<Error>)
    requires op.Remove?
  {
    if op.parent !in m || op.name !in m[op.parent].children then (m, None)
    else
      var (p, child) := (m[op.parent], m[op.parent].children[op.name]);
      var links := if child in m && m[child].attrs.kind.Directory? then p.attrs.links - 1 else p.attrs.links;
      (Change(m - {child}, op.parent, p.(attrs := Touched(p.attrs.(links := links), op.now),
                                         children := p.children - {op.name})), None)
  }

  /** Puts a child under a name of an inode; an inode that had the name is deleted. */
  function PutInto<C>(m: Nested<C>, id: Id, dst: Inode<C>, name: Name, child: Id, now: int): Nested<C> {
    Change(if name in dst.children then m - {dst.children[name]} else m, id,
           dst.(attrs := Touched(dst.attrs, now), children := dst.children[name := child]))
  }

  /** Source and destination may be one inode: the child leaves the source first. */
  function NestedRename<C>(m: Nested<C>, op: Op<C>): (Nested<C>, Option<Error>)
    requires op.Rename?
  {
    if op.parent !in m || op.dstParent !in m then (m, Some(NotFound))
    else if op.name !in m[op.parent].children then (m, None)
    else
      var (src, child) := (m[op.parent], m[op.parent].children[op.name]);
      var left := m[op.parent := src.(attrs := Touched(src.attrs, op.now), children := src.children - {op.name})];
      (PutInto(left, op.dstParent, left[op.dstParent], op.dstName, child, op.now), None)
  }

  function NestedStep<C>(m: Nested<C>, op: Op<C>): (Nested<C>, Option<Error>) {
    match op
    case Create(_, _, _, _, _, _, _, _) => NestedCreate(m, op)
    case Remove(_, _, _) => NestedRemove(m, op)
    case Rename(_, _, _, _, _) => NestedRename(m, op)
    case SetAttr(id, _, _, _, _, _, _) =>
      if id !in m then (m, None) else (m[id := m[id].(attrs := WithAttrs(m[id].attrs, op))], None)
    case UpdateInode(id, _, newChunks, _, _) =>
      if id !in m then (m, None)
      else (m[id := m[id].(attrs := Updated(m[id].attrs, op), chunks := Or(newChunks, m[id].chunks))], None)
  }

  /* ---------- Path lookup ---------- */

  /** Empty parts and single dots are skipped. */
  predicate Skipped(part: Name) {
    part == [] || part == [46]
  }

  function FlatLookup<C>(b: Flat<C>, from: Id, parts: seq<Name>): Result<Id, Error>
    decreases |parts|
  {
    if parts == [] then Ok(from)
    else if Skipped(parts[0]) then FlatLookup(b, from, parts[1..])
    else if from !in b.inodes then Err(NotFound)
    else if !b.inodes[from].kind.Directory? then Err(NotDir)
    else if Dentry(from, parts[0]) !in b.dentries then Err(NotFound)
    else FlatLookup(b, b.dentries[Dentry(from, parts[0])], parts[1..])
  }

  function NestedLookup<C>(m: Nested<C>, from: Id, parts: seq<Name>): Result<Id, Error>
    decreases |parts|
  {
    if parts == [] then Ok(from)
    else if Skipped(parts[0]) then NestedLookup(m, from, parts[1..])
    else if from !in m then Err(NotFound)
    else if !m[from].attrs.kind.Directory? then Err(NotDir)
    else if parts[0] !in m[from].children then Err(NotFound)
    else NestedLookup(m, m[from].children[parts[0]], parts[1..])
  }
}
