/** Where paths lead: name by name, part by part, and after names were made, removed and moved. */
module NamespacePaths {
  import opened Basics
  import opened MetadataKeys
  import opened Namespace
  import opened NamespaceProof
  import opened NamespaceEffects

  const DOT: Name := [46]

  /** A name that is looked up; the empty one and a single dot are not. */
  ghost predicate Proper(name: Name) {
    name != [] && name != [46]
  }

  ghost predicate IsDirectory<C>(b: Flat<C>, i: Id) {
    i in b.inodes && b.inodes[i].kind == Directory
  }

  lemma FlatOne<C>(b: Flat<C>, from: Id, name: Name)
    ensures FlatLookup(b, from, [name]) ==
            if name == [] || name == DOT then Ok(from)
            else if from !in b.inodes then Err(NotFound)
            else if b.inodes[from].kind != Directory then Err(NotDir)
            else if Dentry(from, name) in b.dentries then Ok(b.dentries[Dentry(from, name)])
            else Err(NotFound)
  {
    assert [name][1..] == [];
  }

  /** A name under a directory leads to exactly the inode its entry names, and to nothing without one. */
  lemma NameLeadsTo<C>(b: Flat<C>, from: Id, name: Name, c: Id)
    requires Proper(name) && IsDirectory(b, from)
    ensures FlatLookup(b, from, [name]) == Ok(c) <==>
              Dentry(from, name) in b.dentries && b.dentries[Dentry(from, name)] == c
    ensures FlatLookup(b, from, [name]) == Err(NotFound) <==> Dentry(from, name) !in b.dentries
  {
    FlatOne(b, from, name);
  }

  /** The empty name and the dot lead nowhere else, and so does the empty path. */
  lemma DotsStay<C>(b: Flat<C>, from: Id)
    ensures FlatLookup(b, from, [[]]) == FlatLookup(b, from, [DOT]) == FlatLookup(b, from, []) == Ok(from)
  {
    FlatOne(b, from, []);
    FlatOne(b, from, DOT);
  }

  /** Only directories have names below them. */
  lemma NoDirectoryNoName<C>(b: Flat<C>, from: Id, name: Name)
    requires Proper(name) && !IsDirectory(b, from)
    ensures FlatLookup(b, from, [name]) == Err(if from in b.inodes then NotDir else NotFound)
  {
    FlatOne(b, from, name);
  }

  /** What comes after the first part is looked up from where the first part leads. */
  lemma {:induction false} PathsCompose<C>(b: Flat<C>, from: Id, p: seq<Name>, q: seq<Name>)
    ensures FlatLookup(b, from, p + q) ==
            if FlatLookup(b, from, p).Ok? then FlatLookup(b, FlatLookup(b, from, p).value, q)
            else FlatLookup(b, from, p)
    decreases |p|
  {
    if p == [] {
      assert p + q == q;
    } else {
      assert (p + q)[1..] == p[1..] + q && (p + q)[0] == p[0];
      if Skipped(p[0]) {
        PathsCompose(b, from, p[1..], q);
      } else if IsDirectory(b, from) && Dentry(from, p[0]) in b.dentries {
        PathsCompose(b, b.dentries[Dentry(from, p[0])], p[1..], q);
      }
    }
  }

  /* ---------- Made, removed and moved ---------- */

  /** Everything that was there still is: entries, inodes and what kind they are. */
  ghost predicate Extends<C>(b: Flat<C>, b': Flat<C>) {
    && (forall d :: d in b.dentries ==> d in b'.dentries && b'.dentries[d] == b.dentries[d])
    && (forall i :: i in b.inodes ==> i in b'.inodes && b'.inodes[i].kind == b.inodes[i].kind)
  }

  lemma {:induction false} PathsStay<C>(b: Flat<C>, b': Flat<C>, from: Id, p: seq<Name>)
    requires Extends(b, b') && FlatLookup(b, from, p).Ok?
    ensures FlatLookup(b', from, p) == FlatLookup(b, from, p)
    decreases |p|
  {
    if p != [] {
      if Skipped(p[0]) {
        PathsStay(b, b', from, p[1..]);
      } else {
        PathsStay(b, b', b.dentries[Dentry(from, p[0])], p[1..]);
      }
    }
  }

  /** After a create the path of the parent followed by the new name leads to the new inode. */
  lemma CreatedIsFound<C>(b: Flat<C>, op: Op<C>, root: Id, p: seq<Name>)
    requires op.Create? && op.id !in b.inodes && Proper(op.name) && FlatStep(b, op).1 == None
    requires FlatLookup(b, root, p) == Ok(op.parent)
    ensures FlatLookup(FlatStep(b, op).0, root, p + [op.name]) == Ok(op.id)
  {
    var b' := FlatStep(b, op).0;
    CreateRule(b, op);
    PathsStay(b, b', root, p);
    PathsCompose(b', root, p, [op.name]);
    NameLeadsTo(b', op.parent, op.name, op.id);
  }

  /** Every other path that led somewhere still leads there. */
  lemma CreateKeepsPaths<C>(b: Flat<C>, op: Op<C>, root: Id, p: seq<Name>)
    requires op.Create? && op.id !in b.inodes && FlatLookup(b, root, p).Ok?
    ensures FlatLookup(FlatStep(b, op).0, root, p) == FlatLookup(b, root, p)
  {
    CreateRule(b, op);
    PathsStay(b, FlatStep(b, op).0, root, p);
  }

  /** A path from an inode that is still there leads where it led, or stops at the removed name. */
  lemma {:induction false} PathsAfterRemove<C>(b: Flat<C>, b': Flat<C>, from: Id, p: seq<Name>, gone: Dentry, root: Id)
    requires WellNamed(b, root) && gone in b.dentries && from != b.dentries[gone] && FlatLookup(b, from, p).Ok?
    requires b'.dentries == b.dentries - {gone}
    requires forall i :: i in b.inodes && i != b.dentries[gone] ==>
              i in b'.inodes && b'.inodes[i].kind == b.inodes[i].kind
    ensures FlatLookup(b', from, p) in {FlatLookup(b, from, p), Err(NotFound)}
    ensures FlatLookup(b', from, p).Ok? ==> FlatLookup(b, from, p).value != b.dentries[gone]
    decreases |p|
  {
    if p != [] {
      if Skipped(p[0]) {
        PathsAfterRemove(b, b', from, p[1..], gone, root);
      } else if Dentry(from, p[0]) != gone {
        PathsAfterRemove(b, b', b.dentries[Dentry(from, p[0])], p[1..], gone, root);
      }
    }
  }

  /** After a remove the path that led to the child, whatever came before its name, finds nothing. */
  lemma RemovedIsNotFound<C>(b: Flat<C>, op: Op<C>, root: Id, p: seq<Name>)
    requires op.Remove? && WellNamed(b, root) && Proper(op.name)
    requires FlatLookup(b, root, p) == Ok(op.parent) && FlatLookup(b, root, p + [op.name]).Ok?
    ensures FlatStep(b, op).1 == None && FlatLookup(FlatStep(b, op).0, root, p + [op.name]) == Err(NotFound)
  {
    var (b', d) := (FlatStep(b, op).0, Dentry(op.parent, op.name));
    PathsCompose(b, root, p, [op.name]);
    FlatOne(b, op.parent, op.name);
    RemoveRule(b, op);
    PathsAfterRemove(b, b', root, p, d, root);
    PathsCompose(b', root, p, [op.name]);
    FlatOne(b', op.parent, op.name);
  }

  /** After a rename the new name leads to the moved inode from wherever the destination is reached. */
  lemma RenamedIsFound<C>(b: Flat<C>, op: Op<C>, root: Id, q: seq<Name>)
    requires op.Rename? && Proper(op.dstName) && FlatStep(b, op).1 == None
    requires FlatLookup(FlatStep(b, op).0, root, q) == Ok(op.dstParent) && IsDirectory(b, op.dstParent)
    ensures Dentry(op.parent, op.name) in b.dentries
    ensures FlatLookup(FlatStep(b, op).0, root, q + [op.dstName]) == Ok(b.dentries[Dentry(op.parent, op.name)])
  {
    var b' := FlatStep(b, op).0;
    RenameRule(b, op);
    PathsCompose(b', root, q, [op.dstName]);
    FlatOne(b', op.dstParent, op.dstName);
  }

  /** ... and the old name leads nowhere, if it is another one. */
  lemma RenamedIsGone<C>(b: Flat<C>, op: Op<C>, root: Id, p: seq<Name>)
    requires op.Rename? && Proper(op.name) && FlatStep(b, op).1 == None
    requires Dentry(op.parent, op.name) != Dentry(op.dstParent, op.dstName)
    requires FlatLookup(FlatStep(b, op).0, root, p) == Ok(op.parent) && IsDirectory(b, op.parent)
    ensures FlatLookup(FlatStep(b, op).0, root, p + [op.name]) == Err(NotFound)
  {
    var b' := FlatStep(b, op).0;
    RenameRule(b, op);
    PathsCompose(b', root, p, [op.name]);
    FlatOne(b', op.parent, op.name);
  }

  /* ---------- Nested inodes ---------- */

  lemma NestedName<C>(m: Nested<C>, from: Id, name: Name)
    ensures NestedLookup(m, from, [name]) ==
            if name == [] || name == DOT then Ok(from)
            else if from !in m then Err(NotFound)
            else if m[from].attrs.kind != Directory then Err(NotDir)
            else if name in m[from].children then Ok(m[from].children[name])
            else Err(NotFound)
  {
    assert [name][1..] == [];
  }

  lemma {:induction false} NestedPathsCompose<C>(m: Nested<C>, from: Id, p: seq<Name>, q: seq<Name>)
    ensures NestedLookup(m, from, p + q) ==
            if NestedLookup(m, from, p).Ok? then NestedLookup(m, NestedLookup(m, from, p).value, q)
            else NestedLookup(m, from, p)
    decreases |p|
  {
    if p == [] {
      assert p + q == q;
    } else {
      assert (p + q)[1..] == p[1..] + q && (p + q)[0] == p[0];
      if Skipped(p[0]) {
        NestedPathsCompose(m, from, p[1..], q);
      } else if from in m && m[from].attrs.kind == Directory && p[0] in m[from].children {
        NestedPathsCompose(m, m[from].children[p[0]], p[1..], q);
      }
    }
  }
}
