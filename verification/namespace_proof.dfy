/** The flat tables simulate the nested inodes, and they stay a well-formed namespace. */
module NamespaceProof {
  import opened Basics
  import opened MetadataKeys
  import opened Namespace

  /* ---------- The namespace invariant ---------- */

  /** Every entry names an existing inode, no inode is named twice, and the root exists and is nobody's child. */
  ghost predicate WellNamed<C>(b: Flat<C>, root: Id) {
    && root in b.inodes
    && (forall d :: d in b.dentries ==> b.dentries[d] in b.inodes && b.dentries[d] != root)
    && (forall d, e :: d in b.dentries && e in b.dentries && b.dentries[d] == b.dentries[e] ==> d == e)
  }

  /** A created inode gets a number that was never used. */
  ghost predicate Unused<C>(b: Flat<C>, op: Op<C>) {
    op.Create? ==> op.id !in b.inodes && op.id !in b.chunks && (forall d :: d in b.dentries ==> d.parent != op.id)
  }

  lemma StepKeepsNames<C>(b: Flat<C>, op: Op<C>, root: Id)
    requires WellNamed(b, root) && Unused(b, op)
    ensures WellNamed(FlatStep(b, op).0, root)
  {
    match op
    case Create(_, _, _, _, _, _, _, _) =>
    case Remove(_, _, _) =>
    case Rename(_, _, _, _, _) =>
    case SetAttr(_, _, _, _, _, _, _) =>
    case UpdateInode(_, _, _, _, _) =>
  }

  function FlatRun<C>(b: Flat<C>, ops: seq<Op<C>>): Flat<C>
    decreases |ops|
  {
    if ops == [] then b else FlatRun(FlatStep(b, ops[0]).0, ops[1..])
  }

  function NestedRun<C>(m: Nested<C>, ops: seq<Op<C>>): Nested<C>
    decreases |ops|
  {
    if ops == [] then m else NestedRun(NestedStep(m, ops[0]).0, ops[1..])
  }

  ghost predicate AllUnused<C>(b: Flat<C>, ops: seq<Op<C>>)
    decreases |ops|
  {
    ops != [] ==> Unused(b, ops[0]) && AllUnused(FlatStep(b, ops[0]).0, ops[1..])
  }

  /**
   * Any sequence of operations with fresh numbers keeps the namespace well-formed, whatever it
   * removes or overwrites.
   */
  lemma {:induction false} RunKeepsNames<C>(b: Flat<C>, ops: seq<Op<C>>, root: Id)
    requires WellNamed(b, root) && AllUnused(b, ops)
    ensures WellNamed(FlatRun(b, ops), root)
    decreases |ops|
  {
    if ops != [] {
      StepKeepsNames(b, ops[0], root);
      RunKeepsNames(FlatStep(b, ops[0]).0, ops[1..], root);
    }
  }

  /* ---------- The simulation ---------- */

  ghost predicate SameInode<C>(b: Flat<C>, m: Nested<C>, i: Id)
    requires i in m && i in b.inodes
  {
    && b.inodes[i] == m[i].attrs && ChunksOf(b, i) == m[i].chunks
    && (forall n :: n in m[i].children <==> Dentry(i, n) in b.dentries)
    && (forall n :: n in m[i].children ==> m[i].children[n] == b.dentries[Dentry(i, n)])
  }

  /** The same inodes, with the same attributes, chunks and children. */
  ghost predicate Related<C>(b: Flat<C>, m: Nested<C>) {
    b.inodes.Keys == m.Keys && (forall i :: i in m && i in b.inodes ==> SameInode(b, m, i))
  }

  /** A rename puts its child into a directory; the nested inodes of files cannot take one. */
  ghost predicate IntoDirectory<C>(b: Flat<C>, op: Op<C>) {
    op.Rename? && op.dstParent in b.inodes ==> b.inodes[op.dstParent].kind.Directory?
  }

  /** The operation deletes one of its own parents, which the flat tables then store again. */
  ghost predicate Resurrects<C>(b: Flat<C>, op: Op<C>) {
    match op
    case Remove(parent, name, _) =>
      parent in b.inodes && Dentry(parent, name) in b.dentries && b.dentries[Dentry(parent, name)] == parent
    case Rename(parent, name, dstParent, dstName, _) =>
      && parent in b.inodes && dstParent in b.inodes && Dentry(parent, name) in b.dentries
      && Dentry(dstParent, dstName) in b.dentries && Dentry(dstParent, dstName) != Dentry(parent, name)
      && b.dentries[Dentry(dstParent, dstName)] in {parent, dstParent}
    case _ => false
  }

  lemma CreateOne<C>(b: Flat<C>, m: Nested<C>, op: Op<C>, i: Id)
    requires b.inodes.Keys == m.Keys && op.Create? && Unused(b, op) && op.parent in m && SameInode(b, m, op.parent)
    requires i in m ==> SameInode(b, m, i)
    ensures FlatCreate(b, op).0.inodes.Keys == NestedCreate(m, op).0.Keys
    ensures i in NestedCreate(m, op).0 ==> SameInode(FlatCreate(b, op).0, NestedCreate(m, op).0, i)
  {
  }

  lemma CreateSimulates<C>(b: Flat<C>, m: Nested<C>, op: Op<C>)
    requires Related(b, m) && op.Create? && Unused(b, op)
    ensures Related(FlatCreate(b, op).0, NestedCreate(m, op).0)
  {
    if op.parent in m {
      assert SameInode(b, m, op.parent);
      CreateOne(b, m, op, op.parent);
      var (b', m') := (FlatCreate(b, op).0, NestedCreate(m, op).0);
      forall i | i in m' && i in b'.inodes ensures SameInode(b', m', i) {
        CreateOne(b, m, op, i);
      }
    }
  }

  lemma RemoveApplies<C>(b: Flat<C>, m: Nested<C>, op: Op<C>, child: Id)
    requires b.inodes.Keys == m.Keys && op.Remove? && op.parent in m && SameInode(b, m, op.parent)
    requires op.name in m[op.parent].children && child == m[op.parent].children[op.name]
    requires child in m && SameInode(b, m, child) && child != op.parent
    ensures FlatRemove(b, op).0.inodes.Keys == NestedRemove(m, op).0.Keys
    ensures forall i :: i in m && i != child && SameInode(b, m, i) ==>
              SameInode(FlatRemove(b, op).0, NestedRemove(m, op).0, i)
  {
  }

  lemma RemoveSimulates<C>(b: Flat<C>, m: Nested<C>, op: Op<C>, root: Id)
    requires Related(b, m) && WellNamed(b, root) && op.Remove? && !Resurrects(b, op)
    ensures Related(FlatRemove(b, op).0, NestedRemove(m, op).0)
  {
    if op.parent in m {
      assert SameInode(b, m, op.parent);
      if op.name in m[op.parent].children {
        var child := m[op.parent].children[op.name];
        assert SameInode(b, m, child);
        RemoveApplies(b, m, op, child);
        var (b', m') := (FlatRemove(b, op).0, NestedRemove(m, op).0);
        forall i | i in m' && i in b'.inodes ensures SameInode(b', m', i) {
          assert i in m && i != child && SameInode(b, m, i);
        }
      }
    }
  }

  /** The two after a rename that applies and overwrites nothing, or only an inode that is not a parent. */
  lemma RenameApplies<C>(b: Flat<C>, m: Nested<C>, op: Op<C>, i: Id)
    requires b.inodes.Keys == m.Keys && op.Rename? && op.parent in m && op.dstParent in m
    requires SameInode(b, m, op.parent) && SameInode(b, m, op.dstParent) && op.name in m[op.parent].children
    requires !Resurrects(b, op)
    requires i in m && SameInode(b, m, i) && i in NestedRename(m, op).0 && i in FlatRename(b, op).0.inodes
    ensures SameInode(FlatRename(b, op).0, NestedRename(m, op).0, i)
  {
  }

  lemma RenameKeys<C>(b: Flat<C>, m: Nested<C>, op: Op<C>)
    requires b.inodes.Keys == m.Keys && op.Rename? && op.parent in m && op.dstParent in m
    requires SameInode(b, m, op.parent) && SameInode(b, m, op.dstParent) && op.name in m[op.parent].children
    requires !Resurrects(b, op)
    ensures FlatRename(b, op).0.inodes.Keys == NestedRename(m, op).0.Keys
  {
  }

  lemma RenameSimulates<C>(b: Flat<C>, m: Nested<C>, op: Op<C>)
    requires Related(b, m) && op.Rename? && !Resurrects(b, op)
    ensures Related(FlatRename(b, op).0, NestedRename(m, op).0)
  {
    if op.parent in m && op.dstParent in m {
      assert SameInode(b, m, op.parent) && SameInode(b, m, op.dstParent);
      if op.name in m[op.parent].children {
        var (b', m') := (FlatRename(b, op).0, NestedRename(m, op).0);
        RenameKeys(b, m, op);
        forall i | i in m' && i in b'.inodes ensures SameInode(b', m', i) {
          assert i in m && SameInode(b, m, i);
          RenameApplies(b, m, op, i);
        }
      }
    }
  }

  lemma ChangeOne<C>(b: Flat<C>, m: Nested<C>, op: Op<C>, i: Id)
    requires b.inodes.Keys == m.Keys && (op.SetAttr? || op.UpdateInode?) && i in m && SameInode(b, m, i)
    ensures FlatStep(b, op).0.inodes.Keys == m.Keys == NestedStep(m, op).0.Keys
    ensures SameInode(FlatStep(b, op).0, NestedStep(m, op).0, i)
  {
  }

  lemma ChangeSimulates<C>(b: Flat<C>, m: Nested<C>, op: Op<C>)
    requires Related(b, m) && (op.SetAttr? || op.UpdateInode?)
    ensures Related(FlatStep(b, op).0, NestedStep(m, op).0)
  {
    forall i | i in m && i in b.inodes ensures SameInode(FlatStep(b, op).0, NestedStep(m, op).0, i) {
      ChangeOne(b, m, op, i);
    }
  }

  /** A resurrected parent exists in the flat tables only. */
  lemma ResurrectedDiffers<C>(b: Flat<C>, m: Nested<C>, op: Op<C>)
    requires Related(b, m) && Resurrects(b, op)
    ensures !Related(FlatStep(b, op).0, NestedStep(m, op).0)
  {
    assert SameInode(b, m, op.parent);
    if op.Rename? {
      assert SameInode(b, m, op.dstParent);
      var gone := b.dentries[Dentry(op.dstParent, op.dstName)];
      assert gone in FlatStep(b, op).0.inodes && gone !in NestedStep(m, op).0;
    } else {
      assert op.parent in FlatStep(b, op).0.inodes && op.parent !in NestedStep(m, op).0;
    }
  }

  /** One operation keeps the two related if and only if it does not delete one of its own parents. */
  lemma StepSimulatesIff<C>(b: Flat<C>, m: Nested<C>, op: Op<C>, root: Id)
    requires Related(b, m) && WellNamed(b, root) && Unused(b, op) && IntoDirectory(b, op)
    ensures Related(FlatStep(b, op).0, NestedStep(m, op).0) <==> !Resurrects(b, op)
  {
    if Resurrects(b, op) {
      ResurrectedDiffers(b, m, op);
    } else {
      match op
      case Create(_, _, _, _, _, _, _, _) => CreateSimulates(b, m, op);
      case Remove(_, _, _) => RemoveSimulates(b, m, op, root);
      case Rename(_, _, _, _, _) => RenameSimulates(b, m, op);
      case _ => ChangeSimulates(b, m, op);
    }
  }

  /** What the caller has to keep to: fresh numbers, directories as targets, and no parent deleted. */
  ghost predicate Polite<C>(b: Flat<C>, ops: seq<Op<C>>)
    decreases |ops|
  {
    ops != [] ==>
      && Unused(b, ops[0]) && IntoDirectory(b, ops[0]) && !Resurrects(b, ops[0])
      && Polite(FlatStep(b, ops[0]).0, ops[1..])
  }

  lemma {:induction false} RunSimulates<C>(b: Flat<C>, m: Nested<C>, ops: seq<Op<C>>, root: Id)
    requires Related(b, m) && WellNamed(b, root) && Polite(b, ops)
    ensures Related(FlatRun(b, ops), NestedRun(m, ops))
    decreases |ops|
  {
    if ops != [] {
      StepSimulatesIff(b, m, ops[0], root);
      StepKeepsNames(b, ops[0], root);
      RunSimulates(FlatStep(b, ops[0]).0, NestedStep(m, ops[0]).0, ops[1..], root);
    }
  }

  lemma {:induction false} LookupsAgree<C>(b: Flat<C>, m: Nested<C>, from: Id, parts: seq<Name>)
    requires Related(b, m)
    ensures FlatLookup(b, from, parts) == NestedLookup(m, from, parts)
    decreases |parts|
  {
    if parts != [] {
      if Skipped(parts[0]) {
        LookupsAgree(b, m, from, parts[1..]);
      } else if from in m {
        assert SameInode(b, m, from);
        if parts[0] in m[from].children {
          LookupsAgree(b, m, m[from].children[parts[0]], parts[1..]);
        }
      }
    }
  }

  /** After any polite sequence of operations every path resolves alike and every inode has the same attributes. */
  lemma FlatSimulatesNested<C>(b: Flat<C>, m: Nested<C>, ops: seq<Op<C>>, root: Id, parts: seq<Name>, i: Id)
    requires Related(b, m) && WellNamed(b, root) && Polite(b, ops)
    ensures FlatLookup(FlatRun(b, ops), root, parts) == NestedLookup(NestedRun(m, ops), root, parts)
    ensures i in FlatRun(b, ops).inodes <==> i in NestedRun(m, ops)
    ensures i in FlatRun(b, ops).inodes ==>
              && FlatRun(b, ops).inodes[i] == NestedRun(m, ops)[i].attrs
              && ChunksOf(FlatRun(b, ops), i) == NestedRun(m, ops)[i].chunks
  {
    RunSimulates(b, m, ops, root);
    LookupsAgree(FlatRun(b, ops), NestedRun(m, ops), root, parts);
    if i in FlatRun(b, ops).inodes {
      assert SameInode(FlatRun(b, ops), NestedRun(m, ops), i);
    }
  }

  /** A new file system: only the root directory. */
  lemma NewFileSystem<C>(root: Id, attrs: Attrs)
    ensures var (b, m) := (Flat<C>.Flat(map[root := attrs], map[], map[]),
                           map[root := Inode<C>.Inode(attrs, map[], [])]);
            WellNamed(b, root) && Related(b, m)
  {
  }

  /* ---------- Two sequences after which flat tables and nested inodes differ ---------- */

  /** A rename that overwrites its own source directory: b is made, x in it, and then b/x is renamed to b. */
  function RenameOverParent<C>(b: Name, x: Name): seq<Op<C>> {
    [Create(1, b, 2, Directory, 0, 0, 0, 0), Create(2, x, 3, File, 0, 0, 0, 0), Rename(2, x, 1, b, 0)]
  }

  /** A directory renamed into itself and then removed from there. */
  function RemoveFromItself<C>(b: Name): seq<Op<C>> {
    [Create(1, b, 2, Directory, 0, 0, 0, 0), Rename(1, b, 2, b, 0), Remove(2, b, 0)]
  }

  lemma FlatRunThree<C>(s: Flat<C>, a: Op<C>, b: Op<C>, c: Op<C>)
    ensures FlatRun(s, [a, b, c]) == FlatStep(FlatStep(FlatStep(s, a).0, b).0, c).0
    ensures AllUnused(s, [a, b, c]) <==>
              Unused(s, a) && Unused(FlatStep(s, a).0, b) && Unused(FlatStep(FlatStep(s, a).0, b).0, c)
  {
    assert [a, b, c][1..] == [b, c] && [b, c][1..] == [c] && [c][1..] == [];
    assert FlatRun(FlatStep(FlatStep(s, a).0, b).0, [c]) == FlatStep(FlatStep(FlatStep(s, a).0, b).0, c).0;
    assert AllUnused(FlatStep(FlatStep(s, a).0, b).0, [c]) <==> Unused(FlatStep(FlatStep(s, a).0, b).0, c);
  }

  lemma NestedRunThree<C>(m: Nested<C>, a: Op<C>, b: Op<C>, c: Op<C>)
    ensures NestedRun(m, [a, b, c]) == NestedStep(NestedStep(NestedStep(m, a).0, b).0, c).0
  {
    assert [a, b, c][1..] == [b, c] && [b, c][1..] == [c] && [c][1..] == [];
    assert NestedRun(NestedStep(NestedStep(m, a).0, b).0, [c]) == NestedStep(NestedStep(NestedStep(m, a).0, b).0, c).0;
  }

  /** From a new file system: the tables still have the overwritten directory, the nested inodes do not. */
  lemma RenameOverParentDiffers<C>(attrs: Attrs, b: Name, x: Name)
    requires attrs.kind.Directory?
    ensures var (s, m) := (Flat<C>.Flat(map[1 := attrs], map[], map[]), map[1 := Inode<C>.Inode(attrs, map[], [])]);
            var ops := RenameOverParent<C>(b, x);
            && AllUnused(s, ops) && 2 in FlatRun(s, ops).inodes && 2 !in NestedRun(m, ops)
            && !Related(FlatRun(s, ops), NestedRun(m, ops))
  {
    var (s, m) := (Flat<C>.Flat(map[1 := attrs], map[], map[]), map[1 := Inode<C>.Inode(attrs, map[], [])]);
    var ops := RenameOverParent<C>(b, x);
    FlatRunThree(s, ops[0], ops[1], ops[2]);
    NestedRunThree(m, ops[0], ops[1], ops[2]);
  }

  lemma RemoveFromItselfDiffers<C>(attrs: Attrs, b: Name)
    requires attrs.kind.Directory?
    ensures var (s, m) := (Flat<C>.Flat(map[1 := attrs], map[], map[]), map[1 := Inode<C>.Inode(attrs, map[], [])]);
            var ops := RemoveFromItself<C>(b);
            && AllUnused(s, ops) && 2 in FlatRun(s, ops).inodes && 2 !in NestedRun(m, ops)
            && !Related(FlatRun(s, ops), NestedRun(m, ops))
  {
    var (s, m) := (Flat<C>.Flat(map[1 := attrs], map[], map[]), map[1 := Inode<C>.Inode(attrs, map[], [])]);
    var ops := RemoveFromItself<C>(b);
    FlatRunThree(s, ops[0], ops[1], ops[2]);
    NestedRunThree(m, ops[0], ops[1], ops[2]);
  }
}
