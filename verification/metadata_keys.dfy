/**
 * The keys of the metadata tables: an inode number as eight bytes, most significant first,
 * followed by a name or by a chunk number, ordered byte by byte.
 */
module MetadataKeys {
  import opened Basics

  type Key = seq<byte>

  /* ---------- Byte order ---------- */

  predicate Less(a: Key, b: Key)
    decreases |a|
  {
    b != [] && (a == [] || a[0] < b[0] || (a[0] == b[0] && Less(a[1..], b[1..])))
  }

  lemma {:induction false} LessIrreflexive(a: Key)
    ensures !Less(a, a)
    decreases |a|
  {
    if a != [] {
      LessIrreflexive(a[1..]);
    }
  }

  lemma {:induction false} LessTransitive(a: Key, b: Key, c: Key)
    requires Less(a, b) && Less(b, c)
    ensures Less(a, c)
    decreases |a|
  {
    if a != [] && a[0] == b[0] && b[0] == c[0] {
      LessTransitive(a[1..], b[1..], c[1..]);
    }
  }

  lemma {:induction false} LessTotal(a: Key, b: Key)
    ensures Less(a, b) || a == b || Less(b, a)
    decreases |a|
  {
    if a != [] && b != [] && a[0] == b[0] {
      LessTotal(a[1..], b[1..]);
      assert a == [a[0]] + a[1..] && b == [b[0]] + b[1..];
    }
  }

  /** A common prefix does not matter. */
  lemma {:induction false} LessAfterPrefix(p: Key, a: Key, b: Key)
    ensures Less(p + a, p + b) <==> Less(a, b)
    decreases |p|
  {
    if p == [] {
      assert p + a == a && p + b == b;
    } else {
      LessAfterPrefix(p[1..], a, b);
      assert (p + a)[1..] == p[1..] + a && (p + b)[1..] == p[1..] + b;
    }
  }

  /** Nothing with a prefix comes before the prefix. */
  lemma {:induction false} PrefixNotBelow(p: Key, k: Key)
    requires p <= k
    ensures !Less(k, p)
    decreases |p|
  {
    if p != [] {
      PrefixNotBelow(p[1..], k[1..]);
    }
  }

  /** Once a key is past the prefix without having it, no later key has it. */
  lemma {:induction false} PastPrefix(p: Key, k: Key, later: Key)
    requires !Less(k, p) && !(p <= k) && Less(k, later)
    ensures !(p <= later)
    decreases |p|
  {
    if p != [] && k != [] && p[0] == k[0] && later[0] == p[0] {
      assert p <= later ==> p[1..] <= later[1..];
      PastPrefix(p[1..], k[1..], later[1..]);
    }
  }

  /* ---------- Eight-byte numbers ---------- */

  const BASE := 256
  const LIMIT := 0x1_0000_0000_0000_0000

  /** `width` bytes, most significant first. */
  function BigEndian(n: nat, width: nat): (k: Key)
    ensures |k| == width
    decreases width, n
  {
    if width == 0 then [] else BigEndian(n / BASE, width - 1) + [(n % BASE) as byte]
  }

  function FromBigEndian(k: Key): nat
    decreases |k|
  {
    if k == [] then 0 else FromBigEndian(k[..|k| - 1]) * BASE + k[|k| - 1] as nat
  }

  function Pow(width: nat): (r: nat)
    ensures r > 0
  {
    if width == 0 then 1 else BASE * Pow(width - 1)
  }

  lemma {:induction false} BigEndianRoundTrip(n: nat, width: nat)
    requires n < Pow(width)
    ensures FromBigEndian(BigEndian(n, width)) == n
    decreases width
  {
    if width > 0 {
      BigEndianRoundTrip(n / BASE, width - 1);
      assert BigEndian(n, width)[..width - 1] == BigEndian(n / BASE, width - 1);
    }
  }

  /** Byte order is number order. */
  lemma {:induction false} BigEndianOrder(a: nat, b: nat, width: nat)
    requires a < Pow(width) && b < Pow(width) && a < b
    ensures Less(BigEndian(a, width), BigEndian(b, width))
    decreases width
  {
    if width > 0 {
      var (p, q) := (BigEndian(a / BASE, width - 1), BigEndian(b / BASE, width - 1));
      if a / BASE < b / BASE {
        BigEndianOrder(a / BASE, b / BASE, width - 1);
        LessExtends(p, q, [(a % BASE) as byte], [(b % BASE) as byte]);
      } else {
        LessAfterPrefix(p, [(a % BASE) as byte], [(b % BASE) as byte]);
      }
    }
  }

  lemma {:induction false} LessExtends(p: Key, q: Key, a: Key, b: Key)
    requires |p| == |q| && Less(p, q)
    ensures Less(p + a, q + b)
    decreases |p|
  {
    if p[0] == q[0] {
      LessExtends(p[1..], q[1..], a, b);
      assert (p + a)[1..] == p[1..] + a && (q + b)[1..] == q[1..] + b;
    }
  }

  lemma PowEight()
    ensures Pow(8) == LIMIT
  {
    assert Pow(8) == BASE * Pow(7) == BASE * (BASE * Pow(6));
    assert Pow(6) == BASE * (BASE * Pow(4));
    assert Pow(4) == BASE * (BASE * (BASE * (BASE * Pow(0))));
  }

  /* ---------- The keys ---------- */

  /** Inode numbers are unsigned 64-bit numbers. */
  type Id = n: nat | n < LIMIT

  function InodeKey(id: Id): (k: Key)
    ensures |k| == 8
  {
    BigEndian(id, 8)
  }

  function DecodeInodeKey(k: Key): nat {
    FromBigEndian(k)
  }

  lemma InodeKeyRoundTrip(id: Id)
    ensures DecodeInodeKey(InodeKey(id)) == id
  {
    PowEight();
    BigEndianRoundTrip(id, 8);
  }

  lemma InodeKeyOrder(a: Id, b: Id)
    requires a < b
    ensures Less(InodeKey(a), InodeKey(b))
  {
    PowEight();
    BigEndianOrder(a, b, 8);
  }

  function DentryKey(parent: Id, name: Key): Key {
    InodeKey(parent) + name
  }

  function ChunkKey(inode: Id, index: Id): Key {
    InodeKey(inode) + InodeKey(index)
  }

  /** The prefix of one parent finds exactly the keys of that parent, since prefixes have one width. */
  lemma PrefixIsParent(parent: Id, p: Id, rest: Key)
    ensures InodeKey(parent) <= InodeKey(p) + rest <==> parent == p
  {
    InodeKeyRoundTrip(parent);
    InodeKeyRoundTrip(p);
    var k := InodeKey(p) + rest;
    assert k[..8] == InodeKey(p);
    if InodeKey(parent) <= k {
      assert k[..8] == InodeKey(parent);
    }
  }

  /** Keys of one parent are in the order of their names. */
  lemma SiblingsByName(parent: Id, a: Key, b: Key)
    ensures Less(DentryKey(parent, a), DentryKey(parent, b)) <==> Less(a, b)
  {
    LessAfterPrefix(InodeKey(parent), a, b);
  }

  lemma DentryKeyInjective(p: Id, a: Key, q: Id, b: Key)
    ensures DentryKey(p, a) == DentryKey(q, b) <==> p == q && a == b
  {
    PrefixIsParent(p, q, b);
    assert DentryKey(p, a)[8..] == a && DentryKey(q, b)[8..] == b;
  }

  lemma ChunkKeyInjective(i: Id, a: Id, j: Id, b: Id)
    ensures ChunkKey(i, a) == ChunkKey(j, b) <==> i == j && a == b
  {
    DentryKeyInjective(i, InodeKey(a), j, InodeKey(b));
    InodeKeyRoundTrip(a);
    InodeKeyRoundTrip(b);
  }
}
