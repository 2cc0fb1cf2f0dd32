/** Flat byte images, and what overlaying data at an offset makes of them. */
module FileBytes {
  import opened Basics

  type Bytes = seq<byte>

  /** Data written at an offset: bytes outside it stay, and a gap before it reads as zero. */
  function Overlay(image: Bytes, offset: nat, data: Bytes): (r: Bytes)
    ensures |r| == Max(|image|, offset + |data|)
    ensures forall i :: 0 <= i < |r| ==>
      r[i] == if offset <= i < offset + |data| then data[i - offset] else if i < |image| then image[i] else 0
  {
    seq(Max(|image|, offset + |data|), i requires 0 <= i < Max(|image|, offset + |data|) =>
      if offset <= i < offset + |data| then data[i - offset] else if i < |image| then image[i] else 0)
  }

  /** Writing inside a middle part that does not grow, or at the end, leaves the rest alone. */
  lemma OverlayInside(before: Bytes, part: Bytes, after: Bytes, offset: nat, data: Bytes)
    requires offset + |data| <= |part| || after == []
    ensures Overlay(before + part + after, |before| + offset, data) == before + Overlay(part, offset, data) + after
  {
    var (l, r) := (Overlay(before + part + after, |before| + offset, data),
                   before + Overlay(part, offset, data) + after);
    forall i | 0 <= i < |l| ensures l[i] == r[i] {
    }
    assert |l| == |r|;
  }

  /** Bytes of a longer stream written at their own place keep the image a prefix of the stream. */
  lemma OverlayPrefix(image: Bytes, stream: Bytes, offset: nat, data: Bytes)
    requires image <= stream && offset <= |image| && offset + |data| <= |stream|
    requires data == stream[offset..offset + |data|]
    ensures Overlay(image, offset, data) <= stream
  {
  }

  function Concat(parts: seq<Bytes>): Bytes {
    if parts == [] then [] else parts[0] + Concat(parts[1..])
  }

  lemma {:induction false} ConcatSplit(parts: seq<Bytes>, k: nat)
    requires k <= |parts|
    ensures Concat(parts) == Concat(parts[..k]) + Concat(parts[k..])
    decreases k
  {
    if k == 0 {
      assert parts[0..] == parts;
    } else {
      ConcatSplit(parts[1..], k - 1);
      assert parts[1..][..k - 1] == parts[..k][1..];
      assert parts[1..][k - 1..] == parts[k..];
    }
  }

  lemma ConcatOne(parts: seq<Bytes>, k: nat)
    requires k < |parts|
    ensures Concat(parts) == Concat(parts[..k]) + parts[k] + Concat(parts[k + 1..])
  {
    ConcatSplit(parts, k);
    assert parts[k..][1..] == parts[k + 1..];
  }

  lemma ConcatSnoc(parts: seq<Bytes>, last: Bytes)
    ensures Concat(parts + [last]) == Concat(parts) + last
  {
    ConcatOne(parts + [last], |parts|);
    assert (parts + [last])[..|parts|] == parts;
    assert (parts + [last])[|parts| + 1..] == [];
  }
}
