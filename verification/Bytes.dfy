/** Bytes, little-endian fields and in-place replacement of a stretch of bytes. */
module Bytes {
  type byte = x: int | 0 <= x < 256

  function U16(s: seq<byte>, o: nat): (v: nat)
    requires o + 2 <= |s|
    ensures v < 0x1_0000
  {
    var lo: nat, hi: nat := s[o], s[o + 1];
    lo + 0x100 * hi
  }

  function U32(s: seq<byte>, o: nat): (v: nat)
    requires o + 4 <= |s|
    ensures v < 0x1_0000_0000
  {
    var lo: nat, hi: nat := U16(s, o), U16(s, o + 2);
    lo + 0x1_0000 * hi
  }

  function LE16(v: nat): (s: seq<byte>)
    requires v < 0x1_0000
    ensures |s| == 2 && U16(s, 0) == v
  {
    [v % 0x100, v / 0x100]
  }

  function LE32(v: nat): (s: seq<byte>)
    requires v < 0x1_0000_0000
    ensures |s| == 4 && U32(s, 0) == v
  {
    LE16(v % 0x1_0000) + LE16(v / 0x1_0000)
  }

  function Zeros(n: nat): (s: seq<byte>)
    ensures |s| == n && forall i :: 0 <= i < n ==> s[i] == 0
  {
    seq(n, _ => 0)
  }

  /** `n` bytes of `s` from `off` on. */
  function Cut(s: seq<byte>, off: nat, n: nat): (r: seq<byte>)
    requires off + n <= |s|
    ensures |r| == n
  {
    s[off..off + n]
  }

  /** `s` with the bytes from `off` on replaced by `b`. */
  function Splice(s: seq<byte>, off: nat, b: seq<byte>): (r: seq<byte>)
    requires off + |b| <= |s|
    ensures |r| == |s|
    ensures forall i :: 0 <= i < |s| ==> r[i] == if off <= i < off + |b| then b[i - off] else s[i]
  {
    s[..off] + b + s[off + |b|..]
  }

  lemma CutSplice(s: seq<byte>, off: nat, b: seq<byte>)
    requires off + |b| <= |s|
    ensures Cut(Splice(s, off, b), off, |b|) == b
  {
  }

  lemma CutElsewhere(s: seq<byte>, off: nat, b: seq<byte>, o: nat, n: nat)
    requires off + |b| <= |s| && o + n <= |s|
    requires o + n <= off || off + |b| <= o
    ensures Cut(Splice(s, off, b), o, n) == Cut(s, o, n)
  {
  }

  /** Replacing part of a stretch replaces that part of what the stretch holds. */
  lemma CutInside(s: seq<byte>, off: nat, b: seq<byte>, o: nat, n: nat)
    requires o + n <= |s| && o <= off && off + |b| <= o + n
    ensures Cut(Splice(s, off, b), o, n) == Splice(Cut(s, o, n), off - o, b)
  {
  }
}
