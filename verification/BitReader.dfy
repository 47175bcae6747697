/** The reader of tools/blast.py: bits leave each byte lowest first. */
module BitReading {
  import opened Bytes
  import opened Bits
  import opened Canonical
  import opened HuffmanTable
  import opened Tables

  datatype Read = Value(v: nat) | PastEnd
  datatype Decoded = Symbol(sym: nat) | NoMoreBits | BadCode

  /** The bits not yet handed out: `cnt` buffered in `val`, then the bytes from `p` on. */
  ghost function Stream(val: nat, cnt: nat, data: seq<byte>, p: nat): seq<bool>
    requires p <= |data|
  {
    BitsOf(val, cnt) + BytesBits(data[p..])
  }

  class BitReader {
    const data: seq<byte>
    var pos: nat
    var bitbuf: nat
    var bitcnt: nat

    ghost predicate Valid()
      reads this
    {
      pos <= |data| && bitbuf < Pow2(bitcnt)
    }

    ghost function Rest(): seq<bool>
      requires Valid()
      reads this
    {
      Stream(bitbuf, bitcnt, data, pos)
    }

    constructor (data: seq<byte>, pos: nat)
      requires pos <= |data|
      ensures Valid() && this.data == data
      ensures Rest() == BytesBits(data[pos..])
    {
      this.data, this.pos := data, pos;
      bitbuf, bitcnt := 0, 0;
    }

    /** Takes the next `need` bits as a number; `PastEnd` is Python's IndexError. */
    method Bits(need: nat) returns (r: Read)
      requires Valid()
      modifies this
      ensures Valid()
      ensures r.PastEnd? <==> |old(Rest())| < need
      ensures r.Value? ==> r.v == Peek(old(Rest()), need) && Rest() == Skip(old(Rest()), need)
      ensures r.PastEnd? ==> Rest() == old(Rest())
    {
      hide Pow2, Shl, Shr, Low, Or, Stream, Peek, Skip;
      ghost var before := Rest();
      var val: nat, cnt: nat, p: nat := bitbuf, bitcnt, pos;
      while cnt < need
        invariant p <= |data| && val < Pow2(cnt)
        invariant Stream(val, cnt, data, p) == before
        decreases |data| - p
        modifies {}
      {
        if p == |data| {
          AtEnd(val, cnt, data);
          return PastEnd;
        }
        Append(val, cnt, data, p);
        val := Or(val, Shl(data[p], cnt));
        p := p + 1;
        cnt := cnt + 8;
      }
      Take(val, cnt, data, p, need);
      bitbuf, bitcnt, pos := Shr(val, need), cnt - need, p;
      r := Value(Low(val, need));
    }

    /** Reads one code. A complete table leaves no bit string that is not a code. */
    method Decode(h: Huffman) returns (r: Decoded)
      requires Valid() && h.Valid() && Usable(h.lengths, |h.lengths|)
      modifies this
      ensures Valid() && r != BadCode
      ensures r.Symbol? ==> IsCodeAt(h.lengths, r.sym, old(Rest())) && Rest() == Skip(old(Rest()), h.lengths[r.sym])
      ensures r.NoMoreBits? ==> forall s: nat :: !IsCodeAt(h.lengths, s, old(Rest()))
    {
      hide Inverted, Pow2, First, Index, Count, Fits, CompleteAt, Scanned, Prefix, Stream, IsCodeAt, Huffman.Valid,
        Skip, Peek;
      ghost var L, before, c: nat := h.lengths, Rest(), 0;
      var code: nat, first: nat, index: nat := 0, 0, 0;
      Started(L, before);
      for ln := 1 to 16
        invariant Valid() && |before| >= ln - 1 && Rest() == Skip(before, ln - 1)
        invariant code == 2 * c && Scanned(L, before, ln - 1, c)
        invariant first == First(L, ln) && index == Index(L, ln) && first <= code
      {
        var b := Bits(1);
        if b.PastEnd? {
          Exhausted(L, before, ln - 1, c);
          return NoMoreBits;
        }
        ScanBit(L, before, ln - 1, c, b.v);
        code := code + (1 - b.v);        // codes are stored complemented
        h.Counts(ln);
        var count := h.count[ln];
        if code - count < first {
          ghost var s := Hit(L, before, ln, code);
          h.Lookup(s);
          return Symbol(h.symbol[index + (code - first)]);
        }
        Miss(L, before, ln, c, code);
        index := index + count;
        first := (first + count) * 2;
        c, code := code, code * 2;
      }
      AllCodesTried(L, before, c);
      return BadCode;
    }
  }

  /** `c` is the number of the first `ln` bits, complemented. */
  ghost predicate Prefix(before: seq<bool>, ln: nat, c: nat) {
    |before| >= ln && c < Pow2(ln) && Inverted(c, ln) == before[..ln]
  }

  /** After `ln` bits, `c`, no symbol has been recognised and none could have been. */
  ghost predicate Scanned(L: Lengths, before: seq<bool>, ln: nat, c: nat) {
    && Prefix(before, ln, c)
    && (forall m :: 1 <= m <= ln ==> !CompleteAt(L, m))
    && (forall s: nat :: IsCodeAt(L, s, before) ==> L[s] > ln)
  }

  lemma Started(L: Lengths, before: seq<bool>)
    ensures Scanned(L, before, 0, 0) && Skip(before, 0) == before
    ensures First(L, 1) == Index(L, 1) == 0
  {
  }

  lemma ScanBit(L: Lengths, before: seq<bool>, ln: nat, c: nat, b: nat)
    requires |before| > ln && Scanned(L, before, ln, c)
    requires b == Peek(Skip(before, ln), 1)
    ensures b <= 1 && Prefix(before, ln + 1, 2 * c + (1 - b))
    ensures Skip(Skip(before, ln), 1) == Skip(before, ln + 1)
  {
    var bit := before[ln];
    assert Skip(before, ln)[..1] == [bit];
    assert Num([bit]) == if bit then 1 else 0 by { assert [bit][1..] == []; }
    assert before[..ln + 1] == before[..ln] + [bit];
  }

  lemma Hit(L: Lengths, before: seq<bool>, ln: nat, code: nat) returns (s: nat)
    requires ln > 0 && Prefix(before, ln, code)
    requires First(L, ln) <= code < First(L, ln) + Count(L, ln)
    ensures s < |L| && L[s] == ln && IsCodeAt(L, s, before)
    ensures Slot(L, s) == Index(L, ln) + (code - First(L, ln))
  {
    s := Nth(L, ln, code - First(L, ln));
  }

  lemma Miss(L: Lengths, before: seq<bool>, ln: nat, c: nat, code: nat)
    requires 1 <= ln <= MAXBITS && Fits(L)
    requires Scanned(L, before, ln - 1, c) && Prefix(before, ln, code)
    requires First(L, ln) + Count(L, ln) <= code
    ensures Scanned(L, before, ln, code)
    ensures First(L, ln + 1) == (First(L, ln) + Count(L, ln)) * 2
    ensures Index(L, ln + 1) == Index(L, ln) + Count(L, ln)
  {
    hide Pow2, Inverted;
    MissAt(L, before, ln, code);
    assert code < Pow2(ln);
  }

  lemma MissAt(L: Lengths, before: seq<bool>, ln: nat, code: nat)
    requires 1 <= ln <= MAXBITS && Fits(L)
    requires Prefix(before, ln, code)
    requires First(L, ln) + Count(L, ln) <= code
    ensures forall s: nat :: IsCodeAt(L, s, before) ==> L[s] != ln
  {
    hide Pow2, Inverted, First, Count;
    forall s: nat | IsCodeAt(L, s, before)
      ensures L[s] != ln
    {
      if L[s] == ln {
        CodeFits(L, s);
        RankBound(L, s);
        InvertedInjective(Code(L, s), code, ln);
      }
    }
  }

  lemma Exhausted(L: Lengths, before: seq<bool>, ln: nat, c: nat)
    requires Scanned(L, before, ln, c) && |before| == ln
    ensures forall s: nat :: !IsCodeAt(L, s, before)
  {
  }

  lemma AllCodesTried(L: Lengths, before: seq<bool>, c: nat)
    requires Scanned(L, before, MAXBITS, c)
    ensures !Usable(L, |L|)
  {
  }

  /** In a table complete at `m` bits, any `m` bits begin with some symbol's code. */
  lemma CodeWithin(L: Lengths, m: nat, bits: seq<bool>) returns (s: nat)
    requires Fits(L) && CompleteAt(L, m) && |bits| >= m
    ensures IsCodeAt(L, s, bits) && L[s] <= m
  {
    hide Skip, Peek, Inverted, Pow2, Count, Index;
    Started(L, bits);
    s := CodeFrom(L, m, bits, 0, 0);
  }

  /** Any 13 bits begin with a literal's code, any 7 with a length's, any 8 with a distance's: no code is bad. */
  lemma EveryBitsDecode(bits: seq<bool>)
    ensures |bits| >= 13 ==> exists s: nat :: IsCodeAt(Expand(LITLEN), s, bits)
    ensures |bits| >= 7 ==> exists s: nat :: IsCodeAt(Expand(LENLEN), s, bits)
    ensures |bits| >= 8 ==> exists s: nat :: IsCodeAt(Expand(DISTLEN), s, bits)
  {
    hide CompleteAt, Fits, Expand, Usable, IsCodeAt;
    TablesUsable();
    if |bits| >= 13 { var s := CodeWithin(Expand(LITLEN), 13, bits); }
    if |bits| >= 7 { var s := CodeWithin(Expand(LENLEN), 7, bits); }
    if |bits| >= 8 { var s := CodeWithin(Expand(DISTLEN), 8, bits); }
  }

  lemma {:induction false} CodeFrom(L: Lengths, m: nat, bits: seq<bool>, ln: nat, c: nat) returns (s: nat)
    requires Fits(L) && CompleteAt(L, m) && ln < m <= |bits|
    requires Scanned(L, bits, ln, c) && First(L, ln + 1) <= 2 * c
    ensures IsCodeAt(L, s, bits) && L[s] <= m
    decreases m - ln
  {
    hide Skip, Peek, Inverted, Pow2, Count, Index, First;
    var b := Peek(Skip(bits, ln), 1);
    ScanBit(L, bits, ln, c, b);
    var code := 2 * c + (1 - b);
    if code < First(L, ln + 1) + Count(L, ln + 1) {
      s := Hit(L, bits, ln + 1, code);
    } else {
      Miss(L, bits, ln + 1, c, code);
      s := CodeFrom(L, m, bits, ln + 1, code);
    }
  }

  lemma AtEnd(val: nat, cnt: nat, data: seq<byte>)
    ensures |Stream(val, cnt, data, |data|)| == cnt
  {
  }

  /** ORing the next byte in above the buffered bits keeps the stream. */
  lemma Append(val: nat, cnt: nat, data: seq<byte>, p: nat)
    requires val < Pow2(cnt) && p < |data|
    ensures Or(val, Shl(data[p], cnt)) < Pow2(cnt + 8)
    ensures Stream(Or(val, Shl(data[p], cnt)), cnt + 8, data, p + 1) == Stream(val, cnt, data, p)
  {
    hide Pow2, Shl, Or, BitsOf, BytesBits;
    var b := data[p];
    OrShifted(val, b, cnt);
    BitsOfConcat(val, cnt, b, 8);
    Pow2At8();
    ShlBound(b, 8, val, cnt);
    BytesBitsStep(data, p);
  }

  /** Shifting out `need` bits of the buffer hands out the first `need` bits of the stream. */
  lemma Take(val: nat, cnt: nat, data: seq<byte>, p: nat, need: nat)
    requires val < Pow2(cnt) && need <= cnt && p <= |data|
    ensures Shr(val, need) < Pow2(cnt - need)
    ensures |Stream(val, cnt, data, p)| >= need
    ensures Low(val, need) == Peek(Stream(val, cnt, data, p), need)
    ensures Stream(Shr(val, need), cnt - need, data, p) == Skip(Stream(val, cnt, data, p), need)
  {
    hide Pow2, Shr, Low, BitsOf, BytesBits, Num;
    SplitLow(val, need, cnt);
    NumOfBits(Low(val, need), need);
    assert Stream(val, cnt, data, p)
        == BitsOf(Low(val, need), need) + Stream(Shr(val, need), cnt - need, data, p);
  }
}
