/** The decoder of tools/blast.py, proved to give the one answer the format allows. */
module Blasting {
  import opened Arith
  import opened Bytes
  import opened Bits
  import opened Canonical
  import opened Tables
  import opened HuffmanTable
  import opened BitReading
  import opened Dcl

  datatype Next<T> = Got(v: T) | Cut

  // ---- what a code and its extra bits say ----

  lemma GotLength(sym: nat, e: nat, bits: seq<bool>)
    requires Usable(Expand(LENLEN), 16) && IsCodeAt(Expand(LENLEN), sym, bits) && sym < 16
    requires |bits| >= Expand(LENLEN)[sym] + EXTRA[sym]
    requires e == Peek(Skip(bits, Expand(LENLEN)[sym]), EXTRA[sym])
    ensures 2 <= BASE[sym] + e <= END_LENGTH
    ensures LengthBits(BASE[sym] + e) <= bits
    ensures Skip(bits, |LengthBits(BASE[sym] + e)|) == Skip(Skip(bits, Expand(LENLEN)[sym]), EXTRA[sym])
  {
    hide BitsOf, CodeBits, Pow2, Peek, Skip, Expand, IsCodeAt, LengthSymbol, Fits;
    PeekBound(Skip(bits, Expand(LENLEN)[sym]), EXTRA[sym]);
    LengthSymbolUnique(sym, e);
    CodeFieldAt(Expand(LENLEN), sym, e, EXTRA[sym], bits);
  }

  lemma PeekBound(bits: seq<bool>, n: nat)
    requires n <= |bits|
    ensures Peek(bits, n) < Pow2(n)
  {
    BitsOfNum(bits[..n]);
  }

  ghost predicate NoLength(bits: seq<bool>) {
    forall len: nat :: 2 <= len <= END_LENGTH ==> !(LengthBits(len) <= bits)
  }

  lemma CutLength(sym: nat, bits: seq<bool>)
    requires Usable(Expand(LENLEN), 16)
    requires (forall s: nat :: !IsCodeAt(Expand(LENLEN), s, bits)) ||
      (sym < 16 && IsCodeAt(Expand(LENLEN), sym, bits) && |bits| < Expand(LENLEN)[sym] + EXTRA[sym])
    ensures NoLength(bits)
  {
    hide BitsOf, CodeBits, Pow2, Peek, Skip, Expand, IsCodeAt, LengthSymbol, Fits;
    forall len: nat | 2 <= len <= END_LENGTH
      ensures !(LengthBits(len) <= bits)
    {
      var s := LengthSymbol(len);
      LengthRange(len);
      CodeFieldAt(Expand(LENLEN), s, len - BASE[s], EXTRA[s], bits);
      if LengthBits(len) <= bits {
        CodeUnique(Expand(LENLEN), s, sym, bits);
      }
    }
  }

  method ReadLength(br: BitReader, lencode: Huffman) returns (r: Next<nat>)
    requires br.Valid() && lencode.Valid() && lencode.lengths == Expand(LENLEN)
    modifies br
    ensures br.Valid()
    ensures r.Got? ==> 2 <= r.v <= END_LENGTH && LengthBits(r.v) <= old(br.Rest())
    ensures r.Got? ==> br.Rest() == Skip(old(br.Rest()), |LengthBits(r.v)|)
    ensures r.Cut? ==> NoLength(old(br.Rest()))
  {
    hide LengthBits, Skip, Peek, IsCodeAt, Stream, Expand, Pow2, Fits, NoLength;
    ghost var bits := br.Rest();
    TablesUsable();
    var sym := br.Decode(lencode);
    if !sym.Symbol? {
      CutLength(0, bits);
      return Cut;
    }
    CodeSize(lencode.lengths, sym.sym, bits);
    var e := br.Bits(EXTRA[sym.sym]);
    if e.PastEnd? {
      CutLength(sym.sym, bits);
      return Cut;
    }
    GotLength(sym.sym, e.v, bits);
    return Got(BASE[sym.sym] + e.v);
  }

  lemma CodeSize(L: Lengths, s: nat, bits: seq<bool>)
    requires IsCodeAt(L, s, bits)
    ensures s < |L| && L[s] > 0 && L[s] <= |bits|
  {
  }

  lemma GotDistance(sym: nat, e: nat, low: nat, bits: seq<bool>)
    requires Usable(Expand(DISTLEN), 64) && IsCodeAt(Expand(DISTLEN), sym, bits) && sym < 64
    requires |bits| >= Expand(DISTLEN)[sym] + low
    requires e == Peek(Skip(bits, Expand(DISTLEN)[sym]), low)
    ensures var d := Shl(sym, low) + e;
      && Shr(d, low) == sym && Low(d, low) == e && d < 64 * Pow2(low)
      && DistanceBits(d, low) <= bits
      && Skip(bits, |DistanceBits(d, low)|) == Skip(Skip(bits, Expand(DISTLEN)[sym]), low)
  {
    hide BitsOf, CodeBits, Pow2, Peek, Skip, Expand, IsCodeAt, Fits, Shr, Low;
    PeekBound(Skip(bits, Expand(DISTLEN)[sym]), low);
    ShiftParts(sym, e, low);
    CodeFieldAt(Expand(DISTLEN), sym, e, low, bits);
  }

  lemma ShiftParts(q: nat, e: nat, n: nat)
    requires e < Pow2(n)
    ensures Shr(Shl(q, n) + e, n) == q && Low(Shl(q, n) + e, n) == e
    ensures q < 64 ==> Shl(q, n) + e < 64 * Pow2(n)
  {
    hide Pow2;
    var v := Shl(q, n) + e;
    Parts(v, Pow2(n), q, e);
    DivMod(v, Pow2(n));
    if q < 64 {
      MulMono(q + 1, 64, Pow2(n));
      assert (q + 1) * Pow2(n) == Shl(q, n) + Pow2(n);
    }
  }

  ghost predicate NoDistance(low: nat, bits: seq<bool>) {
    forall d: nat :: Shr(d, low) < 64 ==> !(DistanceBits(d, low) <= bits)
  }

  lemma CutDistance(sym: nat, low: nat, bits: seq<bool>)
    requires Usable(Expand(DISTLEN), 64)
    requires (forall s: nat :: !IsCodeAt(Expand(DISTLEN), s, bits)) ||
      (sym < 64 && IsCodeAt(Expand(DISTLEN), sym, bits) && |bits| < Expand(DISTLEN)[sym] + low)
    ensures NoDistance(low, bits)
  {
    hide BitsOf, CodeBits, Pow2, Peek, Skip, Expand, IsCodeAt, Fits;
    forall d: nat | Shr(d, low) < 64
      ensures !(DistanceBits(d, low) <= bits)
    {
      LowShr(d, low);
      CodeFieldAt(Expand(DISTLEN), Shr(d, low), Low(d, low), low, bits);
      if DistanceBits(d, low) <= bits {
        CodeUnique(Expand(DISTLEN), Shr(d, low), sym, bits);
      }
    }
  }

  /** Reads a distance, less one: its code, then `low` plain bits. */
  method ReadDistance(br: BitReader, distcode: Huffman, low: nat) returns (r: Next<nat>)
    requires br.Valid() && distcode.Valid() && distcode.lengths == Expand(DISTLEN)
    modifies br
    ensures br.Valid()
    ensures r.Got? ==> r.v < 64 * Pow2(low) && Shr(r.v, low) < 64 && DistanceBits(r.v, low) <= old(br.Rest())
    ensures r.Got? ==> br.Rest() == Skip(old(br.Rest()), |DistanceBits(r.v, low)|)
    ensures r.Cut? ==> NoDistance(low, old(br.Rest()))
  {
    hide DistanceBits, Skip, Peek, IsCodeAt, Stream, Expand, Pow2, Fits, NoDistance, Shl, Shr;
    ghost var bits := br.Rest();
    TablesUsable();
    var sym := br.Decode(distcode);
    if !sym.Symbol? {
      CutDistance(0, low, bits);
      return Cut;
    }
    CodeSize(distcode.lengths, sym.sym, bits);
    var e := br.Bits(low);
    if e.PastEnd? {
      CutDistance(sym.sym, low, bits);
      return Cut;
    }
    GotDistance(sym.sym, e.v, low, bits);
    return Got(Shl(sym.sym, low) + e.v);
  }

  ghost predicate NoLiteral(f: Format, bits: seq<bool>) {
    forall b: byte :: !(LiteralBits(f, b) <= bits)
  }

  lemma NoCodedLiteral(f: Format, bits: seq<bool>)
    requires f.coded && forall s: nat :: !IsCodeAt(Expand(LITLEN), s, bits)
    ensures NoLiteral(f, bits)
  {
    hide Expand, CodeBits, Fits;
    TablesUsable();
    forall b: byte
      ensures !(LiteralBits(f, b) <= bits)
    {
      assert !IsCodeAt(Expand(LITLEN), b, bits);
    }
  }

  /** Reads a literal byte, coded or plain. */
  method ReadLiteral(br: BitReader, litcode: Huffman?, ghost f: Format) returns (r: Next<byte>)
    requires br.Valid() && (litcode != null <==> f.coded)
    requires litcode != null ==> litcode.Valid() && litcode.lengths == Expand(LITLEN)
    modifies br
    ensures br.Valid()
    ensures r.Got? ==> LiteralBits(f, r.v) <= old(br.Rest())
    ensures r.Got? ==> br.Rest() == Skip(old(br.Rest()), |LiteralBits(f, r.v)|)
    ensures r.Cut? ==> NoLiteral(f, old(br.Rest()))
  {
    hide Skip, Peek, Stream, Expand, Pow2, Fits, BitsOf, CodeBits;
    ghost var bits := br.Rest();
    TablesUsable();
    if litcode != null {
      var sym := br.Decode(litcode);
      if !sym.Symbol? {
        NoCodedLiteral(f, bits);
        return Cut;
      }
      return Got(sym.sym);
    } else {
      Pow2At8();
      var e := br.Bits(8);
      if e.PastEnd? {
        return Cut;
      }
      PeekBound(bits, 8);
      FieldAt(e.v, 8, bits);
      return Got(e.v);
    }
  }

  ghost predicate NoToken(f: Format, bits: seq<bool>) {
    forall t: Token :: !TokenAt(f, t, bits)
  }

  lemma NoBits(f: Format)
    ensures NoToken(f, [])
  {
    hide TokenBits;
  }

  lemma NoTokenBehind(f: Format, bits: seq<bool>)
    requires |bits| > 0
    requires if bits[0] then NoLength(Skip(bits, 1)) else NoLiteral(f, Skip(bits, 1))
    ensures NoToken(f, bits)
  {
    hide TokenBits, LengthBits, LiteralBits, Skip, DistanceAt, Pow2, LowBits;
    forall t: Token
      ensures !TokenAt(f, t, bits)
    {
      if TokenAt(f, t, bits) {
        TokenShape(f, t, bits);
      }
    }
  }

  lemma NoCopyBehind(f: Format, len: nat, bits: seq<bool>)
    requires |bits| > 0 && bits[0] && 2 <= len < END_LENGTH
    requires LengthBits(len) <= Skip(bits, 1)
    requires NoDistance(LowBits(f, len), Skip(Skip(bits, 1), |LengthBits(len)|))
    ensures NoToken(f, bits)
  {
    hide TokenBits, LengthBits, LiteralBits, DistanceBits, Skip, Pow2, LowBits, Shr;
    forall t: Token
      ensures !TokenAt(f, t, bits)
    {
      if TokenAt(f, t, bits) {
        TokenShape(f, t, bits);
        LengthUnique(len, LengthOf(t), Skip(bits, 1));
        DistanceRange(t.distance - 1, LowBits(f, len));
      }
    }
  }

  lemma GotCopy(f: Format, len: nat, d: nat, bits: seq<bool>)
    requires |bits| > 0 && bits[0] && 2 <= len < END_LENGTH
    requires LengthBits(len) <= Skip(bits, 1)
    requires d < 64 * Pow2(LowBits(f, len)) && Shr(d, LowBits(f, len)) < 64
    requires DistanceBits(d, LowBits(f, len)) <= Skip(Skip(bits, 1), |LengthBits(len)|)
    ensures TokenAt(f, Copy(len, d + 1), bits)
    ensures Skip(bits, |TokenBits(f, Copy(len, d + 1))|) ==
      Skip(Skip(Skip(bits, 1), |LengthBits(len)|), |DistanceBits(d, LowBits(f, len))|)
  {
    hide TokenBits, LengthBits, DistanceBits, Skip, Pow2, LowBits, Shr;
    var t := Copy(len, d + 1);
    CopyAt(f, t, bits);
    CopyBits(f, t);
    CopyRest(f, t, LengthBits(len), DistanceBits(d, LowBits(f, len)), bits);
  }

  /** Reads one token of the stream, or finds that none is left in full. */
  method ReadToken(br: BitReader, litcode: Huffman?, lencode: Huffman, distcode: Huffman, f: Format)
    returns (r: Next<Token>)
    requires br.Valid() && (litcode != null <==> f.coded)
    requires litcode != null ==> litcode.Valid() && litcode.lengths == Expand(LITLEN)
    requires lencode.Valid() && lencode.lengths == Expand(LENLEN)
    requires distcode.Valid() && distcode.lengths == Expand(DISTLEN)
    modifies br
    ensures br.Valid()
    ensures r.Got? ==> TokenAt(f, r.v, old(br.Rest()))
    ensures r.Got? ==> br.Rest() == Skip(old(br.Rest()), |TokenBits(f, r.v)|)
    ensures r.Got? ==> |br.Rest()| < |old(br.Rest())|
    ensures r.Cut? ==> NoToken(f, old(br.Rest()))
  {
    hide TokenBits, LengthBits, LiteralBits, DistanceBits, Skip, Peek, Pow2, Shr, TokenAt, NoToken,
      NoLength, NoDistance, NoLiteral, Stream, Expand;
    ghost var bits := br.Rest();
    var flag := br.Bits(1);
    if flag.PastEnd? {
      NoBits(f);
      return Cut;
    }
    FlagAt(true, [], bits);
    if flag.v == 1 {                       // a copy
      var len := ReadLength(br, lencode);
      if len.Cut? {
        NoTokenBehind(f, bits);
        return Cut;
      }
      if len.v == END_LENGTH {             // nothing more follows
        EndAt(f, bits);
        return Got(End);
      }
      var low := LowBits(f, len.v);
      var d := ReadDistance(br, distcode, low);
      if d.Cut? {
        NoCopyBehind(f, len.v, bits);
        return Cut;
      }
      GotCopy(f, len.v, d.v, bits);
      return Got(Copy(len.v, d.v + 1));
    } else {                               // a byte
      var b := ReadLiteral(br, litcode, f);
      if b.Cut? {
        NoTokenBehind(f, bits);
        return Cut;
      }
      LiteralAt(f, b.v, bits);
      return Got(Literal(b.v));
    }
  }

  /** Copies byte by byte, so that a copy may repeat what it has just written. */
  method CopyLoop(out: seq<byte>, dist: nat, length: nat) returns (r: seq<byte>)
    requires 1 <= dist <= |out|
    ensures r == CopyBytes(out, dist, length)
  {
    r := out;
    for i := 0 to length
      invariant r == CopyBytes(out, dist, i)
    {
      r := r + [r[|r| - dist]];
    }
  }

  lemma Continue(f: Format, toks: seq<Token>, t: Token, bits: seq<bool>)
    requires Reads(f, toks, bits)
    requires Applies(f, ExpandTokens(f, toks).out, t)
    requires TokenAt(f, t, Skip(bits, |EncodeTokens(f, toks)|))
    ensures Reads(f, toks + [t], bits)
    ensures ExpandTokens(f, toks + [t]).out == Apply(ExpandTokens(f, toks).out, t)
    ensures Skip(bits, |EncodeTokens(f, toks + [t])|) ==
      Skip(Skip(bits, |EncodeTokens(f, toks)|), |TokenBits(f, t)|)
  {
    hide TokenBits, Apply, Applies, Skip;
    assert (toks + [t])[..|toks|] == toks;
    JoinAt(EncodeTokens(f, toks), TokenBits(f, t), bits);
  }

  /** The loop of `blast`: token after token, until the end code or an error. */
  method Unpack(br: BitReader, litcode: Huffman?, lencode: Huffman, distcode: Huffman, f: Format) returns (r: Result)
    requires br.Valid() && (litcode != null <==> f.coded)
    requires litcode != null ==> litcode.Valid() && litcode.lengths == Expand(LITLEN)
    requires lencode.Valid() && lencode.lengths == Expand(LENLEN)
    requires distcode.Valid() && distcode.lengths == Expand(DISTLEN)
    modifies br
    ensures Answers(f, old(br.Rest()), r)
  {
    hide EncodeTokens, ExpandTokens, TokenBits, TokenAt, Skip, Stream, Midway, NoToken, Pow2, BytesBits, Answers,
      Expand;
    ghost var bits, toks := br.Rest(), [];
    var out: seq<byte> := [];
    Begin(f, bits);
    while true
      invariant br.Valid() && Midway(f, toks, bits, out, br.Rest())
      decreases |br.Rest()|
    {
      ghost var rest := br.Rest();
      var t := ReadToken(br, litcode, lencode, distcode, f);
      match t
      case Cut =>
        NothingLeft(f, out, rest);
        Finish(f, toks, bits, out, rest, Fail(Truncated));
        return Fail(Truncated);
      case Got(End) =>
        Finish(f, toks, bits, out, rest, Ok(out));
        return Ok(out);
      case Got(Literal(b)) =>
        Step(f, toks, bits, out, rest, t.v);
        out := out + [b];
        toks := toks + [t.v];
      case Got(Copy(length, distance)) =>
        if distance > |out| {
          Finish(f, toks, bits, out, rest, Fail(DistanceTooFar));
          return Fail(DistanceTooFar);
        }
        Shape(f, t.v, rest);
        Step(f, toks, bits, out, rest, t.v);
        out := CopyLoop(out, distance, length);
        toks := toks + [t.v];
    }
  }

  /** The state between two tokens: what has been read, what it gave and what is left. */
  ghost predicate Midway(f: Format, toks: seq<Token>, bits: seq<bool>, out: seq<byte>, rest: seq<bool>) {
    && Reads(f, toks, bits)
    && out == ExpandTokens(f, toks).out
    && rest == Skip(bits, |EncodeTokens(f, toks)|)
  }

  lemma Begin(f: Format, bits: seq<bool>)
    ensures Midway(f, [], bits, [], bits)
  {
  }

  lemma Step(f: Format, toks: seq<Token>, bits: seq<bool>, out: seq<byte>, rest: seq<bool>, t: Token)
    requires Midway(f, toks, bits, out, rest)
    requires Applies(f, out, t) && TokenAt(f, t, rest)
    ensures Midway(f, toks + [t], bits, Apply(out, t), Skip(rest, |TokenBits(f, t)|))
  {
    hide TokenBits, Apply, Applies, Skip, EncodeTokens, ExpandTokens, TokenAt;
    Continue(f, toks, t, bits);
  }

  lemma Finish(f: Format, toks: seq<Token>, bits: seq<bool>, out: seq<byte>, rest: seq<bool>, r: Result)
    requires Midway(f, toks, bits, out, rest) && Stops(f, out, rest, r)
    ensures Answers(f, bits, r)
  {
    hide EncodeTokens, ExpandTokens, Stops, Skip;
    assert Ends(f, toks, bits, r);
  }

  method Blast(data: seq<byte>) returns (r: Result)
    ensures Outcome(data, r)
  {
    hide Skip, Stream, Pow2, BytesBits, Answers, Expand;
    if |data| < 2 {
      return Fail(Truncated);              // IndexError in Python
    }
    var lit, dictbits := data[0], data[1];
    if lit != 0 && lit != 1 {
      return Fail(BadLiteralFlag);
    }
    if !(4 <= dictbits <= 6) {
      return Fail(BadDictionary);
    }
    var f := Format(lit == 1, dictbits);
    var litcode: Huffman? := null;
    if lit == 1 {
      litcode := new Huffman(LITLEN);
    }
    var lencode := new Huffman(LENLEN);
    var distcode := new Huffman(DISTLEN);
    var br := new BitReader(data, 2);
    r := Unpack(br, litcode, lencode, distcode, f);
  }

  lemma NothingLeft(f: Format, out: seq<byte>, rest: seq<bool>)
    requires NoToken(f, rest)
    ensures Stops(f, out, rest, Fail(Truncated))
  {
  }

  lemma Shape(f: Format, t: Token, bits: seq<bool>)
    requires TokenAt(f, t, bits)
    ensures WellShaped(f, t)
  {
  }
}
