/** The DCL "implode" format: what a compressed stream means, and the decoder of tools/blast.py. */
module Dcl {
  import opened Arith
  import opened Bytes
  import opened Bits
  import opened Canonical
  import opened Tables
  import opened HuffmanTable
  import opened BitReading

  const BASE: seq<nat> := [3, 2, 4, 5, 6, 7, 8, 9, 10, 12, 16, 24, 40, 72, 136, 264]
  const EXTRA: seq<nat> := [0, 0, 0, 0, 0, 0, 0, 0, 1, 2, 3, 4, 5, 6, 7, 8]
  const END_LENGTH: nat := 519

  /** Literal coding (0 plain, 1 coded) and dictionary size exponent. */
  datatype Format = Format(coded: bool, dictbits: nat) {
    predicate Valid() {
      4 <= dictbits <= 6
    }
  }

  datatype Token = Literal(b: byte) | Copy(length: nat, distance: nat) | End

  datatype Error = Truncated | BadLiteralFlag | BadDictionary | BadDclCode | DistanceTooFar
  datatype Result = Ok(out: seq<byte>) | Fail(error: Error)

  // ---- the reference encoder ----

  /** The length symbol whose range holds `len`. */
  function LengthSymbol(len: nat): (sym: nat)
    requires 2 <= len <= END_LENGTH
    ensures sym < 16
  {
    if len == 2 then 1
    else if len == 3 then 0
    else if len < 10 then len - 2
    else if len < 12 then 8
    else if len < 16 then 9
    else if len < 24 then 10
    else if len < 40 then 11
    else if len < 72 then 12
    else if len < 136 then 13
    else if len < 264 then 14
    else 15
  }

  /** How many low distance bits follow the distance code. */
  function LowBits(f: Format, len: nat): nat {
    if len == 2 then 2 else f.dictbits
  }

  /** What the format can express at all, whatever has been output before. */
  predicate WellShaped(f: Format, t: Token) {
    t.Copy? ==> 2 <= t.length < END_LENGTH && 1 <= t.distance <= 64 * Pow2(LowBits(f, t.length))
  }

  function LengthBits(len: nat): seq<bool>
    requires 2 <= len <= END_LENGTH
  {
    TablesUsable();
    var sym := LengthSymbol(len);
    LengthRange(len);
    CodeBits(Expand(LENLEN), sym) + BitsOf(len - BASE[sym], EXTRA[sym])
  }

  function DistanceBits(d: nat, low: nat): seq<bool>
    requires Shr(d, low) < 64
  {
    TablesUsable();
    CodeBits(Expand(DISTLEN), Shr(d, low)) + BitsOf(Low(d, low), low)
  }

  function LiteralBits(f: Format, b: byte): seq<bool> {
    TablesUsable();
    if f.coded then CodeBits(Expand(LITLEN), b) else BitsOf(b, 8)
  }

  function TokenBits(f: Format, t: Token): (bits: seq<bool>)
    requires WellShaped(f, t)
    ensures |bits| > 0
  {
    match t
    case Literal(b) => [false] + LiteralBits(f, b)
    case End => [true] + LengthBits(END_LENGTH)
    case Copy(len, dist) =>
      var low := LowBits(f, len);
      DistanceRange(dist - 1, low);
      [true] + (LengthBits(len) + DistanceBits(dist - 1, low))
  }

  lemma LengthRange(len: nat)
    requires 2 <= len <= END_LENGTH
    ensures var sym := LengthSymbol(len); BASE[sym] <= len < BASE[sym] + Pow2(EXTRA[sym])
  {
    Powers();
  }

  lemma LengthSymbolUnique(sym: nat, e: nat)
    requires sym < 16 && e < Pow2(EXTRA[sym])
    ensures 2 <= BASE[sym] + e <= END_LENGTH && LengthSymbol(BASE[sym] + e) == sym
  {
    Powers();
  }

  lemma DistanceRange(d: nat, low: nat)
    requires d < 64 * Pow2(low)
    ensures Shr(d, low) < 64
  {
    DivBound(d, Pow2(low), 64);
  }

  // ---- what tokens mean ----

  /** An LZ77 copy: each byte repeats the one `dist` before it, the new ones included. */
  function CopyBytes(out: seq<byte>, dist: nat, n: nat): (r: seq<byte>)
    requires 1 <= dist <= |out|
    ensures |r| == |out| + n && r[..|out|] == out
    ensures forall i :: |out| <= i < |r| ==> r[i] == r[i - dist]
  {
    if n == 0 then out
    else
      var r := CopyBytes(out, dist, n - 1);
      r + [r[|r| - dist]]
  }

  /** A token a decoder that has produced `out` can carry out. */
  predicate Applies(f: Format, out: seq<byte>, t: Token) {
    WellShaped(f, t) && !t.End? && (t.Copy? ==> t.distance <= |out|)
  }

  function Apply(out: seq<byte>, t: Token): seq<byte>
    requires !t.End? && (t.Copy? ==> 1 <= t.distance <= |out|)
  {
    match t
    case Literal(b) => out + [b]
    case Copy(len, dist) => CopyBytes(out, dist, len)
  }

  /** The bytes a token list stands for, `None` where a copy reaches before the start. */
  datatype Expansion = None | Some(out: seq<byte>)

  function ExpandTokens(f: Format, toks: seq<Token>): Expansion {
    if toks == [] then Some([])
    else
      var n := |toks| - 1;
      var e := ExpandTokens(f, toks[..n]);
      if e.Some? && Applies(f, e.out, toks[n]) then Some(Apply(e.out, toks[n])) else None
  }

  ghost predicate Legal(f: Format, toks: seq<Token>) {
    ExpandTokens(f, toks).Some?
  }

  function EncodeTokens(f: Format, toks: seq<Token>): seq<bool>
    requires Legal(f, toks)
  {
    if toks == [] then [] else EncodeTokens(f, toks[..|toks| - 1]) + TokenBits(f, toks[|toks| - 1])
  }

  // ---- what a decoder must answer ----

  ghost predicate TokenAt(f: Format, t: Token, bits: seq<bool>) {
    WellShaped(f, t) && TokenBits(f, t) <= bits
  }

  /** How decoding ends when `out` has been produced and `rest` follows. */
  ghost predicate Stops(f: Format, out: seq<byte>, rest: seq<bool>, r: Result) {
    match r
    case Ok(o) => o == out && TokenAt(f, End, rest)
    case Fail(DistanceTooFar) => exists t: Token :: t.Copy? && t.distance > |out| && TokenAt(f, t, rest)
    case Fail(Truncated) => forall t: Token :: !TokenAt(f, t, rest)
    case Fail(_) => false
  }

  ghost predicate Reads(f: Format, toks: seq<Token>, bits: seq<bool>) {
    Legal(f, toks) && EncodeTokens(f, toks) <= bits
  }

  ghost predicate Ends(f: Format, toks: seq<Token>, bits: seq<bool>, r: Result) {
    Reads(f, toks, bits) && Stops(f, ExpandTokens(f, toks).out, Skip(bits, |EncodeTokens(f, toks)|), r)
  }

  ghost predicate Answers(f: Format, bits: seq<bool>, r: Result) {
    exists toks :: Ends(f, toks, bits, r)
  }

  /** The one answer for a compressed block. */
  ghost predicate Outcome(data: seq<byte>, r: Result) {
    if |data| < 2 then r == Fail(Truncated)
    else if data[0] > 1 then r == Fail(BadLiteralFlag)
    else if !(4 <= data[1] <= 6) then r == Fail(BadDictionary)
    else Answers(Format(data[0] == 1, data[1]), BytesBits(data[2..]), r)
  }

  // ---- fields in a stream ----

  lemma JoinAt(a: seq<bool>, b: seq<bool>, bits: seq<bool>)
    ensures a + b <= bits <==> a <= bits && b <= Skip(bits, |a|)
    ensures a + b <= bits ==> Skip(bits, |a + b|) == Skip(Skip(bits, |a|), |b|)
  {
    if a + b <= bits {
      assert a == (a + b)[..|a|] && b == (a + b)[|a|..];
    }
    if a <= bits && b <= Skip(bits, |a|) {
      assert bits == a + Skip(bits, |a|);
    }
  }

  lemma FieldAt(v: nat, n: nat, bits: seq<bool>)
    requires v < Pow2(n)
    ensures BitsOf(v, n) <= bits <==> |bits| >= n && Peek(bits, n) == v
  {
    hide BitsOf, Pow2, Num;
    NumOfBits(v, n);
    if |bits| >= n {
      var p := bits[..n];
      BitsOfNum(p);
      assert BitsOf(v, n) <= bits <==> p == BitsOf(v, n);
    }
  }

  lemma FlagAt(flag: bool, x: seq<bool>, bits: seq<bool>)
    ensures [flag] + x <= bits <==> |bits| > 0 && bits[0] == flag && x <= Skip(bits, 1)
    ensures [flag] + x <= bits ==> Skip(bits, |x| + 1) == Skip(Skip(bits, 1), |x|)
    ensures |bits| > 0 ==> Peek(bits, 1) == if bits[0] then 1 else 0
  {
    JoinAt([flag], x, bits);
    if |bits| > 0 {
      var p := bits[..1];
      assert p[1..] == [] && p[0] == bits[0];
      assert Num(p) == (if p[0] then 1 else 0) + 2 * Num(p[1..]);
    }
  }

  /** A code followed by an `n`-bit field, as the reader meets them. */
  lemma CodeFieldAt(L: Lengths, s: nat, v: nat, n: nat, bits: seq<bool>)
    requires s < |L| && L[s] > 0 && v < Pow2(n)
    ensures CodeBits(L, s) + BitsOf(v, n) <= bits <==>
      && IsCodeAt(L, s, bits)
      && |bits| >= L[s] + n && Peek(Skip(bits, L[s]), n) == v
    ensures CodeBits(L, s) + BitsOf(v, n) <= bits ==>
      Skip(bits, L[s] + n) == Skip(Skip(bits, L[s]), n)
  {
    hide Pow2, BitsOf, CodeBits, Peek, Skip;
    JoinAt(CodeBits(L, s), BitsOf(v, n), bits);
    if IsCodeAt(L, s, bits) {
      FieldAt(v, n, Skip(bits, L[s]));
    }
  }

  // ---- at most one token starts a stream ----

  lemma CodeFieldUnique(L: Lengths, s: nat, v: nat, n: nat, s': nat, v': nat, n': nat, bits: seq<bool>)
    requires Fits(L)
    requires s < |L| && L[s] > 0 && v < Pow2(n)
    requires s' < |L| && L[s'] > 0 && v' < Pow2(n') && (s == s' ==> n == n')
    requires CodeBits(L, s) + BitsOf(v, n) <= bits && CodeBits(L, s') + BitsOf(v', n') <= bits
    ensures s == s' && v == v'
  {
    hide Pow2, BitsOf, CodeBits, Peek, Skip, Fits;
    CodeFieldAt(L, s, v, n, bits);
    CodeFieldAt(L, s', v', n', bits);
    CodeUnique(L, s, s', bits);
  }

  lemma LengthUnique(a: nat, b: nat, bits: seq<bool>)
    requires 2 <= a <= END_LENGTH && 2 <= b <= END_LENGTH
    requires LengthBits(a) <= bits && LengthBits(b) <= bits
    ensures a == b
  {
    hide Pow2, BitsOf, CodeBits, Fits, Expand, LengthSymbol;
    TablesUsable();
    LengthRange(a);
    LengthRange(b);
    var s, t := LengthSymbol(a), LengthSymbol(b);
    CodeFieldUnique(Expand(LENLEN), s, a - BASE[s], EXTRA[s], t, b - BASE[t], EXTRA[t], bits);
  }

  lemma DistanceUnique(d: nat, e: nat, low: nat, bits: seq<bool>)
    requires Shr(d, low) < 64 && Shr(e, low) < 64
    requires DistanceBits(d, low) <= bits && DistanceBits(e, low) <= bits
    ensures d == e
  {
    hide BitsOf, CodeBits, Fits, Expand, Pow2;
    TablesUsable();
    LowShr(d, low);
    LowShr(e, low);
    CodeFieldUnique(Expand(DISTLEN), Shr(d, low), Low(d, low), low, Shr(e, low), Low(e, low), low, bits);
  }

  lemma LowShr(d: nat, low: nat)
    ensures Low(d, low) < Pow2(low) && d == Shl(Shr(d, low), low) + Low(d, low)
  {
    DivMod(d, Pow2(low));
  }

  lemma LiteralUnique(f: Format, a: byte, b: byte, bits: seq<bool>)
    requires LiteralBits(f, a) <= bits && LiteralBits(f, b) <= bits
    ensures a == b
  {
    hide BitsOf, CodeBits, Fits, Expand, Pow2, Peek;
    TablesUsable();
    if f.coded {
      CodeUnique(Expand(LITLEN), a, b, bits);
    } else {
      Pow2At8();
      FieldAt(a, 8, bits);
      FieldAt(b, 8, bits);
    }
  }

  function LengthOf(t: Token): nat
    requires !t.Literal?
  {
    if t.End? then END_LENGTH else t.length
  }

  /** The distance part of a copy, in the stream behind its length. */
  ghost predicate DistanceAt(f: Format, t: Token, bits: seq<bool>)
    requires WellShaped(f, t) && t.Copy?
  {
    var low := LowBits(f, t.length);
    DistanceRange(t.distance - 1, low);
    DistanceBits(t.distance - 1, low) <= bits
  }

  lemma EndAt(f: Format, bits: seq<bool>)
    ensures TokenAt(f, End, bits) <==>
      |bits| > 0 && bits[0] && LengthBits(END_LENGTH) <= Skip(bits, 1)
    ensures TokenAt(f, End, bits) ==>
      Skip(bits, |TokenBits(f, End)|) == Skip(Skip(bits, 1), |LengthBits(END_LENGTH)|)
  {
    hide LengthBits, Skip, Peek;
    FlagAt(true, LengthBits(END_LENGTH), bits);
  }

  lemma CopyAt(f: Format, t: Token, bits: seq<bool>)
    requires WellShaped(f, t) && t.Copy?
    ensures TokenAt(f, t, bits) <==>
      && |bits| > 0 && bits[0] && LengthBits(t.length) <= Skip(bits, 1)
      && DistanceAt(f, t, Skip(Skip(bits, 1), |LengthBits(t.length)|))
  {
    hide LengthBits, DistanceBits, Skip, Peek, Pow2, Shr, LowBits;
    var low := LowBits(f, t.length);
    DistanceRange(t.distance - 1, low);
    var x, y := LengthBits(t.length), DistanceBits(t.distance - 1, low);
    FlagAt(true, x + y, bits);
    if |bits| > 0 {
      JoinAt(x, y, Skip(bits, 1));
    }
  }

  lemma PairRest(x: seq<bool>, y: seq<bool>, bits: seq<bool>)
    requires [true] + (x + y) <= bits
    ensures |bits| >= 1 + |x| + |y|
    ensures Skip(bits, 1 + |x| + |y|) == Skip(Skip(Skip(bits, 1), |x|), |y|)
  {
    SkipSkip(bits, 1, |x|);
    SkipSkip(bits, 1 + |x|, |y|);
  }

  lemma CopyBits(f: Format, t: Token)
    requires t.Copy? && WellShaped(f, t)
    ensures Shr(t.distance - 1, LowBits(f, t.length)) < 64
    ensures TokenBits(f, t) == [true] + (LengthBits(t.length) + DistanceBits(t.distance - 1, LowBits(f, t.length)))
  {
    hide LengthBits, DistanceBits, Shr, LowBits;
    DistanceRange(t.distance - 1, LowBits(f, t.length));
  }

  lemma CopyRest(f: Format, t: Token, x: seq<bool>, y: seq<bool>, bits: seq<bool>)
    requires TokenAt(f, t, bits) && TokenBits(f, t) == [true] + (x + y)
    ensures |bits| >= 1 + |x| + |y|
    ensures Skip(bits, |TokenBits(f, t)|) == Skip(Skip(Skip(bits, 1), |x|), |y|)
  {
    hide TokenBits, Skip;
    PairRest(x, y, bits);
  }

  lemma LiteralAt(f: Format, b: byte, bits: seq<bool>)
    ensures TokenAt(f, Literal(b), bits) <==>
      |bits| > 0 && !bits[0] && LiteralBits(f, b) <= Skip(bits, 1)
    ensures TokenAt(f, Literal(b), bits) ==>
      Skip(bits, |TokenBits(f, Literal(b))|) == Skip(Skip(bits, 1), |LiteralBits(f, b)|)
  {
    hide LiteralBits, Skip, Peek;
    FlagAt(false, LiteralBits(f, b), bits);
  }

  lemma TokenUnique(f: Format, s: Token, t: Token, bits: seq<bool>)
    requires TokenAt(f, s, bits) && TokenAt(f, t, bits)
    ensures s == t
  {
    hide LengthBits, LiteralBits, Skip, DistanceAt, TokenBits, TokenAt;
    TokenShape(f, s, bits);
    TokenShape(f, t, bits);
    if s.Literal? {
      LiteralUnique(f, s.b, t.b, Skip(bits, 1));
    } else {
      LengthUnique(LengthOf(s), LengthOf(t), Skip(bits, 1));
      if s.Copy? {
        CopyDistanceUnique(f, s, t, Skip(Skip(bits, 1), |LengthBits(s.length)|));
      }
    }
  }

  lemma TokenShape(f: Format, t: Token, bits: seq<bool>)
    requires TokenAt(f, t, bits)
    ensures |bits| > 0 && bits[0] == !t.Literal? && WellShaped(f, t)
    ensures t.Literal? ==> LiteralBits(f, t.b) <= Skip(bits, 1)
    ensures !t.Literal? ==> LengthBits(LengthOf(t)) <= Skip(bits, 1)
    ensures t.Copy? ==> DistanceAt(f, t, Skip(Skip(bits, 1), |LengthBits(t.length)|))
  {
    hide LengthBits, LiteralBits, Skip, DistanceAt, TokenBits, Pow2;
    match t
    case Literal(b) => LiteralAt(f, b, bits);
    case End => EndAt(f, bits);
    case Copy(_, _) => CopyAt(f, t, bits);
  }

  lemma CopyDistanceUnique(f: Format, s: Token, t: Token, bits: seq<bool>)
    requires s.Copy? && t.Copy? && s.length == t.length && WellShaped(f, s) && WellShaped(f, t)
    requires DistanceAt(f, s, bits) && DistanceAt(f, t, bits)
    ensures s == t
  {
    hide Pow2, DistanceBits, Shr;
    DistanceRange(s.distance - 1, LowBits(f, s.length));
    DistanceRange(t.distance - 1, LowBits(f, s.length));
    DistanceUnique(s.distance - 1, t.distance - 1, LowBits(f, s.length), bits);
  }

  // ---- at most one answer ----

  lemma {:induction false} PrefixReads(f: Format, toks: seq<Token>, i: nat, bits: seq<bool>)
    requires Reads(f, toks, bits) && i <= |toks|
    ensures Reads(f, toks[..i], bits)
    decreases |toks| - i
  {
    hide TokenBits, WellShaped, Apply;
    if i == |toks| {
      assert toks[..i] == toks;
    } else {
      PrefixReads(f, toks, i + 1, bits);
      assert toks[..i + 1][..i] == toks[..i];
      JoinAt(EncodeTokens(f, toks[..i]), TokenBits(f, toks[i]), bits);
    }
  }

  /** Where a reading goes on, its next token stands in the stream and can be carried out. */
  lemma NextToken(f: Format, toks: seq<Token>, i: nat, bits: seq<bool>)
    requires Reads(f, toks, bits) && i < |toks|
    ensures Reads(f, toks[..i], bits)
    ensures Applies(f, ExpandTokens(f, toks[..i]).out, toks[i])
    ensures TokenAt(f, toks[i], Skip(bits, |EncodeTokens(f, toks[..i])|))
  {
    hide TokenBits, WellShaped, Apply;
    PrefixReads(f, toks, i, bits);
    PrefixReads(f, toks, i + 1, bits);
    assert toks[..i + 1][..i] == toks[..i];
    JoinAt(EncodeTokens(f, toks[..i]), TokenBits(f, toks[i]), bits);
  }

  lemma ReadFits(f: Format, toks: seq<Token>, bits: seq<bool>)
    requires Reads(f, toks, bits)
    ensures Legal(f, toks) && |EncodeTokens(f, toks)| <= |bits|
  {
  }

  lemma {:induction false} Agree(f: Format, a: seq<Token>, b: seq<Token>, i: nat, bits: seq<bool>)
    requires Reads(f, a, bits) && Reads(f, b, bits) && i <= |a| && i <= |b|
    ensures a[..i] == b[..i]
  {
    hide TokenAt, Skip, Applies, EncodeTokens, ExpandTokens, Reads;
    if i > 0 {
      Agree(f, a, b, i - 1, bits);
      NextToken(f, a, i - 1, bits);
      NextToken(f, b, i - 1, bits);
      ReadFits(f, a[..i - 1], bits);
      TokenUnique(f, a[i - 1], b[i - 1], Skip(bits, |EncodeTokens(f, a[..i - 1])|));
      assert a[..i] == a[..i - 1] + [a[i - 1]];
    }
  }

  lemma StopsOnce(f: Format, out: seq<byte>, rest: seq<bool>, r: Result, r': Result)
    requires Stops(f, out, rest, r) && Stops(f, out, rest, r')
    ensures r == r'
  {
    hide TokenAt;
    if r != r' && r != Fail(Truncated) && r' != Fail(Truncated) {
      var t: Token :| t.Copy? && TokenAt(f, t, rest);
      TokenUnique(f, End, t, rest);
    }
  }

  lemma NoStopBefore(f: Format, out: seq<byte>, rest: seq<bool>, t: Token, r: Result)
    requires TokenAt(f, t, rest) && Applies(f, out, t)
    ensures !Stops(f, out, rest, r)
  {
    hide TokenAt;
    if r.Ok? && TokenAt(f, End, rest) {
      TokenUnique(f, End, t, rest);
    }
    if r == Fail(DistanceTooFar) && Stops(f, out, rest, r) {
      var c: Token :| c.Copy? && c.distance > |out| && TokenAt(f, c, rest);
      TokenUnique(f, c, t, rest);
    }
  }

  lemma EndsOnce(f: Format, a: seq<Token>, b: seq<Token>, bits: seq<bool>, r: Result, r': Result)
    requires |a| <= |b| && Ends(f, a, bits, r) && Ends(f, b, bits, r')
    ensures r == r'
  {
    hide TokenAt, Skip, EncodeTokens, ExpandTokens, Applies, Stops;
    Agree(f, a, b, |a|, bits);
    assert a[..|a|] == a;
    var out, rest := ExpandTokens(f, a).out, Skip(bits, |EncodeTokens(f, a)|);
    if |a| < |b| {
      NextToken(f, b, |a|, bits);
      NoStopBefore(f, out, rest, b[|a|], r);
    } else {
      assert b[..|b|] == b;
      StopsOnce(f, out, rest, r, r');
    }
  }

  /** A block has one answer, whatever tokens one reads it as. */
  lemma OutcomeUnique(data: seq<byte>, r: Result, r': Result)
    requires Outcome(data, r) && Outcome(data, r')
    ensures r == r'
  {
    hide Ends, BytesBits;
    if |data| >= 2 && data[0] <= 1 && 4 <= data[1] <= 6 {
      var f, bits := Format(data[0] == 1, data[1]), BytesBits(data[2..]);
      var a :| Ends(f, a, bits, r);
      var b :| Ends(f, b, bits, r');
      if |a| <= |b| {
        EndsOnce(f, a, b, bits, r, r');
      } else {
        EndsOnce(f, b, a, bits, r', r);
      }
    }
  }

  // ---- compressing, then decoding ----

  /** Bits packed into bytes, lowest first, the last byte filled with zeros. */
  function Pack(bits: seq<bool>): seq<byte>
    decreases |bits|
  {
    if bits == [] then []
    else if |bits| <= 8 then
      BitsOfNum(bits);
      Pow2Mono(|bits|, 8);
      Pow2At8();
      [Num(bits)]
    else
      BitsOfNum(bits[..8]);
      Pow2At8();
      [Num(bits[..8])] + Pack(bits[8..])
  }

  lemma {:induction false} PackKeeps(bits: seq<bool>)
    ensures bits <= BytesBits(Pack(bits))
    decreases |bits|
  {
    hide BitsOf, Num, Pow2;
    if bits == [] {
    } else if |bits| <= 8 {
      BitsOfNum(bits);
      BitsOfConcat(Num(bits), |bits|, 0, 8 - |bits|);
      Pow2Mono(|bits|, 8);
      Pow2At8();
      OneByte(Num(bits));
    } else {
      BitsOfNum(bits[..8]);
      PackKeeps(bits[8..]);
      assert bits == bits[..8] + bits[8..];
    }
  }

  lemma OneByte(b: byte)
    ensures BytesBits([b]) == BitsOf(b, 8)
  {
    hide BitsOf;
    assert [b][1..] == [];
  }

  function Compress(f: Format, toks: seq<Token>): seq<byte>
    requires f.Valid() && Legal(f, toks)
  {
    [if f.coded then 1 else 0, f.dictbits] + Pack(EncodeTokens(f, toks) + TokenBits(f, End))
  }

  /** Decoding a compressed token list gives the bytes the tokens stand for. */
  lemma RoundTrip(f: Format, toks: seq<Token>, r: Result)
    requires f.Valid() && Legal(f, toks)
    requires Outcome(Compress(f, toks), r)
    ensures r == Ok(ExpandTokens(f, toks).out)
  {
    hide Pack, TokenBits, BytesBits, ExpandTokens, EncodeTokens;
    var data, bits := Compress(f, toks), EncodeTokens(f, toks) + TokenBits(f, End);
    var all := BytesBits(data[2..]);
    assert data[2..] == Pack(bits);
    PackKeeps(bits);
    JoinAt(EncodeTokens(f, toks), TokenBits(f, End), all);
    assert Ends(f, toks, all, Ok(ExpandTokens(f, toks).out));
    assert Format(data[0] == 1, data[1]) == f;
    OutcomeUnique(data, r, Ok(ExpandTokens(f, toks).out));
  }
}
