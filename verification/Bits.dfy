/** Bit sequences, least significant bit first, and the numbers they spell. */
module Bits {
  import opened Arith
  import opened Bytes

  function Pow2(n: nat): (p: nat)
    ensures p >= 1
  {
    if n == 0 then 1 else 2 * Pow2(n - 1)
  }

  /** `v << n` */
  function Shl(v: nat, n: nat): nat {
    v * Pow2(n)
  }

  /** `v >> n` */
  function Shr(v: nat, n: nat): nat {
    DivMod(v, Pow2(n));
    v / Pow2(n)
  }

  /** `v & ((1 << n) - 1)` */
  function Low(v: nat, n: nat): nat {
    v % Pow2(n)
  }

  /** The low `n` bits of `v`, least significant first. */
  function BitsOf(v: nat, n: nat): (s: seq<bool>)
    ensures |s| == n
    decreases n
  {
    if n == 0 then [] else [v % 2 == 1] + BitsOf(v / 2, n - 1)
  }

  /** The number a bit sequence spells, least significant bit first. */
  function Num(s: seq<bool>): nat {
    if s == [] then 0 else (if s[0] then 1 else 0) + 2 * Num(s[1..])
  }

  /** The stream after `n` bits have been taken. */
  function Skip(s: seq<bool>, n: nat): (r: seq<bool>)
    requires n <= |s|
    ensures |r| == |s| - n
  {
    s[n..]
  }

  /** The number the next `n` bits spell. */
  function Peek(s: seq<bool>, n: nat): nat
    requires n <= |s|
  {
    Num(s[..n])
  }

  lemma SkipSkip(s: seq<bool>, a: nat, b: nat)
    requires a + b <= |s|
    ensures Skip(Skip(s, a), b) == Skip(s, a + b)
  {
  }

  function BytesBits(s: seq<byte>): (r: seq<bool>)
    ensures |r| == 8 * |s|
  {
    if s == [] then [] else BitsOf(s[0], 8) + BytesBits(s[1..])
  }

  /** The bitwise OR of two numbers of any width. */
  function Or(a: nat, b: nat): nat
    decreases a + b
  {
    if a == 0 then b
    else if b == 0 then a
    else (if a % 2 == 1 || b % 2 == 1 then 1 else 0) + 2 * Or(a / 2, b / 2)
  }

  lemma {:induction false} Pow2Add(m: nat, n: nat)
    ensures Pow2(m + n) == Pow2(m) * Pow2(n)
  {
    if m == 0 {
    } else {
      Pow2Add(m - 1, n);
      calc {
        Pow2(m + n);
        2 * Pow2(m - 1 + n);
        2 * (Pow2(m - 1) * Pow2(n));
        Pow2(m) * Pow2(n);
      }
    }
  }

  lemma Pow2At8()
    ensures Pow2(8) == 256
  {
  }

  lemma {:induction false} Pow2Mono(m: nat, n: nat)
    requires m <= n
    ensures Pow2(m) <= Pow2(n)
  {
    if m == n {
    } else {
      Pow2Mono(m, n - 1);
    }
  }

  /** ORing in a number shifted past the top of `a` adds it. */
  lemma {:induction false} OrShifted(a: nat, b: nat, n: nat)
    requires a < Pow2(n)
    ensures Or(a, Shl(b, n)) == a + Shl(b, n)
    decreases n
  {
    if n == 0 || a == 0 {
    } else {
      var c := b * Pow2(n - 1);
      assert b * Pow2(n) == 2 * c;
      OrShifted(a / 2, b, n - 1);
      if c > 0 {
        assert (2 * c) % 2 == 0 && (2 * c) / 2 == c;
      }
    }
  }

  lemma {:induction false} BitsOfConcat(v: nat, n: nat, w: nat, m: nat)
    requires v < Pow2(n)
    ensures BitsOf(v + Shl(w, n), n + m) == BitsOf(v, n) + BitsOf(w, m)
    decreases n
  {
    if n == 0 {
      assert v + w * Pow2(n) == w;
    } else {
      var c := w * Pow2(n - 1);
      assert w * Pow2(n) == 2 * c;
      assert (v + 2 * c) % 2 == v % 2 && (v + 2 * c) / 2 == v / 2 + c;
      BitsOfConcat(v / 2, n - 1, w, m);
    }
  }

  lemma {:induction false} NumOfBits(v: nat, n: nat)
    requires v < Pow2(n)
    ensures Num(BitsOf(v, n)) == v
    decreases n
  {
    if n == 0 {
    } else {
      NumOfBits(v / 2, n - 1);
      assert BitsOf(v, n)[1..] == BitsOf(v / 2, n - 1);
    }
  }

  lemma {:induction false} BitsOfNum(s: seq<bool>)
    ensures Num(s) < Pow2(|s|)
    ensures BitsOf(Num(s), |s|) == s
  {
    if s == [] {
    } else {
      BitsOfNum(s[1..]);
      assert s == [s[0]] + s[1..];
    }
  }

  /** A number is its low `n` bits below the rest. */
  lemma SplitLow(v: nat, n: nat, m: nat)
    requires n <= m
    requires v < Pow2(m)
    ensures BitsOf(v, m) == BitsOf(Low(v, n), n) + BitsOf(Shr(v, n), m - n)
    ensures Low(v, n) < Pow2(n) && Shr(v, n) < Pow2(m - n)
  {
    hide BitsOf, Pow2;
    var d := Pow2(n);
    DivMod(v, d);
    assert v < Pow2(m - n) * d by { Pow2Add(n, m - n); }
    DivBound(v, d, Pow2(m - n));
    assert v == Low(v, n) + Shl(Shr(v, n), n);
    BitsOfConcat(Low(v, n), n, Shr(v, n), m - n);
  }

  lemma ShlBound(v: nat, m: nat, u: nat, n: nat)
    requires v < Pow2(m) && u < Pow2(n)
    ensures u + Shl(v, n) < Pow2(m + n)
  {
    Pow2Add(m, n);
    MulMono(v + 1, Pow2(m), Pow2(n));
    assert (v + 1) * Pow2(n) == Shl(v, n) + Pow2(n);
  }

  lemma ShrBound(v: nat, n: nat, m: nat)
    requires v < Pow2(m) * Pow2(n)
    ensures Shr(v, n) < Pow2(m)
  {
    DivBound(v, Pow2(n), Pow2(m));
  }

  lemma BytesBitsStep(s: seq<byte>, i: nat)
    requires i < |s|
    ensures BytesBits(s[i..]) == BitsOf(s[i], 8) + BytesBits(s[i + 1..])
  {
    assert s[i..][1..] == s[i + 1..];
  }
}
