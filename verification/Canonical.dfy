/** Canonical prefix codes, as tools/blast.py numbers them. */
module Canonical {
  import opened Arith
  import opened Bits

  const MAXBITS: nat := 15

  /** Code lengths per symbol; 0 marks an unused symbol. */
  type Lengths = s: seq<nat> | forall i :: 0 <= i < |s| ==> s[i] <= MAXBITS

  /** How many symbols have codes of `ln` bits. */
  function Count(L: seq<nat>, ln: nat): (c: nat)
    ensures c <= |L|
  {
    if L == [] then 0
    else Count(L[..|L| - 1], ln) + (if L[|L| - 1] == ln then 1 else 0)
  }

  /** The place of symbol `s` among the symbols of its length. */
  function Rank(L: seq<nat>, s: nat): nat
    requires s < |L|
  {
    Count(L[..s], L[s])
  }

  /** The smallest code of `ln` bits. */
  function First(L: seq<nat>, ln: nat): nat
    requires ln > 0
  {
    if ln == 1 then 0 else 2 * (First(L, ln - 1) + Count(L, ln - 1))
  }

  /** How many symbols have shorter codes than `ln` bits. */
  function Index(L: seq<nat>, ln: nat): nat
    requires ln > 0
  {
    if ln == 1 then 0 else Index(L, ln - 1) + Count(L, ln - 1)
  }

  function Code(L: seq<nat>, s: nat): nat
    requires s < |L| && L[s] > 0
  {
    First(L, L[s]) + Rank(L, s)
  }

  /** `n` bits of `v`, most significant first and complemented, as the stream stores a code. */
  function Inverted(v: nat, n: nat): (b: seq<bool>)
    ensures |b| == n
  {
    if n == 0 then [] else Inverted(v / 2, n - 1) + [v % 2 == 0]
  }

  function CodeBits(L: seq<nat>, s: nat): (b: seq<bool>)
    requires s < |L| && L[s] > 0
    ensures |b| == L[s]
  {
    Inverted(Code(L, s), L[s])
  }

  /** No length needs more codes than there are. */
  ghost predicate Fits(L: seq<nat>) {
    forall ln :: 1 <= ln <= MAXBITS ==> First(L, ln) + Count(L, ln) <= Pow2(ln)
  }

  /** Every code of `m` bits is used, so nothing is left over. */
  ghost predicate CompleteAt(L: seq<nat>, m: nat) {
    1 <= m <= MAXBITS && First(L, m) + Count(L, m) == Pow2(m)
  }

  ghost predicate IsCodeAt(L: seq<nat>, s: nat, bits: seq<bool>) {
    s < |L| && L[s] > 0 && CodeBits(L, s) <= bits
  }

  // ---- counting ----

  lemma {:induction false} CountPrefix(L: seq<nat>, i: nat, ln: nat)
    requires i <= |L|
    ensures Count(L[..i], ln) <= Count(L, ln)
    decreases |L| - i
  {
    if i == |L| {
      assert L[..i] == L;
    } else {
      CountPrefix(L, i + 1, ln);
      assert L[..i + 1][..i] == L[..i];
    }
  }

  lemma RankBound(L: seq<nat>, s: nat)
    requires s < |L|
    ensures Rank(L, s) < Count(L, L[s])
  {
    CountPrefix(L, s + 1, L[s]);
    assert L[..s + 1][..s] == L[..s];
  }

  lemma RankOrder(L: seq<nat>, s: nat, t: nat)
    requires s < t < |L| && L[s] == L[t]
    ensures Rank(L, s) < Rank(L, t)
  {
    RankBound(L[..t], s);
    assert L[..t][..s] == L[..s];
  }

  /** The `j`-th symbol of a length exists when the length has more than `j`. */
  lemma {:induction false} Nth(L: seq<nat>, ln: nat, j: nat) returns (s: nat)
    requires j < Count(L, ln)
    ensures s < |L| && L[s] == ln && Rank(L, s) == j
  {
    var n := |L| - 1;
    if L[n] == ln && Count(L[..n], ln) == j {
      s := n;
    } else {
      s := Nth(L[..n], ln, j);
      assert L[..n][..s] == L[..s];
    }
  }

  lemma {:induction false} IndexMono(L: seq<nat>, a: nat, b: nat)
    requires 0 < a < b
    ensures Index(L, a) + Count(L, a) <= Index(L, b)
    decreases b
  {
    if b == a + 1 {
    } else {
      IndexMono(L, a, b - 1);
    }
  }

  /** A symbol's slot in the table sorted by length, then by symbol. */
  function Slot(L: seq<nat>, s: nat): nat
    requires s < |L| && L[s] > 0
  {
    Index(L, L[s]) + Rank(L, s)
  }

  lemma SlotInjective(L: seq<nat>, s: nat, t: nat)
    requires s < |L| && t < |L| && L[s] > 0 && L[t] > 0 && s != t
    ensures Slot(L, s) != Slot(L, t)
  {
    RankBound(L, s);
    RankBound(L, t);
    if L[s] == L[t] {
      if s < t { RankOrder(L, s, t); } else { RankOrder(L, t, s); }
    } else if L[s] < L[t] {
      IndexMono(L, L[s], L[t]);
    } else {
      IndexMono(L, L[t], L[s]);
    }
  }

  /** Lengths 1..m together hold at most all the symbols. */
  lemma {:induction false} IndexBound(L: seq<nat>, m: nat)
    requires m > 0
    ensures Index(L, m) <= |L|
    decreases |L|
  {
    if L == [] {
      IndexEmpty(m);
    } else {
      var n := |L| - 1;
      IndexBound(L[..n], m);
      IndexLast(L, m);
    }
  }

  lemma {:induction false} IndexEmpty(m: nat)
    requires m > 0
    ensures Index([], m) == 0
  {
    if m == 1 {
    } else {
      IndexEmpty(m - 1);
    }
  }

  lemma {:induction false} IndexLast(L: seq<nat>, m: nat)
    requires m > 0 && |L| > 0
    ensures Index(L, m) == Index(L[..|L| - 1], m) + (if 0 < L[|L| - 1] < m then 1 else 0)
    decreases m
  {
    if m == 1 {
    } else {
      IndexLast(L, m - 1);
    }
  }

  lemma SlotBound(L: seq<nat>, s: nat)
    requires s < |L| && L[s] > 0
    ensures Slot(L, s) < |L|
  {
    RankBound(L, s);
    IndexBound(L, L[s] + 1);
  }

  // ---- codes as bit strings ----

  lemma {:induction false} InvertedInjective(v: nat, w: nat, n: nat)
    requires v < Pow2(n) && w < Pow2(n)
    requires Inverted(v, n) == Inverted(w, n)
    ensures v == w
    decreases n
  {
    if n == 0 {
    } else {
      var a, b := Inverted(v / 2, n - 1), Inverted(w / 2, n - 1);
      assert (a + [v % 2 == 0])[..n - 1] == a;
      assert (b + [w % 2 == 0])[..n - 1] == b;
      assert (a + [v % 2 == 0])[n - 1] == (b + [w % 2 == 0])[n - 1];
      InvertedInjective(v / 2, w / 2, n - 1);
    }
  }

  /** Dropping the last bits of a code drops the low bits of its number. */
  lemma {:induction false} InvertedPrefix(v: nat, n: nat, m: nat)
    requires m <= n
    ensures Inverted(v, n)[..m] == Inverted(Shr(v, n - m), m)
    decreases n
  {
    if m == n {
      assert Inverted(v, n)[..m] == Inverted(v, n);
    } else {
      InvertedPrefix(v / 2, n - 1, m);
      assert Inverted(v, n)[..m] == Inverted(v / 2, n - 1)[..m];
      DivTwice(v, 2, Pow2(n - 1 - m));
    }
  }

  lemma DivTwice(v: nat, a: nat, b: nat)
    requires a > 0 && b > 0
    ensures a * b > 0 && (v / a) / b == v / (a * b)
  {
    var q, r := v / a, v % a;
    var q2, r2 := q / b, q % b;
    DivMod(v, a);
    DivMod(q, b);
    assert v == r + (r2 + q2 * b) * a == (r + r2 * a) + q2 * (a * b);
    MulMono(r2, b - 1, a);
    assert r + r2 * a < a * b;
    Parts(v, a * b, q2, r + r2 * a);
  }

  lemma CodeFits(L: seq<nat>, s: nat)
    requires Fits(L) && s < |L| && 0 < L[s] <= MAXBITS
    ensures Code(L, s) < Pow2(L[s])
  {
    RankBound(L, s);
  }

  /** Longer codes start above everything shorter ones cover. */
  lemma {:induction false} FirstAbove(L: seq<nat>, a: nat, b: nat)
    requires 0 < a < b
    ensures First(L, b) >= (First(L, a) + Count(L, a)) * Pow2(b - a)
    decreases b
  {
    hide First, Count, Pow2;
    var x := First(L, a) + Count(L, a);
    FirstNext(L, b);
    Doubled(x, b - a);
    if b > a + 1 {
      FirstAbove(L, a, b - 1);
    }
  }

  lemma FirstNext(L: seq<nat>, ln: nat)
    requires ln > 1
    ensures First(L, ln) == 2 * (First(L, ln - 1) + Count(L, ln - 1))
  {
  }

  lemma Doubled(x: nat, n: nat)
    requires n > 0
    ensures x * Pow2(n) == 2 * (x * Pow2(n - 1)) && Pow2(0) == 1
  {
  }

  lemma QuotientAbove(w: nat, d: nat, x: nat, v: nat)
    requires d > 0 && v < x && w >= x * d
    ensures w / d > v
  {
    DivMod(w, d);
    assert (w / d + 1) * d == (w / d) * d + d;
    if w / d < x {
      MulMono(w / d + 1, x, d);
    }
  }

  /** Cut to the length of a shorter symbol's code, a longer code is past that symbol's number. */
  lemma CutAbove(L: seq<nat>, s: nat, t: nat)
    requires s < |L| && t < |L| && 0 < L[s] < L[t]
    ensures Shr(Code(L, t), L[t] - L[s]) > Code(L, s)
  {
    RankBound(L, s);
    FirstAbove(L, L[s], L[t]);
    hide Pow2, First, Count;
    QuotientAbove(Code(L, t), Pow2(L[t] - L[s]), First(L, L[s]) + Count(L, L[s]), Code(L, s));
  }

  lemma PrefixIsShift(v: nat, n: nat, w: nat, m: nat)
    requires n <= m && v < Pow2(n) && w < Pow2(m)
    requires Inverted(v, n) <= Inverted(w, m)
    ensures v == Shr(w, m - n)
  {
    hide Pow2, Shr, Inverted;
    InvertedPrefix(w, m, n);
    Pow2Add(n, m - n);
    ShrBound(w, m - n, n);
    InvertedInjective(v, Shr(w, m - n), n);
  }

  /** A code that is a prefix of another has the same length. */
  lemma PrefixLength(L: Lengths, s: nat, t: nat)
    requires Fits(L)
    requires s < |L| && t < |L| && 0 < L[s] <= L[t]
    requires CodeBits(L, s) <= CodeBits(L, t)
    ensures L[s] == L[t]
  {
    hide Pow2, Shr, Inverted, Code, Fits;
    if L[s] < L[t] {
      CodeFits(L, s);
      CodeFits(L, t);
      CutAbove(L, s, t);
      PrefixIsShift(Code(L, s), L[s], Code(L, t), L[t]);
    }
  }

  /** No code of the table is a prefix of another symbol's code. */
  lemma PrefixFree(L: Lengths, s: nat, t: nat)
    requires Fits(L)
    requires s < |L| && t < |L| && 0 < L[s] <= L[t]
    requires CodeBits(L, s) <= CodeBits(L, t)
    ensures s == t
  {
    PrefixLength(L, s, t);
    CodeFits(L, s);
    CodeFits(L, t);
    InvertedInjective(Code(L, s), Code(L, t), L[s]);
    if s < t { RankOrder(L, s, t); } else if t < s { RankOrder(L, t, s); }
  }

  /** At most one symbol's code starts a given stream. */
  lemma CodeUnique(L: Lengths, s: nat, t: nat, bits: seq<bool>)
    requires Fits(L) && IsCodeAt(L, s, bits) && IsCodeAt(L, t, bits)
    ensures s == t
  {
    var a, b := CodeBits(L, s), CodeBits(L, t);
    if |a| <= |b| {
      assert a == bits[..|a|] && b == bits[..|b|] && a == b[..|a|];
      PrefixFree(L, s, t);
    } else {
      assert a == bits[..|a|] && b == bits[..|b|] && b == a[..|b|];
      PrefixFree(L, t, s);
    }
  }

  // ---- the Kraft sum ----

  /** In units of `m`-bit codes, the share that symbols of at most `j` bits use up. */
  function KraftSum(L: seq<nat>, j: nat, m: nat): nat
    requires j <= m
  {
    if L == [] then 0
    else
      var ln := L[|L| - 1];
      KraftSum(L[..|L| - 1], j, m) + (if 0 < ln <= j then Pow2(m - ln) else 0)
  }

  lemma {:induction false} KraftSumConcat(A: seq<nat>, B: seq<nat>, j: nat, m: nat)
    requires j <= m
    ensures KraftSum(A + B, j, m) == KraftSum(A, j, m) + KraftSum(B, j, m)
    decreases |B|
  {
    if B == [] {
      assert A + B == A;
    } else {
      KraftSumConcat(A, B[..|B| - 1], j, m);
      assert (A + B)[..|A + B| - 1] == A + B[..|B| - 1];
    }
  }

  lemma {:induction false} KraftSumNext(L: seq<nat>, j: nat, m: nat)
    requires 0 < j <= m
    ensures KraftSum(L, j, m) == KraftSum(L, j - 1, m) + Shl(Count(L, j), m - j)
  {
    if L == [] {
    } else {
      KraftSumNext(L[..|L| - 1], j, m);
      var c := Count(L[..|L| - 1], j);
      assert Shl(c + 1, m - j) == Shl(c, m - j) + Pow2(m - j);
    }
  }

  lemma {:induction false} KraftSumZero(L: seq<nat>, m: nat)
    ensures KraftSum(L, 0, m) == 0
  {
    if L == [] {
    } else {
      KraftSumZero(L[..|L| - 1], m);
    }
  }

  lemma ShlTwice(f: nat, c: nat, k: nat)
    ensures Shl(2 * f + c, k) == Shl(f, k + 1) + Shl(c, k)
  {
    var p := Pow2(k);
    assert Pow2(k + 1) == 2 * p;
    assert (2 * f + c) * p == f * (2 * p) + c * p;
  }

  /** The codes up to length `j`, cut or extended to `m` bits, are exactly the first ones. */
  lemma {:induction false} FirstIsKraft(L: seq<nat>, j: nat, m: nat)
    requires 0 < j <= m
    ensures Shl(First(L, j) + Count(L, j), m - j) == KraftSum(L, j, m)
    decreases j
  {
    KraftSumNext(L, j, m);
    if j == 1 {
      KraftSumZero(L, m);
    } else {
      FirstIsKraft(L, j - 1, m);
      ShlTwice(First(L, j - 1) + Count(L, j - 1), Count(L, j), m - j);
    }
  }

  lemma {:induction false} KraftSumMono(L: seq<nat>, j: nat, k: nat, m: nat)
    requires j <= k <= m
    ensures KraftSum(L, j, m) <= KraftSum(L, k, m)
    decreases k - j
  {
    if j == k {
    } else {
      KraftSumNext(L, j + 1, m);
      KraftSumMono(L, j + 1, k, m);
    }
  }

  lemma {:induction false} CountAbove(L: seq<nat>, m: nat, ln: nat)
    requires forall i :: 0 <= i < |L| ==> L[i] <= m
    requires ln > m
    ensures Count(L, ln) == 0
  {
    if L == [] {
    } else {
      CountAbove(L[..|L| - 1], m, ln);
    }
  }

  lemma {:induction false} FullAbove(L: seq<nat>, m: nat, ln: nat)
    requires forall i :: 0 <= i < |L| ==> L[i] <= m
    requires 0 < m <= ln
    requires First(L, m) + Count(L, m) == Pow2(m)
    ensures First(L, ln) + Count(L, ln) == Pow2(ln)
    decreases ln
  {
    if ln == m {
    } else {
      FullAbove(L, m, ln - 1);
      CountAbove(L, m, ln);
    }
  }

  /** A table whose Kraft sum is exactly full has a code for every bit string. */
  lemma KraftFull(L: Lengths, m: nat)
    requires 0 < m <= MAXBITS
    requires forall i :: 0 <= i < |L| ==> L[i] <= m
    requires KraftSum(L, m, m) == Pow2(m)
    ensures CompleteAt(L, m) && Fits(L)
  {
    hide First, Count, KraftSum, Pow2;
    FullAtTop(L, m);
    forall ln | 1 <= ln <= MAXBITS
      ensures First(L, ln) + Count(L, ln) <= Pow2(ln)
    {
      if ln >= m {
        FullAbove(L, m, ln);
      } else {
        PartFull(L, m, ln);
      }
    }
  }

  lemma FullAtTop(L: seq<nat>, m: nat)
    requires 0 < m && KraftSum(L, m, m) == Pow2(m)
    ensures First(L, m) + Count(L, m) == Pow2(m)
  {
    hide First, Count, KraftSum;
    FirstIsKraft(L, m, m);
    assert Pow2(0) == 1;
  }

  lemma PartFull(L: seq<nat>, m: nat, ln: nat)
    requires 0 < ln < m && KraftSum(L, m, m) == Pow2(m)
    ensures First(L, ln) + Count(L, ln) <= Pow2(ln)
  {
    hide First, Count, KraftSum, Pow2;
    FirstIsKraft(L, ln, m);
    KraftSumMono(L, ln, m, m);
    Pow2Add(ln, m - ln);
    FactorBound(First(L, ln) + Count(L, ln), Pow2(ln), Pow2(m - ln));
  }

  lemma FactorBound(a: nat, b: nat, d: nat)
    requires d > 0 && a * d <= b * d
    ensures a <= b
  {
    assert (b + 1) * d == b * d + d;
    if a > b {
      MulMono(b + 1, a, d);
    }
  }
}
