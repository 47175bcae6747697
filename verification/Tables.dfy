/** The three fixed code tables of tools/blast.py and what makes them decodable. */
module Tables {
  import opened Arith
  import opened Bytes
  import opened Bits
  import opened Canonical

  // One byte per run of equal lengths: ((count - 1) << 4) | length.
  const LIT_0: seq<byte> := [11, 124, 8, 7, 28, 7, 188, 13, 76, 4, 10, 8, 12, 10]
  const LIT_1: seq<byte> := [12, 10, 8, 23, 8, 9, 7, 6, 7, 8, 7, 6, 55, 8]
  const LIT_2: seq<byte> := [23, 24, 12, 11, 7, 9, 11, 12, 6, 7, 22, 5, 7, 24]
  const LIT_3: seq<byte> := [6, 11, 9, 6, 7, 22, 7, 11, 38, 7, 9, 8, 25, 11]
  const LIT_4: seq<byte> := [8, 11, 9, 12, 8, 12, 5, 38, 5, 38, 5, 11, 7, 5]
  const LIT_5: seq<byte> := [6, 21, 6, 10, 53, 8, 7, 24, 10, 27, 44, 253, 253, 253]
  const LIT_6: seq<byte> := [252, 252, 252, 13, 12, 45, 12, 45, 12, 61, 12, 45, 44, 173]
  const LITLEN: seq<byte> := LIT_0 + LIT_1 + LIT_2 + LIT_3 + LIT_4 + LIT_5 + LIT_6
  const LENLEN: seq<byte> := [2, 35, 36, 53, 38, 23]
  const DISTLEN: seq<byte> := [2, 20, 53, 230, 247, 151, 248]

  function Repeat(v: nat, n: nat): (s: seq<nat>)
    ensures |s| == n
    ensures forall i :: 0 <= i < n ==> s[i] == v
  {
    if n == 0 then [] else Repeat(v, n - 1) + [v]
  }

  /** The code lengths the runs from the `i`-th on stand for. */
  function ExpandFrom(rep: seq<byte>, i: nat): Lengths
    requires i <= |rep|
    decreases |rep| - i
  {
    if i == |rep| then [] else Repeat(rep[i] % 16, RunLength(rep[i])) + ExpandFrom(rep, i + 1)
  }

  function Expand(rep: seq<byte>): Lengths {
    ExpandFrom(rep, 0)
  }

  /** How many symbols one run stands for. */
  function RunLength(b: byte): nat {
    b / 16 + 1
  }

  /** The share of all `m`-bit codes that one run uses up; a length out of range counts as too much. */
  function Share(b: byte, m: nat): nat {
    var ln := b % 16;
    if 0 < ln <= m then RunLength(b) * Pow2(m - ln) else Pow2(m) + 1
  }

  /** The share of all `m`-bit codes that the runs from the `i`-th on use up. */
  function Kraft(rep: seq<byte>, m: nat, i: nat): nat
    requires i <= |rep|
    decreases |rep| - i
  {
    if i == |rep| then 0 else Share(rep[i], m) + Kraft(rep, m, i + 1)
  }

  function Symbols(rep: seq<byte>, i: nat): nat
    requires i <= |rep|
    decreases |rep| - i
  {
    if i == |rep| then 0 else RunLength(rep[i]) + Symbols(rep, i + 1)
  }

  lemma Fourteen(rep: seq<byte>, m: nat)
    requires |rep| == 14
    ensures Kraft(rep, m, 0) == Share(rep[0], m) + Share(rep[1], m) + Share(rep[2], m) + Share(rep[3], m)
      + Share(rep[4], m) + Share(rep[5], m) + Share(rep[6], m) + Share(rep[7], m) + Share(rep[8], m)
      + Share(rep[9], m) + Share(rep[10], m) + Share(rep[11], m) + Share(rep[12], m) + Share(rep[13], m)
    ensures Symbols(rep, 0) == RunLength(rep[0]) + RunLength(rep[1]) + RunLength(rep[2]) + RunLength(rep[3])
      + RunLength(rep[4]) + RunLength(rep[5]) + RunLength(rep[6]) + RunLength(rep[7]) + RunLength(rep[8])
      + RunLength(rep[9]) + RunLength(rep[10]) + RunLength(rep[11]) + RunLength(rep[12]) + RunLength(rep[13])
  {
    hide Share, RunLength;
    assert Kraft(rep, m, 14) == 0 && Symbols(rep, 14) == 0;
    assert Kraft(rep, m, 12) == Share(rep[12], m) + Share(rep[13], m);
    assert Symbols(rep, 12) == RunLength(rep[12]) + RunLength(rep[13]);
    assert Kraft(rep, m, 10) == Share(rep[10], m) + Share(rep[11], m) + Kraft(rep, m, 12);
    assert Symbols(rep, 10) == RunLength(rep[10]) + RunLength(rep[11]) + Symbols(rep, 12);
    assert Kraft(rep, m, 8) == Share(rep[8], m) + Share(rep[9], m) + Kraft(rep, m, 10);
    assert Symbols(rep, 8) == RunLength(rep[8]) + RunLength(rep[9]) + Symbols(rep, 10);
    assert Kraft(rep, m, 6) == Share(rep[6], m) + Share(rep[7], m) + Kraft(rep, m, 8);
    assert Symbols(rep, 6) == RunLength(rep[6]) + RunLength(rep[7]) + Symbols(rep, 8);
    assert Kraft(rep, m, 4) == Share(rep[4], m) + Share(rep[5], m) + Kraft(rep, m, 6);
    assert Symbols(rep, 4) == RunLength(rep[4]) + RunLength(rep[5]) + Symbols(rep, 6);
    assert Kraft(rep, m, 2) == Share(rep[2], m) + Share(rep[3], m) + Kraft(rep, m, 4);
    assert Symbols(rep, 2) == RunLength(rep[2]) + RunLength(rep[3]) + Symbols(rep, 4);
  }

  lemma Powers()
    ensures Pow2(0) == 1 && Pow2(1) == 2 && Pow2(2) == 4 && Pow2(3) == 8 && Pow2(4) == 16
    ensures Pow2(5) == 32 && Pow2(6) == 64 && Pow2(7) == 128 && Pow2(8) == 256 && Pow2(9) == 512
  {
  }

  lemma Row0()
    ensures Kraft(LIT_0, 13, 0) == 781 && Symbols(LIT_0, 0) == 37
  {
    hide Pow2, Kraft, Symbols;
    Powers();
    Fourteen(LIT_0, 13);
  }

  lemma Row1()
    ensures Kraft(LIT_1, 13, 0) == 986 && Symbols(LIT_1, 0) == 18
  {
    hide Pow2, Kraft, Symbols;
    Powers();
    Fourteen(LIT_1, 13);
  }

  lemma Row2()
    ensures Kraft(LIT_2, 13, 0) == 1116 && Symbols(LIT_2, 0) == 18
  {
    hide Pow2, Kraft, Symbols;
    Powers();
    Fourteen(LIT_2, 13);
  }

  lemma Row3()
    ensures Kraft(LIT_3, 13, 0) == 1196 && Symbols(LIT_3, 0) == 18
  {
    hide Pow2, Kraft, Symbols;
    Powers();
    Fourteen(LIT_3, 13);
  }

  lemma Row4()
    ensures Kraft(LIT_4, 13, 0) == 1948 && Symbols(LIT_4, 0) == 18
  {
    hide Pow2, Kraft, Symbols;
    Powers();
    Fourteen(LIT_4, 13);
  }

  lemma Row5()
    ensures Kraft(LIT_5, 13, 0) == 2030 && Symbols(LIT_5, 0) == 67
  {
    hide Pow2, Kraft, Symbols;
    Powers();
    Fourteen(LIT_5, 13);
  }

  lemma Row6()
    ensures Kraft(LIT_6, 13, 0) == 135 && Symbols(LIT_6, 0) == 80
  {
    hide Pow2, Kraft, Symbols;
    Powers();
    Fourteen(LIT_6, 13);
  }

  lemma LengthRow()
    ensures Kraft(LENLEN, 7, 0) == 128 && Symbols(LENLEN, 0) == 16
  {
    hide Pow2;
    Powers();
  }

  lemma DistanceRow()
    ensures Kraft(DISTLEN, 8, 0) == 256 && Symbols(DISTLEN, 0) == 64
  {
    hide Pow2, Kraft, Symbols;
    Powers();
    RowFrom(DISTLEN, 8);
  }

  lemma RowFrom(rep: seq<byte>, m: nat)
    requires |rep| == 7
    ensures Kraft(rep, m, 0) == Share(rep[0], m) + Share(rep[1], m) + Share(rep[2], m) + Share(rep[3], m)
      + Share(rep[4], m) + Share(rep[5], m) + Share(rep[6], m)
    ensures Symbols(rep, 0) == RunLength(rep[0]) + RunLength(rep[1]) + RunLength(rep[2]) + RunLength(rep[3])
      + RunLength(rep[4]) + RunLength(rep[5]) + RunLength(rep[6])
  {
    hide Share, RunLength;
    assert Kraft(rep, m, 7) == 0 && Symbols(rep, 7) == 0;
    assert Kraft(rep, m, 5) == Share(rep[5], m) + Share(rep[6], m);
    assert Symbols(rep, 5) == RunLength(rep[5]) + RunLength(rep[6]);
    assert Kraft(rep, m, 3) == Share(rep[3], m) + Share(rep[4], m) + Kraft(rep, m, 5);
    assert Symbols(rep, 3) == RunLength(rep[3]) + RunLength(rep[4]) + Symbols(rep, 5);
    assert Kraft(rep, m, 1) == Share(rep[1], m) + Share(rep[2], m) + Kraft(rep, m, 3);
    assert Symbols(rep, 1) == RunLength(rep[1]) + RunLength(rep[2]) + Symbols(rep, 3);
  }

  lemma OtherRows()
    ensures Kraft(LENLEN, 7, 0) == 128 && Symbols(LENLEN, 0) == 16
    ensures Kraft(DISTLEN, 8, 0) == 256 && Symbols(DISTLEN, 0) == 64
  {
    hide Kraft, Symbols;
    LengthRow();
    DistanceRow();
  }

  lemma {:induction false} RunsConcat(a: seq<byte>, b: seq<byte>, m: nat, i: nat)
    requires i <= |a|
    ensures Kraft(a + b, m, i) == Kraft(a, m, i) + Kraft(b, m, 0)
    ensures Symbols(a + b, i) == Symbols(a, i) + Symbols(b, 0)
    decreases |a| - i
  {
    if i == |a| {
      RunsShift(a, b, m, 0);
    } else {
      RunsConcat(a, b, m, i + 1);
    }
  }

  lemma {:induction false} RunsShift(a: seq<byte>, b: seq<byte>, m: nat, i: nat)
    requires i <= |b|
    ensures Kraft(a + b, m, |a| + i) == Kraft(b, m, i)
    ensures Symbols(a + b, |a| + i) == Symbols(b, i)
    decreases |b| - i
  {
    if i == |b| {
    } else {
      RunsShift(a, b, m, i + 1);
    }
  }

  lemma LiteralRows()
    ensures Kraft(LITLEN, 13, 0) == 8192 && Symbols(LITLEN, 0) == 256
  {
    hide Pow2, Kraft, Symbols, Share;
    Row0(); Row1(); Row2(); Row3(); Row4(); Row5(); Row6();
    var l := LIT_0;
    RunsConcat(l, LIT_1, 13, 0);
    l := l + LIT_1;
    RunsConcat(l, LIT_2, 13, 0);
    l := l + LIT_2;
    RunsConcat(l, LIT_3, 13, 0);
    l := l + LIT_3;
    RunsConcat(l, LIT_4, 13, 0);
    l := l + LIT_4;
    RunsConcat(l, LIT_5, 13, 0);
    l := l + LIT_5;
    RunsConcat(l, LIT_6, 13, 0);
  }

  lemma {:induction false} KraftSumRepeat(v: nat, n: nat, m: nat)
    requires 0 < v <= m
    ensures KraftSum(Repeat(v, n), m, m) == n * Pow2(m - v)
  {
    hide Pow2;
    if n == 0 {
    } else {
      KraftSumRepeat(v, n - 1, m);
      assert Repeat(v, n)[..n - 1] == Repeat(v, n - 1);
      MulSucc(n - 1, Pow2(m - v));
    }
  }

  lemma KraftSumNone(m: nat)
    ensures KraftSum([], m, m) == 0
  {
  }

  /** A table that claims no more than everything has the Kraft sum its runs say. */
  lemma {:induction false} ExpandKraft(rep: seq<byte>, m: nat, i: nat)
    requires i <= |rep| && Kraft(rep, m, i) <= Pow2(m)
    ensures KraftSum(ExpandFrom(rep, i), m, m) == Kraft(rep, m, i)
    ensures |ExpandFrom(rep, i)| == Symbols(rep, i)
    ensures forall k :: 0 <= k < |ExpandFrom(rep, i)| ==> 0 < ExpandFrom(rep, i)[k] <= m
    decreases |rep| - i
  {
    hide Pow2, KraftSum, Repeat, RunLength;
    if i == |rep| {
      KraftSumNone(m);
    } else {
      var v, n := rep[i] % 16, RunLength(rep[i]);
      ExpandKraft(rep, m, i + 1);
      KraftSumRepeat(v, n, m);
      KraftSumConcat(Repeat(v, n), ExpandFrom(rep, i + 1), m, m);
    }
  }

  /** What decoding needs of a table: unambiguous, complete, every symbol coded. */
  ghost predicate Usable(L: Lengths, symbols: nat) {
    && |L| == symbols && Fits(L)
    && (exists m :: CompleteAt(L, m))
    && (forall i :: 0 <= i < |L| ==> L[i] > 0)
  }

  lemma FullTable(rep: seq<byte>, m: nat)
    requires 0 < m <= MAXBITS && Kraft(rep, m, 0) == Pow2(m)
    ensures Usable(Expand(rep), Symbols(rep, 0)) && CompleteAt(Expand(rep), m) && Fits(Expand(rep))
  {
    ExpandKraft(rep, m, 0);
    KraftFull(Expand(rep), m);
  }

  lemma TablesUsable()
    ensures Usable(Expand(LITLEN), 256)
    ensures Usable(Expand(LENLEN), 16)
    ensures Usable(Expand(DISTLEN), 64)
    ensures CompleteAt(Expand(LITLEN), 13) && CompleteAt(Expand(LENLEN), 7) && CompleteAt(Expand(DISTLEN), 8)
    ensures Fits(Expand(LITLEN)) && Fits(Expand(LENLEN)) && Fits(Expand(DISTLEN))
  {
    hide Kraft, Symbols, Usable, CompleteAt, Fits;
    LiteralRows();
    OtherRows();
    assert Pow2(13) == 8192 && Pow2(7) == 128 && Pow2(8) == 256;
    FullTable(LITLEN, 13);
    FullTable(LENLEN, 7);
    FullTable(DISTLEN, 8);
  }
}
