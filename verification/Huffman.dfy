/** The count/symbol form of a canonical table (class Huffman of tools/blast.py). */
module HuffmanTable {
  import opened Bytes
  import opened Bits
  import opened Canonical
  import opened Tables

  class Huffman {
    ghost const lengths: Lengths
    const count: seq<nat>
    const symbol: seq<nat>

    ghost predicate Valid() {
      && Tallied(count, lengths, |lengths|)
      && Placed(symbol, lengths, |lengths|)
    }

    lemma Counts(ln: nat)
      requires Valid() && ln <= MAXBITS
      ensures |count| == MAXBITS + 1 && count[ln] == Count(lengths, ln)
    {
      assert lengths[..|lengths|] == lengths;
    }

    lemma Lookup(s: nat)
      requires Valid() && s < |lengths| && lengths[s] > 0
      ensures Slot(lengths, s) < |symbol| && symbol[Slot(lengths, s)] == s
    {
    }

    constructor (rep: seq<byte>)
      ensures Valid()
      ensures lengths == Expand(rep)
    {
      hide Count, Repeat, Tallied, Placed, Expand;
      var L := Unpack(rep);
      var cnt := Tally(L);
      var sym := Place(L, cnt);
      lengths, count, symbol := L, cnt, sym;
    }
  }

  /** The code lengths that the runs stand for. */
  method Unpack(rep: seq<byte>) returns (L: Lengths)
    ensures L == Expand(rep)
  {
    hide Repeat, ExpandFrom;
    L := [];
    for i := 0 to |rep|
      invariant L + ExpandFrom(rep, i) == Expand(rep)
    {
      ExpandStep(rep, i);
      L := L + Repeat(rep[i] % 16, rep[i] / 16 + 1);
    }
    ExpandDone(rep);
    assert L + [] == L;
  }

  lemma ExpandStep(rep: seq<byte>, i: nat)
    requires i < |rep|
    ensures ExpandFrom(rep, i) == Repeat(rep[i] % 16, rep[i] / 16 + 1) + ExpandFrom(rep, i + 1)
  {
  }

  lemma ExpandDone(rep: seq<byte>)
    ensures ExpandFrom(rep, |rep|) == []
  {
  }

  /** `cnt` holds the number of symbols of each length among the first `i`. */
  ghost predicate Tallied(cnt: seq<nat>, L: Lengths, i: nat) {
    && |cnt| == MAXBITS + 1 && i <= |L|
    && (forall ln :: 0 <= ln <= MAXBITS ==> cnt[ln] == Count(L[..i], ln))
  }

  /** The first `i` symbols that have codes stand in their slots. */
  ghost predicate Placed(table: seq<nat>, L: Lengths, i: nat) {
    && |table| == |L| && i <= |L|
    && (forall s :: 0 <= s < i && L[s] > 0 ==> Slot(L, s) < |table| && table[Slot(L, s)] == s)
  }

  /** Counts the symbols of each length. */
  method Tally(L: Lengths) returns (cnt: seq<nat>)
    ensures Tallied(cnt, L, |L|)
  {
    cnt := seq(MAXBITS + 1, _ => 0);
    for i := 0 to |L|
      invariant Tallied(cnt, L, i)
    {
      assert L[..i + 1][..i] == L[..i];
      cnt := cnt[L[i] := cnt[L[i]] + 1];
    }
  }

  /** Lists the symbols by length, and by number within a length. */
  method Place(L: Lengths, cnt: seq<nat>) returns (sym: seq<nat>)
    requires Tallied(cnt, L, |L|)
    ensures Placed(sym, L, |L|)
  {
    hide Count, Index, Slot, Placed, Offsets;
    assert L[..|L|] == L;
    IndexNext(L, 1);
    var offs: seq<nat> := seq(MAXBITS + 1, _ => 0);
    for ln := 1 to MAXBITS
      invariant |offs| == MAXBITS + 1
      invariant forall k :: 1 <= k <= ln ==> offs[k] == Index(L, k)
    {
      IndexNext(L, ln);
      offs := offs[ln + 1 := offs[ln] + cnt[ln]];
    }

    sym := seq(|L|, _ => 0);
    StartPlacing(sym, offs, L);
    for i := 0 to |L|
      invariant |offs| == MAXBITS + 1 && |sym| == |L|
      invariant Offsets(offs, L, i) && Placed(sym, L, i)
    {
      PlaceNext(sym, offs, L, i);
      var ln := L[i];
      if ln != 0 {
        sym := sym[offs[ln] := i];
        offs := offs[ln := offs[ln] + 1];
      }
    }
  }

  /** `offs` points behind the symbols of each length placed so far. */
  ghost predicate Offsets(offs: seq<nat>, L: Lengths, i: nat) {
    && |offs| == MAXBITS + 1 && i <= |L|
    && (forall k :: 1 <= k <= MAXBITS ==> offs[k] == Index(L, k) + Count(L[..i], k))
  }

  lemma IndexNext(L: Lengths, ln: nat)
    requires ln > 0
    ensures Index(L, 1) == 0 && Index(L, ln + 1) == Index(L, ln) + Count(L, ln)
  {
  }

  lemma StartPlacing(sym: seq<nat>, offs: seq<nat>, L: Lengths)
    requires |sym| == |L| && |offs| == MAXBITS + 1
    requires forall k :: 1 <= k <= MAXBITS ==> offs[k] == Index(L, k)
    ensures Offsets(offs, L, 0) && Placed(sym, L, 0)
  {
  }

  /** The next symbol's slot is where its length's offset points, and no placed symbol has it. */
  lemma PlaceNext(sym: seq<nat>, offs: seq<nat>, L: Lengths, i: nat)
    requires i < |L| && Offsets(offs, L, i) && Placed(sym, L, i)
    ensures L[i] == 0 ==> Offsets(offs, L, i + 1) && Placed(sym, L, i + 1)
    ensures L[i] > 0 ==>
      && offs[L[i]] < |sym|
      && Offsets(offs[L[i] := offs[L[i]] + 1], L, i + 1)
      && Placed(sym[offs[L[i]] := i], L, i + 1)
  {
    hide Index;
    assert L[..i + 1][..i] == L[..i];
    if L[i] > 0 {
      SlotBound(L, i);
      forall s | 0 <= s < i && L[s] > 0
        ensures Slot(L, s) != Slot(L, i)
      {
        SlotInjective(L, s, i);
      }
    }
  }
}
