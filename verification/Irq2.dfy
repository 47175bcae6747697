/** Editing fixup lists and code bytes of VPICD, alone and inside a monolith
    (vxd-patches/patch_vpicd_irq2.py, patch_vmm32_vpicd_irq2.py). */
module Irq2 {
  import opened Bytes
  import opened LeFixups
  import opened Wrappers

  /** One list: the offset its sources refer to, and the sources. */
  datatype Rec = Rec(target: nat, offs: seq<nat>)

  predicate Listing(recs: seq<Rec>) {
    forall i :: 0 <= i < |recs| ==> Sound(recs[i])
  }

  predicate Sound(r: Rec) {
    r.target < 0x1_0000 && |r.offs| < 0x100 && forall i :: 0 <= i < |r.offs| ==> r.offs[i] < 0x1_0000
  }

  /** A 27h/00h record: 32-bit offset sources, object 1, 16-bit target. */
  function AsFixup(r: Rec): Fixup {
    Fixup(0x27, 0x00, 1, r.target, 0, r.offs)
  }

  function AsFixups(recs: seq<Rec>): (fs: seq<Fixup>)
    ensures |fs| == |recs| && forall i :: 0 <= i < |recs| ==> fs[i] == AsFixup(recs[i])
  {
    if recs == [] then [] else [AsFixup(recs[0])] + AsFixups(recs[1..])
  }

  function RecBytes(r: Rec): (s: seq<byte>)
    requires Sound(r)
    ensures |s| == 6 + 2 * |r.offs|
  {
    [0x27, 0x00, |r.offs|, 0x01] + LE16(r.target) + Words(r.offs)
  }

  /** `build_lists` */
  function BuildLists(recs: seq<Rec>): seq<byte>
    requires Listing(recs)
  {
    if recs == [] then [] else RecBytes(recs[0]) + BuildLists(recs[1..])
  }

  lemma RecIsFixup(r: Rec)
    ensures Fits(AsFixup(r)) <==> Sound(r)
    ensures Sound(r) ==> Encode(AsFixup(r)) == RecBytes(r)
  {
    var f := AsFixup(r);
    assert Listed(f.st) && ObjWidth(f.tf) == 1 && OffWidth(f.st, f.tf) == 2 && AddWidth(f.tf) == 0;
    if Sound(r) {
      assert LE(1, |r.offs|) == [|r.offs|] && LE(1, 1) == [1] && LE(2, r.target) == LE16(r.target) && LE(0, 0) == [];
      assert Encode(f) == RecBytes(r);
    }
  }

  lemma {:induction false} ListsAreFixups(recs: seq<Rec>)
    ensures AllFit(AsFixups(recs)) <==> Listing(recs)
    ensures Listing(recs) ==> EncodeAll(AsFixups(recs)) == BuildLists(recs)
    decreases |recs|
  {
    hide Fits, Encode, Sound, RecBytes;
    forall i | 0 <= i < |recs|
      ensures Fits(AsFixups(recs)[i]) <==> Sound(recs[i])
    {
      RecIsFixup(recs[i]);
    }
    if recs != [] {
      RecIsFixup(recs[0]);
      ListsAreFixups(recs[1..]);
      assert AsFixups(recs)[1..] == AsFixups(recs[1..]);
    }
  }

  // ---- parsing ----

  predicate ListHead(d: seq<byte>, p: nat) {
    p + 6 <= |d| && d[p] == 0x27 && d[p + 1] == 0x00 && d[p + 3] == 1
  }

  /** At a list head the general decoder reads the list; elsewhere it never yields one. */
  lemma ListDecoded(d: seq<byte>, p: nat)
    ensures ListHead(d, p) && p + 6 + 2 * (d[p + 2] as nat) <= |d| ==>
      DecodeAt(d, p) == Some((AsFixup(Rec(U16(d, p + 4), ReadWords(d, p + 6, d[p + 2]))),
        p + 6 + 2 * (d[p + 2] as nat)))
    ensures ListHead(d, p) && p + 6 + 2 * (d[p + 2] as nat) > |d| ==> DecodeAt(d, p).None?
    ensures !ListHead(d, p) ==> forall r, e :: DecodeAt(d, p) != Some((AsFixup(r), e))
  {
    hide U16, U32, ReadWords;
    if p + 2 <= |d| && d[p] == 0x27 && d[p + 1] == 0x00 {
      assert Listed(0x27) && ObjWidth(0x00) == 1 && OffWidth(0x27, 0x00) == 2 && AddWidth(0x00) == 0;
    }
  }

  /** `length` bytes from `start` on are exactly these lists. */
  ghost predicate BlockHolds(d: seq<byte>, start: nat, length: nat, recs: seq<Rec>) {
    start + length <= |d| && Listing(recs) && BuildLists(recs) == d[start..start + length]
  }

  lemma HoldsDecoded(d: seq<byte>, p: nat, n: nat, recs: seq<Rec>)
    requires p + n <= |d|
    ensures BlockHolds(d, p, n, recs) <==> Decoded(d, p, p + n) == Some((AsFixups(recs), p + n))
  {
    hide Listing, BuildLists, Decoded, EncodeAll, AllFit;
    PageIsInverse(d, p, p + n, AsFixups(recs));
    ListsAreFixups(recs);
  }

  lemma {:induction false} AsFixupsOnly(a: seq<Rec>, b: seq<Rec>)
    requires AsFixups(a) == AsFixups(b)
    ensures a == b
  {
    forall i | 0 <= i < |a|
      ensures a[i] == b[i]
    {
      assert AsFixups(a)[i] == AsFixups(b)[i];
    }
  }

  /** `parse_lists`: yields exactly the lists whose bytes the block is, or fails. */
  method ParseLists(d: seq<byte>, start: nat, length: nat) returns (r: Option<seq<Rec>>)
    requires length > 0
    ensures forall recs :: r == Some(recs) <==> BlockHolds(d, start, length, recs)
  {
    hide DecodeAt, Decoded, ReadWords, BlockHolds, U16, AsFixups;
    var out: seq<Rec> := [];
    var p := start;
    ghost var stop := start + length;
    ghost var whole := Decoded(d, start, stop);
    NoneYet(d, start, stop);
    while p < start + length
      invariant start <= p && (p == start || p <= |d|)
      invariant Whole(d, p, stop, AsFixups(out), whole)
      decreases start + length - p
    {
      if !(p + 6 <= |d| && d[p] == 0x27 && d[p + 1] == 0x00 && d[p + 3] == 1) {
        NoList(d, start, length, p, out, whole);
        return None;
      }
      var cnt: nat := d[p + 2];
      if p + 6 + 2 * cnt > |d| {
        NoList(d, start, length, p, out, whole);
        return None;
      }
      var offs := Sources(d, p + 6, cnt);
      OneList(d, p, stop, out, whole, cnt);
      out := out + [Rec(U16(d, p + 4), offs)];
      p := p + 6 + 2 * cnt;
    }
    Ended(d, start, length, p, out, whole);
    return if p != start + length then None else Some(out);
  }

  lemma NoneYet(d: seq<byte>, start: nat, stop: nat)
    ensures Whole(d, start, stop, AsFixups([]), Decoded(d, start, stop))
  {
    hide Decoded;
    var rest := Decoded(d, start, stop);
    if rest.Some? {
      assert [] + rest.value.0 == rest.value.0;
    }
  }

  /** The decoding of the whole block is what has been decoded, then the rest from `p` on. */
  ghost predicate Whole(d: seq<byte>, p: nat, stop: nat, fs: seq<Fixup>, whole: Option<(seq<Fixup>, nat)>) {
    var rest := Decoded(d, p, stop);
    whole == if rest.None? then None else Some((fs + rest.value.0, rest.value.1))
  }

  lemma OneList(d: seq<byte>, p: nat, stop: nat, out: seq<Rec>, whole: Option<(seq<Fixup>, nat)>, cnt: nat)
    requires p < stop && ListHead(d, p) && cnt == d[p + 2] && p + 6 + 2 * cnt <= |d|
    requires Whole(d, p, stop, AsFixups(out), whole)
    ensures Whole(d, p + 6 + 2 * cnt, stop, AsFixups(out + [Rec(U16(d, p + 4), ReadWords(d, p + 6, cnt))]), whole)
  {
    hide DecodeAt, ReadWords, U16;
    ListDecoded(d, p);
    var r := Rec(U16(d, p + 4), ReadWords(d, p + 6, cnt));
    assert AsFixups(out + [r]) == AsFixups(out) + [AsFixup(r)];
    var rest := Decoded(d, p + 6 + 2 * cnt, stop);
    if rest.Some? {
      assert AsFixups(out) + ([AsFixup(r)] + rest.value.0) == AsFixups(out) + [AsFixup(r)] + rest.value.0;
    }
  }

  /** Where no list stands, the block is no block of lists. */
  lemma NoList(d: seq<byte>, start: nat, length: nat, p: nat, out: seq<Rec>, whole: Option<(seq<Fixup>, nat)>)
    requires start <= p < start + length && whole == Decoded(d, start, start + length)
    requires Whole(d, p, start + length, AsFixups(out), whole)
    requires !ListHead(d, p) || p + 6 + 2 * (d[p + 2] as nat) > |d|
    ensures forall recs :: !BlockHolds(d, start, length, recs)
  {
    hide DecodeAt, ReadWords, U16, BlockHolds, Decoded, Whole, ListHead, AsFixups;
    forall recs
      ensures !BlockHolds(d, start, length, recs)
    {
      NotThese(d, start, length, p, out, whole, recs);
    }
  }

  lemma NotThese(d: seq<byte>, start: nat, length: nat, p: nat, out: seq<Rec>, whole: Option<(seq<Fixup>, nat)>,
        recs: seq<Rec>)
    requires start <= p < start + length && whole == Decoded(d, start, start + length)
    requires Whole(d, p, start + length, AsFixups(out), whole)
    requires !ListHead(d, p) || p + 6 + 2 * (d[p + 2] as nat) > |d|
    ensures !BlockHolds(d, start, length, recs)
  {
    hide DecodeAt, ReadWords, U16, Listing, BuildLists, Decoded, AsFixups;
    ListDecoded(d, p);
    if start + length <= |d| {
      HoldsDecoded(d, start, length, recs);
      FirstOfRest(d, p, start + length, AsFixups(out), recs, whole);
    }
  }

  lemma FirstOfRest(d: seq<byte>, p: nat, stop: nat, fs: seq<Fixup>, recs: seq<Rec>, whole: Option<(seq<Fixup>, nat)>)
    requires p < stop && Whole(d, p, stop, fs, whole)
    ensures whole.Some? && whole.value.0 == AsFixups(recs) ==>
      |fs| < |recs| && DecodeAt(d, p).Some? && DecodeAt(d, p) == Some((AsFixup(recs[|fs|]), DecodeAt(d, p).value.1))
  {
    hide DecodeAt;
    if whole.Some? && whole.value.0 == AsFixups(recs) {
      var rest := Decoded(d, p, stop);
      assert rest.value.0 != [] && rest.value.0[0] == DecodeAt(d, p).value.0;
      assert (fs + rest.value.0)[|fs|] == rest.value.0[0];
    }
  }

  lemma Ended(d: seq<byte>, start: nat, length: nat, p: nat, out: seq<Rec>, whole: Option<(seq<Fixup>, nat)>)
    requires p >= start + length && whole == Decoded(d, start, start + length) && length > 0 && (p == start || p <= |d|)
    requires Whole(d, p, start + length, AsFixups(out), whole)
    ensures forall recs :: (p == start + length && recs == out) <==> BlockHolds(d, start, length, recs)
  {
    hide DecodeAt, Listing, BuildLists;
    assert AsFixups(out) + [] == AsFixups(out);
    forall recs
      ensures (p == start + length && recs == out) <==> BlockHolds(d, start, length, recs)
    {
      HoldsDecoded(d, start, length, recs);
      if whole == Some((AsFixups(recs), start + length)) {
        AsFixupsOnly(recs, out);
      }
    }
  }

  lemma OneListing(d: seq<byte>, p: nat, n: nat, a: seq<Rec>, b: seq<Rec>)
    requires BlockHolds(d, p, n, a) && BlockHolds(d, p, n, b)
    ensures a == b
  {
    hide BlockHolds, Decoded;
    InRange(d, p, n, a);
    HoldsDecoded(d, p, n, a);
    HoldsDecoded(d, p, n, b);
    AsFixupsOnly(a, b);
  }

  lemma InRange(d: seq<byte>, p: nat, n: nat, a: seq<Rec>)
    requires BlockHolds(d, p, n, a)
    ensures p + n <= |d|
  {
  }

  // ---- moving sources between lists ----

  datatype Move = Move(so: nat, frm: nat, to: nat)

  /** The list a target's name stands for: the last one, or `|recs|` if there is none. */
  function LastOf(recs: seq<Rec>, t: nat): (k: nat)
    ensures k <= |recs| && (k < |recs| ==> recs[k].target == t)
    ensures forall j :: k < j < |recs| ==> recs[j].target != t
    ensures k == |recs| ==> forall j :: 0 <= j < |recs| ==> recs[j].target != t
  {
    if recs == [] then 0
    else if recs[|recs| - 1].target == t then |recs| - 1
    else
      var k := LastOf(recs[..|recs| - 1], t);
      if k == |recs| - 1 then |recs| else k
  }

  /** `list.remove` */
  function RemoveFirst(s: seq<nat>, x: nat): (r: seq<nat>)
    requires x in s
    ensures multiset(r) == multiset(s) - multiset{x} && |r| == |s| - 1
  {
    assert s == [s[0]] + s[1..];
    if s[0] == x then s[1..] else [s[0]] + RemoveFirst(s[1..], x)
  }

  /** One move: out of the list of `frm`, to the end of that of `to`. */
  function MoveOne(recs: seq<Rec>, m: Move): Option<seq<Rec>> {
    var i, j := LastOf(recs, m.frm), LastOf(recs, m.to);
    if i == |recs| || j == |recs| || m.so !in recs[i].offs then None
    else
      var out := recs[i := recs[i].(offs := RemoveFirst(recs[i].offs, m.so))];
      Some(out[j := out[j].(offs := out[j].offs + [m.so])])
  }

  function MoveAll(recs: seq<Rec>, ms: seq<Move>): Option<seq<Rec>>
    decreases |ms|
  {
    if ms == [] then Some(recs)
    else
      var r := MoveOne(recs, ms[0]);
      if r.None? then None else MoveAll(r.value, ms[1..])
  }

  /** All sources of all lists. */
  ghost function AllSources(recs: seq<Rec>): multiset<nat> {
    if recs == [] then multiset{} else multiset(recs[0].offs) + AllSources(recs[1..])
  }

  lemma {:induction false} SourcesUpdated(recs: seq<Rec>, i: nat, r: Rec)
    requires i < |recs|
    ensures AllSources(recs[i := r]) + multiset(recs[i].offs) == AllSources(recs) + multiset(r.offs)
    decreases |recs|
  {
    var u := recs[i := r];
    if i == 0 {
      assert u[1..] == recs[1..];
    } else {
      var tail := recs[1..];
      assert u[1..] == tail[i - 1 := r] && tail[i - 1] == recs[i] && u[0] == recs[0];
      SourcesUpdated(tail, i - 1, r);
      AddBoth(multiset(recs[0].offs), AllSources(u[1..]), multiset(recs[i].offs), AllSources(tail), multiset(r.offs));
    }
  }

  lemma AddBoth(m: multiset<nat>, a: multiset<nat>, i: multiset<nat>, b: multiset<nat>, j: multiset<nat>)
    requires a + i == b + j
    ensures (m + a) + i == (m + b) + j
  {
    forall e
      ensures ((m + a) + i)[e] == ((m + b) + j)[e]
    {
      assert (a + i)[e] == (b + j)[e];
    }
  }

  ghost predicate SameTargets(a: seq<Rec>, b: seq<Rec>) {
    |a| == |b| && forall i :: 0 <= i < |a| ==> a[i].target == b[i].target
  }

  lemma {:induction false} LastSame(a: seq<Rec>, b: seq<Rec>, t: nat)
    requires SameTargets(a, b)
    ensures LastOf(a, t) == LastOf(b, t)
  {
  }

  /** How often list `k` names source `x`. */
  ghost function Count(recs: seq<Rec>, k: nat, x: nat): nat
    requires k < |recs|
  {
    multiset(recs[k].offs)[x]
  }

  /** A move conserves the sources. */
  lemma MoveOneConserves(recs: seq<Rec>, m: Move)
    requires MoveOne(recs, m).Some?
    ensures var r := MoveOne(recs, m).value; SameTargets(recs, r) && AllSources(r) == AllSources(recs)
  {
    hide LastOf, RemoveFirst, AllSources;
    var i, j := LastOf(recs, m.frm), LastOf(recs, m.to);
    var left := recs[i].(offs := RemoveFirst(recs[i].offs, m.so));
    var out := recs[i := left];
    var more := out[j].(offs := out[j].offs + [m.so]);
    SourcesUpdated(recs, i, left);
    SourcesUpdated(out, j, more);
    assert multiset(more.offs) == multiset(out[j].offs) + multiset{m.so};
    assert multiset(left.offs) + multiset{m.so} == multiset(recs[i].offs) by {
      assert m.so in multiset(recs[i].offs);
    }
    Balance(AllSources(recs), AllSources(out), AllSources(out[j := more]), multiset(recs[i].offs), multiset(left.offs),
            multiset(out[j].offs), multiset(more.offs), multiset{m.so});
  }

  lemma Balance(a: multiset<nat>, b: multiset<nat>, c: multiset<nat>, i: multiset<nat>, i': multiset<nat>,
                j: multiset<nat>, j': multiset<nat>, x: multiset<nat>)
    requires b + i == a + i' && c + j == b + j' && i' + x == i && j' == j + x
    ensures c == a
  {
    forall e
      ensures c[e] == a[e]
    {
      assert (b + i)[e] == (a + i')[e] && (c + j)[e] == (b + j')[e] && (i' + x)[e] == i[e] && j'[e] == (j + x)[e];
    }
  }

  /** It changes no other source's place. */
  lemma MoveOneCounts(recs: seq<Rec>, m: Move, k: nat, x: nat)
    requires MoveOne(recs, m).Some? && k < |recs|
    ensures |MoveOne(recs, m).value| == |recs|
    ensures var i, j := LastOf(recs, m.frm), LastOf(recs, m.to);
      && i < |recs| && j < |recs|
      && Count(MoveOne(recs, m).value, k, x) + (if x == m.so && k == i then 1 else 0) ==
         Count(recs, k, x) + (if x == m.so && k == j then 1 else 0)
  {
    hide LastOf, RemoveFirst;
    var i, j := LastOf(recs, m.frm), LastOf(recs, m.to);
    var out := recs[i := recs[i].(offs := RemoveFirst(recs[i].offs, m.so))];
    Took(recs[i].offs, m.so, x);
    Added(out[j].offs, m.so, x);
  }

  lemma Took(s: seq<nat>, y: nat, x: nat)
    requires y in s
    ensures multiset(RemoveFirst(s, y))[x] + (if x == y then 1 else 0) == multiset(s)[x]
  {
    hide RemoveFirst;
    assert y in multiset(s);
  }

  lemma Added(s: seq<nat>, y: nat, x: nat)
    ensures multiset(s + [y])[x] == multiset(s)[x] + (if x == y then 1 else 0)
  {
  }

  lemma {:induction false} MoveAllConserves(recs: seq<Rec>, ms: seq<Move>)
    requires MoveAll(recs, ms).Some?
    ensures var r := MoveAll(recs, ms).value; SameTargets(recs, r) && AllSources(r) == AllSources(recs)
    decreases |ms|
  {
    hide MoveOne;
    if ms != [] {
      MoveOneConserves(recs, ms[0]);
      MoveAllConserves(MoveOne(recs, ms[0]).value, ms[1..]);
    }
  }

  lemma {:induction false} BlockSize(recs: seq<Rec>)
    requires Listing(recs)
    ensures |BuildLists(recs)| == 6 * |recs| + 2 * |AllSources(recs)|
    decreases |recs|
  {
    if recs != [] {
      BlockSize(recs[1..]);
    }
  }

  lemma {:induction false} SourceOf(recs: seq<Rec>, i: nat)
    requires i < |recs|
    ensures multiset(recs[i].offs) <= AllSources(recs) && |recs[i].offs| <= |AllSources(recs)|
    ensures forall x :: x in recs[i].offs ==> x in AllSources(recs)
    decreases |recs|
  {
    if i > 0 {
      SourceOf(recs[1..], i - 1);
    }
    assert forall x :: x in recs[i].offs ==> x in multiset(recs[i].offs);
  }

  /** Moving keeps the block a block of lists of the same size: counts cannot overflow in so short a block. */
  lemma MovedBlock(recs: seq<Rec>, ms: seq<Move>)
    requires Listing(recs) && |BuildLists(recs)| < 0x100 && MoveAll(recs, ms).Some?
    ensures var r := MoveAll(recs, ms).value; Listing(r) && |BuildLists(r)| == |BuildLists(recs)|
  {
    hide MoveAll, BuildLists, AllSources, LastOf;
    var r := MoveAll(recs, ms).value;
    MoveAllConserves(recs, ms);
    BlockSize(recs);
    SmallSources(recs);
    forall i | 0 <= i < |r|
      ensures Sound(r[i])
    {
      SourceOf(r, i);
      assert Sound(recs[i]) && r[i].target == recs[i].target;
      forall j | 0 <= j < |r[i].offs|
        ensures r[i].offs[j] < 0x1_0000
      {
        assert r[i].offs[j] in AllSources(recs);
      }
    }
    BlockSize(r);
  }

  lemma {:induction false} SmallSources(recs: seq<Rec>)
    requires Listing(recs)
    ensures forall x :: x in AllSources(recs) ==> x < 0x1_0000
    decreases |recs|
  {
    if recs != [] {
      SmallSources(recs[1..]);
    }
  }

  /** The check after patching: each moved source is in its new list and no longer in its old one. */
  predicate Checked(recs: seq<Rec>, ms: seq<Move>) {
    forall i :: 0 <= i < |ms| ==>
      var f, t := LastOf(recs, ms[i].frm), LastOf(recs, ms[i].to);
      f < |recs| && t < |recs| && ms[i].so in recs[t].offs && ms[i].so !in recs[f].offs
  }

  /** Each source stands once in the list it is to leave. */
  ghost predicate OnceEach(recs: seq<Rec>, ms: seq<Move>) {
    forall i :: 0 <= i < |ms| ==>
      LastOf(recs, ms[i].frm) < |recs| && Count(recs, LastOf(recs, ms[i].frm), ms[i].so) == 1
  }

  predicate DistinctMoves(ms: seq<Move>) {
    && (forall i, j :: 0 <= i < j < |ms| ==> ms[i].so != ms[j].so)
    && (forall i :: 0 <= i < |ms| ==> ms[i].frm != ms[i].to)
  }

  lemma {:induction false} MoveAllCounts(recs: seq<Rec>, ms: seq<Move>, k: nat, x: nat)
    requires MoveAll(recs, ms).Some? && k < |recs| && forall i :: 0 <= i < |ms| ==> ms[i].so != x
    ensures |MoveAll(recs, ms).value| == |recs|
    ensures Count(MoveAll(recs, ms).value, k, x) == Count(recs, k, x)
    decreases |ms|
  {
    hide MoveOne, LastOf, Count;
    if ms != [] {
      MoveOneCounts(recs, ms[0], k, x);
      assert forall i :: 0 <= i < |ms[1..]| ==> ms[1..][i] == ms[i + 1];
      MoveAllCounts(MoveOne(recs, ms[0]).value, ms[1..], k, x);
    }
  }

  lemma {:induction false} MovedCount(recs: seq<Rec>, ms: seq<Move>, i: nat)
    requires MoveAll(recs, ms).Some? && DistinctMoves(ms) && i < |ms|
    ensures var r := MoveAll(recs, ms).value; var f, t := LastOf(recs, ms[i].frm), LastOf(recs, ms[i].to);
      && |r| == |recs| && f < |recs| && t < |recs| && f != t
      && Count(r, f, ms[i].so) + 1 == Count(recs, f, ms[i].so)
      && Count(r, t, ms[i].so) == Count(recs, t, ms[i].so) + 1
    decreases |ms|
  {
    hide MoveOne, LastOf, Count;
    var next, rest := MoveOne(recs, ms[0]).value, ms[1..];
    MoveOneConserves(recs, ms[0]);
    MoveOneTargets(recs, ms[0]);
    assert forall j :: 0 <= j < |rest| ==> rest[j] == ms[j + 1];
    LastSame(recs, next, ms[i].frm);
    LastSame(recs, next, ms[i].to);
    if i == 0 {
      var f, t := LastOf(recs, ms[0].frm), LastOf(recs, ms[0].to);
      MoveOneCounts(recs, ms[0], f, ms[0].so);
      MoveOneCounts(recs, ms[0], t, ms[0].so);
      MoveAllCounts(next, rest, f, ms[0].so);
      MoveAllCounts(next, rest, t, ms[0].so);
    } else {
      MovedCount(next, rest, i - 1);
      MoveOneCounts(recs, ms[0], LastOf(recs, ms[i].frm), ms[i].so);
      MoveOneCounts(recs, ms[0], LastOf(recs, ms[i].to), ms[i].so);
    }
  }

  lemma MoveOneTargets(recs: seq<Rec>, m: Move)
    requires MoveOne(recs, m).Some? && m.frm != m.to
    ensures LastOf(recs, m.frm) < |recs| && LastOf(recs, m.to) < |recs| && LastOf(recs, m.frm) != LastOf(recs, m.to)
  {
  }

  /** The check passes exactly when each source stood once in the list it left. */
  lemma CheckPasses(recs: seq<Rec>, ms: seq<Move>)
    requires MoveAll(recs, ms).Some? && DistinctMoves(ms)
    ensures Checked(MoveAll(recs, ms).value, ms) <==> OnceEach(recs, ms)
  {
    hide MoveAll, LastOf;
    var r := MoveAll(recs, ms).value;
    MoveAllConserves(recs, ms);
    forall i | 0 <= i < |ms|
      ensures var f, t := LastOf(recs, ms[i].frm), LastOf(recs, ms[i].to);
        && f < |r| == |recs| && t < |r| && f == LastOf(r, ms[i].frm) && t == LastOf(r, ms[i].to)
          && ms[i].so in r[t].offs
        && (ms[i].so !in r[f].offs <==> Count(recs, f, ms[i].so) == 1)
    {
      MovedCount(recs, ms, i);
      LastSame(recs, r, ms[i].frm);
      LastSame(recs, r, ms[i].to);
      var f, t := LastOf(recs, ms[i].frm), LastOf(recs, ms[i].to);
      assert ms[i].so in multiset(r[t].offs);
      assert ms[i].so in r[f].offs <==> ms[i].so in multiset(r[f].offs);
    }
  }
}
