/** The IRQ 2 patch of a standalone VPICD and of VPICD inside a monolith: the same patch seen through an address mapping
    (vxd-patches/patch_vpicd_irq2.py, patch_vmm32_vpicd_irq2.py). */
module Irq2Patch {
  import opened Bytes
  import opened LeFixups
  import opened Irq2
  import opened Wrappers

  datatype Change = Change(off: nat, old_: seq<byte>, new_: seq<byte>)

  const FIX_BLOCK := 0x358
  const FIX_LEN := 126

  const BYTES: seq<Change> := [
    Change(0x7083, [0x04], [0x00]), Change(0x14A6, [0x04], [0x00]),
    Change(0x7516, [0xC9, 0x0F], [0xC0, 0x0E]), Change(0x0B96, [0xC9, 0x0F], [0xC0, 0x0E]),
    Change(0x1EC2, [0xCB], [0xCA]), Change(0x1EC6, [0x02], [0x04]), Change(0x1ECE, [0xCB], [0xCA]),
    Change(0x1ED4, [0xC9], [0xC8]), Change(0x1ED8, [0x90, 0x90], [0xE6, 0x21]),
    Change(0x2D44, [0x00, 0x02], [0x04, 0x00])]

  const MOVES: seq<Move> := [Move(0x0ED4, 0x1AC9, 0x1AC8), Move(0x0EC2, 0x1ACB, 0x1ACA), Move(0x0ECE, 0x1ACB, 0x1ACA)]

  const TARGETS: set<nat> := {0x1AC8, 0x1AC9, 0x1ACA, 0x1ACB}

  // ---- byte changes ----

  ghost predicate SameSizes(es: seq<Change>) {
    forall i :: 0 <= i < |es| ==> |es[i].old_| == |es[i].new_|
  }

  ghost predicate Apart(es: seq<Change>) {
    forall i, j :: 0 <= i < j < |es| ==> es[i].off + |es[i].old_| <= es[j].off || es[j].off + |es[j].old_| <= es[i].off
  }

  /** Every original byte is where it is expected. */
  ghost predicate AllMatch(d: seq<byte>, es: seq<Change>) {
    forall i :: 0 <= i < |es| ==> At(d, es[i].off, es[i].old_)
  }

  ghost function Applied(d: seq<byte>, es: seq<Change>): (r: seq<byte>)
    requires SameSizes(es) && AllMatch(d, es) && Apart(es)
    ensures |r| == |d|
    decreases |es|
  {
    if es == [] then d
    else
      FirstApplied(d, es);
      Applied(Splice(d, es[0].off, es[0].new_), es[1..])
  }

  lemma FirstApplied(d: seq<byte>, es: seq<Change>)
    requires es != [] && SameSizes(es) && AllMatch(d, es) && Apart(es)
    ensures es[0].off + |es[0].new_| <= |d|
    ensures SameSizes(es[1..]) && Apart(es[1..]) && AllMatch(Splice(d, es[0].off, es[0].new_), es[1..])
  {
    hide At, Splice;
    InFile(d, es[0].off, es[0].old_);
    var rest := es[1..];
    assert forall i :: 0 <= i < |rest| ==> rest[i] == es[i + 1];
    forall i | 0 <= i < |rest|
      ensures At(Splice(d, es[0].off, es[0].new_), rest[i].off, rest[i].old_)
    {
      assert At(d, es[i + 1].off, es[i + 1].old_);
      AtElsewhere(d, es[0].off, es[0].new_, rest[i].off, rest[i].old_);
    }
  }

  lemma InFile(d: seq<byte>, o: nat, s: seq<byte>)
    requires At(d, o, s)
    ensures o + |s| <= |d|
  {
  }

  lemma AtElsewhere(d: seq<byte>, off: nat, b: seq<byte>, o: nat, s: seq<byte>)
    requires off + |b| <= |d| && (o + |s| <= off || off + |b| <= o)
    ensures At(Splice(d, off, b), o, s) <==> At(d, o, s)
  {
    if o + |s| <= |d| {
      CutElsewhere(d, off, b, o, |s|);
    }
  }

  /** The standalone script checks each original byte just before replacing it. */
  method CheckAndApply(d: seq<byte>, es: seq<Change>) returns (r: Option<seq<byte>>)
    requires SameSizes(es) && Apart(es)
    ensures r.Some? <==> AllMatch(d, es)
    ensures r.Some? ==> r.value == Applied(d, es)
  {
    hide At, Splice, Applied;
    var out := d;
    for i := 0 to |es|
      invariant |out| == |d| && SameSizes(es[i..]) && Apart(es[i..])
      invariant AllMatch(d, es) <==> AllMatch(out, es[i..])
      invariant AllMatch(d, es) ==> Applied(out, es[i..]) == Applied(d, es)
    {
      assert es[i..][0] == es[i] && es[i..][1..] == es[i + 1..];
      if !Found(out, es[i].off, es[i].old_) {
        NotAll(out, es[i..]);
        return None;
      }
      FoundIsAt(out, es[i].off, es[i].old_);
      TailMatches(out, es[i..]);
      out := Splice(out, es[i].off, es[i].new_);
    }
    assert es[|es|..] == [];
    NothingApplied(out);
    return Some(out);
  }

  /** `d[off:off + len(old)] == old` */
  predicate Found(d: seq<byte>, o: nat, s: seq<byte>) {
    o + |s| <= |d| && d[o..o + |s|] == s
  }

  lemma FoundIsAt(d: seq<byte>, o: nat, s: seq<byte>)
    ensures Found(d, o, s) <==> At(d, o, s)
    ensures Found(d, o, s) ==> o + |s| <= |d|
  {
  }

  lemma NotAll(d: seq<byte>, es: seq<Change>)
    requires es != [] && !Found(d, es[0].off, es[0].old_)
    ensures !AllMatch(d, es)
  {
  }

  lemma NothingApplied(d: seq<byte>)
    ensures AllMatch(d, []) && Applied(d, []) == d
  {
  }

  lemma TailMatches(d: seq<byte>, es: seq<Change>)
    requires es != [] && SameSizes(es) && Apart(es) && At(d, es[0].off, es[0].old_)
    ensures es[0].off + |es[0].new_| <= |d| && SameSizes(es[1..]) && Apart(es[1..])
    ensures var u := Splice(d, es[0].off, es[0].new_);
      (AllMatch(d, es) <==> AllMatch(u, es[1..])) && (AllMatch(d, es) ==> Applied(d, es) == Applied(u, es[1..]))
  {
    hide At, Splice;
    InFile(d, es[0].off, es[0].old_);
    var rest := es[1..];
    assert forall i :: 0 <= i < |rest| ==> rest[i] == es[i + 1];
    if AllMatch(d, es) {
      FirstApplied(d, es);
    }
    if AllMatch(Splice(d, es[0].off, es[0].new_), rest) {
      forall i | 0 <= i < |es|
        ensures At(d, es[i].off, es[i].old_)
      {
        if i > 0 {
          assert es[i] == rest[i - 1];
          AtElsewhere(d, es[0].off, es[0].new_, es[i].off, es[i].old_);
        }
      }
    }
  }

  // ---- the fixup block ----

  /** The lists of the block at `fb` after the moves; the final check wants each moved source once where it was. */
  ghost predicate MovedLists(d: seq<byte>, fb: nat, recs: seq<Rec>, moved: seq<Rec>) {
    && BlockHolds(d, fb, FIX_LEN, recs) && MoveAll(recs, MOVES) == Some(moved) && OnceEach(recs, MOVES)
  }

  /** `r` is `d` with the bytes changed and the sources moved. */
  ghost predicate PatchedTo(d: seq<byte>, es: seq<Change>, fb: nat, r: seq<byte>)
    requires SameSizes(es) && Apart(es)
  {
    && AllMatch(d, es)
    && exists recs, moved :: MovedLists(d, fb, recs, moved) && Written(d, es, fb, moved, r)
  }

  ghost predicate Written(d: seq<byte>, es: seq<Change>, fb: nat, moved: seq<Rec>, r: seq<byte>)
    requires SameSizes(es) && Apart(es) && AllMatch(d, es)
  {
    Listing(moved) && fb + |BuildLists(moved)| <= |d| && r == Splice(Applied(d, es), fb, BuildLists(moved))
  }

  predicate ClearOf(es: seq<Change>, fb: nat, n: nat) {
    forall i :: 0 <= i < |es| ==> es[i].off + |es[i].old_| <= fb || fb + n <= es[i].off
  }

  /** Changes elsewhere leave the block as it is. */
  lemma {:induction false} BlockUntouched(d: seq<byte>, es: seq<Change>, fb: nat, n: nat)
    requires SameSizes(es) && Apart(es) && AllMatch(d, es) && ClearOf(es, fb, n) && fb + n <= |d|
    ensures Cut(Applied(d, es), fb, n) == Cut(d, fb, n)
    decreases |es|
  {
    hide At, Splice, Cut;
    if es != [] {
      FirstApplied(d, es);
      assert forall i :: 0 <= i < |es[1..]| ==> es[1..][i] == es[i + 1];
      CutElsewhere(d, es[0].off, es[0].new_, fb, n);
      BlockUntouched(Splice(d, es[0].off, es[0].new_), es[1..], fb, n);
    }
  }

  lemma BlockSame(d: seq<byte>, r: seq<byte>, p: nat, q: nat, n: nat, recs: seq<Rec>)
    requires p + n <= |d| && q + n <= |r| && Cut(d, p, n) == Cut(r, q, n)
    ensures BlockHolds(d, p, n, recs) <==> BlockHolds(r, q, n, recs)
  {
  }

  /** The rewriting of the lists: parse, move, build; `None` where a script gives up. */
  method Rewrite(d: seq<byte>, fb: nat) returns (r: Option<seq<byte>>, recs: seq<Rec>, moved: seq<Rec>)
    ensures r.Some? ==> BlockHolds(d, fb, FIX_LEN, recs) && MoveAll(recs, MOVES) == Some(moved)
    ensures r.Some? ==> Listing(moved) && r.value == BuildLists(moved) && |r.value| == FIX_LEN
    ensures r.None? ==> forall l, m :: !(BlockHolds(d, fb, FIX_LEN, l) && MoveAll(l, MOVES) == Some(m))
  {
    hide BlockHolds, MoveAll, Listing, BuildLists;
    recs, moved := [], [];
    var p := ParseLists(d, fb, FIX_LEN);
    if p.None? { return None, [], []; }
    recs := p.value;
    forall l | BlockHolds(d, fb, FIX_LEN, l)
      ensures l == recs
    {
      OneListing(d, fb, FIX_LEN, l, recs);
    }
    var m := MoveAll(recs, MOVES);
    if m.None? { return None, [], []; }
    moved := m.value;
    BlockLength(d, fb, recs);
    MovedBlock(recs, MOVES);
    return Some(BuildLists(moved)), recs, moved;
  }

  lemma BlockLength(d: seq<byte>, fb: nat, recs: seq<Rec>)
    requires BlockHolds(d, fb, FIX_LEN, recs)
    ensures Listing(recs) && |BuildLists(recs)| == FIX_LEN && fb + FIX_LEN <= |d|
  {
  }

  // ---- the standalone script ----

  function TargetsOf(recs: seq<Rec>): set<nat> {
    set i | 0 <= i < |recs| :: recs[i].target
  }

  ghost predicate FourLists(d: seq<byte>) {
    exists recs :: BlockHolds(d, FIX_BLOCK, FIX_LEN, recs) && TargetsOf(recs) == TARGETS
  }

  lemma ChangesFit()
    ensures SameSizes(BYTES) && Apart(BYTES) && ClearOf(BYTES, FIX_BLOCK, FIX_LEN)
  {
    ChangesApart();
  }

  lemma ChangesApart()
    ensures Apart(BYTES)
  {
    assert forall i :: 0 <= i < |BYTES| ==> 1 <= |BYTES[i].old_| <= 2;
    assert forall i, j :: 0 <= i < j < |BYTES| ==> BYTES[i].off + 2 <= BYTES[j].off || BYTES[j].off + 2 <= BYTES[i].off;
  }

  lemma MovesDistinct()
    ensures DistinctMoves(MOVES)
  {
  }

  /** The scripts' own check passes exactly when each moved source stood once in the list it left. */
  lemma OwnCheck(recs: seq<Rec>, moved: seq<Rec>)
    requires MoveAll(recs, MOVES) == Some(moved)
    ensures Checked(moved, MOVES) <==> OnceEach(recs, MOVES)
  {
    hide MoveAll, Checked, OnceEach;
    MovesDistinct();
    CheckPasses(recs, MOVES);
  }

  /** What both scripts do once the bytes match: parse the lists of `src`, which has the block as `d` has it, rewrite
      them, put them into `out`, check the result. */
  method Finish(src: seq<byte>, out: seq<byte>, ghost d: seq<byte>, ghost es: seq<Change>, fb: nat, four: bool)
    returns (r: Option<seq<byte>>)
    requires SameSizes(es) && Apart(es) && AllMatch(d, es) && out == Applied(d, es)
    requires |src| == |d| && (fb + FIX_LEN <= |d| ==> Cut(src, fb, FIX_LEN) == Cut(d, fb, FIX_LEN))
    ensures forall w :: r == Some(w) <==>
      PatchedTo(d, es, fb, w) && (four ==>
        exists recs :: BlockHolds(d, fb, FIX_LEN, recs) && TargetsOf(recs) == TARGETS)
  {
    hide BlockHolds, MoveAll, Listing, BuildLists, At, Splice, Applied, Checked, OnceEach, TargetsOf;
    BlocksSame(src, d, fb);
    var block, recs, moved := Rewrite(src, fb);
    if block.None? { return None; }
    BlockLength(d, fb, recs);
    OnlyThese(d, fb, recs);
    if four && TargetsOf(recs) != TARGETS { return None; }
    var w := Splice(out, fb, block.value);
    BlockNow(out, fb, moved);
    var again := ParseLists(w, fb, FIX_LEN);
    OwnCheck(recs, moved);
    if !Checked(again.value, MOVES) { return None; }
    assert MovedLists(d, fb, recs, moved) && Written(d, es, fb, moved, w);
    return Some(w);
  }

  lemma BlocksSame(src: seq<byte>, d: seq<byte>, fb: nat)
    requires |src| == |d| && (fb + FIX_LEN <= |d| ==> Cut(src, fb, FIX_LEN) == Cut(d, fb, FIX_LEN))
    ensures forall recs :: BlockHolds(src, fb, FIX_LEN, recs) <==> BlockHolds(d, fb, FIX_LEN, recs)
  {
    hide BlockHolds, Cut;
    forall recs
      ensures BlockHolds(src, fb, FIX_LEN, recs) <==> BlockHolds(d, fb, FIX_LEN, recs)
    {
      if BlockHolds(src, fb, FIX_LEN, recs) { BlockLength(src, fb, recs); }
      if BlockHolds(d, fb, FIX_LEN, recs) { BlockLength(d, fb, recs); }
      if fb + FIX_LEN <= |d| {
        BlockSame(src, d, fb, fb, FIX_LEN, recs);
      }
    }
  }

  lemma OnlyThese(d: seq<byte>, fb: nat, recs: seq<Rec>)
    requires BlockHolds(d, fb, FIX_LEN, recs)
    ensures forall l :: BlockHolds(d, fb, FIX_LEN, l) ==> l == recs
  {
    hide BlockHolds;
    forall l | BlockHolds(d, fb, FIX_LEN, l)
      ensures l == recs
    {
      OneListing(d, fb, FIX_LEN, l, recs);
    }
  }

  lemma BlockNow(d: seq<byte>, fb: nat, recs: seq<Rec>)
    requires Listing(recs) && |BuildLists(recs)| == FIX_LEN && fb + FIX_LEN <= |d|
    ensures BlockHolds(Splice(d, fb, BuildLists(recs)), fb, FIX_LEN, recs)
  {
    hide Listing, BuildLists;
    CutSplice(d, fb, BuildLists(recs));
  }

  /** `main` of patch_vpicd_irq2.py; `known` says which inputs have the checksum it asks for. */
  method PatchStandalone(d: seq<byte>, known: seq<byte> -> bool) returns (r: Option<seq<byte>>)
    ensures SameSizes(BYTES) && Apart(BYTES)
    ensures forall w :: r == Some(w) <==> known(d) && PatchedTo(d, BYTES, FIX_BLOCK, w) && FourLists(d)
  {
    hide BlockHolds, MoveAll, Listing, BuildLists, At, Splice, Applied, Checked, OnceEach, AllMatch;
    ChangesFit();
    if !known(d) { return None; }
    var out := CheckAndApply(d, BYTES);
    if out.None? { return None; }
    if FIX_BLOCK + FIX_LEN <= |d| {
      BlockUntouched(d, BYTES, FIX_BLOCK, FIX_LEN);
    }
    r := Finish(out.value, out.value, d, BYTES, FIX_BLOCK, true);
  }

  // ---- the monolith ----

  /** Where VPICD lies in the monolith: its header, its pages, and the size of the standalone file. */
  datatype Place = Place(le: nat, pages: nat, size: nat) {
    /** `mapped` */
    function Map(off: nat): nat
      requires off >= 0x80
    {
      if off < 0x1000 then le + (off - 0x80) else pages + (off - 0x1000)
    }

    /** Header part and pages lie in the file and do not overlap. */
    predicate Fits(n: nat) {
      && size >= 0x1000 && le + 0xF80 <= n && pages + (size - 0x1000) <= n
      && (le + 0xF80 <= pages || pages + (size - 0x1000) <= le)
    }

    /** A stretch of the standalone file that lies in one of the two parts. */
    predicate Within(off: nat, n: nat) {
      off >= 0x80 && off + n <= size && (off + n <= 0x1000 || off >= 0x1000)
    }
  }

  /** The standalone image as the monolith holds it; the stub before its header is blank. */
  function View(d: seq<byte>, at: Place): (v: seq<byte>)
    requires at.Fits(|d|)
    ensures |v| == at.size
  {
    Zeros(0x80) + d[at.le..at.le + 0xF80] + d[at.pages..at.pages + (at.size - 0x1000)]
  }

  lemma ViewAt(d: seq<byte>, at: Place, k: nat)
    requires at.Fits(|d|) && 0x80 <= k < at.size
    ensures at.Map(k) < |d| && View(d, at)[k] == d[at.Map(k)]
  {
  }

  lemma ViewCut(d: seq<byte>, at: Place, off: nat, n: nat)
    requires at.Fits(|d|) && at.Within(off, n)
    ensures n > 0 ==> at.Map(off) + n <= |d| && Cut(View(d, at), off, n) == Cut(d, at.Map(off), n)
  {
    hide View;
    if n > 0 {
      ViewAt(d, at, off + n - 1);
      var a, b := Cut(View(d, at), off, n), Cut(d, at.Map(off), n);
      forall j | 0 <= j < n
        ensures a[j] == b[j]
      {
        ViewAt(d, at, off + j);
      }
    }
  }

  /** A write through the mapping is the write to the view. */
  lemma ViewSplice(d: seq<byte>, at: Place, off: nat, b: seq<byte>)
    requires at.Fits(|d|) && at.Within(off, |b|) && |b| > 0
    ensures at.Map(off) + |b| <= |d| && View(Splice(d, at.Map(off), b), at) == Splice(View(d, at), off, b)
  {
    hide View, Splice;
    ViewCut(d, at, off, |b|);
    var r := Splice(d, at.Map(off), b);
    forall k | 0 <= k < at.size
      ensures View(r, at)[k] == Splice(View(d, at), off, b)[k]
    {
      if k < 0x80 {
        Blank(d, at, k);
        Blank(r, at, k);
      } else {
        ViewAt(d, at, k);
        ViewAt(r, at, k);
      }
    }
  }

  lemma Blank(d: seq<byte>, at: Place, k: nat)
    requires at.Fits(|d|) && k < 0x80
    ensures View(d, at)[k] == 0
  {
  }

  /** The changes at their places in the monolith. */
  function Mapped(es: seq<Change>, at: Place): (r: seq<Change>)
    requires forall i :: 0 <= i < |es| ==> es[i].off >= 0x80
    ensures |r| == |es| && forall i :: 0 <= i < |es| ==> r[i] == es[i].(off := at.Map(es[i].off))
  {
    seq(|es|, i requires 0 <= i < |es| => es[i].(off := at.Map(es[i].off)))
  }

  ghost predicate AllWithin(es: seq<Change>, at: Place) {
    forall i :: 0 <= i < |es| ==> at.Within(es[i].off, |es[i].old_|) && |es[i].old_| > 0
  }

  lemma MappedShape(es: seq<Change>, at: Place, n: nat)
    requires at.Fits(n) && AllWithin(es, at) && SameSizes(es) && Apart(es)
    ensures SameSizes(Mapped(es, at)) && Apart(Mapped(es, at))
  {
  }

  lemma MappedMatch(d: seq<byte>, at: Place, es: seq<Change>)
    requires at.Fits(|d|) && AllWithin(es, at)
    ensures AllMatch(d, Mapped(es, at)) <==> AllMatch(View(d, at), es)
  {
    hide At, View;
    forall i | 0 <= i < |es|
      ensures At(d, Mapped(es, at)[i].off, es[i].old_) <==> At(View(d, at), es[i].off, es[i].old_)
    {
      ViewCut(d, at, es[i].off, |es[i].old_|);
      SameCut(d, View(d, at), at.Map(es[i].off), es[i].off, es[i].old_);
    }
    assert forall i :: 0 <= i < |es| ==> Mapped(es, at)[i].old_ == es[i].old_;
  }

  lemma SameCut(d: seq<byte>, v: seq<byte>, p: nat, q: nat, s: seq<byte>)
    requires p + |s| <= |d| && q + |s| <= |v| && Cut(d, p, |s|) == Cut(v, q, |s|)
    ensures At(d, p, s) <==> At(v, q, s)
  {
  }

  /** Changing the monolith through the mapping changes the view as the standalone script changes its file. */
  lemma {:induction false} MappedApplied(d: seq<byte>, at: Place, es: seq<Change>)
    requires at.Fits(|d|) && AllWithin(es, at) && SameSizes(es) && Apart(es)
    requires SameSizes(Mapped(es, at)) && Apart(Mapped(es, at)) && AllMatch(d, Mapped(es, at))
      && AllMatch(View(d, at), es)
    ensures View(Applied(d, Mapped(es, at)), at) == Applied(View(d, at), es)
    decreases |es|
  {
    hide At, View, Splice, Place.Map;
    if es != [] {
      var ms := Mapped(es, at);
      FirstApplied(d, ms);
      var next := Splice(d, ms[0].off, ms[0].new_);
      FirstApplied(View(d, at), es);
      ViewSplice(d, at, es[0].off, es[0].new_);
      assert forall i :: 0 <= i < |es[1..]| ==> es[1..][i] == es[i + 1];
      assert ms[1..] == Mapped(es[1..], at);
      MappedApplied(next, at, es[1..]);
    }
  }

  /** `main` of patch_vmm32_vpicd_irq2.py: everything is checked before anything is written. */
  method PatchMonolith(d: seq<byte>, at: Place) returns (r: Option<seq<byte>>)
    requires at.Fits(|d|) && at.size >= 0x7518
    ensures SameSizes(BYTES) && Apart(BYTES) && SameSizes(Mapped(BYTES, at)) && Apart(Mapped(BYTES, at))
    ensures forall w :: r == Some(w) <==> PatchedTo(d, Mapped(BYTES, at), at.Map(FIX_BLOCK), w)
  {
    hide BlockHolds, MoveAll, Listing, BuildLists, At, Splice, Applied, Checked, OnceEach, AllMatch, View;
    ChangesFit();
    ChangesWithin(at);
    MappedShape(BYTES, at, |d|);
    var es := Mapped(BYTES, at);
    for i := 0 to |es|
      invariant forall j :: 0 <= j < i ==> Found(d, es[j].off, es[j].old_)
    {
      if !Found(d, es[i].off, es[i].old_) {
        NotFound(d, es, i);
        return None;
      }
    }
    AllFound(d, es);
    var out := CheckAndApply(d, es);
    r := Finish(d, out.value, d, es, at.Map(FIX_BLOCK), false);
  }

  lemma NotFound(d: seq<byte>, es: seq<Change>, i: nat)
    requires i < |es| && !Found(d, es[i].off, es[i].old_)
    ensures !AllMatch(d, es)
  {
  }

  lemma AllFound(d: seq<byte>, es: seq<Change>)
    requires forall j :: 0 <= j < |es| ==> Found(d, es[j].off, es[j].old_)
    ensures AllMatch(d, es)
  {
  }

  lemma ChangesWithin(at: Place)
    requires at.size >= 0x7518
    ensures AllWithin(BYTES, at) && at.Within(FIX_BLOCK, FIX_LEN)
  {
  }

  /** Patching inside the monolith and looking at it through the mapping is patching the standalone file. */
  lemma MonolithIsStandalone(d: seq<byte>, at: Place, es: seq<Change>, w: seq<byte>)
    requires at.Fits(|d|) && AllWithin(es, at) && at.Within(FIX_BLOCK, FIX_LEN)
    requires SameSizes(es) && Apart(es) && SameSizes(Mapped(es, at)) && Apart(Mapped(es, at))
    requires PatchedTo(d, Mapped(es, at), at.Map(FIX_BLOCK), w)
    ensures |w| == |d| && PatchedTo(View(d, at), es, FIX_BLOCK, View(w, at))
  {
    hide BlockHolds, MoveAll, Listing, BuildLists, At, Splice, Applied, Checked, OnceEach, View, AllMatch, MovedLists,
      Written, Apart, SameSizes;
    var fb := at.Map(FIX_BLOCK);
    MappedMatch(d, at, es);
    var recs, moved :| MovedLists(d, fb, recs, moved) && Written(d, Mapped(es, at), fb, moved, w);
    WrittenBoth(d, at, es, recs, moved);
    WrittenOnce(d, Mapped(es, at), fb, moved, w);
  }

  /** What can be patched alone can be patched in the monolith. */
  lemma StandaloneIsMonolith(d: seq<byte>, at: Place, es: seq<Change>, v: seq<byte>) returns (w: seq<byte>)
    requires at.Fits(|d|) && AllWithin(es, at) && at.Within(FIX_BLOCK, FIX_LEN)
    requires SameSizes(es) && Apart(es) && SameSizes(Mapped(es, at)) && Apart(Mapped(es, at))
    requires PatchedTo(View(d, at), es, FIX_BLOCK, v)
    ensures |w| == |d| && PatchedTo(d, Mapped(es, at), at.Map(FIX_BLOCK), w) && View(w, at) == v
  {
    hide BlockHolds, MoveAll, Listing, BuildLists, At, Splice, Applied, Checked, OnceEach, View, AllMatch, MovedLists,
      Written, Apart, SameSizes;
    var fb := at.Map(FIX_BLOCK);
    MappedMatch(d, at, es);
    var recs, moved :| MovedLists(View(d, at), FIX_BLOCK, recs, moved) && Written(View(d, at), es, FIX_BLOCK, moved, v);
    WrittenBoth(d, at, es, recs, moved);
    w := Splice(Applied(d, Mapped(es, at)), fb, BuildLists(moved));
    WrittenOnce(View(d, at), es, FIX_BLOCK, moved, v);
    WrittenOnce(View(d, at), es, FIX_BLOCK, moved, View(w, at));
  }

  lemma WrittenOnce(d: seq<byte>, es: seq<Change>, fb: nat, moved: seq<Rec>, r: seq<byte>)
    requires SameSizes(es) && Apart(es) && AllMatch(d, es) && Written(d, es, fb, moved, r)
    ensures Listing(moved) && fb + |BuildLists(moved)| <= |d| && r == Splice(Applied(d, es), fb, BuildLists(moved))
  {
  }

  lemma WrittenBoth(d: seq<byte>, at: Place, es: seq<Change>, recs: seq<Rec>, moved: seq<Rec>)
    requires at.Fits(|d|) && AllWithin(es, at) && at.Within(FIX_BLOCK, FIX_LEN)
    requires SameSizes(es) && Apart(es) && SameSizes(Mapped(es, at)) && Apart(Mapped(es, at))
    requires AllMatch(View(d, at), es) && AllMatch(d, Mapped(es, at))
    ensures MovedLists(d, at.Map(FIX_BLOCK), recs, moved) <==> MovedLists(View(d, at), FIX_BLOCK, recs, moved)
    ensures MovedLists(d, at.Map(FIX_BLOCK), recs, moved) ==>
      var fb := at.Map(FIX_BLOCK);
      && Listing(moved) && |BuildLists(moved)| == FIX_LEN && fb + FIX_LEN <= |d|
      && var w := Splice(Applied(d, Mapped(es, at)), fb, BuildLists(moved));
      && Written(d, Mapped(es, at), fb, moved, w)
      && Written(View(d, at), es, FIX_BLOCK, moved, View(w, at))
  {
    hide MoveAll, At, Checked, OnceEach, View, AllMatch, Apart, SameSizes, Listing, BuildLists, BlockHolds, Applied,
      Splice;
    ViewCut(d, at, FIX_BLOCK, FIX_LEN);
    BlockSame(d, View(d, at), at.Map(FIX_BLOCK), FIX_BLOCK, FIX_LEN, recs);
    if MovedLists(d, at.Map(FIX_BLOCK), recs, moved) {
      BlockLength(d, at.Map(FIX_BLOCK), recs);
      MovedBlock(recs, MOVES);
      MappedApplied(d, at, es);
      ViewSplice(Applied(d, Mapped(es, at)), at, FIX_BLOCK, BuildLists(moved));
    }
  }

  /** The two scripts at their results: the standalone one succeeds on the mapped view exactly when the other succeeds
      in the monolith, the view is a known one and the block is of the four lists, which only the standalone one checks;
      then its result is the view of the other's. */
  lemma ScriptsAgree(d: seq<byte>, at: Place, es: seq<Change>, known: seq<byte> -> bool, alone: Option<seq<byte>>,
        inside: Option<seq<byte>>)
    requires at.Fits(|d|) && AllWithin(es, at) && at.Within(FIX_BLOCK, FIX_LEN)
    requires SameSizes(es) && Apart(es) && SameSizes(Mapped(es, at)) && Apart(Mapped(es, at))
    requires forall v :: alone == Some(v) <==>
      known(View(d, at)) && PatchedTo(View(d, at), es, FIX_BLOCK, v) && FourLists(View(d, at))
    requires forall w :: inside == Some(w) <==> PatchedTo(d, Mapped(es, at), at.Map(FIX_BLOCK), w)
    ensures alone.Some? <==> inside.Some? && known(View(d, at)) && FourLists(View(d, at))
    ensures alone.Some? ==> |inside.value| == |d| && alone.value == View(inside.value, at)
  {
    hide PatchedTo, FourLists, View, Mapped, Apart, SameSizes, AllWithin, Place.Fits, Place.Within, Place.Map;
    if inside.Some? {
      MonolithIsStandalone(d, at, es, inside.value);
    }
    if alone.Some? {
      var w := StandaloneIsMonolith(d, at, es, alone.value);
    }
  }

  /** Both scripts, each on its file. */
  method RunBoth(d: seq<byte>, at: Place, known: seq<byte> -> bool)
    returns (alone: Option<seq<byte>>, inside: Option<seq<byte>>)
    requires at.Fits(|d|) && at.size >= 0x7518
    ensures alone.Some? <==> inside.Some? && known(View(d, at)) && FourLists(View(d, at))
    ensures alone.Some? ==> |inside.value| == |d| && alone.value == View(inside.value, at)
  {
    hide PatchedTo, FourLists, View, Mapped, Apart, SameSizes, Place.Fits;
    alone := PatchStandalone(View(d, at), known);
    inside := PatchMonolith(d, at);
    ChangesWithin(at);
    ScriptsAgree(d, at, BYTES, known, alone, inside);
  }

  lemma {:induction false} AppliedElsewhere(d: seq<byte>, es: seq<Change>, p: nat)
    requires SameSizes(es) && Apart(es) && AllMatch(d, es) && p < |d|
    requires forall i :: 0 <= i < |es| ==> !(es[i].off <= p < es[i].off + |es[i].old_|)
    ensures Applied(d, es)[p] == d[p]
    decreases |es|
  {
    hide At;
    if es != [] {
      FirstApplied(d, es);
      assert forall i :: 0 <= i < |es[1..]| ==> es[1..][i] == es[i + 1];
      AppliedElsewhere(Splice(d, es[0].off, es[0].new_), es[1..], p);
    }
  }

  /** The other drivers of the monolith keep their bytes. */
  lemma OthersUntouched(d: seq<byte>, at: Place, es: seq<Change>, w: seq<byte>, p: nat)
    requires at.Fits(|d|) && AllWithin(es, at) && at.Within(FIX_BLOCK, FIX_LEN)
    requires SameSizes(Mapped(es, at)) && Apart(Mapped(es, at)) && PatchedTo(d, Mapped(es, at), at.Map(FIX_BLOCK), w)
    requires p < |d| && !(at.le <= p < at.le + 0xF80) && !(at.pages <= p < at.pages + (at.size - 0x1000))
    ensures |w| == |d| && w[p] == d[p]
  {
    hide BlockHolds, MoveAll, Listing, BuildLists, At, Applied, Checked, OnceEach, AllMatch, MovedLists, Apart,
      SameSizes;
    var fb, ms := at.Map(FIX_BLOCK), Mapped(es, at);
    var recs, moved :| MovedLists(d, fb, recs, moved) && Written(d, ms, fb, moved, w);
    MovedLength(d, fb, recs, moved);
    AppliedElsewhere(d, ms, p);
  }

  lemma MovedLength(d: seq<byte>, fb: nat, recs: seq<Rec>, moved: seq<Rec>)
    requires MovedLists(d, fb, recs, moved)
    ensures Listing(moved) && |BuildLists(moved)| == FIX_LEN
  {
    hide MoveAll, Checked, OnceEach, BuildLists, Listing;
    BlockLength(d, fb, recs);
    MovedBlock(recs, MOVES);
  }
}
