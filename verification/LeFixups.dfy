/** Fixup records of linear executables: what the decoder of tools/lefixups.py reads, and the bytes it reads it from. */
module LeFixups {
  import opened Arith
  import opened Bytes
  import opened Wrappers

  /** A record's source and target flag bytes, object or module, offset or ordinal or name, addend, source offsets. */
  datatype Fixup = Fixup(st: byte, tf: byte, obj: nat, off: nat, add: nat, srcs: seq<nat>)

  predicate Has(flags: byte, bit: nat)
    requires bit > 0
  {
    flags / bit % 2 == 1
  }

  predicate Listed(st: byte) { Has(st, 0x20) }

  function Kind(tf: byte): nat { tf % 4 }

  // ---- the format: how wide each field is ----

  function ObjWidth(tf: byte): (n: nat)
    ensures Width(n)
  {
    if Kind(tf) == 3 then 0 else if Has(tf, 0x40) then 2 else 1
  }

  function OffWidth(st: byte, tf: byte): (n: nat)
    ensures Width(n)
  {
    if Kind(tf) == 3 then 2
    else if Kind(tf) == 0 && st % 16 == 2 then 0
    else if Kind(tf) == 1 && Has(tf, 0x80) then 1
    else if Has(tf, 0x10) then 4 else 2
  }

  function AddWidth(tf: byte): (n: nat)
    ensures Width(n)
  {
    if !Has(tf, 0x04) then 0 else if Has(tf, 0x20) then 4 else 2
  }

  predicate Width(n: nat) { n == 0 || n == 1 || n == 2 || n == 4 }

  /** What `n` bytes can hold. */
  predicate Holds(n: nat, v: nat)
    requires Width(n)
  {
    if n == 0 then v == 0 else if n == 1 then v < 0x100 else if n == 2 then v < 0x1_0000 else v < 0x1_0000_0000
  }

  function LE(n: nat, v: nat): (s: seq<byte>)
    requires Width(n) && Holds(n, v)
    ensures |s| == n
  {
    if n == 0 then [] else if n == 1 then [v] else if n == 2 then LE16(v) else LE32(v)
  }

  function Num(d: seq<byte>, o: nat, n: nat): (v: nat)
    requires Width(n) && o + n <= |d|
    ensures Holds(n, v)
  {
    if n == 0 then 0 else if n == 1 then d[o] else if n == 2 then U16(d, o) else U32(d, o)
  }

  /** `s` stands at offset `o`. */
  predicate At(d: seq<byte>, o: nat, s: seq<byte>) {
    o + |s| <= |d| && d[o..o + |s|] == s
  }

  lemma AtBoth(d: seq<byte>, o: nat, a: seq<byte>, b: seq<byte>)
    ensures At(d, o, a + b) <==> At(d, o, a) && At(d, o + |a|, b)
  {
    if o + |a| + |b| <= |d| {
      var all := d[o..o + |a| + |b|];
      assert all[..|a|] == d[o..o + |a|] && all[|a|..] == d[o + |a|..o + |a| + |b|];
      assert (a + b)[..|a|] == a && (a + b)[|a|..] == b;
      assert all == all[..|a|] + all[|a|..];
    }
  }

  /** Reading a field and finding its bytes there are the same. */
  lemma AtNum(d: seq<byte>, o: nat, n: nat, v: nat)
    requires Width(n) && Holds(n, v)
    ensures At(d, o, LE(n, v)) <==> o + n <= |d| && Num(d, o, n) == v
  {
    if o + n <= |d| {
      var s := d[o..o + n];
      NumOf(n, v);
      NumMoves(d, o, n);
      NumOnly(s, n);
      assert LE(n, v) == s ==> Num(s, 0, n) == v;
    }
  }

  lemma NumOf(n: nat, v: nat)
    requires Width(n) && Holds(n, v)
    ensures Num(LE(n, v), 0, n) == v
  {
  }

  lemma NumMoves(d: seq<byte>, o: nat, n: nat)
    requires Width(n) && o + n <= |d|
    ensures Num(d[o..o + n], 0, n) == Num(d, o, n)
  {
  }

  lemma NumOnly(s: seq<byte>, n: nat)
    requires Width(n) && |s| == n
    ensures LE(n, Num(s, 0, n)) == s
  {
    if n == 2 {
      Parts(U16(s, 0), 0x100, s[1], s[0]);
    } else if n == 4 {
      Parts(U16(s, 0), 0x100, s[1], s[0]);
      Parts(U16(s, 2), 0x100, s[3], s[2]);
      Parts(U32(s, 0), 0x1_0000, U16(s, 2), U16(s, 0));
    }
  }

  function Words(ws: seq<nat>): (s: seq<byte>)
    requires forall i :: 0 <= i < |ws| ==> ws[i] < 0x1_0000
    ensures |s| == 2 * |ws|
  {
    if ws == [] then [] else LE(2, ws[0]) + Words(ws[1..])
  }

  function ReadWords(d: seq<byte>, o: nat, n: nat): (ws: seq<nat>)
    requires o + 2 * n <= |d|
    ensures |ws| == n && forall i :: 0 <= i < n ==> ws[i] < 0x1_0000
    decreases n
  {
    if n == 0 then [] else [Num(d, o, 2)] + ReadWords(d, o + 2, n - 1)
  }

  lemma {:induction false} AtWords(d: seq<byte>, o: nat, ws: seq<nat>)
    requires forall i :: 0 <= i < |ws| ==> ws[i] < 0x1_0000
    ensures At(d, o, Words(ws)) <==> o + 2 * |ws| <= |d| && ReadWords(d, o, |ws|) == ws
    decreases |ws|
  {
    hide At, LE, Num;
    if ws == [] {
      AtNone(d, o);
    } else {
      AtWords(d, o + 2, ws[1..]);
      AtBoth(d, o, LE(2, ws[0]), Words(ws[1..]));
      AtNum(d, o, 2, ws[0]);
      if o + 2 * |ws| <= |d| {
        assert ReadWords(d, o, |ws|)[0] == Num(d, o, 2) && ReadWords(d, o, |ws|)[1..] == ReadWords(d, o + 2, |ws| - 1);
        assert ws == [ws[0]] + ws[1..];
      }
    }
  }

  lemma AtNone(d: seq<byte>, o: nat)
    ensures At(d, o, []) <==> o <= |d|
  {
  }

  // ---- records ----

  /** A record that the flags can express. */
  ghost predicate Fits(f: Fixup) {
    && Holds(ObjWidth(f.tf), f.obj) && Holds(OffWidth(f.st, f.tf), f.off) && Holds(AddWidth(f.tf), f.add)
    && (if Listed(f.st) then |f.srcs| < 0x100 else |f.srcs| == 1)
    && (forall i :: 0 <= i < |f.srcs| ==> f.srcs[i] < 0x1_0000)
  }

  /** Flags, count or source, target, addend, and the sources of a list. */
  ghost function Encode(f: Fixup): (s: seq<byte>)
    requires Fits(f)
    ensures |s| >= 2
  {
    [f.st, f.tf] + (if Listed(f.st) then LE(1, |f.srcs|) else LE(2, f.srcs[0])) +
      (LE(ObjWidth(f.tf), f.obj) + (LE(OffWidth(f.st, f.tf), f.off) +
        (LE(AddWidth(f.tf), f.add) + (if Listed(f.st) then Words(f.srcs) else []))))
  }

  /** Where the parts of a record lie: source or count, object, offset, addend, list. */
  function HeadWidth(st: byte): nat { if Listed(st) then 1 else 2 }

  /** The record at `o` and the offset behind it; `None` when it runs past the end of the file. */
  function DecodeAt(d: seq<byte>, o: nat): Option<(Fixup, nat)> {
    if o + 2 > |d| then None
    else
      var st, tf := d[o], d[o + 1];
      var p1 := o + 2 + HeadWidth(st);
      var p2 := p1 + ObjWidth(tf);
      var p3 := p2 + OffWidth(st, tf);
      var p4 := p3 + AddWidth(tf);
      if p4 > |d| then None
      else
        var head := Num(d, o + 2, HeadWidth(st));
        var end := if Listed(st) then p4 + 2 * head else p4;
        if end > |d| then None
        else
          Some((Fixup(st, tf, Num(d, p1, ObjWidth(tf)), Num(d, p2, OffWidth(st, tf)), Num(d, p3, AddWidth(tf)),
                      if Listed(st) then ReadWords(d, p4, head) else [head]), end))
  }

  /** The decoder yields a record exactly when the record's bytes stand there, and stops exactly behind them. */
  lemma DecodeIsInverse(d: seq<byte>, o: nat, f: Fixup, end: nat)
    ensures DecodeAt(d, o) == Some((f, end)) <==> Fits(f) && At(d, o, Encode(f)) && end == o + |Encode(f)|
  {
    hide At, Num, LE, Words, ReadWords, Has, OffWidth, ObjWidth, AddWidth, Kind;
    if DecodeAt(d, o) == Some((f, end)) {
      assert Fits(f);
    }
    if Fits(f) {
      EncodedAt(d, o, f);
      assert !Listed(f.st) ==> f.srcs == [f.srcs[0]];
    }
  }

  lemma EncodedAt(d: seq<byte>, o: nat, f: Fixup)
    requires Fits(f)
    ensures var p1 := o + 2 + HeadWidth(f.st); var p2 := p1 + ObjWidth(f.tf); var p3 := p2 + OffWidth(f.st, f.tf);
            var p4 := p3 + AddWidth(f.tf); var end := if Listed(f.st) then p4 + 2 * |f.srcs| else p4;
      && end == o + |Encode(f)|
      && (At(d, o, Encode(f)) <==>
            && end <= |d| && d[o] == f.st && d[o + 1] == f.tf
            && Num(d, o + 2, HeadWidth(f.st)) == (if Listed(f.st) then |f.srcs| else f.srcs[0])
            && Num(d, p1, ObjWidth(f.tf)) == f.obj && Num(d, p2, OffWidth(f.st, f.tf)) == f.off
            && Num(d, p3, AddWidth(f.tf)) == f.add && (Listed(f.st) ==> ReadWords(d, p4, |f.srcs|) == f.srcs))
  {
    hide At, Num, LE, Words, ReadWords, Has, OffWidth, ObjWidth, AddWidth, Kind;
    var head := if Listed(f.st) then LE(1, |f.srcs|) else LE(2, f.srcs[0]);
    var obj, off, add := LE(ObjWidth(f.tf), f.obj), LE(OffWidth(f.st, f.tf), f.off), LE(AddWidth(f.tf), f.add);
    var tail := if Listed(f.st) then Words(f.srcs) else [];
    var p1 := o + 2 + HeadWidth(f.st);
    var p2 := p1 + ObjWidth(f.tf);
    var p3 := p2 + OffWidth(f.st, f.tf);
    var p4 := p3 + AddWidth(f.tf);
    AtBoth(d, o, [f.st, f.tf] + head, obj + (off + (add + tail)));
    AtBoth(d, o, [f.st, f.tf], head);
    AtBoth(d, p1, obj, off + (add + tail));
    AtBoth(d, p2, off, add + tail);
    AtBoth(d, p3, add, tail);
    AtTwo(d, o, f.st, f.tf);
    AtNum(d, o + 2, HeadWidth(f.st), if Listed(f.st) then |f.srcs| else f.srcs[0]);
    AtNum(d, p1, ObjWidth(f.tf), f.obj);
    AtNum(d, p2, OffWidth(f.st, f.tf), f.off);
    AtNum(d, p3, AddWidth(f.tf), f.add);
    AtWords(d, p4, f.srcs);
    AtNone(d, p4);
  }

  lemma AtTwo(d: seq<byte>, o: nat, a: byte, b: byte)
    ensures At(d, o, [a, b]) <==> o + 2 <= |d| && d[o] == a && d[o + 1] == b
  {
    if o + 2 <= |d| {
      assert d[o..o + 2] == [d[o], d[o + 1]];
    }
  }

  // ---- pages ----

  ghost predicate AllFit(fs: seq<Fixup>) {
    forall i :: 0 <= i < |fs| ==> Fits(fs[i])
  }

  ghost function EncodeAll(fs: seq<Fixup>): seq<byte>
    requires AllFit(fs)
  {
    if fs == [] then [] else Encode(fs[0]) + EncodeAll(fs[1..])
  }

  /** The records from `o` on until `stop` is reached, and where the last one ends. */
  function Decoded(d: seq<byte>, o: nat, stop: nat): (r: Option<(seq<Fixup>, nat)>)
    decreases stop - o
  {
    if o >= stop then Some(([], o))
    else
      var f := DecodeAt(d, o);
      if f.None? then None
      else
        var rest := Decoded(d, f.value.1, stop);
        if rest.None? then None else Some(([f.value.0] + rest.value.0, rest.value.1))
  }

  /** A page's records decode to `fs` and end where the page's records do exactly when they are `fs`, encoded. */
  lemma {:induction false} PageIsInverse(d: seq<byte>, o: nat, stop: nat, fs: seq<Fixup>)
    requires o <= stop <= |d|
    ensures Decoded(d, o, stop) == Some((fs, stop)) <==>
            AllFit(fs) && At(d, o, EncodeAll(fs)) && o + |EncodeAll(fs)| == stop
    decreases stop - o
  {
    hide Encode, DecodeAt, Fits, At;
    if o == stop {
      NothingHere(d, o, stop, fs);
    } else if fs == [] {
      NotEmpty(d, o, stop);
    } else {
      var f, rest := fs[0], fs[1..];
      assert AllFit(fs) <==> Fits(f) && AllFit(rest) by {
        assert forall i :: 0 <= i < |rest| ==> rest[i] == fs[i + 1];
        assert forall i :: 0 < i < |fs| ==> fs[i] == rest[i - 1];
      }
      if Fits(f) {
        var e := o + |Encode(f)|;
        DecodeIsInverse(d, o, f, e);
        if e <= stop {
          PageIsInverse(d, e, stop, rest);
        } else {
          Overrun(d, e, stop);
        }
        if AllFit(rest) {
          AtBoth(d, o, Encode(f), EncodeAll(rest));
        }
      }
      if Decoded(d, o, stop) == Some((fs, stop)) {
        FirstFits(d, o, stop, fs);
      }
      assert fs == [f] + rest;
    }
  }

  lemma NothingHere(d: seq<byte>, o: nat, stop: nat, fs: seq<Fixup>)
    requires o == stop <= |d|
    ensures Decoded(d, o, stop) == Some((fs, stop)) <==> fs == []
    ensures AllFit(fs) && o + |EncodeAll(fs)| == stop <==> fs == []
    ensures At(d, o, [])
  {
    hide Encode, Fits;
    if fs != [] && AllFit(fs) {
      assert |EncodeAll(fs)| >= 2;
    }
  }

  lemma NotEmpty(d: seq<byte>, o: nat, stop: nat)
    requires o < stop
    ensures Decoded(d, o, stop).None? || Decoded(d, o, stop).value.0 != []
    ensures |EncodeAll([])| == 0
  {
  }

  lemma Overrun(d: seq<byte>, e: nat, stop: nat)
    requires e > stop
    ensures Decoded(d, e, stop) == Some(([], e))
  {
  }

  /** The first record decoded is the first of the result. */
  lemma FirstFits(d: seq<byte>, o: nat, stop: nat, fs: seq<Fixup>)
    requires o < stop && fs != [] && Decoded(d, o, stop) == Some((fs, stop))
    ensures Fits(fs[0]) && At(d, o, Encode(fs[0])) && Decoded(d, o + |Encode(fs[0])|, stop) == Some((fs[1..], stop))
  {
    hide Encode, At, Fits, DecodeAt;
    DecodeIsInverse(d, o, fs[0], DecodeAt(d, o).value.1);
  }

  // ---- the decoding loop ----

  datatype Target = Internal(tobj: nat, toff: nat) | Ordinal(mod: nat, ord: nat) | Named(mod: nat,
    name: nat) | EntryPoint(entry: nat)

  function TargetOf(f: Fixup): Target {
    if Kind(f.tf) == 0 then Internal(f.obj, f.off)
    else if Kind(f.tf) == 1 then Ordinal(f.obj, f.off)
    else if Kind(f.tf) == 2 then Named(f.obj, f.off)
    else EntryPoint(f.off)
  }

  /** Object, module or entry, and offset, ordinal or name. */
  method ReadTarget(d: seq<byte>, start: nat, st: byte, tf: byte) returns (r: Option<(nat, nat, Target, nat)>)
    ensures r.Some? <==> start + ObjWidth(tf) + OffWidth(st, tf) <= |d|
    ensures r.Some? ==>
      && r.value.0 == Num(d, start, ObjWidth(tf)) && r.value.1 == Num(d, start + ObjWidth(tf), OffWidth(st, tf))
      && r.value.2 == TargetOf(Fixup(st, tf, r.value.0, r.value.1, 0, []))
      && r.value.3 == start + ObjWidth(tf) + OffWidth(st, tf)
  {
    hide U16, U32;
    var o := start;
    var obj: nat, off: nat;
    if Kind(tf) == 0 {
      if Has(tf, 0x40) {
        if o + 2 > |d| { return None; }
        obj, o := U16(d, o), o + 2;
      } else {
        if o + 1 > |d| { return None; }
        obj, o := d[o], o + 1;
      }
      off := 0;
      if st % 16 != 2 {
        if Has(tf, 0x10) {
          if o + 4 > |d| { return None; }
          off, o := U32(d, o), o + 4;
        } else {
          if o + 2 > |d| { return None; }
          off, o := U16(d, o), o + 2;
        }
      }
      return Some((obj, off, Internal(obj, off), o));
    } else if Kind(tf) == 3 {
      if o + 2 > |d| { return None; }
      return Some((0, U16(d, o), EntryPoint(U16(d, o)), o + 2));
    }
    if o + (if Has(tf, 0x40) then 2 else 1) > |d| { return None; }
    obj := if Has(tf, 0x40) then U16(d, o) else d[o];
    o := o + if Has(tf, 0x40) then 2 else 1;
    if Kind(tf) == 1 && Has(tf, 0x80) {
      if o + 1 > |d| { return None; }
      off, o := d[o], o + 1;
    } else if Has(tf, 0x10) {
      if o + 4 > |d| { return None; }
      off, o := U32(d, o), o + 4;
    } else {
      if o + 2 > |d| { return None; }
      off, o := U16(d, o), o + 2;
    }
    return Some((obj, off, if Kind(tf) == 1 then Ordinal(obj, off) else Named(obj, off), o));
  }

  method ReadAddend(d: seq<byte>, start: nat, tf: byte) returns (r: Option<(nat, nat)>)
    requires start <= |d|
    ensures r.Some? <==> start + AddWidth(tf) <= |d|
    ensures r.Some? ==> r.value == (Num(d, start, AddWidth(tf)), start + AddWidth(tf))
  {
    hide U16, U32;
    if !Has(tf, 0x04) {
      return Some((0, start));
    } else if Has(tf, 0x20) {
      if start + 4 > |d| { return None; }
      return Some((U32(d, start), start + 4));
    } else {
      if start + 2 > |d| { return None; }
      return Some((U16(d, start), start + 2));
    }
  }

  lemma WordsStep(d: seq<byte>, o: nat, n: nat)
    requires o + 2 * n <= |d|
    ensures n > 0 ==> ReadWords(d, o, n) == [U16(d, o)] + ReadWords(d, o + 2, n - 1)
    ensures n == 0 ==> ReadWords(d, o, n) == []
  {
  }

  method Sources(d: seq<byte>, start: nat, n: nat) returns (srcs: seq<nat>)
    requires start + 2 * n <= |d|
    ensures srcs == ReadWords(d, start, n)
  {
    hide U16, ReadWords;
    srcs := [];
    var o := start;
    for i := 0 to n
      invariant o == start + 2 * i && srcs + ReadWords(d, o, n - i) == ReadWords(d, start, n)
    {
      WordsStep(d, o, n - i);
      srcs := srcs + [U16(d, o)];
      o := o + 2;
    }
    WordsStep(d, o, 0);
  }

  /** The body of the loop of `main`: one record, the cursor moving from field to field. */
  method DecodeRecord(d: seq<byte>, start: nat) returns (r: Option<(Fixup, Target, nat)>)
    ensures r.None? <==> DecodeAt(d, start).None?
    ensures r.Some? ==> DecodeAt(d, start) == Some((r.value.0, r.value.2)) && r.value.1 == TargetOf(r.value.0)
  {
    hide U16, U32, ReadWords, ObjWidth, OffWidth, AddWidth, Kind;
    var o := start;
    if o + 2 > |d| { return None; }
    var st, tf := d[o], d[o + 1];
    o := o + 2;
    var srcs: seq<nat>, n: nat := [], 1;
    if Has(st, 0x20) {
      if o + 1 > |d| { return None; }
      n := d[o];
      o := o + 1;
    } else {
      if o + 2 > |d| { return None; }
      srcs := [U16(d, o)];
      o := o + 2;
    }
    var t := ReadTarget(d, o, st, tf);
    if t.None? { return None; }
    var a := ReadAddend(d, t.value.3, tf);
    if a.None? { return None; }
    o := a.value.1;
    if Has(st, 0x20) {
      if o + 2 * n > |d| { return None; }
      srcs := Sources(d, o, n);
      o := o + 2 * n;
    }
    return Some((Fixup(st, tf, t.value.0, t.value.1, a.value.0, srcs), t.value.2, o));
  }

  /** The loop over one page's records. */
  method DecodePage(d: seq<byte>, start: nat, stop: nat) returns (r: Option<seq<Fixup>>, end: nat)
    ensures r.None? <==> Decoded(d, start, stop).None?
    ensures r.Some? ==> Decoded(d, start, stop) == Some((r.value, end))
  {
    hide DecodeAt;
    var fs: seq<Fixup> := [];
    var o := start;
    while o < stop
      invariant Decoded(d, o, stop).None? <==> Decoded(d, start, stop).None?
      invariant Decoded(d, o, stop).Some? ==>
        && Decoded(d, start, stop).value.0 == fs + Decoded(d, o, stop).value.0
        && Decoded(d, start, stop).value.1 == Decoded(d, o, stop).value.1
      decreases stop - o
    {
      var f := DecodeRecord(d, o);
      if f.None? { return None, o; }
      DecodeMoves(d, o);
      fs := fs + [f.value.0];
      o := f.value.2;
    }
    assert fs + [] == fs;
    return Some(fs), o;
  }

  lemma DecodeMoves(d: seq<byte>, o: nat)
    requires DecodeAt(d, o).Some?
    ensures DecodeAt(d, o).value.1 >= o + 2
  {
  }
}
