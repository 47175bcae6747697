/** The instruction stream of an object, and what replacing whole instructions does to it (vxd-patches/vxdstream.py). */
module VxdStream {
  import opened Bytes
  import opened Wrappers

  /** An operand text: a number written in hexadecimal, or anything else. */
  datatype Operand = Hex(value: nat) | Text(text: string)

  datatype Ins = Ins(size: nat, mn: string, ops: Operand)
  datatype Entry = Entry(off: nat, size: nat, mn: string, ops: Operand)

  /** The disassembler: at most 16 bytes and their address, to the instruction at their start, if there is one. */
  type Decoder = (seq<byte>, nat) -> Option<Ins>

  const MOV_AL_0: seq<byte> := [0xB0, 0x00]
  const NOP: seq<byte> := [0x90]
  const PUSH_FF: seq<byte> := [0x68, 0xFF, 0x00, 0x00, 0x00]

  /** An instruction fits the bytes, depends on no others, and the three that patches write are known. */
  ghost predicate Sound(dec: Decoder) {
    && (forall w, pc :: dec(w, pc).Some? ==> 1 <= dec(w, pc).value.size <= |w|)
    && (forall w, v, pc :: dec(w, pc).Some? && Starts(v, w, dec(w, pc).value.size) ==> dec(v, pc) == dec(w, pc))
    && (forall pc :: dec(MOV_AL_0, pc) == Some(Ins(2, "mov", Text("al, 0"))))
    && (forall pc :: dec(NOP, pc) == Some(Ins(1, "nop", Text(""))))
    && (forall pc :: dec(PUSH_FF, pc) == Some(Ins(5, "push", Hex(0xFF))))
  }

  predicate Starts(v: seq<byte>, w: seq<byte>, n: nat) {
    n <= |v| && n <= |w| && v[..n] == w[..n]
  }

  function Window(buf: seq<byte>, pc: nat): seq<byte>
    requires pc <= |buf|
  {
    if pc + 16 < |buf| then buf[pc..pc + 16] else buf[pc..]
  }

  predicate IsCall(buf: seq<byte>, pc: nat)
    requires pc + 2 <= |buf|
  {
    buf[pc] == 0xCD && buf[pc + 1] == 0x20
  }

  /** A VxD service call, `INT 20h` and the service's number, or what the disassembler makes of the bytes. */
  function Step(dec: Decoder, buf: seq<byte>, pc: nat): (r: Option<Entry>)
    requires pc + 2 <= |buf|
  {
    if IsCall(buf, pc) then
      Some(Entry(pc, 6, "VxDCall", Hex(if pc + 6 <= |buf| then U32(buf, pc + 2) else 0)))
    else
      var i := dec(Window(buf, pc), pc);
      if i.None? then None else Some(Entry(pc, i.value.size, i.value.mn, i.value.ops))
  }

  lemma StepSize(dec: Decoder, buf: seq<byte>, pc: nat)
    requires Sound(dec) && pc + 2 <= |buf| && Step(dec, buf, pc).Some?
    ensures Step(dec, buf, pc).value.off == pc && Step(dec, buf, pc).value.size >= 1
    ensures !IsCall(buf, pc) ==> pc + Step(dec, buf, pc).value.size <= |buf|
  {
  }

  /** The stream from `pc` on; a byte that starts no instruction is stepped over. */
  ghost function Stream(dec: Decoder, buf: seq<byte>, pc: nat): seq<Entry>
    requires Sound(dec)
    decreases |buf| - pc
  {
    if pc + 2 > |buf| then []
    else
      var e := Step(dec, buf, pc);
      if e.None? then Stream(dec, buf, pc + 1)
      else
        StepSize(dec, buf, pc);
        [e.value] + Stream(dec, buf, pc + e.value.size)
  }

  /** `sweep` */
  method Sweep(dec: Decoder, buf: seq<byte>) returns (out: seq<Entry>)
    requires Sound(dec)
    ensures out == Stream(dec, buf, 0)
  {
    hide Sound, Stream, IsCall, Window;
    out := [];
    var pc: nat := 0;
    while pc + 1 < |buf|
      invariant out + Stream(dec, buf, pc) == Stream(dec, buf, 0)
      decreases |buf| - pc
    {
      StreamNext(dec, buf, pc);
      CallBytes(buf, pc);
      if buf[pc] == 0xCD && buf[pc + 1] == 0x20 {
        var sid := if pc + 6 <= |buf| then U32(buf, pc + 2) else 0;
        out := out + [Entry(pc, 6, "VxDCall", Hex(sid))];
        pc := pc + 6;
      } else {
        var ins := dec(Window(buf, pc), pc);
        if ins.None? {
          pc := pc + 1;
        } else {
          out := out + [Entry(pc, ins.value.size, ins.value.mn, ins.value.ops)];
          pc := pc + ins.value.size;
        }
      }
    }
    StreamEnd(dec, buf, pc);
    assert out + [] == out;
  }

  lemma StreamNext(dec: Decoder, buf: seq<byte>, pc: nat)
    requires Sound(dec) && pc + 2 <= |buf|
    ensures var e := Step(dec, buf, pc);
      if e.None? then Stream(dec, buf, pc) == Stream(dec, buf, pc + 1)
      else e.value.size >= 1 && Stream(dec, buf, pc) == [e.value] + Stream(dec, buf, pc + e.value.size)
  {
    hide Step, Sound;
    if Step(dec, buf, pc).Some? {
      StepSize(dec, buf, pc);
    }
  }

  lemma StreamEnd(dec: Decoder, buf: seq<byte>, pc: nat)
    requires Sound(dec) && pc + 2 > |buf|
    ensures Stream(dec, buf, pc) == []
  {
  }

  lemma CallBytes(buf: seq<byte>, pc: nat)
    requires pc + 2 <= |buf|
    ensures IsCall(buf, pc) <==> buf[pc] == 0xCD && buf[pc + 1] == 0x20
  {
  }

  /** Instructions follow one another without overlapping. */
  lemma {:induction false} StreamRises(dec: Decoder, buf: seq<byte>, pc: nat, i: nat)
    requires Sound(dec) && i < |Stream(dec, buf, pc)|
    ensures pc <= Stream(dec, buf, pc)[i].off && Stream(dec, buf, pc)[i].off + 2 <= |buf|
    ensures Stream(dec, buf, pc)[i].size >= 1
    ensures i > 0 ==> Stream(dec, buf, pc)[i - 1].off + Stream(dec, buf, pc)[i - 1].size <= Stream(dec, buf, pc)[i].off
    decreases |buf| - pc
  {
    hide Sound;
    var e := Step(dec, buf, pc);
    if e.None? {
      StreamRises(dec, buf, pc + 1, i);
    } else {
      StepSize(dec, buf, pc);
      if i > 0 {
        StreamRises(dec, buf, pc + e.value.size, i - 1);
      }
    }
  }

  lemma {:induction false} StreamApart(dec: Decoder, buf: seq<byte>, i: nat, j: nat)
    requires Sound(dec) && i < j < |Stream(dec, buf, 0)|
    ensures Stream(dec, buf, 0)[i].off + Stream(dec, buf, 0)[i].size <= Stream(dec, buf, 0)[j].off
    decreases j
  {
    hide Sound, Stream;
    StreamRises(dec, buf, 0, j);
    if i < j - 1 {
      StreamApart(dec, buf, i, j - 1);
      StreamRises(dec, buf, 0, j - 1);
    }
  }

  lemma OffsUnique(dec: Decoder, buf: seq<byte>, i: nat, j: nat)
    requires Sound(dec) && i < |Stream(dec, buf, 0)| && j < |Stream(dec, buf, 0)|
    requires Stream(dec, buf, 0)[i].off == Stream(dec, buf, 0)[j].off
    ensures i == j
  {
    hide Sound, Stream;
    StreamRises(dec, buf, 0, i);
    StreamRises(dec, buf, 0, j);
    if i < j {
      StreamApart(dec, buf, i, j);
    } else if j < i {
      StreamApart(dec, buf, j, i);
    }
  }

  // ---- edits ----

  /** `IN` becomes `MOV AL,0`, `OUT` two `NOP`s, `PUSH imm32` becomes `PUSH 0FFh`. */
  datatype Edit = ToMov | ToNops | ToPush {
    function Code(): seq<byte> {
      match this case ToMov => MOV_AL_0 case ToNops => [0x90, 0x90] case ToPush => PUSH_FF
    }

    /** The instructions it stands for at `off`; the second `NOP` is not listed at the very end of `n` bytes. */
    function Entries(off: nat, n: nat): seq<Entry> {
      match this
      case ToMov => [Entry(off, 2, "mov", Text("al, 0"))]
      case ToNops => [Entry(off, 1, "nop", Text(""))] + if off + 3 <= n then [Entry(off + 1, 1, "nop", Text(""))]
        else []
      case ToPush => [Entry(off, 5, "push", Hex(0xFF))]
    }
  }

  /** `r` is `buf` with the edits of `sites` made, and nothing else changed. */
  ghost predicate Edited(buf: seq<byte>, r: seq<byte>, sites: map<nat, Edit>) {
    && |r| == |buf|
    && (forall o :: o in sites ==> o + |sites[o].Code()| <= |buf| && r[o..o + |sites[o].Code()|] == sites[o].Code())
    && (forall i :: 0 <= i < |buf| && Untouched(sites, i) ==> r[i] == buf[i])
  }

  ghost predicate Untouched(sites: map<nat, Edit>, i: nat) {
    forall o :: o in sites ==> !(o <= i < o + |sites[o].Code()|)
  }

  /** Each site from `pc` on is an instruction of the stream, as long as what replaces it. */
  ghost predicate OnStream(s: seq<Entry>, pc: nat, sites: map<nat, Edit>) {
    forall o :: o in sites && o >= pc ==> SiteIn(s, o, |sites[o].Code()|)
  }

  ghost predicate SiteIn(s: seq<Entry>, o: nat, size: nat) {
    exists i :: 0 <= i < |s| && s[i].off == o && s[i].size == size
  }

  /** Each instruction at a site gives way to its replacement; all others stay. */
  function Rewritten(s: seq<Entry>, sites: map<nat, Edit>, n: nat): seq<Entry> {
    if s == [] then []
    else (if s[0].off in sites then sites[s[0].off].Entries(s[0].off, n) else [s[0]]) + Rewritten(s[1..], sites, n)
  }

  /** The bytes that start no instruction still start none in `r`. */
  ghost predicate StillSkipped(dec: Decoder, buf: seq<byte>, r: seq<byte>, pc: nat)
    requires Sound(dec) && |r| == |buf|
    decreases |buf| - pc
  {
    if pc + 2 > |buf| then true
    else
      var e := Step(dec, buf, pc);
      if e.None? then dec(Window(r, pc), pc).None? && StillSkipped(dec, buf, r, pc + 1)
      else
        StepSize(dec, buf, pc);
        StillSkipped(dec, buf, r, pc + e.value.size)
  }

  /** What holds at every point where the two streams are in step. */
  ghost predicate InStep(dec: Decoder, buf: seq<byte>, r: seq<byte>, sites: map<nat, Edit>, pc: nat)
    requires Sound(dec)
  {
    && Edited(buf, r, sites) && OnStream(Stream(dec, buf, pc), pc, sites)
    && (forall o :: o in sites && o < pc ==> o + |sites[o].Code()| <= pc)
  }

  lemma OffsBeyond(dec: Decoder, buf: seq<byte>, pc: nat)
    requires Sound(dec)
    ensures forall i :: 0 <= i < |Stream(dec, buf, pc)| ==> Stream(dec, buf, pc)[i].off >= pc
  {
    hide Sound, Stream;
    forall i | 0 <= i < |Stream(dec, buf, pc)|
      ensures Stream(dec, buf, pc)[i].off >= pc
    {
      StreamRises(dec, buf, pc, i);
    }
  }

  /** Stepping over a byte keeps the streams in step, and the byte is as it was. */
  lemma SkipInStep(dec: Decoder, buf: seq<byte>, r: seq<byte>, sites: map<nat, Edit>, pc: nat)
    requires Sound(dec) && InStep(dec, buf, r, sites, pc) && pc + 2 <= |buf| && Step(dec, buf, pc).None?
    ensures InStep(dec, buf, r, sites, pc + 1) && pc !in sites && r[pc] == buf[pc]
  {
    hide Sound, Step;
    OffsBeyond(dec, buf, pc + 1);
    assert Stream(dec, buf, pc) == Stream(dec, buf, pc + 1);
    assert Untouched(sites, pc);
  }

  /** So does stepping over an instruction; if no site, its bytes are as they were. */
  lemma NextInStep(dec: Decoder, buf: seq<byte>, r: seq<byte>, sites: map<nat, Edit>, pc: nat, e: Entry)
    requires Sound(dec) && InStep(dec, buf, r, sites, pc) && pc + 2 <= |buf| && Step(dec, buf, pc) == Some(e)
    ensures e.off == pc && e.size >= 1 && InStep(dec, buf, r, sites, pc + e.size)
    ensures pc in sites ==> e.size == |sites[pc].Code()|
    ensures pc !in sites ==> forall i :: pc <= i < pc + e.size && i < |buf| ==> r[i] == buf[i]
  {
    hide Sound, Step, Stream, Edited, OnStream, Edit.Code;
    StepSize(dec, buf, pc);
    OffsBeyond(dec, buf, pc + e.size);
    StreamNext(dec, buf, pc);
    NextSites(Stream(dec, buf, pc), e, Stream(dec, buf, pc + e.size), pc, sites);
    if pc !in sites {
      UntouchedThere(buf, r, sites, pc, pc + e.size);
    }
  }

  /** Behind the first instruction, the sites are on the rest of the stream. */
  lemma NextSites(s: seq<Entry>, e: Entry, rest: seq<Entry>, pc: nat, sites: map<nat, Edit>)
    requires s == [e] + rest && e.off == pc && e.size >= 1 && OnStream(s, pc, sites)
    requires forall i :: 0 <= i < |rest| ==> rest[i].off >= pc + e.size
    ensures OnStream(rest, pc + e.size, sites)
    ensures forall o :: o in sites && o >= pc ==> if o == pc then e.size == |sites[o].Code()| else o >= pc + e.size
  {
    hide Edit.Code;
    forall o | o in sites && o >= pc
      ensures o == pc ==> e.size == |sites[o].Code()|
      ensures o != pc ==> o >= pc + e.size && SiteIn(rest, o, |sites[o].Code()|)
    {
      var i :| 0 <= i < |s| && s[i].off == o && s[i].size == |sites[o].Code()|;
      assert i > 0 ==> s[i] == rest[i - 1];
    }
  }

  lemma UntouchedThere(buf: seq<byte>, r: seq<byte>, sites: map<nat, Edit>, lo: nat, hi: nat)
    requires Edited(buf, r, sites) && forall o :: o in sites ==> o + |sites[o].Code()| <= lo || o >= hi
    ensures forall i :: lo <= i < hi && i < |buf| ==> r[i] == buf[i]
  {
    hide Edit.Code;
    forall i | lo <= i < hi && i < |buf|
      ensures r[i] == buf[i]
    {
      assert Untouched(sites, i);
    }
  }

  /** No edit makes or unmakes a service call where an unedited byte stands. */
  lemma CallKept(buf: seq<byte>, r: seq<byte>, sites: map<nat, Edit>, pc: nat)
    requires Edited(buf, r, sites) && pc + 2 <= |buf| && r[pc] == buf[pc] && !IsCall(buf, pc)
    requires forall o :: o in sites ==> o + |sites[o].Code()| <= pc || o > pc
    ensures !IsCall(r, pc)
  {
    hide Edit.Code;
    if r[pc + 1] != buf[pc + 1] {
      assert !Untouched(sites, pc + 1);
      var o :| o in sites && o <= pc + 1 < o + |sites[o].Code()|;
      assert o == pc + 1;
      CodeStart(r, o, sites[o]);
    }
  }

  lemma CodeStart(r: seq<byte>, o: nat, edit: Edit)
    requires o + |edit.Code()| <= |r| && r[o..o + |edit.Code()|] == edit.Code()
    ensures |edit.Code()| > 0 && r[o] != 0x20
  {
    assert r[o] == edit.Code()[0];
  }

  lemma SitesClear(dec: Decoder, buf: seq<byte>, r: seq<byte>, sites: map<nat, Edit>, pc: nat)
    requires Sound(dec) && InStep(dec, buf, r, sites, pc) && pc !in sites
    ensures forall o :: o in sites ==> o + |sites[o].Code()| <= pc || o > pc
  {
  }

  lemma StepKept(dec: Decoder, buf: seq<byte>, r: seq<byte>, sites: map<nat, Edit>, pc: nat, e: Entry)
    requires Sound(dec) && InStep(dec, buf, r, sites, pc) && pc + 2 <= |buf| && Step(dec, buf, pc) == Some(e)
    requires pc !in sites
    ensures Step(dec, r, pc) == Some(e)
  {
    hide InStep;
    NextInStep(dec, buf, r, sites, pc, e);
    SitesClear(dec, buf, r, sites, pc);
    StepSize(dec, buf, pc);
    assert r[pc] == buf[pc] && |r| == |buf| by { EditedSize(dec, buf, r, sites, pc); }
    if IsCall(buf, pc) {
      assert r[pc + 1] == buf[pc + 1];
    } else {
      CallKept(buf, r, sites, pc) by { EditedSize(dec, buf, r, sites, pc); }
      var w, v := Window(buf, pc), Window(r, pc);
      assert Starts(v, w, e.size) by {
        assert forall i :: 0 <= i < e.size ==> v[i] == r[pc + i] && w[i] == buf[pc + i];
      }
    }
  }

  lemma EditedSize(dec: Decoder, buf: seq<byte>, r: seq<byte>, sites: map<nat, Edit>, pc: nat)
    requires Sound(dec) && InStep(dec, buf, r, sites, pc)
    ensures Edited(buf, r, sites) && |r| == |buf|
  {
  }

  /** Where the bytes begin with a known instruction that is no service call, the stream does. */
  lemma KnownStep(dec: Decoder, r: seq<byte>, pc: nat, code: seq<byte>, ins: Ins)
    requires Sound(dec) && 1 <= |code| <= 16 && pc + 2 <= |r| && pc + |code| <= |r| && r[pc..pc + |code|] == code
    requires code[0] != 0xCD && (forall at :: dec(code, at) == Some(ins)) && ins.size == |code|
    ensures Stream(dec, r, pc) == [Entry(pc, ins.size, ins.mn, ins.ops)] + Stream(dec, r, pc + ins.size)
  {
    var v := Window(r, pc);
    assert r[pc] == r[pc..pc + |code|][0];
    assert Starts(v, code, ins.size) by {
      assert v[..|code|] == r[pc..pc + |code|] && code[..|code|] == code;
    }
    assert dec(code, pc) == Some(ins);
    assert dec(v, pc) == dec(code, pc);
  }

  lemma SiteStep(dec: Decoder, r: seq<byte>, pc: nat, edit: Edit)
    requires Sound(dec) && pc + |edit.Code()| <= |r| && r[pc..pc + |edit.Code()|] == edit.Code()
    ensures Stream(dec, r, pc) == edit.Entries(pc, |r|) + Stream(dec, r, pc + |edit.Code()|)
  {
    hide Stream;
    var code := edit.Code();
    match edit
    case ToMov => KnownStep(dec, r, pc, MOV_AL_0, Ins(2, "mov", Text("al, 0")));
    case ToPush => KnownStep(dec, r, pc, PUSH_FF, Ins(5, "push", Hex(0xFF)));
    case ToNops =>
      assert r[pc..pc + 1] == NOP by { assert r[pc] == r[pc..pc + 2][0]; }
      assert r[pc + 1..pc + 2] == NOP by { assert r[pc + 1] == r[pc..pc + 2][1]; }
      KnownStep(dec, r, pc, NOP, Ins(1, "nop", Text("")));
      if pc + 3 <= |r| {
        KnownStep(dec, r, pc + 1, NOP, Ins(1, "nop", Text("")));
        assert forall a: seq<Entry>, b: seq<Entry>, c: seq<Entry> :: a + (b + c) == (a + b) + c;
      } else {
        EndOfStream(dec, r, pc + 1);
        EndOfStream(dec, r, pc + 2);
      }
  }

  lemma EndOfStream(dec: Decoder, r: seq<byte>, pc: nat)
    requires Sound(dec) && pc + 2 > |r|
    ensures Stream(dec, r, pc) == []
  {
  }

  lemma {:induction false} RewrittenOffs(s: seq<Entry>, sites: map<nat, Edit>, n: nat, lo: nat)
    requires forall i :: 0 <= i < |s| ==> s[i].off >= lo
    ensures forall i :: 0 <= i < |Rewritten(s, sites, n)| ==> Rewritten(s, sites, n)[i].off >= lo
    decreases |s|
  {
    if s != [] {
      RewrittenOffs(s[1..], sites, n, lo);
    }
  }

  /** The edited bytes decode to the rewritten stream exactly when no byte that started no instruction now starts
      one. */
  lemma {:induction false} EditsRewrite(dec: Decoder, buf: seq<byte>, r: seq<byte>, sites: map<nat, Edit>, pc: nat)
    requires Sound(dec) && InStep(dec, buf, r, sites, pc)
    ensures |r| == |buf|
    ensures Stream(dec, r, pc) == Rewritten(Stream(dec, buf, pc), sites, |buf|) <==> StillSkipped(dec, buf, r, pc)
    decreases |buf| - pc
  {
    hide Sound, InStep, Step, Window, Edit.Entries, Edit.Code;
    EditedSize(dec, buf, r, sites, pc);
    if pc + 2 <= |buf| {
      var e := Step(dec, buf, pc);
      if e.None? {
        SkipInStep(dec, buf, r, sites, pc);
        SkipOrNot(dec, buf, r, sites, pc);
        EditsRewrite(dec, buf, r, sites, pc + 1);
      } else {
        NextInStep(dec, buf, r, sites, pc, e.value);
        EditsRewrite(dec, buf, r, sites, pc + e.value.size);
        var rest, more := Stream(dec, r, pc + e.value.size),
          Rewritten(Stream(dec, buf, pc + e.value.size), sites, |buf|);
        if pc in sites {
          SiteBytes(dec, buf, r, sites, pc);
          SiteStep(dec, r, pc, sites[pc]);
          SameHead(sites[pc].Entries(pc, |buf|), rest, more);
        } else {
          StepKept(dec, buf, r, sites, pc, e.value);
          SameHead([e.value], rest, more);
        }
      }
    }
  }

  lemma SameHead(h: seq<Entry>, a: seq<Entry>, b: seq<Entry>)
    ensures h + a == h + b <==> a == b
  {
    if h + a == h + b {
      assert a == (h + a)[|h|..] && b == (h + b)[|h|..];
    }
  }

  lemma SiteBytes(dec: Decoder, buf: seq<byte>, r: seq<byte>, sites: map<nat, Edit>, pc: nat)
    requires Sound(dec) && InStep(dec, buf, r, sites, pc) && pc in sites
    ensures pc + |sites[pc].Code()| <= |r| && r[pc..pc + |sites[pc].Code()|] == sites[pc].Code()
  {
  }

  /** A skipped byte either stays skipped or puts an instruction where the rewritten stream has none. */
  lemma SkipOrNot(dec: Decoder, buf: seq<byte>, r: seq<byte>, sites: map<nat, Edit>, pc: nat)
    requires Sound(dec) && InStep(dec, buf, r, sites, pc) && pc + 2 <= |buf| == |r| && Step(dec, buf, pc).None?
    ensures Step(dec, r, pc).None? <==> dec(Window(r, pc), pc).None?
    ensures Step(dec, r, pc).Some? ==> Stream(dec, r, pc) != Rewritten(Stream(dec, buf, pc), sites, |buf|)
  {
    hide InStep, Window, Rewritten, Edit.Entries;
    SkipInStep(dec, buf, r, sites, pc);
    SitesClear(dec, buf, r, sites, pc);
    EditedSize(dec, buf, r, sites, pc);
    CallKept(buf, r, sites, pc);
    OffsBeyond(dec, buf, pc + 1);
    RewrittenOffs(Stream(dec, buf, pc + 1), sites, |buf|, pc + 1);
    if Step(dec, r, pc).Some? {
      assert Stream(dec, r, pc)[0].off == pc;
    }
  }

  /** The whole object: patching verified sites rewrites them and moves nothing else. */
  lemma PatchRewrites(dec: Decoder, buf: seq<byte>, r: seq<byte>, sites: map<nat, Edit>)
    requires Sound(dec) && Edited(buf, r, sites) && OnStream(Stream(dec, buf, 0), 0, sites)
    ensures Stream(dec, r, 0) == Rewritten(Stream(dec, buf, 0), sites, |buf|) <==> StillSkipped(dec, buf, r, 0)
  {
    EditsRewrite(dec, buf, r, sites, 0);
  }

  /** No instruction starts inside another, so nothing found inside one is on the stream. */
  lemma InsideIsNoStart(dec: Decoder, buf: seq<byte>, i: nat, x: nat)
    requires Sound(dec) && i < |Stream(dec, buf, 0)|
    requires Stream(dec, buf, 0)[i].off < x < Stream(dec, buf, 0)[i].off + Stream(dec, buf, 0)[i].size
    ensures forall j :: 0 <= j < |Stream(dec, buf, 0)| ==> Stream(dec, buf, 0)[j].off != x
  {
    hide Sound, Stream;
    forall j | 0 <= j < |Stream(dec, buf, 0)|
      ensures Stream(dec, buf, 0)[j].off != x
    {
      if j < i {
        StreamApart(dec, buf, j, i);
      } else if i < j {
        StreamApart(dec, buf, i, j);
      }
    }
  }

  // ---- which skipped bytes matter ----

  /** The bytes that start no instruction and are stepped over. */
  ghost function Skipped(dec: Decoder, buf: seq<byte>, pc: nat): set<nat>
    requires Sound(dec)
    decreases |buf| - pc
  {
    if pc + 2 > |buf| then {}
    else
      var e := Step(dec, buf, pc);
      if e.None? then {pc} + Skipped(dec, buf, pc + 1)
      else
        StepSize(dec, buf, pc);
        Skipped(dec, buf, pc + e.value.size)
  }

  /** A site lies in the bytes behind `p` that the disassembler is shown. */
  ghost predicate NearSite(sites: map<nat, Edit>, p: nat) {
    exists o :: o in sites && p < o < p + 16
  }

  /** Of the stock bytes: no site lies near a skipped byte. */
  ghost predicate SitesFar(dec: Decoder, buf: seq<byte>, sites: map<nat, Edit>)
    requires Sound(dec)
  {
    forall p :: p in Skipped(dec, buf, 0) ==> !NearSite(sites, p)
  }

  lemma {:induction false} SkippedInside(dec: Decoder, buf: seq<byte>, pc: nat)
    requires Sound(dec)
    ensures forall p :: p in Skipped(dec, buf, pc) ==> pc <= p && p + 2 <= |buf|
    decreases |buf| - pc
  {
    hide Sound, Step;
    if pc + 2 <= |buf| {
      var e := Step(dec, buf, pc);
      if e.None? {
        SkippedInside(dec, buf, pc + 1);
      } else {
        StepSize(dec, buf, pc);
        SkippedInside(dec, buf, pc + e.value.size);
      }
    }
  }

  /** What the disassembler is shown at `p` is as it was unless a site lies near. */
  lemma WindowKept(buf: seq<byte>, r: seq<byte>, sites: map<nat, Edit>, p: nat)
    requires Edited(buf, r, sites) && p <= |buf| && !NearSite(sites, p)
    requires forall o :: o in sites ==> o + |sites[o].Code()| <= p || o > p
    ensures |r| == |buf| && Window(r, p) == Window(buf, p)
  {
    var n := if p + 16 < |buf| then p + 16 else |buf|;
    forall i | p <= i < n
      ensures r[i] == buf[i]
    {
      assert Untouched(sites, i);
    }
    assert Window(r, p) == r[p..n] && Window(buf, p) == buf[p..n];
  }

  lemma SkipKept(dec: Decoder, buf: seq<byte>, r: seq<byte>, sites: map<nat, Edit>, pc: nat)
    requires Sound(dec) && InStep(dec, buf, r, sites, pc) && pc + 2 <= |buf| && Step(dec, buf, pc).None?
      && !NearSite(sites, pc)
    ensures |r| == |buf| && dec(Window(r, pc), pc).None?
  {
    hide Sound;
    EditedSize(dec, buf, r, sites, pc);
    SkipInStep(dec, buf, r, sites, pc);
    SitesClear(dec, buf, r, sites, pc);
    WindowKept(buf, r, sites, pc);
  }

  /** Skipped bytes stay skipped exactly when those do that have a site in the 15 bytes behind them. */
  lemma {:induction false} OnlyNearMatter(dec: Decoder, buf: seq<byte>, r: seq<byte>, sites: map<nat, Edit>, pc: nat)
    requires Sound(dec) && InStep(dec, buf, r, sites, pc)
    ensures |r| == |buf| && forall p :: p in Skipped(dec, buf, pc) ==> p <= |buf|
    ensures StillSkipped(dec, buf, r, pc) <==>
      forall p :: p in Skipped(dec, buf, pc) && NearSite(sites, p) ==> dec(Window(r, p), p).None?
    decreases |buf| - pc
  {
    hide Sound, Step, InStep, NearSite, Window;
    EditedSize(dec, buf, r, sites, pc);
    SkippedInside(dec, buf, pc);
    if pc + 2 <= |buf| {
      var e := Step(dec, buf, pc);
      if e.None? {
        SkipInStep(dec, buf, r, sites, pc);
        OnlyNearMatter(dec, buf, r, sites, pc + 1);
        if !NearSite(sites, pc) {
          SkipKept(dec, buf, r, sites, pc);
        }
      } else {
        NextInStep(dec, buf, r, sites, pc, e.value);
        OnlyNearMatter(dec, buf, r, sites, pc + e.value.size);
      }
    }
  }

  lemma AllInStep(dec: Decoder, buf: seq<byte>, r: seq<byte>, sites: map<nat, Edit>)
    requires Sound(dec) && Edited(buf, r, sites) && OnStream(Stream(dec, buf, 0), 0, sites)
    ensures InStep(dec, buf, r, sites, 0)
  {
  }

  /** A condition on the stock bytes and the sites alone: with no site near a skipped byte, all stay skipped. */
  lemma FarStaysSkipped(dec: Decoder, buf: seq<byte>, r: seq<byte>, sites: map<nat, Edit>)
    requires Sound(dec) && Edited(buf, r, sites) && OnStream(Stream(dec, buf, 0), 0, sites) && SitesFar(dec, buf, sites)
    ensures |r| == |buf| && StillSkipped(dec, buf, r, 0)
  {
    hide Sound, Edited, OnStream, Skipped, Window, StillSkipped, NearSite;
    AllInStep(dec, buf, r, sites);
    OnlyNearMatter(dec, buf, r, sites, 0);
  }

  // ---- the condition is not idle ----

  /** A small instruction set that satisfies the assumptions. */
  function Toy(w: seq<byte>, pc: nat): Option<Ins> {
    if |w| >= 2 && w[0] == 0xB0 && w[1] == 0 then Some(Ins(2, "mov", Text("al, 0")))
    else if |w| >= 1 && w[0] == 0x90 then Some(Ins(1, "nop", Text("")))
    else if |w| >= 5 && w[0] == 0x68 && w[1] == 0xFF && w[2] == w[3] == w[4] == 0 then Some(Ins(5, "push", Hex(0xFF)))
    else if |w| >= 2 && w[0] == 0xE4 then Some(Ins(2, "in", Text("al")))
    else if |w| >= 6 && w[0] == 0xC4 && w[1] == 0xB0 then Some(Ins(6, "les", Text("esi, [eax]")))
    else None
  }

  lemma ToySound()
    ensures Sound(Toy)
  {
    forall w: seq<byte>, v: seq<byte>, pc: nat | Toy(w, pc).Some? && Starts(v, w, Toy(w, pc).value.size)
      ensures Toy(v, pc) == Toy(w, pc)
    {
      ToyLocal(w, v, pc);
    }
  }

  lemma ToyLocal(w: seq<byte>, v: seq<byte>, pc: nat)
    requires Toy(w, pc).Some? && Starts(v, w, Toy(w, pc).value.size)
    ensures Toy(v, pc) == Toy(w, pc)
  {
    var n := Toy(w, pc).value.size;
    forall i | 0 <= i < n
      ensures v[i] == w[i]
    {
      assert v[..n][i] == w[..n][i];
    }
  }

  const STOCK: seq<byte> := [0xC4, 0xE4, 0xC0, 0x00, 0x00, 0x00]
  const WOKEN: seq<byte> := [0xC4, 0xB0, 0x00, 0x00, 0x00, 0x00]

  /** A byte that starts no instruction can come to start one when the instruction behind it is replaced: `C4 E4` is
      unassigned, `C4 B0` begins a six-byte `LES`. Then the patched stream is not the stock stream rewritten. */
  lemma SkippedByteWakes()
    ensures Sound(Toy) && Edited(STOCK, WOKEN, map[1 := ToMov]) && OnStream(Stream(Toy, STOCK, 0), 0, map[1 := ToMov])
    ensures Stream(Toy, WOKEN, 0) != Rewritten(Stream(Toy, STOCK, 0), map[1 := ToMov], 6)
  {
    hide Sound, Edited, OnStream, Rewritten, StillSkipped;
    ToySound();
    StockStream();
    WokenEdit();
    OneOnStream(Stream(Toy, STOCK, 0));
    PatchRewrites(Toy, STOCK, WOKEN, map[1 := ToMov]);
    Woken();
  }

  lemma StockStream()
    requires Sound(Toy)
    ensures Step(Toy, STOCK, 0).None? && |Stream(Toy, STOCK, 0)| > 0
    ensures Stream(Toy, STOCK, 0)[0] == Entry(1, 2, "in", Text("al"))
  {
    hide Sound;
    assert Window(STOCK, 0) == STOCK && Window(STOCK, 1) == [0xE4, 0xC0, 0x00, 0x00, 0x00];
    assert Stream(Toy, STOCK, 1) == [Entry(1, 2, "in", Text("al"))] + Stream(Toy, STOCK, 3);
    assert Stream(Toy, STOCK, 0) == Stream(Toy, STOCK, 1);
  }

  lemma WokenEdit()
    ensures Edited(STOCK, WOKEN, map[1 := ToMov])
  {
    var sites := map[1 := ToMov];
    assert WOKEN[1..3] == MOV_AL_0;
    forall i | 0 <= i < 6 && Untouched(sites, i)
      ensures WOKEN[i] == STOCK[i]
    {
      assert 1 in sites && sites[1].Code() == MOV_AL_0;
    }
  }

  lemma OneOnStream(s: seq<Entry>)
    requires |s| > 0 && s[0].off == 1 && s[0].size == 2
    ensures OnStream(s, 0, map[1 := ToMov])
  {
    assert ToMov.Code() == MOV_AL_0;
    assert SiteIn(s, 1, 2);
  }

  lemma Woken()
    requires Sound(Toy) && Step(Toy, STOCK, 0).None?
    ensures !StillSkipped(Toy, STOCK, WOKEN, 0)
  {
    hide Sound;
    assert Window(WOKEN, 0) == WOKEN;
  }
}
