/** Finding instructions by file offset and patching port accesses away (vxd-patches/vxdstream.py, patch_vdmad.py,
    patch_vpicd.py). */
module VxdPatch {
  import Arith
  import opened Bytes
  import opened VxdStream
  import opened Wrappers

  // ---- objects of a linear executable ----

  datatype Obj = Obj(vsize: nat, flags: nat, pidx: nat) {
    predicate Executable() { flags / 4 % 2 == 1 }
  }

  /** Object table, page map, first data page, page size. */
  datatype Le = Le(objs: seq<Obj>, opt: nat, dp: nat, ps: nat)

  /** The header fields and the object table are in the file. */
  predicate HasHeader(d: seq<byte>) {
    && 0x40 <= |d| && U32(d, 0x3C) + 132 <= |d|
    && ObjectTable(d) + U32(d, U32(d, 0x3C) + 68) * 24 <= |d| && U32(d, U32(d, 0x3C) + 40) > 0
  }

  function ObjectTable(d: seq<byte>): nat
    requires 0x40 <= |d| && U32(d, 0x3C) + 132 <= |d|
  {
    U32(d, U32(d, 0x3C) + 64) + U32(d, 0x3C)
  }

  function ObjAt(d: seq<byte>, o: nat): Obj
    requires o + 24 <= |d|
  {
    Obj(U32(d, o), U32(d, o + 8), U32(d, o + 12))
  }

  function ObjsFrom(d: seq<byte>, o: nat, n: nat): (r: seq<Obj>)
    requires o + n * 24 <= |d|
    ensures |r| == n && forall i :: 0 <= i < n ==> r[i] == ObjAt(d, o + i * 24)
  {
    seq(n, i requires 0 <= i < n => ObjAt(d, o + i * 24))
  }

  /** `le_objects` */
  function LeObjects(d: seq<byte>): Le
    requires HasHeader(d)
  {
    var h := U32(d, 0x3C);
    Le(ObjsFrom(d, ObjectTable(d), U32(d, h + 68)), U32(d, h + 72) + h, U32(d, h + 128), U32(d, h + 40))
  }

  /** Where the page map says which page of the file has the object's offset `off`. */
  function MapEntry(le: Le, o: Obj, off: nat): int
    requires le.ps > 0
  {
    le.opt + (o.pidx - 1 + off / le.ps) * 4
  }

  /** `file_off` */
  function FileOff(d: seq<byte>, le: Le, o: Obj, off: nat): int
    requires le.ps > 0 && 0 <= MapEntry(le, o, off) && MapEntry(le, o, off) + 3 <= |d|
  {
    var pt := MapEntry(le, o, off);
    var pnum := d[pt] as int * 0x1_0000 + d[pt + 1] as int * 0x100 + d[pt + 2] as int;
    le.dp + (pnum - 1) * le.ps + off % le.ps
  }

  /** Every byte of an executable object has a place in the file. */
  ghost predicate Placed(d: seq<byte>, le: Le, o: Obj) {
    && le.ps > 0
    && (forall off: nat :: off < o.vsize ==>
         && 0 <= MapEntry(le, o, off) && MapEntry(le, o, off) + 3 <= |d|
         && 0 <= FileOff(d, le, o, off) < |d|)
  }

  ghost function FileMap(d: seq<byte>, le: Le, o: Obj): (r: seq<nat>)
    requires Placed(d, le, o)
    ensures |r| == o.vsize && forall off :: 0 <= off < o.vsize ==> r[off] == FileOff(d, le, o, off)
  {
    seq(o.vsize, off requires 0 <= off < o.vsize => FileOff(d, le, o, off))
  }

  ghost predicate Loadable(d: seq<byte>) {
    HasHeader(d) && forall k :: 0 <= k < |LeObjects(d).objs| && LeObjects(d).objs[k].Executable() ==>
      Placed(d, LeObjects(d), LeObjects(d).objs[k])
  }

  /** File offsets of the bytes of each executable object; none for the others. */
  ghost function Maps(d: seq<byte>): (r: seq<seq<nat>>)
    requires Loadable(d)
    ensures |r| == |LeObjects(d).objs|
    ensures forall k :: 0 <= k < |r| ==>
      r[k] == if LeObjects(d).objs[k].Executable() then FileMap(d, LeObjects(d), LeObjects(d).objs[k]) else []
    ensures InFile(r, |d|)
  {
    var le := LeObjects(d);
    seq(|le.objs|, k requires 0 <= k < |le.objs| => if le.objs[k].Executable() then FileMap(d, le, le.objs[k]) else [])
  }

  ghost predicate InFile(maps: seq<seq<nat>>, n: nat) {
    forall k, i :: 0 <= k < |maps| && 0 <= i < |maps[k]| ==> maps[k][i] < n
  }

  /** No byte of the file belongs to two places of the program. */
  ghost predicate Apart(maps: seq<seq<nat>>) {
    forall k, i, l, j ::
      0 <= k < |maps| && 0 <= i < |maps[k]| && 0 <= l < |maps| && 0 <= j < |maps[l]| && maps[k][i] == maps[l][j] ==>
        k == l && i == j
  }

  /** The bytes that `fmap` picks from the file. */
  ghost function Contents(d: seq<byte>, fmap: seq<nat>): (r: seq<byte>)
    requires forall i :: 0 <= i < |fmap| ==> fmap[i] < |d|
    ensures |r| == |fmap| && forall i :: 0 <= i < |r| ==> r[i] == d[fmap[i]]
  {
    seq(|fmap|, i requires 0 <= i < |fmap| => d[fmap[i]])
  }

  /** Inside a page of the file bytes lie as in the object. */
  lemma SamePage(d: seq<byte>, le: Le, o: Obj, off: nat)
    requires Placed(d, le, o) && off + 1 < o.vsize && off % le.ps != le.ps - 1
    ensures FileOff(d, le, o, off + 1) == FileOff(d, le, o, off) + 1
  {
    var q, m := off / le.ps, off % le.ps;
    assert off + 1 == q * le.ps + (m + 1);
    Arith.Parts(off + 1, le.ps, q, m + 1);
  }

  // ---- instructions by file offset ----

  datatype Found = Found(obj: nat, entry: Entry)

  ghost function ObjStream(dec: Decoder, d: seq<byte>, k: nat): seq<Entry>
    requires Sound(dec) && Loadable(d) && k < |Maps(d)|
  {
    Stream(dec, Contents(d, Maps(d)[k]), 0)
  }

  /** Instruction `i` of object `k` starts at file offset `x`. */
  ghost predicate IsAt(dec: Decoder, d: seq<byte>, k: nat, i: nat, x: nat)
    requires Sound(dec) && Loadable(d)
  {
    && k < |Maps(d)| && i < |ObjStream(dec, d, k)| && ObjStream(dec, d, k)[i].off < |Maps(d)[k]|
    && Maps(d)[k][ObjStream(dec, d, k)[i].off] == x
  }

  ghost predicate StartsAt(dec: Decoder, d: seq<byte>, x: nat, f: Found)
    requires Sound(dec) && Loadable(d)
  {
    exists i: nat :: IsAt(dec, d, f.obj, i, x) && ObjStream(dec, d, f.obj)[i] == f.entry
  }

  /** Bytes and file offsets of one object. */
  method Load(d: seq<byte>, le: Le, o: Obj) returns (buf: seq<byte>, fmap: seq<nat>)
    requires Placed(d, le, o)
    ensures fmap == FileMap(d, le, o) && buf == Contents(d, fmap)
  {
    hide MapEntry, FileOff;
    buf, fmap := [], [];
    for off := 0 to o.vsize
      invariant |buf| == |fmap| == off
      invariant forall i :: 0 <= i < off ==> fmap[i] == FileMap(d, le, o)[i] && buf[i] == d[fmap[i]]
    {
      var fo := FileOff(d, le, o, off);
      buf := buf + [d[fo]];
      fmap := fmap + [fo];
    }
  }

  /** Enters the instructions of one object. */
  method Enter(dec: Decoder, d: seq<byte>, k: nat, buf: seq<byte>, fmap: seq<nat>, before: map<nat, Found>)
    returns (out: map<nat, Found>)
    requires Sound(dec) && Loadable(d) && k < |Maps(d)| && fmap == Maps(d)[k]
    requires (forall i :: 0 <= i < |fmap| ==> fmap[i] < |d|) && buf == Contents(d, fmap)
    requires forall x :: x in before ==> StartsAt(dec, d, x, before[x])
    ensures forall x :: x in out ==> StartsAt(dec, d, x, out[x])
    ensures forall x :: x in before ==> x in out
    ensures forall i: nat, x: nat :: IsAt(dec, d, k, i, x) ==> x in out
  {
    hide Sound, Loadable, Maps, Stream, Contents, StartsAt;
    out := before;
    var s := Sweep(dec, buf);
    assert s == ObjStream(dec, d, k);
    for i := 0 to |s|
      invariant forall x :: x in out ==> StartsAt(dec, d, x, out[x])
      invariant forall x :: x in before ==> x in out
      invariant forall j: nat, x: nat :: j < i && IsAt(dec, d, k, j, x) ==> x in out
    {
      StreamRises(dec, buf, 0, i);
      Starting(dec, d, k, i, fmap[s[i].off], s[i]);
      out := out[fmap[s[i].off] := Found(k, s[i])];
    }
  }

  /** `true_boundaries`: the instruction at each file offset where one starts. */
  method TrueBoundaries(dec: Decoder, d: seq<byte>) returns (out: map<nat, Found>)
    requires Sound(dec) && Loadable(d)
    ensures forall x :: x in out ==> StartsAt(dec, d, x, out[x])
    ensures forall k: nat, i: nat, x: nat :: IsAt(dec, d, k, i, x) ==> x in out
  {
    hide Sound, Loadable, Maps, Stream, Contents, StartsAt, IsAt, Placed, FileMap, HasHeader, LeObjects, ObjStream,
      Obj.Executable;
    out := map[];
    ShapeOf(d);
    var le := LeObjects(d);
    for k := 0 to |le.objs|
      invariant forall x :: x in out ==> StartsAt(dec, d, x, out[x])
      invariant forall l: nat, i: nat, x: nat :: l < k && IsAt(dec, d, l, i, x) ==> x in out
    {
      if le.objs[k].Executable() {
        var buf, fmap := Load(d, le, le.objs[k]);
        out := Enter(dec, d, k, buf, fmap, out);
      } else {
        Silent(dec, d, k);
      }
    }
    NoMore(dec, d);
  }

  lemma NoMore(dec: Decoder, d: seq<byte>)
    requires Sound(dec) && Loadable(d)
    ensures forall k: nat, i: nat, x: nat :: IsAt(dec, d, k, i, x) ==> k < |LeObjects(d).objs|
  {
  }

  lemma Starting(dec: Decoder, d: seq<byte>, k: nat, i: nat, x: nat, e: Entry)
    requires Sound(dec) && Loadable(d) && IsAt(dec, d, k, i, x) && ObjStream(dec, d, k)[i] == e
    ensures StartsAt(dec, d, x, Found(k, e))
  {
  }

  lemma ShapeOf(d: seq<byte>)
    requires Loadable(d)
    ensures HasHeader(d) && |Maps(d)| == |LeObjects(d).objs|
    ensures forall k :: 0 <= k < |LeObjects(d).objs| ==>
      if LeObjects(d).objs[k].Executable()
      then Placed(d, LeObjects(d), LeObjects(d).objs[k]) && Maps(d)[k] == FileMap(d, LeObjects(d), LeObjects(d).objs[k])
      else Maps(d)[k] == []
    ensures InFile(Maps(d), |d|)
  {
  }

  lemma Silent(dec: Decoder, d: seq<byte>, k: nat)
    requires Sound(dec) && Loadable(d) && k < |Maps(d)| && Maps(d)[k] == []
    ensures ObjStream(dec, d, k) == []
    ensures forall i: nat, x: nat :: !IsAt(dec, d, k, i, x)
  {
    hide Sound, Loadable, Maps;
  }

  // ---- verification of candidates ----

  datatype Reason = InsideAnother | NotTwoByteInOut | OffStream

  /** Why a candidate is refused: the bytes of another instruction come first. */
  predicate Refusal(b: map<nat, Found>, x: nat, why: Reason) {
    why == if exists fo :: fo in b && fo < x < fo + b[fo].entry.size then InsideAnother
           else if x in b then NotTwoByteInOut else OffStream
  }

  predicate PortAccess(e: Entry) {
    (e.mn == "in" || e.mn == "out") && e.size == 2
  }

  /** `verify_sites` */
  method VerifySites(dec: Decoder, d: seq<byte>, cands: seq<nat>)
    returns (b: map<nat, Found>, good: seq<nat>, bad: seq<(nat, Reason)>)
    requires Sound(dec) && Loadable(d)
    ensures forall x :: x in b ==> StartsAt(dec, d, x, b[x])
    ensures forall k: nat, i: nat, x: nat :: IsAt(dec, d, k, i, x) ==> x in b
    ensures forall x :: x in good <==> x in cands && x in b && PortAccess(b[x].entry)
    ensures forall x :: (exists y :: (x, y) in bad) <==> x in cands && !(x in b && PortAccess(b[x].entry))
    ensures forall y :: y in bad ==> Refusal(b, y.0, y.1)
    ensures |good| + |bad| == |cands|
  {
    hide Sound, Loadable, StartsAt, IsAt;
    b := TrueBoundaries(dec, d);
    good, bad := [], [];
    for c := 0 to |cands|
      invariant forall x :: x in good <==> x in cands[..c] && x in b && PortAccess(b[x].entry)
      invariant forall y :: y in bad ==> y.0 in cands[..c] && !(y.0 in b && PortAccess(b[y.0].entry))
      invariant forall x :: x in cands[..c] && !(x in b && PortAccess(b[x].entry)) ==> exists y :: (x, y) in bad
      invariant forall y :: y in bad ==> Refusal(b, y.0, y.1)
      invariant |good| + |bad| == c
    {
      var off := cands[c];
      assert cands[..c + 1] == cands[..c] + [off];
      if off in b && PortAccess(b[off].entry) {
        good := good + [off];
      } else {
        var inside := exists fo :: fo in b && fo < off < fo + b[fo].entry.size;
        var why := if inside then InsideAnother else if off in b then NotTwoByteInOut else OffStream;
        ghost var was := bad;
        bad := bad + [(off, why)];
        assert bad[|was|] == (off, why);
        assert forall x, y :: (x, y) in was ==> (x, y) in bad;
      }
    }
    assert cands[..|cands|] == cands;
  }

  // ---- edits of the file, and what they do to the program ----

  /** Each edit replaces one instruction of the program, byte for byte as long. */
  ghost predicate OnProgram(dec: Decoder, d: seq<byte>, goods: map<nat, Edit>)
    requires Sound(dec) && Loadable(d)
  {
    forall x :: x in goods ==> Fits(dec, d, x, |goods[x].Code()|)
  }

  ghost predicate Fits(dec: Decoder, d: seq<byte>, x: nat, size: nat)
    requires Sound(dec) && Loadable(d)
  {
    exists k: nat, i: nat :: IsAt(dec, d, k, i, x) && ObjStream(dec, d, k)[i].size == size
  }

  /** The bytes of an edited instruction lie side by side in the file: it does not straddle pages that do not adjoin. */
  ghost predicate Straight(maps: seq<seq<nat>>, goods: map<nat, Edit>) {
    forall k, i :: 0 <= k < |maps| && 0 <= i < |maps[k]| && maps[k][i] in goods ==>
      Run(maps[k], i, |goods[maps[k][i]].Code()|)
  }

  ghost predicate Run(fmap: seq<nat>, i: nat, n: nat) {
    i + n <= |fmap| && forall j :: i <= j < i + n ==> fmap[j] == fmap[i] + (j - i)
  }

  /** The edits of one object, by object offset. */
  ghost function SitesOf(fmap: seq<nat>, goods: map<nat, Edit>): map<nat, Edit> {
    map i: nat | 0 <= i < |fmap| && fmap[i] in goods :: goods[fmap[i]]
  }

  lemma Located(dec: Decoder, d: seq<byte>, x: nat, size: nat, k: nat, o: nat)
    requires Sound(dec) && Loadable(d) && Apart(Maps(d)) && Fits(dec, d, x, size)
    requires k < |Maps(d)| && o < |Maps(d)[k]| && Maps(d)[k][o] == x
    ensures SiteIn(ObjStream(dec, d, k), o, size)
  {
    hide Sound, Loadable, Maps, Stream, Contents;
    var l: nat, i: nat :| IsAt(dec, d, l, i, x) && ObjStream(dec, d, l)[i].size == size;
    assert l == k && ObjStream(dec, d, l)[i].off == o;
  }

  lemma Somewhere(dec: Decoder, d: seq<byte>, x: nat, size: nat) returns (k: nat, o: nat)
    requires Sound(dec) && Loadable(d) && Fits(dec, d, x, size)
    ensures k < |Maps(d)| && o < |Maps(d)[k]| && Maps(d)[k][o] == x
  {
    hide Sound, Loadable, Maps, Stream, Contents;
    var i: nat;
    k, i :| IsAt(dec, d, k, i, x) && ObjStream(dec, d, k)[i].size == size;
    o := ObjStream(dec, d, k)[i].off;
  }

  lemma TextEdited(dec: Decoder, d: seq<byte>, r: seq<byte>, goods: map<nat, Edit>, k: nat)
    requires Sound(dec) && Loadable(d) && Apart(Maps(d)) && Straight(Maps(d), goods) && OnProgram(dec, d, goods)
    requires Edited(d, r, goods) && k < |Maps(d)| && InFile(Maps(d), |d|)
    ensures Edited(Contents(d, Maps(d)[k]), Contents(r, Maps(d)[k]), SitesOf(Maps(d)[k], goods))
  {
    hide Sound, Loadable, Maps, Stream, Fits, Edit.Code, Contents, Apart, Straight, OnProgram, Edited, Run;
    var fmap := Maps(d)[k];
    EditedSame(d, r, goods);
    forall o | o in SitesOf(fmap, goods)
      ensures SiteWritten(Contents(r, fmap), o, SitesOf(fmap, goods)[o].Code())
    {
      OneSite(d, r, fmap, goods, o) by { RunAt(Maps(d), goods, k, o); }
    }
    forall i | 0 <= i < |fmap| && Untouched(SitesOf(fmap, goods), i)
      ensures Contents(r, fmap)[i] == Contents(d, fmap)[i]
    {
      UntouchedThere(dec, d, goods, k, i);
      SameByteOf(d, r, goods, fmap, i);
    }
    EditedFrom(Contents(d, fmap), Contents(r, fmap), SitesOf(fmap, goods));
  }

  predicate SiteWritten(s: seq<byte>, o: nat, code: seq<byte>) {
    o + |code| <= |s| && s[o..o + |code|] == code
  }

  lemma EditedSame(d: seq<byte>, r: seq<byte>, goods: map<nat, Edit>)
    requires Edited(d, r, goods)
    ensures |r| == |d|
  {
  }

  lemma EditedFrom(buf: seq<byte>, r: seq<byte>, sites: map<nat, Edit>)
    requires |r| == |buf|
    requires forall o :: o in sites ==> SiteWritten(r, o, sites[o].Code())
    requires forall i :: 0 <= i < |buf| && Untouched(sites, i) ==> r[i] == buf[i]
    ensures Edited(buf, r, sites)
  {
  }

  lemma RunAt(maps: seq<seq<nat>>, goods: map<nat, Edit>, k: nat, o: nat)
    requires Straight(maps, goods) && k < |maps| && o < |maps[k]| && maps[k][o] in goods
    ensures Run(maps[k], o, |goods[maps[k][o]].Code()|)
  {
  }

  lemma OneSite(d: seq<byte>, r: seq<byte>, fmap: seq<nat>, goods: map<nat, Edit>, o: nat)
    requires Edited(d, r, goods) && (forall i :: 0 <= i < |fmap| ==> fmap[i] < |d|)
    requires o < |fmap| && fmap[o] in goods && Run(fmap, o, |goods[fmap[o]].Code()|)
    ensures SiteWritten(Contents(r, fmap), o, goods[fmap[o]].Code())
  {
    hide Edit.Code, Contents;
    var code, text := goods[fmap[o]].Code(), Contents(r, fmap);
    forall j | 0 <= j < |code|
      ensures text[o + j] == code[j]
    {
      assert fmap[o + j] == fmap[o] + j;
      assert r[fmap[o]..fmap[o] + |code|][j] == code[j];
    }
  }

  lemma SameByteOf(d: seq<byte>, r: seq<byte>, goods: map<nat, Edit>, fmap: seq<nat>, i: nat)
    requires Edited(d, r, goods) && (forall i :: 0 <= i < |fmap| ==> fmap[i] < |d|)
    requires i < |fmap| && Untouched(goods, fmap[i])
    ensures Contents(r, fmap)[i] == Contents(d, fmap)[i]
  {
    hide Edit.Code, Untouched;
  }

  /** Where an edit of the file reaches a byte of an object, it is an edit of the object that does. */
  lemma TouchedThere(dec: Decoder, d: seq<byte>, goods: map<nat, Edit>, k: nat, i: nat, g: nat)
    requires Sound(dec) && Loadable(d) && Apart(Maps(d)) && Straight(Maps(d), goods) && OnProgram(dec, d, goods)
    requires k < |Maps(d)| && i < |Maps(d)[k]| && g in goods && g <= Maps(d)[k][i] < g + |goods[g].Code()|
    ensures !Untouched(SitesOf(Maps(d)[k], goods), i)
  {
    hide *;
    var x, n := Maps(d)[k][i], |goods[g].Code()|;
    FitsAt(dec, d, goods, g);
    var l, o := Somewhere(dec, d, g, n);
    RunAt(Maps(d), goods, l, o);
    RunByte(Maps(d)[l], o, n, x - g);
    SameByte(Maps(d), l, o + (x - g), k, i);
    TouchedBy(Maps(d)[k], goods, o, i);
  }

  lemma FitsAt(dec: Decoder, d: seq<byte>, goods: map<nat, Edit>, g: nat)
    requires Sound(dec) && Loadable(d) && OnProgram(dec, d, goods) && g in goods
    ensures Fits(dec, d, g, |goods[g].Code()|)
  {
  }

  lemma RunByte(fmap: seq<nat>, o: nat, n: nat, j: nat)
    requires Run(fmap, o, n) && j < n
    ensures o + j < |fmap| && fmap[o + j] == fmap[o] + j
  {
  }

  lemma TouchedBy(fmap: seq<nat>, goods: map<nat, Edit>, o: nat, i: nat)
    requires o < |fmap| && fmap[o] in goods && o <= i < o + |goods[fmap[o]].Code()|
    ensures !Untouched(SitesOf(fmap, goods), i)
  {
    hide Edit.Code;
    assert o in SitesOf(fmap, goods);
  }

  lemma UntouchedThere(dec: Decoder, d: seq<byte>, goods: map<nat, Edit>, k: nat, i: nat)
    requires Sound(dec) && Loadable(d) && Apart(Maps(d)) && Straight(Maps(d), goods) && OnProgram(dec, d, goods)
    requires k < |Maps(d)| && i < |Maps(d)[k]| && Untouched(SitesOf(Maps(d)[k], goods), i)
    ensures Untouched(goods, Maps(d)[k][i])
  {
    hide *;
    forall g | g in goods && g <= Maps(d)[k][i] < g + |goods[g].Code()|
      ensures false
    {
      TouchedThere(dec, d, goods, k, i, g);
    }
    NotTouched(goods, Maps(d)[k][i]);
  }

  lemma NotTouched(goods: map<nat, Edit>, x: nat)
    requires forall g :: g in goods ==> !(g <= x < g + |goods[g].Code()|)
    ensures Untouched(goods, x)
  {
  }

  lemma SitesOnStream(dec: Decoder, d: seq<byte>, goods: map<nat, Edit>, k: nat)
    requires Sound(dec) && Loadable(d) && Apart(Maps(d)) && OnProgram(dec, d, goods) && k < |Maps(d)|
    ensures OnStream(ObjStream(dec, d, k), 0, SitesOf(Maps(d)[k], goods))
  {
    hide Sound, Loadable, Maps, ObjStream, Fits, Edit.Code, SiteIn;
    var sites := SitesOf(Maps(d)[k], goods);
    forall o | o in sites
      ensures SiteIn(ObjStream(dec, d, k), o, |sites[o].Code()|)
    {
      Located(dec, d, Maps(d)[k][o], |sites[o].Code()|, k, o);
    }
  }

  /** Editing whole instructions of the file rewrites exactly these instructions of each object's stream,
      if and only if bytes that started no instruction still start none. */
  lemma ProgramRewritten(dec: Decoder, d: seq<byte>, r: seq<byte>, goods: map<nat, Edit>, k: nat)
    requires Sound(dec) && Loadable(d) && Apart(Maps(d)) && Straight(Maps(d), goods) && OnProgram(dec, d, goods)
    requires Edited(d, r, goods) && k < |Maps(d)|
    ensures |r| == |d| && InFile(Maps(d), |d|)
    ensures Stream(dec, Contents(r, Maps(d)[k]), 0) ==
              Rewritten(ObjStream(dec, d, k), SitesOf(Maps(d)[k], goods), |Maps(d)[k]|)
            <==> StillSkipped(dec, Contents(d, Maps(d)[k]), Contents(r, Maps(d)[k]), 0)
  {
    hide Sound, Loadable, Maps, Stream, OnProgram, Apart, Straight, OnStream, Rewritten, StillSkipped, SitesOf,
      Contents;
    ShapeOf(d);
    TextEdited(dec, d, r, goods, k);
    SitesOnStream(dec, d, goods, k);
    PatchRewrites(dec, Contents(d, Maps(d)[k]), Contents(r, Maps(d)[k]), SitesOf(Maps(d)[k], goods));
  }

  // ---- patch_vdmad.py and patch_vpicd.py ----

  predicate IsCandidate(d: seq<byte>, ports: set<byte>, i: nat) {
    i + 1 < |d| && (d[i] == 0xE4 || d[i] == 0xE6) && d[i + 1] in ports
  }

  /** The bytes that look like `IN AL,port` or `OUT port,AL`. */
  method Candidates(d: seq<byte>, ports: set<byte>) returns (cands: seq<nat>)
    ensures forall i: nat :: i in cands <==> IsCandidate(d, ports, i)
    ensures forall a, b :: 0 <= a < b < |cands| ==> cands[a] < cands[b]
  {
    cands := [];
    for i := 0 to |d|
      invariant forall x: nat :: x in cands <==> x < i && IsCandidate(d, ports, x)
      invariant forall a :: 0 <= a < |cands| ==> cands[a] < i
      invariant forall a, b :: 0 <= a < b < |cands| ==> cands[a] < cands[b]
    {
      if i + 1 < |d| && (d[i] == 0xE4 || d[i] == 0xE6) && d[i + 1] in ports {
        cands := cands + [i];
      }
    }
  }

  function EditFor(e: Entry): (r: Edit)
    ensures |r.Code()| == 2
  {
    if e.mn == "out" then ToNops else ToMov
  }

  ghost predicate EditsApart(goods: map<nat, Edit>) {
    forall x, y :: x in goods && y in goods && x < y ==> x + |goods[x].Code()| <= y
  }

  lemma SameByte(maps: seq<seq<nat>>, k: nat, o: nat, l: nat, p: nat)
    requires Apart(maps) && k < |maps| && l < |maps| && o < |maps[k]| && p < |maps[l]| && maps[k][o] == maps[l][p]
    ensures k == l && o == p
  {
  }

  lemma SamePlace(maps: seq<seq<nat>>, k: nat, o: nat, l: nat, p: nat, n: nat)
    requires Apart(maps) && k < |maps| && l < |maps| && o < |maps[k]| && p < |maps[l]|
    requires Run(maps[k], o, n) && maps[k][o] < maps[l][p] < maps[k][o] + n
    ensures k == l && p == o + (maps[l][p] - maps[k][o])
  {
    assert maps[k][o + (maps[l][p] - maps[k][o])] == maps[l][p];
  }

  /** Two instructions of the program do not share bytes of the file. */
  lemma TwoApart(dec: Decoder, d: seq<byte>, k: nat, i: nat, x: nat, l: nat, j: nat, y: nat)
    requires Sound(dec) && Loadable(d) && Apart(Maps(d)) && IsAt(dec, d, k, i, x) && IsAt(dec, d, l, j, y) && x < y
    requires Run(Maps(d)[k], ObjStream(dec, d, k)[i].off, ObjStream(dec, d, k)[i].size)
    ensures x + ObjStream(dec, d, k)[i].size <= y
  {
    hide *;
    Placing(dec, d, k, i, x);
    Placing(dec, d, l, j, y);
    ShapeOf(d);
    var o, p := ObjStream(dec, d, k)[i].off, ObjStream(dec, d, l)[j].off;
    if y < x + ObjStream(dec, d, k)[i].size {
      SamePlace(Maps(d), k, o, l, p, ObjStream(dec, d, k)[i].size);
      InsideOne(dec, d, k, i, p);
    }
  }

  lemma InsideOne(dec: Decoder, d: seq<byte>, k: nat, i: nat, p: nat)
    requires Sound(dec) && Loadable(d) && k < |Maps(d)| && i < |ObjStream(dec, d, k)|
    requires ObjStream(dec, d, k)[i].off < p < ObjStream(dec, d, k)[i].off + ObjStream(dec, d, k)[i].size
    ensures forall j :: 0 <= j < |ObjStream(dec, d, k)| ==> ObjStream(dec, d, k)[j].off != p
  {
    hide Sound, Loadable, Maps, Stream, Contents;
    ShapeOf(d);
    InsideIsNoStart(dec, Contents(d, Maps(d)[k]), i, p);
  }

  lemma Placing(dec: Decoder, d: seq<byte>, k: nat, i: nat, x: nat)
    requires Sound(dec) && Loadable(d) && IsAt(dec, d, k, i, x)
    ensures k < |Maps(d)| && i < |ObjStream(dec, d, k)| && ObjStream(dec, d, k)[i].off < |Maps(d)[k]|
    ensures Maps(d)[k][ObjStream(dec, d, k)[i].off] == x
  {
  }

  lemma ProgramApart(dec: Decoder, d: seq<byte>, goods: map<nat, Edit>)
    requires Sound(dec) && Loadable(d) && Apart(Maps(d)) && Straight(Maps(d), goods) && OnProgram(dec, d, goods)
    ensures EditsApart(goods)
  {
    hide Sound, Loadable, Maps, ObjStream, Edit.Code, Apart, Run, IsAt, Straight, Fits;
    forall x, y | x in goods && y in goods && x < y
      ensures x + |goods[x].Code()| <= y
    {
      PairApart(dec, d, goods, x, y);
    }
  }

  lemma PairApart(dec: Decoder, d: seq<byte>, goods: map<nat, Edit>, x: nat, y: nat)
    requires Sound(dec) && Loadable(d) && Apart(Maps(d)) && Straight(Maps(d), goods)
    requires x in goods && x < y && Fits(dec, d, x, |goods[x].Code()|) && (exists n: nat :: Fits(dec, d, y, n))
    ensures x + |goods[x].Code()| <= y
  {
    hide Sound, Loadable, Maps, ObjStream, Edit.Code, Apart, Run;
    var k: nat, i: nat :| IsAt(dec, d, k, i, x) && ObjStream(dec, d, k)[i].size == |goods[x].Code()|;
    var n: nat :| Fits(dec, d, y, n);
    var l: nat, j: nat :| IsAt(dec, d, l, j, y) && ObjStream(dec, d, l)[j].size == n;
    Placing(dec, d, k, i, x);
    TwoApart(dec, d, k, i, x, l, j, y);
  }

  /** Makes the edits, one after the other. */
  method Apply(d: seq<byte>, good: seq<nat>, goods: map<nat, Edit>) returns (r: seq<byte>)
    requires forall x :: x in good <==> x in goods
    requires forall x :: x in goods ==> x + |goods[x].Code()| <= |d|
    ensures |r| == |d| && (EditsApart(goods) ==> Edited(d, r, goods))
  {
    hide Edit.Code;
    r := d;
    for c := 0 to |good|
      invariant |r| == |d|
      invariant forall i :: 0 <= i < |d| && Untouched(goods, i) ==> r[i] == d[i]
      invariant EditsApart(goods) ==> forall x :: x in good[..c] ==> Written(r, x, goods[x].Code())
    {
      var off, code := good[c], goods[good[c]].Code();
      var was := r;
      r := Splice(r, off, code);
      WrittenNow(was, off, code);
      if EditsApart(goods) {
        forall x | x in good[..c + 1]
          ensures Written(r, x, goods[x].Code())
        {
          if x != off {
            assert x in good[..c];
            WrittenStill(was, off, code, x, goods[x].Code());
          }
        }
      }
    }
  }

  predicate Written(r: seq<byte>, x: nat, code: seq<byte>) {
    x + |code| <= |r| && r[x..x + |code|] == code
  }

  lemma WrittenNow(s: seq<byte>, off: nat, code: seq<byte>)
    requires off + |code| <= |s|
    ensures Written(Splice(s, off, code), off, code)
  {
  }

  lemma WrittenStill(s: seq<byte>, off: nat, code: seq<byte>, x: nat, other: seq<byte>)
    requires off + |code| <= |s| && Written(s, x, other) && (x + |other| <= off || off + |code| <= x)
    ensures Written(Splice(s, off, code), x, other)
  {
    CutElsewhere(s, off, code, x, |other|);
  }


  /** The bytes that the two-byte edits of `goods` may change. */
  function Expected(goods: set<nat>): set<nat> {
    goods + set x | x in goods :: x + 1
  }

  function Changed(d: seq<byte>, r: seq<byte>): set<nat>
    requires |r| == |d|
  {
    set i: nat | 0 <= i < |d| && r[i] != d[i]
  }

  /** The edited file differs in all the expected bytes and no others exactly when each edit changes both its bytes. */
  lemma PostCheck(d: seq<byte>, r: seq<byte>, goods: map<nat, Edit>)
    requires Edited(d, r, goods) && forall x :: x in goods ==> |goods[x].Code()| == 2
    ensures Changed(d, r) == Expected(goods.Keys) <==>
            forall x :: x in goods ==> d[x] != goods[x].Code()[0] && d[x + 1] != goods[x].Code()[1]
  {
    hide Edit.Code, Changed, Expected;
    forall x | x in goods
      ensures r[x] == goods[x].Code()[0] && r[x + 1] == goods[x].Code()[1]
    {
      assert r[x..x + 2] == goods[x].Code();
      assert r[x..x + 2][0] == r[x] && r[x..x + 2][1] == r[x + 1];
    }
    forall i: nat | i < |d| && r[i] != d[i]
      ensures i in Expected(goods.Keys)
    {
      assert !Untouched(goods, i);
      ExpectedHas(goods.Keys, i);
    }
    ChangedIs(d, r, goods.Keys);
  }

  lemma ChangedIs(d: seq<byte>, r: seq<byte>, at: set<nat>)
    requires |r| == |d| && forall x :: x in at ==> x + 1 < |d|
    requires forall i: nat :: i < |d| && r[i] != d[i] ==> i in Expected(at)
    ensures Changed(d, r) == Expected(at) <==> forall x :: x in at ==> r[x] != d[x] && r[x + 1] != d[x + 1]
  {
    forall i: nat
      ensures i in Changed(d, r) <==> i < |d| && r[i] != d[i]
      ensures i in Changed(d, r) ==> i in Expected(at)
    {
    }
    forall x | x in at
      ensures x in Expected(at) && x + 1 in Expected(at)
    {
      ExpectedHas(at, x);
      ExpectedHas(at, x + 1);
    }
    if forall x :: x in at ==> r[x] != d[x] && r[x + 1] != d[x + 1] {
      forall i: nat | i in Expected(at)
        ensures i in Changed(d, r)
      {
        ExpectedHas(at, i);
        if i !in at {
          var x: nat := i - 1;
          assert x in at;
        }
      }
      assert Changed(d, r) == Expected(at);
    }
  }

  lemma ExpectedHas(at: set<nat>, i: nat)
    ensures i in Expected(at) <==> i in at || (i > 0 && i - 1 in at)
  {
    if i > 0 && i - 1 in at {
      var x: nat := i - 1;
      assert x in at && x + 1 == i;
    }
  }

  lemma CandidateFirst(d: seq<byte>, ports: set<byte>, x: nat, e: Entry)
    requires IsCandidate(d, ports, x)
    ensures d[x] != EditFor(e).Code()[0]
  {
  }

  /** An instruction that starts at `x` and accesses a port. */
  ghost predicate AccessAt(dec: Decoder, d: seq<byte>, x: nat, e: Entry)
    requires Sound(dec) && Loadable(d)
  {
    PortAccess(e) && exists k: nat, i: nat :: IsAt(dec, d, k, i, x) && ObjStream(dec, d, k)[i] == e
  }

  lemma OneAt(dec: Decoder, d: seq<byte>, x: nat, f: Found, e: Entry)
    requires Sound(dec) && Loadable(d) && Apart(Maps(d)) && StartsAt(dec, d, x, f) && AccessAt(dec, d, x, e)
    ensures f.entry == e && PortAccess(e)
  {
    hide Sound, Loadable, Maps, ObjStream, Apart;
    var i: nat :| IsAt(dec, d, f.obj, i, x) && ObjStream(dec, d, f.obj)[i] == f.entry;
    var l: nat, j: nat :| IsAt(dec, d, l, j, x) && ObjStream(dec, d, l)[j] == e;
    SameByte(Maps(d), l, e.off, f.obj, f.entry.off);
    if i != j {
      OffsDiffer(dec, d, l, if i < j then i else j, if i < j then j else i);
    }
  }

  lemma OffsDiffer(dec: Decoder, d: seq<byte>, k: nat, i: nat, j: nat)
    requires Sound(dec) && Loadable(d) && k < |Maps(d)| && i < j < |ObjStream(dec, d, k)|
    ensures ObjStream(dec, d, k)[i].off < ObjStream(dec, d, k)[j].off
  {
    hide Sound, Loadable, Maps, Stream, Contents;
    ShapeOf(d);
    StreamApart(dec, Contents(d, Maps(d)[k]), i, j);
    StreamRises(dec, Contents(d, Maps(d)[k]), 0, i);
  }

  lemma Chosen(dec: Decoder, d: seq<byte>, x: nat, f: Found)
    requires Sound(dec) && Loadable(d) && StartsAt(dec, d, x, f) && PortAccess(f.entry)
    ensures AccessAt(dec, d, x, f.entry) && Fits(dec, d, x, 2)
  {
    hide Sound, Loadable, Maps, ObjStream;
  }

  /** The candidates that are instructions of the program, and the edit for each. */
  method Select(dec: Decoder, d: seq<byte>, ports: set<byte>) returns (good: seq<nat>, goods: map<nat, Edit>)
    requires Sound(dec) && Loadable(d)
    ensures forall x :: x in good <==> x in goods
    ensures forall x :: x in goods ==> Chose(dec, d, ports, x, goods[x])
    ensures Apart(Maps(d)) ==> forall x: nat, e :: IsCandidate(d, ports, x) && AccessAt(dec, d, x, e) ==> x in goods
  {
    hide Sound, Loadable, Maps, StartsAt, IsAt, AccessAt, Fits, Apart, Edit.Code, PortAccess;
    var cands := Candidates(d, ports);
    var b, bad;
    b, good, bad := VerifySites(dec, d, cands);
    goods := map x | x in good :: EditFor(b[x].entry);
    forall x | x in goods
      ensures Chose(dec, d, ports, x, goods[x])
    {
      Chosen(dec, d, x, b[x]);
      CandidateFirst(d, ports, x, b[x].entry);
    }
    if Apart(Maps(d)) {
      AllEntered(dec, d, b);
    }
  }

  /** Edit `g` at `x` is what a verified candidate asks for. */
  ghost predicate Chose(dec: Decoder, d: seq<byte>, ports: set<byte>, x: nat, g: Edit)
    requires Sound(dec) && Loadable(d)
  {
    && IsCandidate(d, ports, x) && (exists e :: AccessAt(dec, d, x, e) && g == EditFor(e))
    && Fits(dec, d, x, 2) && |g.Code()| == 2 && d[x] != g.Code()[0]
  }

  /** A run of the patch scripts: nothing when no site is verified; else the patched file and the post-check's
      verdict. */
  method PatchPorts(dec: Decoder, d: seq<byte>, ports: set<byte>)
    returns (r: Option<seq<byte>>, ok: bool, goods: map<nat, Edit>)
    requires Sound(dec) && Loadable(d)
    ensures forall x :: x in goods ==> Chose(dec, d, ports, x, goods[x])
    ensures Apart(Maps(d)) ==> forall x: nat, e :: IsCandidate(d, ports, x) && AccessAt(dec, d, x, e) ==> x in goods
    ensures OnProgram(dec, d, goods)
    ensures r.None? <==> goods == map[]
    ensures r.Some? && Apart(Maps(d)) && Straight(Maps(d), goods) ==>
              && Edited(d, r.value, goods)
              && (ok <==> PortsChange(d, goods))
  {
    hide Sound, Loadable, Maps, IsAt, AccessAt, Apart, Straight, Edit.Code, Edited, EditsApart, Changed, Expected,
      PortsChange, Fits;
    var good;
    good, goods := Select(dec, d, ports);
    ok := false;
    if |good| == 0 {
      return None, false, goods;
    }
    assert good[0] in goods;
    var data := Apply(d, good, goods);
    ok := Changed(d, data) == Expected(goods.Keys);
    if Apart(Maps(d)) && Straight(Maps(d), goods) {
      ProgramApart(dec, d, goods);
      CheckPasses(dec, d, ports, data, goods);
    }
    return Some(data), ok, goods;
  }

  /** No edit writes the port's number over itself. */
  ghost predicate PortsChange(d: seq<byte>, goods: map<nat, Edit>) {
    forall x :: x in goods ==> x + 1 < |d| && |goods[x].Code()| == 2 && d[x + 1] != goods[x].Code()[1]
  }

  lemma CheckPasses(dec: Decoder, d: seq<byte>, ports: set<byte>, r: seq<byte>, goods: map<nat, Edit>)
    requires Sound(dec) && Loadable(d) && forall x :: x in goods ==> Chose(dec, d, ports, x, goods[x])
    requires Edited(d, r, goods)
    ensures Changed(d, r) == Expected(goods.Keys) <==> PortsChange(d, goods)
  {
    hide Sound, Loadable, AccessAt, Fits, Edit.Code, Edited, Changed, Expected;
    PostCheck(d, r, goods);
  }

  /** Neither script's ports are numbers that an edit writes: the check cannot fail. */
  lemma PortsDiffer(dec: Decoder, d: seq<byte>, ports: set<byte>, goods: map<nat, Edit>)
    requires Sound(dec) && Loadable(d) && forall x :: x in goods ==> Chose(dec, d, ports, x, goods[x])
    requires 0x00 !in ports && 0x90 !in ports
    ensures PortsChange(d, goods)
  {
    hide Sound, Loadable, AccessAt, Fits;
    forall x | x in goods
      ensures x + 1 < |d| && |goods[x].Code()| == 2 && d[x + 1] != goods[x].Code()[1]
    {
      assert Chose(dec, d, ports, x, goods[x]);
    }
  }

  lemma AllEntered(dec: Decoder, d: seq<byte>, b: map<nat, Found>)
    requires Sound(dec) && Loadable(d) && Apart(Maps(d)) && (forall x :: x in b ==> StartsAt(dec, d, x, b[x]))
    requires forall k: nat, i: nat, x: nat :: IsAt(dec, d, k, i, x) ==> x in b
    ensures forall x: nat, e :: AccessAt(dec, d, x, e) ==> x in b && b[x].entry == e && PortAccess(e)
  {
    hide Sound, Loadable, Maps, StartsAt, IsAt, AccessAt, Apart;
    forall x: nat, e | AccessAt(dec, d, x, e)
      ensures x in b && b[x].entry == e && PortAccess(e)
    {
      Entered(dec, d, x, e);
      OneAt(dec, d, x, b[x], e);
    }
  }

  lemma Entered(dec: Decoder, d: seq<byte>, x: nat, e: Entry)
    requires Sound(dec) && Loadable(d) && AccessAt(dec, d, x, e)
    ensures exists k: nat, i: nat :: IsAt(dec, d, k, i, x)
  {
  }

  /** Bytes inside an instruction are never chosen, whatever they look like. */
  lemma InsideRefused(dec: Decoder, d: seq<byte>, k: nat, i: nat, p: nat, e: Entry)
    requires Sound(dec) && Loadable(d) && Apart(Maps(d)) && k < |Maps(d)| && i < |ObjStream(dec, d, k)|
    requires ObjStream(dec, d, k)[i].off < p < ObjStream(dec, d, k)[i].off + ObjStream(dec, d, k)[i].size
    requires p < |Maps(d)[k]|
    ensures !AccessAt(dec, d, Maps(d)[k][p], e)
  {
    hide Sound, Loadable, Maps, ObjStream, Apart;
    if AccessAt(dec, d, Maps(d)[k][p], e) {
      var l: nat, j: nat :| IsAt(dec, d, l, j, Maps(d)[k][p]) && ObjStream(dec, d, l)[j] == e;
      SameByte(Maps(d), k, p, l, e.off);
      InsideOne(dec, d, k, i, p);
    }
  }

  // ---- the patched file, parsed again ----

  /** Header, object table and page map lie in the first `n` bytes. */
  ghost predicate TablesBelow(d: seq<byte>, n: nat) {
    && HasHeader(d) && n <= |d| && 0x40 <= n && U32(d, 0x3C) + 132 <= n
    && ObjectTable(d) + U32(d, U32(d, 0x3C) + 68) * 24 <= n
    && forall k, off: nat ::
         0 <= k < |LeObjects(d).objs| && LeObjects(d).objs[k].Executable() && off < LeObjects(d).objs[k].vsize ==>
           MapEntry(LeObjects(d), LeObjects(d).objs[k], off) + 3 <= n
  }

  ghost predicate SameStart(d: seq<byte>, r: seq<byte>, n: nat) {
    |r| == |d| && n <= |d| && forall i :: 0 <= i < n ==> r[i] == d[i]
  }

  lemma SameField(d: seq<byte>, r: seq<byte>, n: nat, o: nat)
    requires SameStart(d, r, n) && o + 4 <= n
    ensures U32(r, o) == U32(d, o)
  {
  }

  lemma SameObj(d: seq<byte>, r: seq<byte>, n: nat, o: nat)
    requires SameStart(d, r, n) && o + 24 <= n
    ensures ObjAt(r, o) == ObjAt(d, o)
  {
    hide SameStart, U32;
    assert |r| == |d| && n <= |d| by { SameSize(d, r, n); }
    SameField(d, r, n, o);
    SameField(d, r, n, o + 8);
    SameField(d, r, n, o + 12);
  }

  lemma SameSize(d: seq<byte>, r: seq<byte>, n: nat)
    requires SameStart(d, r, n)
    ensures |r| == |d| && n <= |d|
  {
  }

  lemma SameHeader(d: seq<byte>, r: seq<byte>, n: nat)
    requires SameStart(d, r, n) && TablesBelow(d, n)
    ensures HasHeader(r) && LeObjects(r) == LeObjects(d)
  {
    hide SameStart, U32, ObjAt;
    SameSize(d, r, n);
    var h := U32(d, 0x3C);
    SameField(d, r, n, 0x3C);
    SameField(d, r, n, h + 40);
    SameField(d, r, n, h + 64);
    SameField(d, r, n, h + 68);
    SameField(d, r, n, h + 72);
    SameField(d, r, n, h + 128);
    var a, b := LeObjects(d).objs, ObjsFrom(r, ObjectTable(d), |LeObjects(d).objs|);
    forall i | 0 <= i < |a|
      ensures b[i] == a[i]
    {
      SameObj(d, r, n, ObjectTable(d) + i * 24);
    }
  }

  lemma SameTables(d: seq<byte>, r: seq<byte>, n: nat)
    requires Loadable(d) && SameStart(d, r, n) && TablesBelow(d, n)
    ensures Loadable(r) && Maps(r) == Maps(d)
  {
    hide HasHeader, LeObjects, MapEntry;
    SameHeader(d, r, n);
    var le := LeObjects(d);
    forall k, off: nat | 0 <= k < |le.objs| && le.objs[k].Executable() && off < le.objs[k].vsize
      ensures FileOff(r, le, le.objs[k], off) == FileOff(d, le, le.objs[k], off)
    {
      assert MapEntry(le, le.objs[k], off) + 3 <= n;
    }
    forall k | 0 <= k < |le.objs| && le.objs[k].Executable()
      ensures Placed(r, le, le.objs[k]) && FileMap(r, le, le.objs[k]) == FileMap(d, le, le.objs[k])
    {
    }
  }

  /** Disassembling the patched file gives the stock stream of each object with exactly the chosen instructions
      replaced, if and only if bytes that started no instruction still start none. */
  lemma PatchedFile(dec: Decoder, d: seq<byte>, r: seq<byte>, goods: map<nat, Edit>, k: nat, n: nat)
    requires Sound(dec) && Loadable(d) && Apart(Maps(d)) && Straight(Maps(d), goods) && OnProgram(dec, d, goods)
    requires Edited(d, r, goods) && TablesBelow(d, n) && (forall x :: x in goods ==> x >= n) && k < |Maps(d)|
    ensures Loadable(r) && Maps(r) == Maps(d) && |r| == |d| && InFile(Maps(d), |d|)
    ensures ObjStream(dec, r, k) == Rewritten(ObjStream(dec, d, k), SitesOf(Maps(d)[k], goods), |Maps(d)[k]|)
            <==> StillSkipped(dec, Contents(d, Maps(d)[k]), Contents(r, Maps(d)[k]), 0)
  {
    hide *;
    ProgramRewritten(dec, d, r, goods, k);
    StartKept(d, r, goods, n);
    SameTables(d, r, n);
    StreamOf(dec, r, k, Maps(d)[k]);
  }

  /** With no site of object `k` near a byte that starts no instruction, which the stock file alone decides. */
  ghost predicate FarIn(dec: Decoder, d: seq<byte>, goods: map<nat, Edit>, k: nat)
    requires Sound(dec) && Loadable(d) && k < |Maps(d)|
  {
    SitesFar(dec, Contents(d, Maps(d)[k]), SitesOf(Maps(d)[k], goods))
  }

  lemma FarFile(dec: Decoder, d: seq<byte>, r: seq<byte>, goods: map<nat, Edit>, k: nat)
    requires Sound(dec) && Loadable(d) && Apart(Maps(d)) && Straight(Maps(d), goods) && OnProgram(dec, d, goods)
    requires Edited(d, r, goods) && k < |Maps(d)| && FarIn(dec, d, goods, k)
    ensures |r| == |d| && InFile(Maps(d), |d|)
    ensures StillSkipped(dec, Contents(d, Maps(d)[k]), Contents(r, Maps(d)[k]), 0)
  {
    hide Sound, Loadable, Maps, Stream, OnProgram, Apart, Straight, OnStream, StillSkipped, SitesOf, Contents, SitesFar;
    ShapeOf(d);
    EditedSame(d, r, goods);
    TextEdited(dec, d, r, goods, k);
    SitesOnStream(dec, d, goods, k);
    FarStaysSkipped(dec, Contents(d, Maps(d)[k]), Contents(r, Maps(d)[k]), SitesOf(Maps(d)[k], goods));
  }

  /** Then disassembling the patched file gives the stock stream with exactly the chosen instructions replaced. */
  lemma FarPatched(dec: Decoder, d: seq<byte>, r: seq<byte>, goods: map<nat, Edit>, k: nat, n: nat)
    requires Sound(dec) && Loadable(d) && Apart(Maps(d)) && Straight(Maps(d), goods) && OnProgram(dec, d, goods)
    requires Edited(d, r, goods) && TablesBelow(d, n) && (forall x :: x in goods ==> x >= n) && k < |Maps(d)|
    requires FarIn(dec, d, goods, k)
    ensures Loadable(r) && Maps(r) == Maps(d) && |r| == |d|
    ensures ObjStream(dec, r, k) == Rewritten(ObjStream(dec, d, k), SitesOf(Maps(d)[k], goods), |Maps(d)[k]|)
  {
    hide *;
    PatchedFile(dec, d, r, goods, k, n);
    FarFile(dec, d, r, goods, k);
  }

  lemma StartKept(d: seq<byte>, r: seq<byte>, goods: map<nat, Edit>, n: nat)
    requires Edited(d, r, goods) && TablesBelow(d, n) && forall x :: x in goods ==> x >= n
    ensures SameStart(d, r, n)
  {
    hide HasHeader, ObjectTable, LeObjects, MapEntry, U32, Edit.Code;
    forall i | 0 <= i < n
      ensures r[i] == d[i]
    {
      assert Untouched(goods, i);
    }
  }

  lemma StreamOf(dec: Decoder, d: seq<byte>, k: nat, fmap: seq<nat>)
    requires Sound(dec) && Loadable(d) && k < |Maps(d)| && fmap == Maps(d)[k]
    ensures (forall i :: 0 <= i < |fmap| ==> fmap[i] < |d|) && ObjStream(dec, d, k) == Stream(dec, Contents(d, fmap), 0)
  {
    hide Sound, Loadable, Maps, Stream, Contents;
    ShapeOf(d);
  }
}
