/** `main` of tools/fatput.py: a file rewritten over its own clusters. */
module FatInPlace {
  import opened Arith
  import opened Bytes
  import opened FatEntries
  import opened Chains
  import opened Geometry
  import opened Volume
  import opened VolumeFiles
  import opened Directory
  import opened FatImage
  import opened FatVolume
  import opened FatCopy
  import opened FatRead
  import opened FatTool
  import opened FatPut
  import opened Wrappers

  // ---- reading extents ----

  /** What is left to read from cluster `i` on completes `b` to the first `size` bytes of the chain. */
  ghost predicate Reads(data: seq<seq<byte>>, s: seq<nat>, i: nat, b: seq<byte>, left: nat, size: nat) {
    && i <= |s| && Inside(s, |data|) && Inside(s[i..], |data|)
    && size <= |ChainBytes(data, s)| && left <= |ChainBytes(data, s[i..])|
    && b + ChainBytes(data, s[i..])[..left] == ChainBytes(data, s)[..size]
  }

  lemma ReadsNext(data: seq<seq<byte>>, s: seq<nat>, i: nat, b: seq<byte>, left: nat, size: nat, cs: nat)
    requires Reads(data, s, i, b, left, size) && i < |s| && Sized(data, cs)
    ensures 2 <= s[i] < |data| + 2 && |data[s[i] - 2]| == cs
    ensures Reads(data, s, i + 1, b + data[s[i] - 2][..Min(left, cs)], left - Min(left, cs), size)
  {
    InsideTail(s, i, |data|);
    ChainBytesHead(data, s[i..]);
    Prefixes(b, data[s[i] - 2], ChainBytes(data, s[i + 1..]), left);
  }

  lemma Prefixes(b: seq<byte>, head: seq<byte>, rest: seq<byte>, left: nat)
    requires left <= |head + rest|
    ensures left - Min(left, |head|) <= |rest|
    ensures b + head[..Min(left, |head|)] + rest[..left - Min(left, |head|)] == b + (head + rest)[..left]
  {
    var n := Min(left, |head|);
    assert head[..n] + rest[..left - n] == (head + rest)[..left];
    assert b + head[..n] + rest[..left - n] == b + (head[..n] + rest[..left - n]);
  }

  lemma ReadsAll(data: seq<seq<byte>>, s: seq<nat>, i: nat, b: seq<byte>, left: nat, size: nat)
    requires Reads(data, s, i, b, left, size) && (left == 0 || s[i..] == [])
    ensures b == ChainBytes(data, s)[..size]
  {
    assert ChainBytes(data, s[i..])[..left] == [];
  }

  lemma ClusterStart(g: Geometry, s: seq<byte>, c: nat, n: nat)
    requires g.Sane(|s|) && 2 <= c < g.Clusters() + 2 && n <= g.ClusterSize()
    ensures g.ClusterOffset(c) + n <= |s| && |ViewOf(g, s).data[c - 2]| == g.ClusterSize()
    ensures s[g.ClusterOffset(c)..g.ClusterOffset(c) + n] == ViewOf(g, s).data[c - 2][..n]
  {
    hide ViewOf, Bpb.Sane, Bpb.Clusters, Bpb.ClusterSize, Bpb.ClusterOffset;
    ClusterPlace(g, s, c);
  }

  /** `read_extents` */
  method ReadExtents(fs: FatRW, ex: seq<(nat, nat)>, ghost s: seq<nat>, ghost size: nat) returns (b: seq<byte>)
    requires fs.Ready() && Inside(s, fs.g.Clusters()) && ex == ExtentsOf(fs.g, s, size)
    requires Sized(ViewOf(fs.g, fs.img[..]).data, fs.g.ClusterSize())
      && |ViewOf(fs.g, fs.img[..]).data| == fs.g.Clusters()
    requires size <= |ChainBytes(ViewOf(fs.g, fs.img[..]).data, s)|
    ensures b == ChainBytes(ViewOf(fs.g, fs.img[..]).data, s)[..size]
  {
    hide ViewOf, Holds, Reads, ExtentsOf, Inside, ChainBytes, FatRW.Ready, Bpb.Sane, Bpb.ClusterOffset,
      Bpb.ClusterSize, Bpb.Clusters, Bpb.Fat12, Bpb.FatBytes;
    SaneView(fs);
    ghost var data := ViewOf(fs.g, fs.img[..]).data;
    Everything(s, |data|);
    b := [];
    ghost var left: nat := size;
    ReadsNone(data, s, size);
    for i := 0 to |ex|
      invariant i <= |s| && Inside(s[i..], fs.g.Clusters()) && ex[i..] == ExtentsOf(fs.g, s[i..], left)
      invariant Reads(data, s, i, b, left, size)
    {
      ExtentsNext(fs.g, ex, s, i, left);
      ClusterAtLeast(s, i, fs.g.Clusters());
      ReadsNext(data, s, i, b, left, size, fs.g.ClusterSize());
      ClusterStart(fs.g, fs.img[..], s[i], ex[i].1);
      assert fs.img[ex[i].0..ex[i].0 + ex[i].1] == fs.img[..][ex[i].0..ex[i].0 + ex[i].1];
      b := b + fs.img[ex[i].0..ex[i].0 + ex[i].1];
      left := left - Min(left, fs.g.ClusterSize());
    }
    AllRead(fs.g, s, |ex|, left);
    ReadsAll(data, s, |ex|, b, left, size);
  }

  lemma ReadsNone(data: seq<seq<byte>>, s: seq<nat>, size: nat)
    requires Inside(s, |data|) && size <= |ChainBytes(data, s)|
    ensures Reads(data, s, 0, [], size, size)
  {
    Everything(s, |data|);
    assert [] + ChainBytes(data, s)[..size] == ChainBytes(data, s)[..size];
  }

  lemma AllRead(g: Geometry, s: seq<nat>, i: nat, left: nat)
    requires i <= |s| && Inside(s[i..], g.Clusters()) && ExtentsOf(g, s[i..], left) == []
    ensures left == 0 || s[i..] == []
  {
  }

  // ---- the size field ----

  lemma SizeField(s: seq<byte>, off: nat, e: raw, size: nat)
    requires off + 32 <= |s| && Cut(s, off, 32) == e && size < 0x1_0000_0000
    ensures Splice(s, off + 28, LE32(size)) == Splice(s, off, Resized(e, size))
  {
    hide LE32;
    var a, b, r := Splice(s, off + 28, LE32(size)), Splice(s, off, Resized(e, size)), Resized(e, size);
    assert r == Splice(e, 28, LE32(size));
    forall i | 0 <= i < |s|
      ensures a[i] == b[i]
    {
      if off <= i < off + 32 { assert e[i - off] == s[i]; }
    }
  }

  lemma ResizedSame(e: raw)
    ensures Size(e) < 0x1_0000_0000 && Resized(e, Size(e)) == e
  {
    var lo, hi := U16(e, 28), U16(e, 30);
    Parts(Size(e), 0x1_0000, hi, lo);
    assert LE32(Size(e)) == LE16(lo) + LE16(hi);
    assert e[28] == LE32(Size(e))[0] && e[29] == LE32(Size(e))[1] && e[30] == LE32(Size(e))[2]
      && e[31] == LE32(Size(e))[3];
  }

  lemma RootSlot(g: Geometry, s: seq<byte>, k: nat)
    requires g.Sane(|s|) && k < g.rootent
    ensures RootSlotOffset(g, k) + 32 <= |s| && k < |Slots(ViewOf(g, s).root)|
    ensures Cut(s, RootSlotOffset(g, k), 32) == Slots(ViewOf(g, s).root)[k]
  {
    hide ViewOf, Bpb.Sane, Bpb.RootStart;
    RootPlace(g, s);
    CutCut(s, g.RootStart(), g.rootent * 32, 32 * k);
  }

  /** Where in its clusters slot `k` of a chain lies. */
  lemma {:induction false} SlotWhere(g: Geometry, data: seq<seq<byte>>, s: seq<nat>, k: nat) returns (c: nat, i: nat)
    requires Inside(s, |data|) && Sized(data, g.ClusterSize()) && k < |ChainSlots(data, s)|
    ensures k < |ChainOffsets(g, s)|
    ensures c in s && 2 <= c < |data| + 2 && 32 * i + 32 <= g.ClusterSize() == |data[c - 2]|
    ensures ChainOffsets(g, s)[k] == SlotOffset(g, c, i) && ChainSlots(data, s)[k] == Cut(data[c - 2], 32 * i, 32)
    decreases |s|
  {
    hide Bpb.ClusterSize, SlotOffset, Cut;
    SlotCounts(g, data, s);
    var n, rest := g.ClusterSize() / 32, s[1..];
    assert forall j :: 0 <= j < |rest| ==> rest[j] == s[j + 1];
    if k < n {
      c, i := s[0], k;
    } else {
      c, i := SlotWhere(g, data, rest, k - n);
    }
  }

  lemma ChainSlot(g: Geometry, s: seq<byte>, ch: seq<nat>, k: nat)
    requires g.Sane(|s|) && Inside(ch, g.Clusters()) && k < |ChainSlots(ViewOf(g, s).data, ch)|
    requires Sized(ViewOf(g, s).data, g.ClusterSize())
    ensures k < |ChainOffsets(g, ch)| && ChainOffsets(g, ch)[k] + 32 <= |s|
    ensures Cut(s, ChainOffsets(g, ch)[k], 32) == ChainSlots(ViewOf(g, s).data, ch)[k]
  {
    hide ViewOf, Bpb.Sane, Bpb.Clusters, Bpb.ClusterSize, Bpb.ClusterOffset, ChainSlots, ChainOffsets;
    var c, i := SlotWhere(g, ViewOf(g, s).data, ch, k);
    ClusterPlace(g, s, c);
    CutCut(s, g.ClusterOffset(c), g.ClusterSize(), 32 * i);
  }

  lemma CutCut(s: seq<byte>, off: nat, n: nat, o: nat)
    requires off + n <= |s| && o + 32 <= n
    ensures Cut(s[off..off + n], o, 32) == Cut(s, off + o, 32)
  {
    var t := s[off..off + n];
    forall i | 0 <= i < 32
      ensures Cut(t, o, 32)[i] == Cut(s, off + o, 32)[i]
    {
      assert t[o + i] == s[off + (o + i)];
    }
  }

  /** Rewrites the 4 bytes of the size in slot `k` of directory `d`. */
  method WriteSize(fs: FatRW, off: nat, size: nat, ghost d: nat, ghost k: nat, ghost offs: seq<nat>, ghost L: Layout)
    requires fs.Ready() && StateLaid(fs.g, fs.fat[..], ViewOf(fs.g, fs.img[..]).data, L) && size < 0x1_0000_0000
    requires d in L.dirs && OffsetsOf(fs.g, L, d, offs) && k < |offs| && offs[k] == off
    requires k < |DirOf(ViewOf(fs.g, fs.img[..]).root, ViewOf(fs.g, fs.img[..]).data, L, d)|
    modifies fs.img
    ensures fs.Ready() && fs.fat[..] == old(fs.fat[..])
    ensures var v := ViewOf(fs.g, old(fs.img[..])); var w := ViewOf(fs.g, fs.img[..]);
            && w.boot == v.boot && w.fats == v.fats && |w.data| == |v.data| && Sized(w.data, fs.g.ClusterSize())
            && VolOf(fs.g, fs.fat[..], w.root, w.data, L) ==
               WithEntry(VolOf(fs.g, fs.fat[..], v.root, v.data, L), d, k,
                 Resized(DirOf(v.root, v.data, L, d)[k], size))
  {
    hide ViewOf, Entries, Holds, Laid, VolOf, ChainSlots, Slots, ChainOffsets, WithEntry, Masked, Splice, Cut,
      Bpb.Sane, Bpb.FatStart, Bpb.FatBytes, Bpb.RootStart, Bpb.DataStart, Bpb.ClusterLimit, Bpb.Clusters,
      Bpb.ClusterSize, Bpb.Fat12, Bpb.ClusterOffset, Resized, LE32;
    ghost var v, f := ViewOf(fs.g, fs.img[..]), fs.fat[..];
    ghost var e := Resized(DirOf(v.root, v.data, L, d)[k], size);
    if d == 0 {
      RootEntryAt(fs.g, fs.img[..], f, L, k, e);
      RootSlot(fs.g, fs.img[..], k);
    } else {
      ChainEntryAt(fs.g, fs.img[..], f, L, d, k, e);
      ChainSlot(fs.g, fs.img[..], L.chains[d], k);
    }
    SizeField(fs.img[..], off, DirOf(v.root, v.data, L, d)[k], size);
    fs.WriteAt(off + 28, LE32(size));
  }

  // ---- the volume while and after its file is rewritten ----

  /** A file with its clusters, as `L` lays them out: long enough for the size of its entry. */
  lemma FileLaid(g: Geometry, s: seq<byte>, L: Layout, d: nat, k: nat)
    requires ImageOK(g, s, L) && FileAt(ImageVol(g, s, L), d, k)
    ensures var v := ImageVol(g, s, L); var e := v.dirs[d][k]; var cs := FileChainOf(L, Clus(e));
      var data := ViewOf(g, s).data;
      && |data| == g.Clusters() && Sized(data, g.ClusterSize()) && Inside(cs, g.Clusters()) && NoRepeat(cs)
      && (if Clus(e) < 2 then cs == [] else Chain(v.t, g.End(), Clus(e), cs))
      && |ChainBytes(data, cs)| == |cs| * g.ClusterSize() && Size(e) <= |cs| * g.ClusterSize()
      && (Clus(e) != 0 ==> ChainInside(v, Clus(e)) && v.chains[Clus(e)] == cs && Clus(e) !in L.dirs)
      && (Clus(e) == 0 ==> cs == [])
      && FileBytes(v, e) == ChainBytes(data, cs)[..Size(e)]
  {
    hide ViewOf, Open, Entries, Laid, Bpb.Sane, Bpb.Clusters, Bpb.ClusterSize, Bpb.Fat12, Bpb.End, DirOf, ChainBytes,
      DirOK, Masked, FileBytes, Chains.Chain, Owns;
    var v, data := ImageVol(g, s, L), ViewOf(g, s).data;
    var e := v.dirs[d][k];
    FileClusters(g, s, L, d, k);
    FileStart(g, s, L, d, k);
    SizeFits(v, g.ClusterSize(), d, k);
    if Clus(e) != 0 {
      ChainApartOf(v, g.End(), g.ClusterSize(), Clus(e));
    } else {
      NoBytes(data);
    }
    ChainLength(data, g.ClusterSize(), FileChainOf(L, Clus(e)));
  }

  lemma SizeFits(v: Vol, csize: nat, d: nat, k: nat)
    requires FileAt(v, d, k) && DirOK(v, csize, v.dirs[d])
    ensures var c := Clus(v.dirs[d][k]);
      if c == 0 then Size(v.dirs[d][k]) == 0
      else c in v.chains && Size(v.dirs[d][k]) <= |v.chains[c]| * csize
  {
    assert EntryOK(v, csize, v.dirs[d][k]);
  }

  ghost function Overlaid(v: Vol, c: nat, bytes: seq<byte>): Vol
    requires ChainInside(v, c)
  {
    v.(data := Overlay(v.data, v.chains[c], bytes))
  }

  lemma OverlaidKeeps(v: Vol, end: nat, csize: nat, c: nat, bytes: seq<byte>)
    requires VolOK(v, end, csize) && ChainInside(v, c)
    ensures VolOK(Overlaid(v, c, bytes), end, csize)
  {
    hide Laid, Overlay, Live, TreeOK;
    var w := Overlaid(v, c, bytes);
    forall d | d in w.dirs
      ensures DirOK(w, csize, w.dirs[d])
    {
      EntriesKept(v, w, csize, v.dirs[d]);
    }
    OwnersSame(v, w);
    TreeSame(v, w);
  }

  /** Writing over a file's clusters touches no directory. */
  lemma OverlaidVol(g: Geometry, f: seq<byte>, root: seq<byte>, data: seq<seq<byte>>, L: Layout, c: nat,
        bytes: seq<byte>)
    requires StateLaid(g, f, data, L) && c in L.chains && c !in L.dirs && Inside(L.chains[c], |data|)
    requires Laid(VolOf(g, f, root, data, L).t, g.End(), L.chains)
    ensures ChainInside(VolOf(g, f, root, data, L), c) && Sized(Overlay(data, L.chains[c], bytes), g.ClusterSize())
    ensures VolOf(g, f, root, Overlay(data, L.chains[c], bytes), L) == Overlaid(VolOf(g, f, root, data, L), c, bytes)
  {
    hide Entries, Masked, Overlay, ChainSlots, Slots, Bpb.Clusters, Bpb.ClusterSize, Bpb.Fat12, Bpb.End, Laid, DirOf,
      DirClusters;
    var s := L.chains[c];
    var v, w := VolOf(g, f, root, data, L), VolOf(g, f, root, Overlay(data, s, bytes), L);
    NotInDirs(L, v.t, g.End(), c, |data|);
    MaskOverlay(data, g.ClusterSize(), L, s, bytes);
    forall b | b in L.dirs
      ensures w.dirs[b] == v.dirs[b]
    {
      DirsElsewhere(L, v.t, g.End(), c, |data|, b);
      DirSame(root, data, Overlay(data, s, bytes), L, b);
    }
  }

  lemma DirsElsewhere(L: Layout, t: seq<nat>, end: nat, c: nat, n: nat, b: nat)
    requires Laid(t, end, L.chains) && c in L.chains && c !in L.dirs && b in L.dirs && DirsInside(L, n) && |t| == n + 2
    ensures b != 0 ==> b in L.chains && forall i :: 0 <= i < |L.chains[b]| ==>
      L.chains[b][i] !in L.chains[c] && L.chains[b][i] >= 2
  {
    if b != 0 {
      NotInDirs(L, t, end, c, n);
      assert forall i :: 0 <= i < |L.chains[b]| ==> L.chains[b][i] in DirClusters(L);
    }
  }

  // ---- paths after the size has changed ----

  /** Entries differ in nothing that a search looks at. */
  ghost predicate Alike(a: raw, b: raw) {
    Tag(a) == Tag(b) && a[0] == b[0] && a[11] == b[11] && Clus(a) == Clus(b)
  }

  ghost predicate SameNames(v: Vol, w: Vol) {
    w.dirs.Keys == v.dirs.Keys &&
    forall b :: b in v.dirs ==> |w.dirs[b]| == |v.dirs[b]| && forall j :: 0 <= j < |v.dirs[b]| ==>
      Alike(v.dirs[b][j], w.dirs[b][j])
  }

  lemma {:induction false} HitAlike(up: Upper, es: seq<raw>, fs: seq<raw>, part: seq<byte>, dirs: bool, i: nat)
    requires |fs| == |es| && i <= |es| && forall j :: 0 <= j < |es| ==> Alike(es[j], fs[j])
    ensures Hit(up, fs, part, dirs, i) == Hit(up, es, part, dirs, i)
    decreases |es| - i
  {
    hide NameOf, Tag, Clus;
    if i < |es| && !(Live(es[i]) && Named(up, es[i], part) && (dirs ==> IsDir(es[i]))) {
      HitAlike(up, es, fs, part, dirs, i + 1);
    }
  }

  lemma {:induction false} WalkAlike(up: Upper, v: Vol, w: Vol, b: nat, parts: seq<seq<byte>>)
    requires SameNames(v, w) && b in v.dirs
    ensures Walk(up, w, b, parts) == Walk(up, v, b, parts) && OnlyDirs(up, w, b, parts) == OnlyDirs(up, v, b, parts)
    decreases |parts|
  {
    hide Hit, Tag, Clus;
    if parts != [] {
      HitAlike(up, v.dirs[b], w.dirs[b], parts[0], true, 0);
      HitAlike(up, v.dirs[b], w.dirs[b], parts[0], false, 0);
      var k := Hit(up, v.dirs[b], parts[0], true, 0);
      if k < |v.dirs[b]| && Clus(v.dirs[b][k]) in v.dirs {
        WalkAlike(up, v, w, Clus(v.dirs[b][k]), parts[1..]);
      }
    }
  }

  lemma RewrittenNames(v: Vol, d: nat, k: nat, bytes: seq<byte>)
    requires FileAt(v, d, k) && ChainInside(v, Clus(v.dirs[d][k])) && |bytes| < 0x1_0000_0000
    ensures SameNames(v, Rewritten(v, d, k, bytes)) && FileAt(Rewritten(v, d, k, bytes), d, k)
  {
    hide Overlay, Tag, Clus;
  }

  // ---- the tool ----

  datatype PutOutcome = NoFile | TooBig | TooSmall | Same | Unconfirmed | Rewrote

  /** What the tool answers for a file that has the clusters `cs`. */
  ghost function Verdict(g: Geometry, data: seq<seq<byte>>, cs: seq<nat>, size: nat, bytes: seq<byte>,
        yes: bool): PutOutcome
    requires Inside(cs, |data|) && |ChainBytes(data, cs)| == |cs| * g.ClusterSize()
  {
    if |bytes| > |cs| * g.ClusterSize() then TooBig
    else if |bytes| < size then TooSmall
    else if ChainBytes(data, cs)[..|bytes|] == bytes then Same
    else if !yes then Unconfirmed
    else Rewrote
  }

  /** The answer `r` is the verdict on the clusters `cs`, which are whole. */
  ghost predicate Decided(g: Geometry, data: seq<seq<byte>>, cs: seq<nat>, size: nat, bytes: seq<byte>, yes: bool,
        r: PutOutcome)
  {
    && |data| == g.Clusters() && Inside(cs, |data|) && |ChainBytes(data, cs)| == |cs| * g.ClusterSize()
    && r == Verdict(g, data, cs, size, bytes, yes)
  }

  /** The file holds these bytes exactly if it is as long as they are. */
  ghost predicate SameIfAsLong(v: Vol, end: nat, csize: nat, d: nat, k: nat, bytes: seq<byte>) {
    && VolOK(v, end, csize) && FileAt(v, d, k)
    && (LookUp(v, end, csize, d, Tag(v.dirs[d][k])) == File(bytes) <==> |bytes| == Size(v.dirs[d][k]))
  }

  /** "Already byte-identical" is true of the file exactly when the new content is as long as the old: bytes that
      happen to stand behind the file's end in its last cluster are compared too, and then its size stays. */
  lemma SameMeans(g: Geometry, s: seq<byte>, L: Layout, d: nat, k: nat, bytes: seq<byte>, yes: bool)
    requires ImageOK(g, s, L) && FileAt(ImageVol(g, s, L), d, k)
    requires var e := ImageVol(g, s, L).dirs[d][k];
      Decided(g, ViewOf(g, s).data, FileChainOf(L, Clus(e)), Size(e), bytes, yes, Same)
    ensures SameIfAsLong(ImageVol(g, s, L), g.End(), g.ClusterSize(), d, k, bytes)
  {
    hide ImageOK, ImageVol, ViewOf, VolOK, Inside, Sized, ChainBytes, FileChainOf, FileBytes, ChainInside,
      Chains.Chain, NoRepeat, Clus, Size, Live, IsDir, Bpb.Clusters, Bpb.ClusterSize, Bpb.End;
    FileLaid(g, s, L, d, k);
    Rooted(g, s, L);
    LookUpAt(ImageVol(g, s, L), g.End(), g.ClusterSize(), d, k);
  }

  lemma LookUpAt(v: Vol, end: nat, csize: nat, d: nat, k: nat)
    requires VolOK(v, end, csize) && FileAt(v, d, k)
    ensures Clus(v.dirs[d][k]) != 0 ==> ChainInside(v, Clus(v.dirs[d][k]))
    ensures LookUp(v, end, csize, d, Tag(v.dirs[d][k])) == File(FileBytes(v, v.dirs[d][k]))
  {
    hide VolOK, FileBytes, Live, IsDir;
    DirsAt(v, end, csize, d);
    TagsApart(v.dirs[d], k);
    FindAt(v.dirs[d], Tag(v.dirs[d][k]), k);
    FileInside(v, end, csize, d, k);
  }

  /** `have` is the first `size` bytes of the clusters `cs`, and `ex` where they lie. */
  ghost predicate Loads(g: Geometry, data: seq<seq<byte>>, cs: seq<nat>, size: nat, ex: seq<(nat, nat)>,
        have: seq<byte>)
  {
    && |data| == g.Clusters() && Inside(cs, |data|) && ex == ExtentsOf(g, cs, size)
    && size <= |ChainBytes(data, cs)| && have == ChainBytes(data, cs)[..size]
  }

  /** `extents` and `read_extents` for the first `size` bytes of a file's clusters. */
  method Load(fs: FatRW, e: raw, size: nat, ghost d: nat, ghost k: nat, ghost L: Layout)
    returns (ex: seq<(nat, nat)>, have: seq<byte>)
    requires Reading(fs, L) && FileAt(ImageVol(fs.g, fs.img[..], L), d, k)
      && ImageVol(fs.g, fs.img[..], L).dirs[d][k] == e
    requires size <= |FileChainOf(L, Clus(e))| * fs.g.ClusterSize()
    ensures Loads(fs.g, ViewOf(fs.g, fs.img[..]).data, FileChainOf(L, Clus(e)), size, ex, have)
  {
    hide ViewOf, Entries, Holds, VolOK, VolOf, StateOK, Open, Laid, Inside, Sized, ChainBytes, FileBytes, FileChainOf,
      ChainInside, Chains.Chain, NoRepeat, Clus, Size, FileAt, ImageVol, ImageOK, FatRW.Ready, FatRW.Table, ExtentsOf,
      Reading, Bpb.Sane, Bpb.ClusterLimit, Bpb.Clusters, Bpb.ClusterSize, Bpb.Fat12, Bpb.End;
    TableIs(fs, L);
    FileLaid(fs.g, fs.img[..], L, d, k);
    SaneView(fs);
    var chain := fs.Chain(Clus(e), FileChainOf(L, Clus(e)));
    ex := Extents(fs.g, chain, size);
    have := ReadExtents(fs, ex, chain, size);
  }

  lemma TableIs(fs: FatRW, L: Layout)
    requires Reading(fs, L)
    ensures fs.Ready() && ImageOK(fs.g, fs.img[..], L)
    ensures fs.g.Sane(|fs.img[..]|) && fs.Table() == ImageVol(fs.g, fs.img[..], L).t
      && VolOK(ImageVol(fs.g, fs.img[..], L), fs.g.End(), fs.g.ClusterSize())
  {
    hide ViewOf, Entries, Masked, DirOf, Owns, DirOK, Laid, Open, Bpb.Sane;
    SaneCopies(fs.g, |fs.img[..]|);
  }

  /** The image after the extents have been written. */
  lemma Written(g: Geometry, s: seq<byte>, r: seq<byte>, L: Layout, c: nat, bytes: seq<byte>)
    requires ImageOK(g, s, L) && |r| == |s| && c in L.chains && c !in L.dirs && Inside(L.chains[c], |ViewOf(g, s).data|)
    requires ViewOf(g, r) == ViewOf(g, s).(data := Overlay(ViewOf(g, s).data, L.chains[c], bytes))
    ensures ImageOK(g, r, L) && ChainInside(ImageVol(g, s, L), c)
    ensures ImageVol(g, r, L) == Overlaid(ImageVol(g, s, L), c, bytes)
  {
    hide ViewOf, Entries, Holds, VolOK, Open, Laid, Masked, DirOf, Overlay, Overlaid, VolOf, StateOK, DirsInside,
      Inside, Sized, Bpb.Sane, Bpb.Clusters, Bpb.ClusterSize, Bpb.Fat12, Bpb.End;
    Whole(g, s, L);
    var v, f, root, data := ImageVol(g, s, L), ViewOf(g, s).fats[0], ViewOf(g, s).root, ViewOf(g, s).data;
    LaidThere(v, g.End(), g.ClusterSize());
    LaidState(g, f, root, data, L);
    OverlaidVol(g, f, root, data, L, c, bytes);
    OverlaidKeeps(v, g.End(), g.ClusterSize(), c, bytes);
    StateFrom(g, f, root, ViewOf(g, r).data, L, Overlaid(v, c, bytes));
    Flushed(g, s, r, f, L, L);
  }

  lemma LaidThere(v: Vol, end: nat, csize: nat)
    requires VolOK(v, end, csize)
    ensures Laid(v.t, end, v.chains)
  {
  }

  /** The search of `update_dirent_size`. */
  method FindNamed(up: Upper, raws: seq<raw>, leaf: seq<byte>) returns (k: nat)
    requires EndMarked(raws)
    ensures k == Hit(up, raws, leaf, false, 0)
  {
    hide Named, NameOf;
    k := 0;
    while k < |raws|
      invariant k <= |raws| && Hit(up, raws, leaf, false, 0) == Hit(up, raws, leaf, false, k)
    {
      var e := raws[k];
      if e[0] == 0 {
        NoneNamed(up, raws, leaf, k);
        k := |raws|;
        return;
      }
      if e[0] != DELETED && e[11] != LONGNAME && Named(up, e, leaf) {
        return;
      }
      k := k + 1;
    }
  }

  lemma {:induction false} NoneNamed(up: Upper, es: seq<raw>, leaf: seq<byte>, i: nat)
    requires EndMarked(es) && i <= |es| && (i < |es| ==> es[i][0] == 0)
    ensures Hit(up, es, leaf, false, i) == |es|
    decreases |es| - i
  {
    hide Named;
    if i < |es| {
      NoneNamed(up, es, leaf, i + 1);
    }
  }

  /** `update_dirent_size` */
  method UpdateSize(img: array<byte>, g: Geometry, up: Upper, parts: seq<seq<byte>>, leaf: seq<byte>, size: nat,
                    ghost d: nat, ghost k: nat, ghost L: Layout)
    requires ImageOK(g, img[..], L) && 0 in ImageVol(g, img[..], L).dirs && size < 0x1_0000_0000
    requires var v := ImageVol(g, img[..], L);
      && OnlyDirs(up, v, 0, parts) && Walk(up, v, 0, parts) == Some(d)
        && k == Hit(up, v.dirs[d], leaf, false, 0) < |v.dirs[d]|
      && VolOK(WithEntry(v, d, k, Resized(v.dirs[d][k], size)), g.End(), g.ClusterSize())
    modifies img
    ensures ImageOK(g, img[..], L)
    ensures ImageVol(g, img[..], L) ==
      var v := ImageVol(g, old(img[..]), L); WithEntry(v, d, k, Resized(v.dirs[d][k], size))
  {
    hide ImageOK, ViewOf, Entries, Holds, VolOK, VolOf, StateOK, Open, Laid, Slots, ChainSlots, ChainOffsets,
      RootOffsets, WithEntry, Resized, DirsInside, Walk, OnlyDirs, Hit, Inside, Sized, ImageVol, Bpb.Sane,
      Bpb.FatStart, Bpb.FatBytes, Bpb.RootStart, Bpb.DataStart, Bpb.ClusterLimit, Bpb.Clusters, Bpb.ClusterSize,
      Bpb.Fat12, Bpb.End, Bpb.Eoc;
    ghost var s, v := img[..], ImageVol(g, img[..], L);
    SaneFat(g, s, L);
    var fs := new FatRW(img, g);
    Opened(fs, L);
    var clus := ResolveInner(fs, up, parts, L);
    ImageStart(g, s, L, d);
    LaidState(g, fs.fat[..], ViewOf(g, s).root, ViewOf(g, s).data, L);
    var offs, raws := fs.DirSlots(clus.value, DirChain(L, d));
    SlotsThere(g, s, L, d, raws);
    var j := FindNamed(up, raws, leaf);
    WriteSize(fs, offs[j], size, d, j, offs, L);
    Resolved(g, s, img[..], fs.fat[..], L, WithEntry(v, d, k, Resized(v.dirs[d][k], size)));
  }

  lemma SlotsThere(g: Geometry, s: seq<byte>, L: Layout, d: nat, raws: seq<raw>)
    requires ImageOK(g, s, L) && d in L.dirs && (d != 0 ==> d in L.chains && Inside(L.chains[d], |ViewOf(g, s).data|))
    requires raws == if d == 0 then Slots(ViewOf(g, s).root) else ChainSlots(ViewOf(g, s).data, L.chains[d])
    ensures d in ImageVol(g, s, L).dirs && ImageVol(g, s, L).dirs[d] == raws
  {
    hide ViewOf, Entries, Masked, VolOK, Open, Bpb.Sane, Slots, ChainSlots;
    SaneCopies(g, |s|);
  }

  lemma Resolved(g: Geometry, s: seq<byte>, r: seq<byte>, f: seq<byte>, L: Layout, w: Vol)
    requires ImageOK(g, s, L) && |r| == |s| && g.nfat > 0 && f == ViewOf(g, s).fats[0]
      && ViewOf(g, r).fats == ViewOf(g, s).fats
    requires ViewOf(g, r).boot == ViewOf(g, s).boot && |ViewOf(g, r).data| == g.Clusters()
      && Sized(ViewOf(g, r).data, g.ClusterSize())
    requires Holds(f, g.Fat12(), g.Clusters() + 1) && DirsInside(L, g.Clusters())
    requires VolOf(g, f, ViewOf(g, r).root, ViewOf(g, r).data, L) == w && VolOK(w, g.End(), g.ClusterSize())
    ensures ImageOK(g, r, L) && ImageVol(g, r, L) == w
  {
    hide ViewOf, Entries, VolOK, VolOf, Open, Holds, Sized, DirsInside, Bpb.Sane, Bpb.Clusters, Bpb.ClusterSize,
      Bpb.Fat12, Bpb.End;
    StateFrom(g, f, ViewOf(g, r).root, ViewOf(g, r).data, L, w);
    Flushed(g, s, r, f, L, L);
  }

  /** The path leads to a file, in slot `k` of directory `d`. */
  ghost predicate Leads(up: Upper, v: Vol, parts: seq<seq<byte>>, leaf: seq<byte>, d: nat, k: nat)
    requires 0 in v.dirs
  {
    Walk(up, v, 0, parts) == Some(d) && k == Hit(up, v.dirs[d], leaf, false, 0) && FileAt(v, d, k)
  }

  lemma LeadsOn(up: Upper, v: Vol, end: nat, csize: nat, parts: seq<seq<byte>>, leaf: seq<byte>, d: nat, k: nat,
        bytes: seq<byte>)
    requires 0 in v.dirs && Leads(up, v, parts, leaf, d, k) && OnlyDirs(up, v, 0, parts) && |bytes| < 0x1_0000_0000
    requires ChainInside(v, Clus(v.dirs[d][k]))
    ensures var c, w := Clus(v.dirs[d][k]), Overlaid(v, Clus(v.dirs[d][k]), bytes);
      && 0 in w.dirs && Leads(up, w, parts, leaf, d, k) && OnlyDirs(up, w, 0, parts)
      && Rewritten(v, d, k, bytes) == WithEntry(w, d, k, Resized(w.dirs[d][k], |bytes|))
    ensures var w := Rewritten(v, d, k, bytes);
      0 in w.dirs && Leads(up, w, parts, leaf, d, k) && OnlyDirs(up, w, 0, parts)
    ensures |bytes| == Size(v.dirs[d][k]) ==> Rewritten(v, d, k, bytes) == Overlaid(v, Clus(v.dirs[d][k]), bytes)
  {
    hide Walk, OnlyDirs, Hit, Overlay, Resized, Alike;
    var w := Overlaid(v, Clus(v.dirs[d][k]), bytes);
    SameDirs(v, w);
    WalkAlike(up, v, w, 0, parts);
    RewrittenNames(v, d, k, bytes);
    WalkAlike(up, v, Rewritten(v, d, k, bytes), 0, parts);
    HitAlike(up, v.dirs[d], Rewritten(v, d, k, bytes).dirs[d], leaf, false, 0);
    ResizedSame(v.dirs[d][k]);
    assert v.dirs[d][k := v.dirs[d][k]] == v.dirs[d];
    assert v.dirs[d := v.dirs[d]] == v.dirs;
  }

  lemma SameDirs(v: Vol, w: Vol)
    requires w.dirs == v.dirs
    ensures SameNames(v, w)
  {
  }

  /** The path leads to the file's entry `e`, past directories only. */
  ghost predicate Way(up: Upper, v: Vol, parts: seq<seq<byte>>, leaf: seq<byte>, d: nat, k: nat, e: raw) {
    0 in v.dirs && OnlyDirs(up, v, 0, parts) && Leads(up, v, parts, leaf, d, k) && v.dirs[d][k] == e
  }

  ghost predicate ExtentsFor(g: Geometry, cs: seq<nat>, size: nat, ex: seq<(nat, nat)>) {
    Inside(cs, g.Clusters()) && ex == ExtentsOf(g, cs, size) && size <= |cs| * g.ClusterSize()
  }

  /** `w` is `v` with the file in slot `k` of `d` rewritten in place: that name means the new bytes, and no other
      changes. */
  ghost predicate Rewrites(v: Vol, w: Vol, end: nat, csize: nat, d: nat, k: nat, bytes: seq<byte>) {
    && VolOK(v, end, csize) && VolOK(w, end, csize) && FileAt(v, d, k) && FileAt(w, d, k)
    && |bytes| < 0x1_0000_0000 && ChainInside(v, Clus(v.dirs[d][k])) && w == Rewritten(v, d, k, bytes)
    && Updates(v, w, end, csize, d, Tag(v.dirs[d][k]), File(bytes))
  }

  /** Rewriting the clusters and, when it grew, the size. */
  method Rewrite(img: array<byte>, g: Geometry, ghost L: Layout, up: Upper, parts: seq<seq<byte>>, leaf: seq<byte>,
        e: raw, ex: seq<(nat, nat)>, bytes: seq<byte>, ghost d: nat, ghost k: nat)
    requires ImageOK(g, img[..], L) && 0 in ImageVol(g, img[..], L).dirs && |bytes| < 0x1_0000_0000
    requires Way(up, ImageVol(g, img[..], L), parts, leaf, d, k, e) && Clus(e) != 0
    requires ExtentsFor(g, FileChainOf(L, Clus(e)), |bytes|, ex)
    modifies img
    ensures ImageOK(g, img[..], L)
    ensures Rewrites(ImageVol(g, old(img[..]), L), ImageVol(g, img[..], L), g.End(), g.ClusterSize(), d, k, bytes)
    ensures Way(up, ImageVol(g, img[..], L), parts, leaf, d, k, ImageVol(g, img[..], L).dirs[d][k])
  {
    hide ImageOK, ImageVol, ViewOf, VolOK, VolOf, Walk, OnlyDirs, Hit, Inside, Sized, ExtentsOf, ChainBytes, FileBytes,
      ChainInside, Overlay, Overlaid, Rewritten, WithEntry, Resized, Updates, Chains.Chain, NoRepeat, Size, Clus,
      Bpb.Sane, Bpb.Clusters, Bpb.ClusterSize, Bpb.End, FatRW.Ready;
    ghost var s, v, c := img[..], ImageVol(g, img[..], L), Clus(e);
    FileLaid(g, s, L, d, k);
    SaneFat(g, s, L);
    Sizes(g, s);
    FileChained(g, s, L, d, k);
    LeadsOn(up, v, g.End(), g.ClusterSize(), parts, leaf, d, k, bytes);
    RewrittenKeeps(v, g.End(), g.ClusterSize(), d, k, bytes);
    RewrittenUpdates(v, g.End(), g.ClusterSize(), d, k, bytes);
    var fs := new FatRW(img, g);
    WriteExtents(fs, ex, bytes, FileChainOf(L, Clus(e)));
    Written(g, s, img[..], L, c, bytes);
    if |bytes| != Size(e) {
      UpdateSize(img, g, up, parts, leaf, |bytes|, d, k, L);
    }
  }

  lemma Sizes(g: Geometry, s: seq<byte>)
    requires g.Sane(|s|)
    ensures g.ClusterSize() > 0
  {
  }

  lemma FileChained(g: Geometry, s: seq<byte>, L: Layout, d: nat, k: nat)
    requires ImageOK(g, s, L) && FileAt(ImageVol(g, s, L), d, k) && Clus(ImageVol(g, s, L).dirs[d][k]) != 0
    ensures VolOK(ImageVol(g, s, L), g.End(), g.ClusterSize())
    ensures Clus(ImageVol(g, s, L).dirs[d][k]) in L.chains && ImageVol(g, s, L).chains == L.chains
  {
    hide ViewOf, Open, Entries, Laid, Masked, DirOf, DirOK, Owns, Bpb.Sane;
    FileStart(g, s, L, d, k);
  }

  ghost predicate Contents(v: Vol, d: nat, k: nat, bytes: seq<byte>) {
    && FileAt(v, d, k) && (Clus(v.dirs[d][k]) != 0 ==> ChainInside(v, Clus(v.dirs[d][k])))
    && bytes == FileBytes(v, v.dirs[d][k])
  }

  /** Resolves the path again and reads the file's extents. */
  method ReadAgain(img: array<byte>, g: Geometry, ghost L: Layout, up: Upper, parts: seq<seq<byte>>, leaf: seq<byte>,
                   ghost d: nat, ghost k: nat) returns (got: seq<byte>)
    requires ImageOK(g, img[..], L) && 0 in ImageVol(g, img[..], L).dirs
    requires OnlyDirs(up, ImageVol(g, img[..], L), 0, parts) && Leads(up, ImageVol(g, img[..], L), parts, leaf, d, k)
    ensures Contents(ImageVol(g, img[..], L), d, k, got)
  {
    hide ImageOK, ImageVol, ViewOf, VolOK, Walk, OnlyDirs, Hit, Inside, Sized, ExtentsOf, ChainBytes, FileBytes,
      ChainInside, Chains.Chain, NoRepeat, Size, Clus, Bpb.Sane, Bpb.Clusters, Bpb.ClusterSize, Bpb.End, FatRW.Ready,
      DiskOf, ResolveOf;
    FileLaid(g, img[..], L, d, k);
    SaneFat(g, img[..], L);
    var back := new FatRW(img, g);
    ResolveIn(up, g, img[..], L, 0, parts, leaf);
    var r := Resolve(back, up, parts + [leaf]);
    var ex;
    ex, got := Load(back, r.e, Size(r.e), d, k, L);
  }

  /** The checks before anything is written. */
  method Decide(fs: FatRW, e: raw, bytes: seq<byte>, yes: bool, ghost d: nat, ghost k: nat, ghost L: Layout)
    returns (r: PutOutcome, ex: seq<(nat, nat)>)
    requires Reading(fs, L) && FileAt(ImageVol(fs.g, fs.img[..], L), d, k)
      && ImageVol(fs.g, fs.img[..], L).dirs[d][k] == e
    ensures r != NoFile && Decided(fs.g, ViewOf(fs.g, fs.img[..]).data, FileChainOf(L, Clus(e)), Size(e), bytes, yes, r)
    ensures r == Rewrote ==> ExtentsFor(fs.g, FileChainOf(L, Clus(e)), |bytes|, ex) && Clus(e) != 0
  {
    hide ImageOK, ImageVol, ViewOf, VolOK, FileAt, Inside, Sized, ExtentsOf, ChainBytes, FileBytes, ChainInside,
      Chains.Chain, NoRepeat, Size, Clus, Bpb.Sane, Bpb.Clusters, Bpb.ClusterSize, Bpb.End, FatRW.Ready;
    ex := [];
    FileLaid(fs.g, fs.img[..], L, d, k);
    TableIs(fs, L);
    var chain := fs.Chain(Clus(e), FileChainOf(L, Clus(e)));
    if |bytes| != Size(e) {
      if |bytes| > |chain| * fs.g.ClusterSize() {
        return TooBig, ex;
      }
      if |bytes| < Size(e) {
        return TooSmall, ex;
      }
    }
    var have;
    ex, have := Load(fs, e, |bytes|, d, k, L);
    if have == bytes {
      return Same, ex;
    }
    NothingDiffers(bytes, have, |chain|, fs.g.ClusterSize());
    return if yes then Rewrote else Unconfirmed, ex;
  }

  lemma NothingDiffers(bytes: seq<byte>, have: seq<byte>, n: nat, cs: nat)
    requires have != bytes && |bytes| <= n * cs && |have| == |bytes|
    ensures n != 0
  {
  }

  /** `main`. Nothing is written unless the verdict is to rewrite; then the file holds the new bytes, nothing else
      changes but its clusters and size, and reading back (`ok`) cannot fail. */
  method Put(img: array<byte>, g: Geometry, ghost L: Layout, up: Upper, parts: seq<seq<byte>>, leaf: seq<byte>,
        bytes: seq<byte>, yes: bool)
    returns (r: PutOutcome, ok: bool, ghost d: nat, ghost k: nat)
    requires ImageOK(g, img[..], L) && 0 in ImageVol(g, img[..], L).dirs && |bytes| < 0x1_0000_0000
    requires OnlyDirs(up, ImageVol(g, img[..], L), 0, parts)
    modifies img
    ensures ImageOK(g, img[..], L)
    ensures r != Rewrote ==> img[..] == old(img[..])
    ensures r == NoFile <==> forall b, j :: !Leads(up, ImageVol(g, old(img[..]), L), parts, leaf, b, j)
    ensures r != NoFile ==>
      var v := ImageVol(g, old(img[..]), L);
      && Leads(up, v, parts, leaf, d, k)
      && Decided(g, ViewOf(g, old(img[..])).data, FileChainOf(L, Clus(v.dirs[d][k])), Size(v.dirs[d][k]), bytes, yes, r)
    ensures r == Same ==> SameIfAsLong(ImageVol(g, old(img[..]), L), g.End(), g.ClusterSize(), d, k, bytes)
    ensures r == Rewrote ==> ok && Rewrites(ImageVol(g, old(img[..]), L), ImageVol(g, img[..], L), g.End(),
      g.ClusterSize(), d, k, bytes)
  {
    hide ImageOK, ImageVol, ViewOf, VolOK, VolOf, Walk, OnlyDirs, Hit, Inside, Sized, ExtentsOf, ChainBytes, FileBytes,
      ChainInside, Overlay, Rewritten, Updates, LookUp, Chains.Chain, NoRepeat, Size, Clus, Live, IsDir, Tag, Bpb.Sane,
      Bpb.Clusters, Bpb.ClusterSize, Bpb.End, FatRW.Ready, DiskOf, ResolveOf;
    ghost var s, v := img[..], ImageVol(g, img[..], L);
    ok := false;
    d, k := 0, 0;
    SaneFat(g, s, L);
    var fs := new FatRW(img, g);
    ResolveIn(up, g, s, L, 0, parts, leaf);
    var ent := Resolve(fs, up, parts + [leaf]);
    if !ent.Entry? || IsDir(ent.e) {
      return NoFile, ok, d, k;
    }
    var e := ent.e;
    d := Walk(up, v, 0, parts).value;
    k := Hit(up, v.dirs[d], leaf, false, 0);
    var ex;
    assert Leads(up, v, parts, leaf, d, k);
    r, ex := Decide(fs, e, bytes, yes, d, k, L);
    if r != Rewrote {
      if r == Same {
        SameMeans(g, s, L, d, k, bytes, yes);
      }
      return r, ok, d, k;
    }
    Rewrite(img, g, L, up, parts, leaf, e, ex, bytes, d, k);
    HoldsAgain(v, ImageVol(g, img[..], L), g.End(), g.ClusterSize(), d, k, bytes);
    var got := ReadAgain(img, g, L, up, parts, leaf, d, k);
    ok := got == bytes;
  }

  lemma HoldsAgain(v: Vol, w: Vol, end: nat, csize: nat, d: nat, k: nat, bytes: seq<byte>)
    requires Rewrites(v, w, end, csize, d, k, bytes)
    ensures Contents(w, d, k, bytes)
  {
    hide VolOK, LookUp, Live, IsDir, Overlay, FileBytes, ChainInside, Size, Clus;
    LookUpAt(w, end, csize, d, k);
    RewrittenTag(v, d, k, bytes);
  }

  lemma RewrittenTag(v: Vol, d: nat, k: nat, bytes: seq<byte>)
    requires FileAt(v, d, k) && |bytes| < 0x1_0000_0000 && ChainInside(v, Clus(v.dirs[d][k]))
    ensures var w := Rewritten(v, d, k, bytes); d in w.dirs && k < |w.dirs[d]| && Tag(w.dirs[d][k]) == Tag(v.dirs[d][k])
  {
    hide Overlay;
  }
}
