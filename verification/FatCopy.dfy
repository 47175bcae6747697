/** Creating, replacing and removing files and making directories (tools/fatcp.py). */
module FatCopy {
  import opened Arith
  import opened Bytes
  import opened FatEntries
  import opened Chains
  import opened Geometry
  import opened Volume
  import opened VolumeFiles
  import opened Directory
  import opened FatImage
  import opened FatVolume
  import opened Wrappers

  // ---- a file's bytes, cut into clusters ----

  /** `data[i * cs:(i + 1) * cs].ljust(cs, b'\x00')` */
  function BlockAt(data: seq<byte>, cs: nat, i: nat): (b: seq<byte>)
    ensures |b| == cs
  {
    var lo := if At(0, i, cs) < |data| then At(0, i, cs) else |data|;
    var hi := if lo + cs < |data| then lo + cs else |data|;
    data[lo..hi] + Zeros(cs - (hi - lo))
  }

  function Blocks(data: seq<byte>, cs: nat, n: nat): (r: seq<seq<byte>>)
    ensures |r| == n
    ensures forall i :: 0 <= i < n ==> r[i] == BlockAt(data, cs, i)
  {
    if n == 0 then [] else Blocks(data, cs, n - 1) + [BlockAt(data, cs, n - 1)]
  }

  lemma {:induction false} JoinAppend(a: seq<seq<byte>>, b: seq<byte>)
    ensures Join(a + [b]) == Join(a) + b
    decreases |a|
  {
    if a == [] {
      assert (a + [b])[1..] == [];
    } else {
      JoinAppend(a[1..], b);
      assert (a + [b])[1..] == a[1..] + [b];
      assert (a + [b])[0] == a[0];
    }
  }

  /** The blocks hold the data, then zeros. */
  lemma {:induction false} JoinBlocks(data: seq<byte>, cs: nat, n: nat)
    ensures |Join(Blocks(data, cs, n))| == At(0, n, cs)
    ensures if At(0, n, cs) <= |data| then Join(Blocks(data, cs, n)) == data[..At(0, n, cs)]
            else n > 0 && At(0, n - 1, cs) < |data| ==> Join(Blocks(data, cs, n))[..|data|] == data
    decreases n
  {
    hide At, BlockAt;
    AtNext(cs, n);
    if n > 0 {
      JoinBlocks(data, cs, n - 1);
      JoinAppend(Blocks(data, cs, n - 1), BlockAt(data, cs, n - 1));
      var lo, b := At(0, n - 1, cs), BlockAt(data, cs, n - 1);
      BlockParts(data, cs, n - 1);
      if lo + cs <= |data| {
        PrefixGrows(data, lo, cs);
      } else if lo < |data| {
        assert (data[..lo] + b)[..|data|] == data[..lo] + b[..|data| - lo] == data;
      }
    }
  }

  lemma PrefixGrows(data: seq<byte>, lo: nat, n: nat)
    requires lo + n <= |data|
    ensures data[..lo] + data[lo..lo + n] == data[..lo + n]
  {
  }

  lemma AtNext(cs: nat, n: nat)
    ensures At(0, 0, cs) == 0 && (n > 0 ==> At(0, n, cs) == At(0, n - 1, cs) + cs)
  {
    if n > 0 {
      MulSucc(n - 1, cs);
    }
  }

  lemma BlockParts(data: seq<byte>, cs: nat, i: nat)
    ensures var lo, b := At(0, i, cs), BlockAt(data, cs, i);
            && (lo + cs <= |data| ==> b == data[lo..lo + cs])
            && (lo < |data| < lo + cs ==> b[..|data| - lo] == data[lo..])
  {
  }

  lemma BlocksHold(data: seq<byte>, cs: nat)
    requires cs > 0
    ensures var n := (|data| + cs - 1) / cs;
            |data| <= n * cs && |Join(Blocks(data, cs, n))| >= |data| && Join(Blocks(data, cs, n))[..|data|] == data
  {
    var n := (|data| + cs - 1) / cs;
    DivMod(|data| + cs - 1, cs);
    JoinBlocks(data, cs, n);
    if n > 0 {
      MulSucc(n - 1, cs);
    }
  }

  // ---- entries ----

  /** The 32 bytes that a new entry consists of. */
  function NewEntry(g: tag, attr: byte, tm: nat, dt: nat, clus: nat, size: nat): (e: raw)
    requires tm < 0x1_0000 && dt < 0x1_0000 && clus < 0x1_0000 && size < 0x1_0000_0000
    ensures Tag(e) == g && e[11] == attr && Clus(e) == clus && Size(e) == size
  {
    var e := g + [attr] + Zeros(10) + LE16(tm) + LE16(dt) + LE16(clus) + LE32(size);
    assert e[26..28] == LE16(clus) && e[28..32] == LE32(size);
    assert forall i :: 0 <= i < 2 ==> e[26 + i] == e[26..28][i];
    assert forall i :: 0 <= i < 4 ==> e[28 + i] == e[28..32][i];
    e
  }

  /** The first slot that a new entry may take, before the end mark or at it. */
  ghost predicate FreePlace(es: seq<raw>, k: nat) {
    k < |es| && Free(es[k]) && forall j :: 0 <= j < k ==> es[j][0] != 0 && !Free(es[j])
  }

  /** A name an entry can carry: neither the end mark, nor the deleted mark, nor "." or "..". */
  predicate Nameable(g: tag) {
    g[0] != 0 && g[0] != DELETED && !IsDot(g)
  }

  /** The search of `main`: the slot that has the name, or else the first one free to take it. */
  method FindSlot(raws: seq<raw>, g: tag) returns (slot: Option<nat>, free: Option<nat>)
    requires EndMarked(raws) && Nameable(g)
    ensures slot.Some? <==> Find(raws, g, 0) < |raws|
    ensures slot.Some? ==> slot.value == Find(raws, g, 0)
    ensures slot.None? && free.Some? ==> FreePlace(raws, free.value)
    ensures slot.None? && free.None? <==> Full(raws, g)
  {
    slot, free := None, None;
    var i := 0;
    while i < |raws|
      invariant 0 <= i <= |raws|
      invariant Find(raws, g, 0) == Find(raws, g, i)
      invariant forall j :: 0 <= j < i ==> raws[j][0] != 0
      invariant free.Some? ==> FreePlace(raws, free.value)
      invariant free.None? ==> forall j :: 0 <= j < i ==> !Free(raws[j])
    {
      var e := raws[i];
      if e[11] == LONGNAME {
        assert !Live(e) && (e[0] == 0 ==> false);
      } else if e[0] == 0 || e[0] == DELETED {
        if free.None? {
          free := Some(i);
        }
        if e[0] == 0 {
          NothingBehind(raws, g, i);
          return;
        }
      } else if Tag(e) == g {
        slot := Some(i);
        return;
      }
      i := i + 1;
    }
  }

  lemma {:induction false} NothingBehind(es: seq<raw>, g: tag, i: nat)
    requires EndMarked(es) && i <= |es| && (i < |es| ==> es[i][0] == 0)
    ensures Find(es, g, i) == |es|
    decreases |es| - i
  {
    if i < |es| {
      NothingBehind(es, g, i + 1);
    }
  }

  // ---- writing clusters and entries ----

  /** `f.seek(coff(c)); f.write(b)` for a whole cluster. */
  method WriteWhole(fs: FatRW, c: nat, b: seq<byte>)
    requires fs.Ready() && 2 <= c < fs.g.Clusters() + 2 && |b| == fs.g.ClusterSize()
    modifies fs.img
    ensures fs.Ready() && fs.fat[..] == old(fs.fat[..])
    ensures var v := ViewOf(fs.g, old(fs.img[..]));
            ViewOf(fs.g, fs.img[..]) == v.(data := v.data[c - 2 := b])
  {
    hide ViewOf, Holds, Bpb.Sane, Bpb.FatStart, Bpb.FatBytes, Bpb.RootStart, Bpb.DataStart, Bpb.ClusterLimit,
      Bpb.Clusters, Bpb.ClusterSize, Bpb.Fat12, Bpb.ClusterOffset, Splice;
    ClusterWhole(fs.g, fs.img[..], c, b);
    fs.WriteAt(fs.g.ClusterOffset(c), b);
  }

  /** The data, cluster by cluster, the last one padded with zeros. */
  method WriteData(fs: FatRW, got: seq<nat>, data: seq<byte>)
    requires fs.Ready() && Rising(got, fs.g.Clusters() + 2) && forall i :: 0 <= i < |got| ==> got[i] >= 2
    modifies fs.img
    ensures fs.Ready() && fs.fat[..] == old(fs.fat[..])
    ensures var v := ViewOf(fs.g, old(fs.img[..]));
            ViewOf(fs.g, fs.img[..]) ==
            v.(data := WriteBlocks(v.data, got, Blocks(data, fs.g.ClusterSize(), |got|)))
  {
    hide ViewOf, Holds, WriteBlocks, Blocks, BlockAt, FatRW.Ready, Bpb.Sane, Bpb.FatStart, Bpb.FatBytes, Bpb.RootStart,
      Bpb.DataStart, Bpb.ClusterLimit, Bpb.Clusters, Bpb.ClusterSize, Bpb.Fat12, Bpb.ClusterOffset, Splice;
    SaneView(fs);
    ghost var v, cs := ViewOf(fs.g, fs.img[..]), fs.g.ClusterSize();
    ghost var blocks := Blocks(data, cs, |got|);
    assert got[0..] == got && blocks[0..] == blocks;
    for i := 0 to |got|
      invariant fs.Ready() && fs.fat[..] == old(fs.fat[..]) && fs.g.Sane(|fs.img[..]|)
      invariant Partly(v, ViewOf(fs.g, fs.img[..]), got, blocks, i)
    {
      WriteStep(ViewOf(fs.g, fs.img[..]).data, got, blocks, i);
      WriteWhole(fs, got[i], BlockAt(data, fs.g.ClusterSize(), i));
    }
    WriteDone(ViewOf(fs.g, fs.img[..]).data);
  }

  /** Writing the blocks from `i` on completes `w` to what writing them all makes of `v`. */
  ghost predicate Partly(v: View, w: View, got: seq<nat>, blocks: seq<seq<byte>>, i: nat)
    requires i <= |got| == |blocks| && Rising(got, |v.data| + 2) && forall i :: 0 <= i < |got| ==> got[i] >= 2
  {
    && w.boot == v.boot && w.fats == v.fats && w.root == v.root && |w.data| == |v.data|
    && WriteBlocks(w.data, got[i..], blocks[i..]) == WriteBlocks(v.data, got, blocks)
  }

  lemma SaneView(fs: FatRW)
    requires fs.Ready()
    ensures fs.g.Sane(|fs.img[..]|)
  {
  }

  lemma ClusterWhole(g: Geometry, s: seq<byte>, c: nat, b: seq<byte>)
    requires g.Sane(|s|) && 2 <= c < g.Clusters() + 2 && |b| == g.ClusterSize()
    ensures g.ClusterOffset(c) + |b| <= |s|
    ensures ViewOf(g, Splice(s, g.ClusterOffset(c), b)) ==
            ViewOf(g, s).(data := ViewOf(g, s).data[c - 2 := b])
  {
    hide ViewOf, Bpb.ClusterOffset, Bpb.Sane, Splice, Bpb.Clusters, Bpb.ClusterSize;
    WriteCluster(g, s, c, 0, b);
    SpliceWhole(ViewOf(g, s).data[c - 2], b);
  }

  lemma WriteStep(data: seq<seq<byte>>, got: seq<nat>, blocks: seq<seq<byte>>, i: nat)
    requires |got| == |blocks| && i < |got| && Rising(got, |data| + 2)
    requires forall k :: 0 <= k < |got| ==> got[k] >= 2
    ensures WriteBlocks(data[got[i] - 2 := blocks[i]], got[i + 1..], blocks[i + 1..]) ==
            WriteBlocks(data, got[i..], blocks[i..])
  {
    assert got[i..][1..] == got[i + 1..] && blocks[i..][1..] == blocks[i + 1..];
    assert got[i..][0] == got[i] && blocks[i..][0] == blocks[i];
  }

  lemma WriteDone(data: seq<seq<byte>>)
    ensures WriteBlocks(data, [], []) == data
  {
  }

  /** The chain to walk for directory `d`; the root has none. */
  ghost function DirChain(L: Layout, d: nat): seq<nat>
    requires d in L.dirs && (d != 0 ==> d in L.chains)
  {
    if d == 0 then [] else L.chains[d]
  }

  ghost predicate OffsetsOf(g: Geometry, L: Layout, d: nat, offs: seq<nat>)
    requires d in L.dirs && (d != 0 ==> d in L.chains && Inside(L.chains[d], g.Clusters()))
  {
    if d == 0 then offs == RootOffsets(g) else offs == ChainOffsets(g, L.chains[d])
  }

  /** Writes one entry where slot `k` of directory `d` lies. */
  method WriteEntry(fs: FatRW, off: nat, e: raw, ghost d: nat, ghost k: nat, ghost offs: seq<nat>, ghost L: Layout)
    requires fs.Ready() && StateLaid(fs.g, fs.fat[..], ViewOf(fs.g, fs.img[..]).data, L)
    requires d in L.dirs && OffsetsOf(fs.g, L, d, offs) && k < |offs| && offs[k] == off
    requires k < |DirOf(ViewOf(fs.g, fs.img[..]).root, ViewOf(fs.g, fs.img[..]).data, L, d)|
    modifies fs.img
    ensures fs.Ready() && fs.fat[..] == old(fs.fat[..])
    ensures var v := ViewOf(fs.g, old(fs.img[..])); var w := ViewOf(fs.g, fs.img[..]);
            && w.boot == v.boot && w.fats == v.fats && |w.data| == |v.data| && Sized(w.data, fs.g.ClusterSize())
            && VolOf(fs.g, fs.fat[..], w.root, w.data, L) ==
               WithEntry(VolOf(fs.g, fs.fat[..], v.root, v.data, L), d, k, e)
  {
    hide ViewOf, Entries, Holds, Laid, VolOf, ChainSlots, Slots, ChainOffsets, WithEntry, Masked, Splice, Bpb.Sane,
      Bpb.FatStart, Bpb.FatBytes, Bpb.RootStart, Bpb.DataStart, Bpb.ClusterLimit, Bpb.Clusters, Bpb.ClusterSize,
      Bpb.Fat12, Bpb.ClusterOffset;
    ghost var v, f := ViewOf(fs.g, fs.img[..]), fs.fat[..];
    if d == 0 {
      RootEntryAt(fs.g, fs.img[..], f, L, k, e);
    } else {
      ChainEntryAt(fs.g, fs.img[..], f, L, d, k, e);
    }
    fs.WriteAt(off, e);
  }

  lemma RootEntryAt(g: Geometry, s: seq<byte>, f: seq<byte>, L: Layout, k: nat, e: raw)
    requires g.Sane(|s|) && StateLaid(g, f, ViewOf(g, s).data, L) && 0 in L.dirs && k < g.rootent
    ensures k < |Slots(ViewOf(g, s).root)| && RootSlotOffset(g, k) + 32 <= |s|
    ensures var v := ViewOf(g, s); var w := ViewOf(g, Splice(s, RootSlotOffset(g, k), e));
            && w.boot == v.boot && w.fats == v.fats && w.data == v.data
            && VolOf(g, f, w.root, w.data, L) == WithEntry(VolOf(g, f, v.root, v.data, L), 0, k, e)
  {
    hide ViewOf, Entries, Laid, Bpb.RootStart, Bpb.Sane, VolOf, Splice, Bpb.Clusters, Bpb.ClusterSize;
    WriteRoot(g, s, 32 * k, e);
    RootEntry(g, f, ViewOf(g, s).root, ViewOf(g, s).data, L, k, e);
  }

  lemma ChainEntryAt(g: Geometry, s: seq<byte>, f: seq<byte>, L: Layout, d: nat, k: nat, e: raw)
    requires g.Sane(|s|) && StateLaid(g, f, ViewOf(g, s).data, L) && d in L.dirs && d != 0
    requires Inside(L.chains[d], g.Clusters())
    requires k < |DirOf(ViewOf(g, s).root, ViewOf(g, s).data, L, d)|
    ensures k < |ChainOffsets(g, L.chains[d])| && ChainOffsets(g, L.chains[d])[k] + 32 <= |s|
    ensures var v := ViewOf(g, s); var w := ViewOf(g, Splice(s, ChainOffsets(g, L.chains[d])[k], e));
            && w.boot == v.boot && w.fats == v.fats && w.root == v.root && |w.data| == |v.data|
            && Sized(w.data, g.ClusterSize())
            && VolOf(g, f, w.root, w.data, L) == WithEntry(VolOf(g, f, v.root, v.data, L), d, k, e)
  {
    hide ViewOf, Entries, Laid, Bpb.Sane, VolOf, Splice, Bpb.Clusters, Bpb.ClusterSize, ChainSlots, ChainOffsets,
      Bpb.ClusterOffset, Bpb.Fat12;
    var v := ViewOf(g, s);
    var c, i := ChainEntry(g, f, v.root, v.data, L, d, k, e);
    WriteCluster(g, s, c, 32 * i, e);
  }

  // ---- the commands ----

  datatype Outcome = Done | NotFound | DirectoryFull | NoSpace | Exists | NoDirectory | BadName

  ghost predicate FileNamed(e: raw, g: tag) {
    Live(e) && !IsDir(e) && Tag(e) == g
  }

  /** Slots change in directory `d` alone, from no directory's entry and no other file's, to an entry of a file `g`. */
  ghost predicate OneFile(v: Vol, w: Vol, d: nat, g: tag) {
    && d in v.dirs && w.dirs.Keys == v.dirs.Keys
    && (forall b :: b in v.dirs && b != d ==> w.dirs[b] == v.dirs[b])
    && |w.dirs[d]| == |v.dirs[d]|
    && forall j :: 0 <= j < |v.dirs[d]| ==>
         || w.dirs[d][j] == v.dirs[d][j]
         || (FileNamed(w.dirs[d][j], g) && (Live(v.dirs[d][j]) ==> FileNamed(v.dirs[d][j], g)))
  }

  /** Attributes `main` can give a new entry: the archive bit with r, h or s. */
  predicate PlainAttr(attr: byte) {
    attr / 0x10 % 2 == 0 && attr != LONGNAME
  }

  lemma EntryMade(name: tag, attr: byte, tm: nat, dt: nat, clus: nat, size: nat, csize: nat, got: seq<nat>)
    requires tm < 0x1_0000 && dt < 0x1_0000 && clus < 0x1_0000 && size < 0x1_0000_0000
    requires Nameable(name) && attr != LONGNAME
    requires clus == (if got == [] then 0 else got[0]) && size <= |got| * csize
    ensures var e := NewEntry(name, attr, tm, dt, clus, size);
      && Live(e) && e[0] != 0 && !IsDot(Tag(e)) && FitsChain(e, csize, got) && (IsDir(e) <==> attr / 0x10 % 2 == 1)
  {
    var e := NewEntry(name, attr, tm, dt, clus, size);
    assert e[0] == Tag(e)[0];
  }

  lemma PlaceFound(v: Vol, end: nat, csize: nat, d: nat, name: tag, k: nat)
    requires VolOK(v, end, csize) && d in v.dirs && Nameable(name)
    requires var f := Find(v.dirs[d], name, 0);
      if f < |v.dirs[d]| then k == f else FreePlace(v.dirs[d], k)
    ensures PlaceFor(v, d, k, name)
    ensures OldChain(v, d, k) == if Find(v.dirs[d], name, 0) < |v.dirs[d]| then Clus(v.dirs[d][k]) else 0
    ensures Find(v.dirs[d], name, 0) < |v.dirs[d]| ==> NamedAt(v, d, k) && v.dirs[d][k][11] != LONGNAME
  {
    hide VolOK;
  }

  lemma FirstFreeFillable(v: Vol, end: nat, csize: nat, n: nat, blocks: seq<seq<byte>>)
    requires DataOK(v, csize) && |v.t| <= end
    requires |FirstFree(v.t, 2, n)| == n == |blocks|
    requires forall i :: 0 <= i < n ==> |blocks[i]| == csize
    ensures Fillable(v, end, csize, FirstFree(v.t, 2, n), blocks)
    ensures Rising(FirstFree(v.t, 2, n), |v.t|) && forall i :: 0 <= i < n ==> FirstFree(v.t, 2, n)[i] >= 2
    ensures n > 0 ==> FirstFree(v.t, 2, n)[0] < end
  {
  }

  /** Allocates what `n` clusters of data need, if anything. */
  method Reserve(fs: FatRW, n: nat) returns (r: Option<seq<nat>>)
    requires fs.Ready()
    modifies fs.fat
    ensures fs.Ready()
    ensures r.None? <==> |FirstFree(old(fs.Table()), 2, n)| < n
    ensures r.Some? ==> r.value == FirstFree(old(fs.Table()), 2, n)
    ensures r.Some? ==> Rising(r.value, |old(fs.Table())|) && fs.Table() == Link(old(fs.Table()), r.value, fs.g.Eoc())
  {
    hide Entries, Holds, Link, Rising, Bpb.Sane, Bpb.FatStart, Bpb.FatBytes, Bpb.RootStart, Bpb.DataStart,
      Bpb.ClusterLimit, Bpb.Clusters, Bpb.ClusterSize, Bpb.Fat12, Bpb.End, Bpb.Eoc;
    FreeRising(fs.Table(), 2, n);
    if n == 0 {
      LinkDone(fs.Table(), fs.g.Eoc());
      return Some([]);
    }
    r := fs.Alloc(n);
  }

  // ---- freeing what a slot names ----

  /** The chain at `c` is free in the table in memory; directory `d` is where it was. */
  ghost predicate Cleared(g: Geometry, s: seq<byte>, f: seq<byte>, L: Layout, c: nat, d: nat, offs: seq<nat>)
    requires ImageOK(g, s, L)
  {
    var v, L1 := ImageVol(g, s, L), Without(L, c);
    && StateLaid(g, f, ViewOf(g, s).data, L1)
    && d in L1.dirs && d in v.dirs && OffsetsOf(g, L1, d, offs) && |offs| == |v.dirs[d]|
    && Freed(v, ClearedVol(g, s, f, L, c), g.ClusterSize(), c)
    && ClearedVol(g, s, f, L, c).dirs[d] == v.dirs[d]
  }

  ghost function ClearedVol(g: Geometry, s: seq<byte>, f: seq<byte>, L: Layout, c: nat): Vol
    requires g.Sane(|s|) && StateLaid(g, f, ViewOf(g, s).data, Without(L, c))
  {
    VolOf(g, f, ViewOf(g, s).root, ViewOf(g, s).data, Without(L, c))
  }

  /** `fs.free_chain(old_clus)` */
  method GiveUp(fs: FatRW, c: nat, ghost d: nat, ghost k: nat, ghost offs: seq<nat>, ghost L: Layout)
    requires fs.Ready() && ImageOK(fs.g, fs.img[..], L) && fs.fat[..] == ViewOf(fs.g, fs.img[..]).fats[0]
    requires NamedAt(ImageVol(fs.g, fs.img[..], L), d, k) && c == Clus(ImageVol(fs.g, fs.img[..], L).dirs[d][k])
    requires d in L.dirs && (d != 0 ==> d in L.chains && Inside(L.chains[d], fs.g.Clusters()))
      && OffsetsOf(fs.g, L, d, offs)
    requires |offs| == |ImageVol(fs.g, fs.img[..], L).dirs[d]|
    modifies fs.fat
    ensures fs.Ready() && Cleared(fs.g, fs.img[..], fs.fat[..], L, c, d, offs)
  {
    hide ViewOf, Entries, Open, ImageOK, ImageVol, VolOK, VolOf, StateLaid, Release, Freed, FileChainOf, Without, Live,
      IsDir, IsDot, Inside, OffsetsOf, Bpb.Sane, Bpb.FatStart, Bpb.FatBytes, Bpb.RootStart, Bpb.DataStart,
      Bpb.ClusterLimit, Bpb.Clusters, Bpb.ClusterSize, Bpb.Fat12, Bpb.End, Holds;
    ghost var f := fs.fat[..];
    EntryStart(fs.g, fs.img[..], L, d, k);
    Whole(fs.g, fs.img[..], L);
    fs.FreeChain(c, FileChainOf(L, c));
    ClearedNow(fs.g, fs.img[..], fs.fat[..], L, c, d, k, offs);
  }

  lemma ClearedNow(g: Geometry, s: seq<byte>, h: seq<byte>, L: Layout, c: nat, d: nat, k: nat, offs: seq<nat>)
    requires ImageOK(g, s, L) && NamedAt(ImageVol(g, s, L), d, k) && c == Clus(ImageVol(g, s, L).dirs[d][k])
    requires d in L.dirs && (d != 0 ==> d in L.chains && Inside(L.chains[d], g.Clusters())) && OffsetsOf(g, L, d, offs)
    requires |offs| == |ImageVol(g, s, L).dirs[d]|
    requires forall i :: 0 <= i < |FileChainOf(L, c)| ==> FileChainOf(L, c)[i] < |ImageVol(g, s, L).t|
    requires Holds(h, g.Fat12(), g.Clusters() + 1)
    requires Entries(h, g.Fat12(), g.Clusters() + 2) == Release(ImageVol(g, s, L).t, FileChainOf(L, c))
    ensures Cleared(g, s, h, L, c, d, offs)
  {
    hide ViewOf, Entries, Open, ImageVol, VolOK, VolOf, StateLaid, Release, Freed, Live, IsDir, IsDot, DirOf, Masked,
      Inside, Bpb.Sane, Bpb.Clusters, Bpb.ClusterSize, Bpb.Fat12, Bpb.End, Holds, ImageOK;
    var v := ImageVol(g, s, L);
    Whole(g, s, L);
    SaneFat(g, s, L);
    EntryStart(g, s, L, d, k);
    ReleaseNone(v.t);
    Released(g, ViewOf(g, s).fats[0], h, ViewOf(g, s).root, ViewOf(g, s).data, L, c);
    GivenUpDirs(v, ClearedVol(g, s, h, L, c), g.End(), g.ClusterSize(), d, k);
  }

  lemma ReleaseNone(t: seq<nat>)
    ensures Release(t, []) == t
  {
  }

  // ---- storing a file ----

  lemma LaidData(g: Geometry, f: seq<byte>, root: seq<byte>, data: seq<seq<byte>>, L: Layout)
    requires StateLaid(g, f, data, L)
    ensures var v := VolOf(g, f, root, data, L);
      DataOK(v, g.ClusterSize()) && Laid(v.t, g.End(), L.chains) && |v.t| == g.Clusters() + 2 && v.chains == L.chains
        && v.dirs.Keys == L.dirs
  {
    hide Entries, Laid, DirOf, DirClusters;
  }

  lemma StoredLaid(g: Geometry, f: seq<byte>, h: seq<byte>, root: seq<byte>, data: seq<seq<byte>>, L: Layout, M: Layout,
                   got: seq<nat>, blocks: seq<seq<byte>>, d: nat, offs: seq<nat>)
    requires StateLaid(g, f, data, L) && Holds(h, g.Fat12(), g.Clusters() + 1) && g.Clusters() + 2 <= g.End() <= g.Eoc()
    requires var t := Entries(f, g.Fat12(), g.Clusters() + 2);
      got == FirstFree(t, 2, |blocks|) && |got| == |blocks| && Rising(got, |t|)
        && Entries(h, g.Fat12(), g.Clusters() + 2) == Link(t, got, g.Eoc())
    requires forall i :: 0 <= i < |blocks| ==> |blocks[i]| == g.ClusterSize()
    requires M == if got == [] then L else Layout(L.chains[got[0] := got], L.dirs)
    requires d in L.dirs && OffsetsOf(g, L, d, offs)
    ensures var v := VolOf(g, f, root, data, L);
      && Fillable(v, g.End(), g.ClusterSize(), got, blocks)
      && (forall i :: 0 <= i < |got| ==> 2 <= got[i] < |data| + 2 && got[i] < g.End())
      && StateLaid(g, h, WriteBlocks(data, got, blocks), M)
      && VolOf(g, h, root, WriteBlocks(data, got, blocks), M) ==
        WithChain(v, g.End(), g.ClusterSize(), got, blocks, g.Eoc())
    ensures d in M.dirs && (d != 0 ==> d in M.chains && Inside(M.chains[d], g.Clusters())) && OffsetsOf(g, M, d, offs)
  {
    hide Entries, Holds, VolOf, Laid, Link, FirstFree, DataOK, WriteBlocks, Fillable, Bpb.Clusters, Bpb.ClusterSize,
      Bpb.Fat12, Bpb.End, Bpb.Eoc, ChainOffsets, RootOffsets;
    LaidData(g, f, root, data, L);
    LaidState(g, f, root, data, L);
    var v := VolOf(g, f, root, data, L);
    FirstFreeFillable(v, g.End(), g.ClusterSize(), |blocks|, blocks);
    FillableRoom(v, g.End(), g.ClusterSize(), got, blocks);
    Grown(g, f, h, root, data, L, M, got, blocks);
    NewChain(L, M, d, got, v.t, g.End());
  }

  lemma FillableRoom(v: Vol, end: nat, csize: nat, got: seq<nat>, blocks: seq<seq<byte>>)
    requires Fillable(v, end, csize, got, blocks)
    ensures got != [] ==> Allocatable(v.t, end, got)
  {
  }

  lemma NewChain(L: Layout, M: Layout, d: nat, got: seq<nat>, t: seq<nat>, end: nat)
    requires d in L.dirs && (d != 0 ==> d in L.chains) && Laid(t, end, L.chains)
    requires got != [] ==> Allocatable(t, end, got)
    requires M == if got == [] then L else Layout(L.chains[got[0] := got], L.dirs)
    ensures d != 0 ==> d in M.chains && M.chains[d] == L.chains[d]
  {
    if got != [] {
      FreeApart(t, end, L.chains, got);
    }
  }

  /** Clusters that so many bytes take. */
  function Needs(n: nat, csize: nat): nat
    requires csize > 0
  {
    (n + csize - 1) / csize
  }

  /** Allocates clusters for the data and writes them. */
  method StoreData(fs: FatRW, data: seq<byte>, ghost d: nat, ghost offs: seq<nat>, ghost L: Layout, ghost v: Vol)
    returns (r: Option<seq<nat>>, ghost M: Layout)
    requires fs.Ready() && StateLaid(fs.g, fs.fat[..], ViewOf(fs.g, fs.img[..]).data, L) && fs.g.ClusterSize() > 0
    requires v == VolOf(fs.g, fs.fat[..], ViewOf(fs.g, fs.img[..]).root, ViewOf(fs.g, fs.img[..]).data, L)
    requires d in L.dirs && OffsetsOf(fs.g, L, d, offs)
    modifies fs.img, fs.fat
    ensures fs.Ready()
    ensures r.None? ==> fs.img[..] == old(fs.img[..])
    ensures var n := Needs(|data|, fs.g.ClusterSize());
      && (r.None? <==> |FirstFree(v.t, 2, n)| < n)
      && (r.Some? ==> |r.value| == n && r.value == FirstFree(v.t, 2, n) && forall i :: 0 <= i < n ==>
        r.value[i] < 0x1_0000)
    ensures r.Some? ==>
      var blocks := Blocks(data, fs.g.ClusterSize(), |r.value|);
      && ViewOf(fs.g, fs.img[..]).boot == ViewOf(fs.g, old(fs.img[..])).boot
      && StateLaid(fs.g, fs.fat[..], ViewOf(fs.g, fs.img[..]).data, M)
      && Fillable(v, fs.g.End(), fs.g.ClusterSize(), r.value, blocks)
      && VolOf(fs.g, fs.fat[..], ViewOf(fs.g, fs.img[..]).root, ViewOf(fs.g, fs.img[..]).data, M) ==
         WithChain(v, fs.g.End(), fs.g.ClusterSize(), r.value, blocks, fs.g.Eoc())
      && d in M.dirs && (d != 0 ==> d in M.chains && Inside(M.chains[d], fs.g.Clusters()))
        && OffsetsOf(fs.g, M, d, offs)
  {
    hide ViewOf, Entries, Holds, VolOf, StateLaid, Link, FirstFree, Rising, WithChain, WriteBlocks, Blocks, BlockAt,
      Fillable, OffsetsOf, Inside, Bpb.Sane, Bpb.FatStart, Bpb.FatBytes, Bpb.RootStart, Bpb.DataStart,
      Bpb.ClusterLimit, Bpb.Clusters, Bpb.ClusterSize, Bpb.Fat12, Bpb.End, Bpb.Eoc;
    var g := fs.g;
    ghost var w, f := ViewOf(g, fs.img[..]), fs.fat[..];
    SaneSizes(g, fs.img.Length);
    LaidState(g, f, w.root, w.data, L);
    M := L;
    var n := Needs(|data|, g.ClusterSize());
    r := Reserve(fs, n);
    if r.None? {
      return;
    }
    var got := r.value;
    ghost var blocks := Blocks(data, g.ClusterSize(), n);
    M := if got == [] then L else Layout(L.chains[got[0] := got], L.dirs);
    StoredLaid(g, f, fs.fat[..], w.root, w.data, L, M, got, blocks, d, offs);
    WriteData(fs, got, data);
  }

  /** `w` is `v` with the data in the clusters `got` and the entry `e` for them in slot `k` of `d`. */
  ghost predicate Stored(g: Geometry, v: Vol, w: Vol, d: nat, k: nat, e: raw, got: seq<nat>, data: seq<byte>)
    requires d in v.dirs && k < |v.dirs[d]|
  {
    var blocks := Blocks(data, g.ClusterSize(), |got|);
    && g.ClusterSize() > 0 && |got| == Needs(|data|, g.ClusterSize()) && g.End() <= g.Eoc()
    && Fillable(v, g.End(), g.ClusterSize(), got, blocks)
    && w == Filled(v, g.End(), g.ClusterSize(), d, k, e, got, blocks, g.Eoc())
    && Live(e) && !IsDot(Tag(e)) && FitsChain(e, g.ClusterSize(), got) && Size(e) == |data|
  }

  /** The entry of a file with the clusters `got`. */
  ghost predicate IsEntry(e: raw, name: tag, attrib: byte, tm: nat, dt: nat, got: seq<nat>, size: nat) {
    var first := if got == [] then 0 else got[0];
    tm < 0x1_0000 && dt < 0x1_0000 && first < 0x1_0000 && size < 0x1_0000_0000
    && e == NewEntry(name, attrib, tm, dt, first, size)
  }

  /** The end of `main`: stores the data, writes the entry, flushes the table. */
  method Store(fs: FatRW, dclus: nat, k: nat, offs: seq<nat>, name: tag, data: seq<byte>, attrib: byte, tm: nat,
        dt: nat, ghost L: Layout, ghost v: Vol)
    returns (r: Outcome, ghost M: Layout, ghost w: Vol, ghost e: raw, ghost got: seq<nat>)
    requires fs.Ready() && StateLaid(fs.g, fs.fat[..], ViewOf(fs.g, fs.img[..]).data, L)
      && Open(fs.img[..]) == Some(fs.g)
    requires v == VolOf(fs.g, fs.fat[..], ViewOf(fs.g, fs.img[..]).root, ViewOf(fs.g, fs.img[..]).data, L)
    requires dclus in L.dirs && OffsetsOf(fs.g, L, dclus, offs) && dclus in v.dirs && k < |offs| == |v.dirs[dclus]|
    requires Nameable(name) && attrib != LONGNAME && tm < 0x1_0000 && dt < 0x1_0000 && |data| < 0x1_0000_0000
    modifies fs.img, fs.fat
    ensures fs.g.ClusterSize() > 0
    ensures r ==
      if |FirstFree(v.t, 2, Needs(|data|, fs.g.ClusterSize()))| < Needs(|data|, fs.g.ClusterSize())
      then NoSpace
      else Done
    ensures r == NoSpace ==> fs.img[..] == old(fs.img[..])
    ensures r == Done ==> Stored(fs.g, v, w, dclus, k, e, got, data) && IsEntry(e, name, attrib, tm, dt, got, |data|)
    ensures r == Done ==> Shows(fs.g, fs.img[..], M, w) && got == FirstFree(v.t, 2, |got|)
  {
    hide ViewOf, Entries, Holds, VolOf, StateLaid, Link, FirstFree, Rising, WithChain, WriteBlocks, Blocks, BlockAt,
      Fillable, OffsetsOf, Inside, NewEntry, WithEntry, Live, IsDot, Join, Open, DirOf, Shows, FitsChain, Bpb.Sane,
      Bpb.FatStart, Bpb.FatBytes, Bpb.RootStart, Bpb.DataStart, Bpb.ClusterLimit, Bpb.Clusters, Bpb.ClusterSize,
      Bpb.Fat12, Bpb.End, Bpb.Eoc;
    var g := fs.g;
    ghost var s := fs.img[..];
    SaneSizes(g, fs.img.Length);
    LaidState(g, fs.fat[..], ViewOf(g, s).root, ViewOf(g, s).data, L);
    w, e, got := v, Zeros(32), [];
    var clusters;
    clusters, M := StoreData(fs, data, dclus, offs, L, v);
    if clusters.None? {
      return NoSpace, M, w, e, got;
    }
    got := clusters.value;
    StoredDirs(g, fs.fat[..], ViewOf(g, fs.img[..]).root, ViewOf(g, fs.img[..]).data, M, v, got,
      Blocks(data, g.ClusterSize(), |got|), dclus);
    var first := if clusters.value == [] then 0 else clusters.value[0];
    var ent := NewEntry(name, attrib, tm, dt, first, |data|);
    NeedsEnough(|data|, g.ClusterSize());
    EntryMade(name, attrib, tm, dt, first, |data|, g.ClusterSize(), got);
    ghost var written := ViewOf(g, fs.img[..]).data;
    WriteEntry(fs, offs[k], ent, dclus, k, offs, M);
    StillLaid(g, fs.fat[..], written, ViewOf(g, fs.img[..]).data, M);
    e := ent;
    w := Filled(v, g.End(), g.ClusterSize(), dclus, k, e, got, Blocks(data, g.ClusterSize(), |got|), g.Eoc());
    fs.FlushFat();
    FlushedShows(g, s, fs.img[..], fs.fat[..], M, w);
    return Done, M, w, e, got;
  }

  lemma NeedsEnough(n: nat, csize: nat)
    requires csize > 0
    ensures n <= Needs(n, csize) * csize
  {
    DivMod(n + csize - 1, csize);
  }

  lemma StoredDirs(g: Geometry, f: seq<byte>, root: seq<byte>, data: seq<seq<byte>>, M: Layout, v: Vol,
                   got: seq<nat>, blocks: seq<seq<byte>>, d: nat)
    requires StateLaid(g, f, data, M) && d in M.dirs && d in v.dirs
      && Fillable(v, g.End(), g.ClusterSize(), got, blocks)
    requires VolOf(g, f, root, data, M) == WithChain(v, g.End(), g.ClusterSize(), got, blocks, g.Eoc())
    ensures DirsInside(M, |data|) && DirOf(root, data, M, d) == v.dirs[d]
    ensures WithChain(v, g.End(), g.ClusterSize(), got, blocks, g.Eoc()).dirs == v.dirs
  {
    hide Entries, Laid, DirOf, Fillable, Link, WriteBlocks;
    DirInVol(g, f, root, data, M, d);
  }

  // ---- what was stored or removed ----

  /** What the image shows after a put, whatever the name stood for: the old chain freed, the data in free clusters
      `got`, lowest first, and in the slot of the name, or else in the first free one, the new entry. */
  ghost predicate PutShown(g: Geometry, s: seq<byte>, M: Layout, v: Vol, d: nat, name: tag, data: seq<byte>,
        attr: byte, given: bool, tm: nat, dt: nat, k: nat, v1: Vol, w: Vol, e: raw, got: seq<nat>)
  {
    && PlaceFor(v, d, k, name) && (Live(v.dirs[d][k]) || FreePlace(v.dirs[d], k))
    && Freed(v, v1, g.ClusterSize(), OldChain(v, d, k)) && d in v1.dirs && v1.dirs[d] == v.dirs[d]
    && Stored(g, v1, w, d, k, e, got, data) && got == FirstFree(v1.t, 2, |got|) && Shows(g, s, M, w)
    && IsEntry(e, name, if Live(v.dirs[d][k]) && !given then v.dirs[d][k][11] else attr, tm, dt, got, |data|)
  }

  /** What it shows after a removal: the chain freed, the entry as it was but for its first byte. */
  ghost predicate RemovedShown(g: Geometry, s: seq<byte>, M: Layout, v: Vol, d: nat, name: tag, k: nat, v1: Vol) {
    && NamedAt(v, d, k) && Tag(v.dirs[d][k]) == name && Freed(v, v1, g.ClusterSize(), Clus(v.dirs[d][k]))
    && d in v1.dirs && v1.dirs[d] == v.dirs[d] && Shows(g, s, M, WithEntry(v1, d, k, Deleted(v.dirs[d][k])))
  }

  lemma StoredOK(g: Geometry, v: Vol, v1: Vol, w: Vol, d: nat, k: nat, e: raw, got: seq<nat>, data: seq<byte>)
    requires VolOK(v, g.End(), g.ClusterSize()) && PlaceFor(v, d, k, Tag(e))
      && Freed(v, v1, g.ClusterSize(), OldChain(v, d, k))
    requires d in v1.dirs && v1.dirs[d] == v.dirs[d] && Stored(g, v1, w, d, k, e, got, data) && Spare(v, d, k)
      && !IsDir(e)
    ensures VolOK(w, g.End(), g.ClusterSize()) && Becomes(v, w, g.End(), g.ClusterSize(), d, Tag(e), File(data))
    ensures OldChain(v, d, k) == 0 || OldChain(v, d, k) !in v.dirs ==> w.dirs.Keys == v.dirs.Keys
  {
    hide VolOK, Becomes, PlaceFor, Freed, Fillable, Live, IsDir, IsDot, Spare, FitsChain, Blocks, BlockAt, Link,
      WriteBlocks, OldChain, Bpb.End, Bpb.Eoc, Bpb.ClusterSize;
    var blocks := Blocks(data, g.ClusterSize(), |got|);
    BlocksHold(data, g.ClusterSize());
    PutKeeps(v, v1, g.End(), g.ClusterSize(), d, k, e, got, blocks, g.Eoc());
  }

  /** Storing a file leaves slots of directories' entries and of other names alone. */
  lemma StoredSlots(g: Geometry, v: Vol, v1: Vol, w: Vol, d: nat, k: nat, e: raw, got: seq<nat>, data: seq<byte>)
    requires PlaceFor(v, d, k, Tag(e)) && Freed(v, v1, g.ClusterSize(), OldChain(v, d, k))
      && v1.dirs.Keys == v.dirs.Keys
    requires d in v1.dirs && Stored(g, v1, w, d, k, e, got, data) && !IsDir(e)
      && !(Live(v.dirs[d][k]) && IsDir(v.dirs[d][k]))
    ensures OneFile(v, w, d, Tag(e))
  {
    hide Fillable, Find, Link, WriteBlocks, DataOK, Blocks, BlockAt, SameOutside, Droppable;
    assert forall b :: b in v.dirs ==> v1.dirs[b] == v.dirs[b];
  }

  /** What the image shows after a file was stored is a volume with the file, and no name lost, exactly if
      the slot named no directory with something in it and was given a file's entry. */
  lemma StoredMeans(g: Geometry, s: seq<byte>, M: Layout, v: Vol, v1: Vol, w: Vol, d: nat, k: nat, e: raw,
        got: seq<nat>, data: seq<byte>)
    requires VolOK(v, g.End(), g.ClusterSize()) && PlaceFor(v, d, k, Tag(e))
      && Freed(v, v1, g.ClusterSize(), OldChain(v, d, k))
    requires d in v1.dirs && v1.dirs[d] == v.dirs[d] && Stored(g, v1, w, d, k, e, got, data) && Shows(g, s, M, w)
    ensures Spare(v, d, k) && !IsDir(e) <==> exists N :: BecomesOn(g, s, N, v, d, Tag(e), File(data))
    ensures Spare(v, d, k) && !IsDir(e) ==> BecomesOn(g, s, M, v, d, Tag(e), File(data)) && ImageVol(g, s, M) == w
  {
    hide ImageOK, ImageVol, VolOK, Shows, Becomes, Free, Find, Freed, Fillable, Live, IsDir, IsDot, Spare, Blocks,
      Link, WriteBlocks, OldChain, Bpb.End, Bpb.Eoc, Bpb.ClusterSize, Agree;
    if Spare(v, d, k) && !IsDir(e) {
      StoredOK(g, v, v1, w, d, k, e, got, data);
      ShowsVolume(g, s, M, w);
      assert BecomesOn(g, s, M, v, d, Tag(e), File(data));
    }
    forall N | BecomesOn(g, s, N, v, d, Tag(e), File(data))
      ensures Spare(v, d, k) && !IsDir(e)
    {
      var x := ImageVol(g, s, N);
      VolumeShows(g, s, N);
      ShownAgree(g, s, M, w, N, x);
      PutNeeds(v, v1, x, g.End(), g.ClusterSize(), d, k, e, got, Blocks(data, g.ClusterSize(), |got|), g.Eoc(), data);
    }
  }

  lemma RemovedMeans(g: Geometry, s: seq<byte>, M: Layout, v: Vol, v1: Vol, d: nat, k: nat, e: raw)
    requires VolOK(v, g.End(), g.ClusterSize()) && NamedAt(v, d, k) && Freed(v, v1, g.ClusterSize(), Clus(v.dirs[d][k]))
    requires d in v1.dirs && v1.dirs[d] == v.dirs[d] && e[0] == DELETED && Shows(g, s, M, WithEntry(v1, d, k, e))
    ensures Spare(v, d, k) <==> exists N :: BecomesOn(g, s, N, v, d, Tag(v.dirs[d][k]), Missing)
    ensures Spare(v, d, k) ==>
      BecomesOn(g, s, M, v, d, Tag(v.dirs[d][k]), Missing) && ImageVol(g, s, M) == WithEntry(v1, d, k, e)
    ensures !IsDir(v.dirs[d][k]) ==> ImageOK(g, s, M) && ImageVol(g, s, M).dirs.Keys == v.dirs.Keys
  {
    hide ImageOK, ImageVol, VolOK, Shows, Becomes, Freed, Live, IsDir, IsDot, Spare, Bpb.End, Bpb.ClusterSize, Agree;
    if Spare(v, d, k) || !IsDir(v.dirs[d][k]) {
      NotDirSpare(v, d, k);
      GivenUpDirs(v, v1, g.End(), g.ClusterSize(), d, k);
      RemoveKeeps(v, v1, g.End(), g.ClusterSize(), d, k, e);
      ShowsVolume(g, s, M, WithEntry(v1, d, k, e));
      assert BecomesOn(g, s, M, v, d, Tag(v.dirs[d][k]), Missing);
    }
    forall N | BecomesOn(g, s, N, v, d, Tag(v.dirs[d][k]), Missing)
      ensures Spare(v, d, k)
    {
      var x := ImageVol(g, s, N);
      VolumeShows(g, s, N);
      ShownAgree(g, s, M, WithEntry(v1, d, k, e), N, x);
      BecomesGone(v, x, g.End(), g.ClusterSize(), d, Tag(v.dirs[d][k]), Missing);
      RemoveNeeds(v, v1, x, g.End(), g.ClusterSize(), d, k);
    }
  }

  lemma NotDirSpare(v: Vol, d: nat, k: nat)
    requires d in v.dirs && k < |v.dirs[d]|
    ensures !(Live(v.dirs[d][k]) && IsDir(v.dirs[d][k])) ==> Spare(v, d, k)
  {
  }

  lemma BecomesGone(v: Vol, w: Vol, end: nat, csize: nat, d: nat, g: tag, to: Lookup)
    requires VolOK(v, end, csize) && VolOK(w, end, csize) && d in v.dirs && Becomes(v, w, end, csize, d, g, to)
    ensures OnlyEmptyGone(v, w, end, csize)
  {
  }

  // ---- the two commands ----

  /** Opens the image and lists the slots of a directory. */
  method Start(img: array<byte>, g: Geometry, d: nat, ghost L: Layout)
    returns (fs: FatRW, offs: seq<nat>, raws: seq<raw>)
    requires ImageOK(g, img[..], L) && d in L.dirs
    ensures fs.img == img && fs.g == g && fresh(fs.fat) && fs.Ready() && fs.fat[..] == ViewOf(g, img[..]).fats[0]
    ensures Open(img[..]) == Some(g) && g.Sane(img.Length)
    ensures var v := ImageVol(g, img[..], L);
      VolOK(v, g.End(), g.ClusterSize()) && d in v.dirs && raws == v.dirs[d] && |offs| == |raws| && EndMarked(raws)
        && TagsDistinct(raws)
    ensures (d != 0 ==> d in L.chains && Inside(L.chains[d], g.Clusters())) && OffsetsOf(g, L, d, offs)
  {
    hide ViewOf, Entries, Holds, VolOK, Open, Laid, Slots, ChainSlots, ChainOffsets, RootOffsets, Masked, DirsInside,
      ImageOK, ImageVol, StateLaid, Bpb.Sane, Bpb.FatStart, Bpb.FatBytes, Bpb.RootStart, Bpb.DataStart,
      Bpb.ClusterLimit, Bpb.Clusters, Bpb.ClusterSize, Bpb.Fat12, Bpb.End, Bpb.Eoc;
    ImageStart(g, img[..], L, d);
    Whole(g, img[..], L);
    SaneFat(g, img[..], L);
    DirsAt(ImageVol(g, img[..], L), g.End(), g.ClusterSize(), d);
    fs := new FatRW(img, g);
    offs, raws := fs.DirSlots(d, DirChain(L, d));
  }

  /** What writing into the directory needs once the chain is free in memory. */
  lemma ClearedStart(g: Geometry, s: seq<byte>, f: seq<byte>, L: Layout, c: nat, d: nat, offs: seq<nat>)
    returns (v1: Vol)
    requires ImageOK(g, s, L) && Cleared(g, s, f, L, c, d, offs)
    ensures var v, M := ImageVol(g, s, L), Without(L, c);
      && g.Sane(|s|) && StateLaid(g, f, ViewOf(g, s).data, M)
        && v1 == VolOf(g, f, ViewOf(g, s).root, ViewOf(g, s).data, M)
      && Freed(v, v1, g.ClusterSize(), c) && d in v1.dirs && d in v.dirs && v1.dirs[d] == v.dirs[d]
      && d in M.dirs && (d != 0 ==> d in M.chains && Inside(M.chains[d], g.Clusters())) && OffsetsOf(g, M, d, offs)
        && |offs| == |v.dirs[d]|
      && DirOf(ViewOf(g, s).root, ViewOf(g, s).data, M, d) == v.dirs[d]
  {
    hide ViewOf, Open, ImageOK, ImageVol, Freed, Entries, Masked, Laid, DirOf, Bpb.Sane, Bpb.Clusters, Bpb.ClusterSize,
      Bpb.Fat12, Without;
    SaneFat(g, s, L);
    v1 := ClearedVol(g, s, f, L, c);
    DirInVol(g, f, ViewOf(g, s).root, ViewOf(g, s).data, Without(L, c), d);
  }

  /** `--rm`: frees the chain, marks the entry deleted, flushes the table. The tool does so to a directory as well;
      then exactly those names are lost that the directory held. */
  method RemoveFile(img: array<byte>, g: Geometry, ghost L: Layout, dclus: nat, name: tag)
    returns (r: Outcome, ghost M: Layout)
    requires ImageOK(g, img[..], L) && dclus in L.dirs && Nameable(name)
    modifies img
    ensures VolOK(ImageVol(g, old(img[..]), L), g.End(), g.ClusterSize()) && dclus in ImageVol(g, old(img[..]), L).dirs
    ensures r ==
      if LookUp(ImageVol(g, old(img[..]), L), g.End(), g.ClusterSize(), dclus, name) == Missing then NotFound else Done
    ensures r == NotFound ==> img[..] == old(img[..]) && M == L
    ensures r == Done ==>
      var v := ImageVol(g, old(img[..]), L);
      && (Replaceable(v, g.End(), g.ClusterSize(), dclus, name) <==>
        exists N :: BecomesOn(g, img[..], N, v, dclus, name, Missing))
      && (Replaceable(v, g.End(), g.ClusterSize(), dclus, name) ==> BecomesOn(g, img[..], M, v, dclus, name, Missing))
      && (LookUp(v, g.End(), g.ClusterSize(), dclus, name).File? ==> ImageVol(g, img[..], M).dirs.Keys == v.dirs.Keys)
      && exists k, v1 :: RemovedShown(g, img[..], M, v, dclus, name, k, v1)
  {
    hide ViewOf, Entries, Holds, VolOK, VolOf, ImageOK, ImageVol, Open, Laid, Slots, ChainSlots, ChainOffsets,
      RootOffsets, Release, WithEntry, Freed, DirsInside, LookUp, Live, IsDir, Spare, Replaceable, BecomesOn,
      StateLaid, Shows, Cleared, FileBytes, Find, OffsetsOf, Inside, Bpb.Sane, Bpb.FatStart, Bpb.FatBytes,
      Bpb.RootStart, Bpb.DataStart, Bpb.ClusterLimit, Bpb.Clusters, Bpb.ClusterSize, Bpb.Fat12, Bpb.End, Bpb.Eoc,
      FatRW.Ready;
    ghost var s, v := img[..], ImageVol(g, img[..], L);
    var fs, offs, raws := Start(img, g, dclus, L);
    var slot, free := FindSlot(raws, name);
    Found(v, g.End(), g.ClusterSize(), dclus, name);
    if slot.None? {
      return NotFound, L;
    }
    var k := slot.value;
    PlaceFound(v, g.End(), g.ClusterSize(), dclus, name, k);
    var e := raws[k];
    GiveUp(fs, Clus(e), dclus, k, offs, L);
    M := Without(L, Clus(e));
    ghost var v1 := ClearedStart(g, s, fs.fat[..], L, Clus(e), dclus, offs);
    WriteEntry(fs, offs[k], Deleted(e), dclus, k, offs, M);
    StillLaid(g, fs.fat[..], ViewOf(g, s).data, ViewOf(g, img[..]).data, M);
    fs.FlushFat();
    FlushedShows(g, s, img[..], fs.fat[..], M, WithEntry(v1, dclus, k, Deleted(e)));
    RemovedMeans(g, img[..], M, v, v1, dclus, k, Deleted(e));
    SpareMeans(v, g.End(), g.ClusterSize(), dclus, k, name);
    NotDirSpare(v, dclus, k);
    assert RemovedShown(g, img[..], M, v, dclus, name, k, v1);
    return Done, M;
  }

  lemma NothingCleared(g: Geometry, s: seq<byte>, L: Layout, d: nat, offs: seq<nat>)
    requires ImageOK(g, s, L) && d in L.dirs && d in ImageVol(g, s, L).dirs
    requires (d != 0 ==> d in L.chains && Inside(L.chains[d], g.Clusters())) && OffsetsOf(g, L, d, offs)
    requires |offs| == |ImageVol(g, s, L).dirs[d]|
    ensures g.Sane(|s|) && g.nfat > 0 && Cleared(g, s, ViewOf(g, s).fats[0], L, 0, d, offs)
  {
    hide ViewOf, Open, ImageOK, VolOK, Entries, Masked, Laid, DirOf, StateLaid, OffsetsOf, Bpb.Sane, Bpb.Clusters,
      Bpb.ClusterSize, Bpb.Fat12;
    SaneFat(g, s, L);
    Whole(g, s, L);
  }

  lemma StoredKeys(g: Geometry, v: Vol, w: Vol, d: nat, k: nat, e: raw, got: seq<nat>, data: seq<byte>)
    requires d in v.dirs && k < |v.dirs[d]| && Stored(g, v, w, d, k, e, got, data)
    ensures w.dirs.Keys == v.dirs.Keys
  {
    hide Fillable, Filled, Blocks, Live, IsDot;
    FilledKeys(v, g.End(), g.ClusterSize(), d, k, e, got, Blocks(data, g.ClusterSize(), |got|), g.Eoc());
  }

  /** A file put where no directory was changes no other slot. */
  lemma StoredFile(g: Geometry, v: Vol, v1: Vol, w: Vol, d: nat, k: nat, e: raw, got: seq<nat>, data: seq<byte>)
    requires VolOK(v, g.End(), g.ClusterSize()) && PlaceFor(v, d, k, Tag(e))
      && Freed(v, v1, g.ClusterSize(), OldChain(v, d, k))
    requires d in v1.dirs && v1.dirs[d] == v.dirs[d] && Stored(g, v1, w, d, k, e, got, data)
    ensures !IsDir(e) && !(Live(v.dirs[d][k]) && IsDir(v.dirs[d][k])) ==> OneFile(v, w, d, Tag(e))
  {
    hide VolOK, Becomes, Freed, Stored, Live, IsDir, IsDot, Free, Find, OneFile, Bpb.End, Bpb.ClusterSize;
    if !IsDir(e) && !(Live(v.dirs[d][k]) && IsDir(v.dirs[d][k])) {
      if Live(v.dirs[d][k]) {
        PlaceNamed(v, d, k, Tag(e));
        NamedChain(v, g.End(), g.ClusterSize(), d, k);
      }
      StoredOK(g, v, v1, w, d, k, e, got, data);
      StoredKeys(g, v1, w, d, k, e, got, data);
      StoredSlots(g, v, v1, w, d, k, e, got, data);
    }
  }

  /** What putting so many bytes under a name answers. */
  ghost function PutAnswer(v: Vol, csize: nat, d: nat, name: tag, size: nat): Outcome
    requires d in v.dirs && csize > 0
  {
    if Full(v.dirs[d], name) then DirectoryFull
    else if |FreeSet(v.t)| + HeldBy(v, d, name) < Needs(size, csize) then NoSpace
    else Done
  }

  /** The name can be given a file: it names no directory, or an empty one and the attributes are given. */
  ghost predicate Puttable(v: Vol, end: nat, csize: nat, d: nat, name: tag, given: bool)
    requires VolOK(v, end, csize) && d in v.dirs
  {
    Replaceable(v, end, csize, d, name) && (LookUp(v, end, csize, d, name).Directory? ==> given)
  }

  /** Creates or replaces a file. The tool does so over a directory as well: it frees the directory's clusters, and
      without `--attr` the entry stays a directory's. */
  method PutFile(img: array<byte>, g: Geometry, ghost L: Layout, dclus: nat, name: tag, data: seq<byte>,
                 attr: byte, given: bool, tm: nat, dt: nat)
    returns (r: Outcome, ghost M: Layout)
    requires ImageOK(g, img[..], L) && dclus in L.dirs && Nameable(name)
    requires PlainAttr(attr) && tm < 0x1_0000 && dt < 0x1_0000 && |data| < 0x1_0000_0000
    modifies img
    ensures VolOK(ImageVol(g, old(img[..]), L), g.End(), g.ClusterSize()) && dclus in ImageVol(g, old(img[..]), L).dirs
      && g.ClusterSize() > 0
    ensures r == PutAnswer(ImageVol(g, old(img[..]), L), g.ClusterSize(), dclus, name, |data|)
    ensures r != Done ==> img[..] == old(img[..]) && M == L
    ensures r == Done ==>
      var v := ImageVol(g, old(img[..]), L);
      && (Puttable(v, g.End(), g.ClusterSize(), dclus, name, given) <==>
        exists N :: BecomesOn(g, img[..], N, v, dclus, name, File(data)))
      && (Puttable(v, g.End(), g.ClusterSize(), dclus, name, given) ==>
        BecomesOn(g, img[..], M, v, dclus, name, File(data)))
      && (!LookUp(v, g.End(), g.ClusterSize(), dclus, name).Directory? ==>
        OneFile(v, ImageVol(g, img[..], M), dclus, name))
      && exists k, v1, w, e, got :: PutShown(g, img[..], M, v, dclus, name, data, attr, given, tm, dt, k, v1, w, e, got)
  {
    hide ViewOf, Entries, Holds, VolOK, VolOf, ImageOK, ImageVol, Open, Laid, Slots, ChainSlots, ChainOffsets,
      RootOffsets, Release, WithEntry, Freed, DirsInside, LookUp, Live, Spare, Replaceable, BecomesOn, StateLaid,
      Shows, Cleared, FileBytes, Find, OffsetsOf, Inside, FirstFree, Stored, OneFile, Full, HeldBy, FreeFrom, Needs,
      Free, IsDot, Bpb.Sane, Bpb.FatStart, Bpb.FatBytes, Bpb.RootStart, Bpb.DataStart, Bpb.ClusterLimit, Bpb.Clusters,
      Bpb.ClusterSize, Bpb.Fat12, Bpb.End, Bpb.Eoc, FatRW.Ready;
    ghost var s, v := img[..], ImageVol(g, img[..], L);
    var fs, offs, raws := Start(img, g, dclus, L);
    SaneSizes(g, img.Length);
    Found(v, g.End(), g.ClusterSize(), dclus, name);
    var slot, free := FindSlot(raws, name);
    if slot.None? && free.None? {
      return DirectoryFull, L;
    }
    var k := if slot.Some? then slot.value else free.value;
    PlaceFound(v, g.End(), g.ClusterSize(), dclus, name, k);
    ghost var c := 0;
    var attrib := attr;
    if slot.Some? {
      c := Clus(raws[k]);
      GiveUp(fs, Clus(raws[k]), dclus, k, offs, L);
      attrib := if given then attr else raws[k][11];
    } else {
      NothingCleared(g, s, L, dclus, offs);
    }
    ghost var v1 := ClearedStart(g, s, fs.fat[..], L, c, dclus, offs);
    RoomLeft(v, v1, g.End(), g.ClusterSize(), dclus, k, name, Needs(|data|, g.ClusterSize()));
    ghost var w, e, got;
    r, M, w, e, got := Store(fs, dclus, k, offs, name, data, attrib, tm, dt, Without(L, c), v1);
    if r == NoSpace {
      M := L;
      return;
    }
    StoredMeans(g, img[..], M, v, v1, w, dclus, k, e, got, data);
    SpareMeans(v, g.End(), g.ClusterSize(), dclus, k, name);
    StoredFile(g, v, v1, w, dclus, k, e, got, data);
    NotDirSpare(v, dclus, k);
    assert PutShown(g, img[..], M, v, dclus, name, data, attr, given, tm, dt, k, v1, w, e, got);
  }
}
