/** Blanking the free clusters of an image (tools/zero_free_space.py). */
module FatZeroFree {
  import opened Arith
  import opened Bytes
  import opened FatEntries
  import opened Chains
  import opened Geometry
  import opened Volume
  import opened VolumeFiles
  import opened Directory
  import opened FatImage
  import opened FatVolume
  import opened FatCopy

  /** Every name means what it meant. */
  ghost predicate SameFiles(v: Vol, w: Vol, end: nat, csize: nat)
    requires VolOK(v, end, csize) && VolOK(w, end, csize)
  {
    w.dirs.Keys == v.dirs.Keys &&
    forall d, g :: d in v.dirs ==> LookUp(w, end, csize, d, g) == LookUp(v, end, csize, d, g)
  }

  ghost function Overwritten(v: Vol, end: nat, csize: nat, got: seq<nat>, blocks: seq<seq<byte>>): Vol
    requires Fillable(v, end, csize, got, blocks)
  {
    if got == [] then v else v.(data := WriteBlocks(v.data, got, blocks))
  }

  /** Writing to free clusters is invisible. */
  lemma FreeIsInvisible(v: Vol, end: nat, csize: nat, got: seq<nat>, blocks: seq<seq<byte>>)
    requires VolOK(v, end, csize) && Fillable(v, end, csize, got, blocks)
    ensures VolOK(Overwritten(v, end, csize, got, blocks), end, csize)
    ensures SameFiles(v, Overwritten(v, end, csize, got, blocks), end, csize)
  {
    hide LookUp, DirOK, Laid, Allocatable;
    var w := Overwritten(v, end, csize, got, blocks);
    OverwrittenOK(v, end, csize, got, blocks);
    forall d, g | d in v.dirs
      ensures LookUp(w, end, csize, d, g) == LookUp(v, end, csize, d, g)
    {
      var k := Find(v.dirs[d], g, 0);
      if k < |v.dirs[d]| {
        OverwrittenSame(v, end, csize, got, blocks, Clus(v.dirs[d][k]));
      }
      LookUpSame(v, w, end, csize, d, g);
    }
  }

  lemma OverwrittenOK(v: Vol, end: nat, csize: nat, got: seq<nat>, blocks: seq<seq<byte>>)
    requires VolOK(v, end, csize) && Fillable(v, end, csize, got, blocks)
    ensures VolOK(Overwritten(v, end, csize, got, blocks), end, csize)
  {
    hide Laid, TreeOK;
    var w := Overwritten(v, end, csize, got, blocks);
    forall c | 0 <= c < |w.data|
      ensures |w.data[c]| == csize
    {
      if got != [] && c + 2 in got {
        var i :| 0 <= i < |got| && got[i] == c + 2;
        assert w.data[got[i] - 2] == blocks[i];
      }
    }
    forall d | d in w.dirs
      ensures DirOK(w, csize, w.dirs[d])
    {
      EntriesKept(v, w, csize, v.dirs[d]);
    }
    OwnersSame(v, w);
    TreeSame(v, w);
  }

  lemma OverwrittenSame(v: Vol, end: nat, csize: nat, got: seq<nat>, blocks: seq<seq<byte>>, c: nat)
    requires VolOK(v, end, csize) && Fillable(v, end, csize, got, blocks)
    ensures SameBytes(v, Overwritten(v, end, csize, got, blocks), c)
  {
    hide DirOK;
    if got != [] && c in v.chains {
      FreeApart(v.t, end, v.chains, got);
      forall i | 0 <= i < |v.chains[c]|
        ensures v.chains[c][i] !in got
      {
        LaidUsed(v.t, end, v.chains, c, i);
      }
    }
  }

  /** A free cluster that lies in an image of `total` bytes. */
  ghost predicate FreeIn(t: seq<nat>, g: Geometry, total: nat, c: nat) {
    2 <= c < |t| && t[c] == 0 && g.ClusterOffset(c) + g.ClusterSize() <= total
  }

  /** `free_clusters`, for an image of `total` bytes, which may end before the volume does. */
  method FreeClusters(fat: array<byte>, g: Geometry, total: nat) returns (free: seq<nat>)
    requires Holds(fat[..], g.Fat12(), g.Clusters() + 1)
    ensures Rising(free, g.Clusters() + 2)
    ensures forall c: nat :: c in free <==> FreeIn(Entries(fat[..], g.Fat12(), g.Clusters() + 2), g, total, c)
  {
    hide Entries, Entry, Holds, Bpb.Clusters, Bpb.ClusterSize, Bpb.ClusterOffset, Bpb.Fat12;
    ghost var t := Entries(fat[..], g.Fat12(), g.Clusters() + 2);
    free := [];
    for c: nat := 2 to g.Clusters() + 2
      invariant Rising(free, c)
      invariant forall k: nat :: k in free <==> k < c && FreeIn(t, g, total, k)
    {
      EntriesAt(fat[..], g.Fat12(), g.Clusters() + 2, c);
      var v := Entry(fat[..], g.Fat12(), c);
      if v == 0 && g.ClusterOffset(c) + g.ClusterSize() <= total {
        free := free + [c];
      }
    }
  }

  /** No cluster of a sane volume runs past the end of the image, so none is skipped. */
  lemma AllFree(fs: FatRW, free: seq<nat>)
    requires fs.Ready() && Rising(free, fs.g.Clusters() + 2)
    requires forall c: nat :: c in free <==> FreeIn(fs.Table(), fs.g, fs.img.Length, c)
    ensures free == FirstFree(fs.Table(), 2, |fs.Table()|)
  {
    hide Entries, FatRW.Ready, FirstFree, Bpb.Clusters, Bpb.ClusterSize, Bpb.ClusterOffset, Bpb.Fat12;
    TableSize(fs);
    var t := fs.Table();
    EnoughFree(t);
    forall c: nat
      ensures c in free <==> c in FirstFree(t, 2, |t|)
    {
      if 2 <= c < |t| {
        ClusterFits(fs, c);
      }
    }
    RisingSame(free, FirstFree(t, 2, |t|), |t|);
  }

  lemma ClusterFits(fs: FatRW, c: nat)
    requires fs.Ready() && 2 <= c < fs.g.Clusters() + 2
    ensures fs.g.ClusterOffset(c) + fs.g.ClusterSize() <= fs.img.Length
  {
    hide ViewOf, Holds, Bpb.Sane, Bpb.ClusterOffset, Bpb.Clusters, Bpb.ClusterSize, Bpb.Fat12, Bpb.FatBytes;
    SaneView(fs);
    ClusterPlace(fs.g, fs.img[..], c);
  }

  lemma TableSize(fs: FatRW)
    requires fs.Ready()
    ensures |fs.Table()| == fs.g.Clusters() + 2
  {
  }

  /** Rising sequences of the same numbers are the same. */
  lemma {:induction false} RisingSame(a: seq<nat>, b: seq<nat>, n: nat)
    requires Rising(a, n) && Rising(b, n) && forall c: nat :: c in a <==> c in b
    ensures a == b
    decreases |a|
  {
    assert (a != [] ==> a[0] in a) && (b != [] ==> b[0] in b);
    if a != [] && b != [] {
      assert a == [a[0]] + a[1..] && b == [b[0]] + b[1..];
      RisingTail(a, n);
      RisingTail(b, n);
      RisingSame(a[1..], b[1..], n);
    }
  }

  lemma RisingTail(a: seq<nat>, n: nat)
    requires Rising(a, n) && a != []
    ensures Rising(a[1..], n) && (forall c: nat :: c in a[1..] <==> c in a && c != a[0])
    ensures forall c: nat :: c in a ==> a[0] <= c
  {
    assert forall i :: 0 <= i < |a[1..]| ==> a[1..][i] == a[i + 1];
    assert a == [a[0]] + a[1..];
  }

  lemma EnoughFree(t: seq<nat>)
    ensures var f := FirstFree(t, 2, |t|); Rising(f, |t|) && (forall i :: 0 <= i < |f| ==> f[i] >= 2)
    ensures forall k :: 2 <= k < |t| && t[k] == 0 ==> k in FirstFree(t, 2, |t|)
    ensures forall k :: k in FirstFree(t, 2, |t|) ==> 2 <= k < |t| && t[k] == 0
  {
    var f := FirstFree(t, 2, |t|);
    if |f| == |t| && t != [] {
      RisingFits(f, 2, |t|);
    }
  }

  /** Rising numbers from `lo` on below `n` are no more than `n - lo`. */
  lemma {:induction false} RisingFits(f: seq<nat>, lo: nat, n: nat)
    requires (forall i :: 0 <= i < |f| ==> lo <= f[i] < n) && forall i, j :: 0 <= i < j < |f| ==> f[i] < f[j]
    ensures lo <= n ==> |f| <= n - lo
    decreases |f|
  {
    if f != [] {
      assert forall i :: 0 <= i < |f[1..]| ==> f[1..][i] == f[i + 1];
      RisingFits(f[1..], f[0] + 1, n);
    }
  }

  lemma FreeFillable(v: Vol, end: nat, csize: nat)
    requires VolOK(v, end, csize) && |v.t| <= end
    ensures var f := FirstFree(v.t, 2, |v.t|); Fillable(v, end, csize, f, Blocks([], csize, |f|))
  {
    hide DirOK, Laid;
  }

  lemma BlankBlock(cs: nat, i: nat)
    ensures BlockAt([], cs, i) == Zeros(cs)
  {
  }

  /** The zeroing: every file reads as before, so the comparison of checksums cannot fail. */
  method ZeroFreeSpace(img: array<byte>, g: Geometry, ghost L: Layout)
    requires ImageOK(g, img[..], L)
    modifies img
    ensures ImageOK(g, img[..], L)
    ensures SameFiles(ImageVol(g, old(img[..]), L), ImageVol(g, img[..], L), g.End(), g.ClusterSize())
    ensures var v := ViewOf(g, old(img[..])); var w := ViewOf(g, img[..]);
      && w.boot == v.boot && w.fats == v.fats && w.root == v.root
        && |w.data| == |v.data| == |ImageVol(g, old(img[..]), L).t| - 2
      && forall c :: 0 <= c < |v.data| ==>
           w.data[c] == if ImageVol(g, old(img[..]), L).t[c + 2] == 0 then Zeros(g.ClusterSize()) else v.data[c]
  {
    hide ViewOf, Entries, Holds, VolOK, VolOf, StateOK, Open, Laid, FirstFree, Rising, WriteBlocks, Blocks, BlockAt,
      SameFiles, Overwritten, Fillable, FatRW.Ready, ImageOK, Bpb.Sane, Bpb.FatStart, Bpb.FatBytes, Bpb.RootStart,
      Bpb.DataStart, Bpb.ClusterLimit, Bpb.Clusters, Bpb.ClusterSize, Bpb.Fat12, Bpb.End, Bpb.Eoc;
    OpenedImage(g, img[..], L);
    ghost var s, v := img[..], ViewOf(g, img[..]);
    var fs := new FatRW(img, g);
    var free := FreeClusters(fs.fat, g, img.Length);
    AllFree(fs, free);
    EnoughFree(fs.Table());
    Whole(g, s, L);
    ZeroAll(fs, free);
    Blanked(g, s, img[..], L, free, Blocks([], g.ClusterSize(), |free|));
  }

  method ZeroAll(fs: FatRW, free: seq<nat>)
    requires fs.Ready() && Rising(free, fs.g.Clusters() + 2) && forall i :: 0 <= i < |free| ==> free[i] >= 2
    modifies fs.img
    ensures fs.Ready()
    ensures var v := ViewOf(fs.g, old(fs.img[..]));
            ViewOf(fs.g, fs.img[..]) == v.(data := WriteBlocks(v.data, free, Blocks([], fs.g.ClusterSize(), |free|)))
  {
    hide ViewOf, Holds, WriteBlocks, Blocks, BlockAt, FatRW.Ready, Bpb.Sane, Bpb.FatStart, Bpb.FatBytes, Bpb.RootStart,
      Bpb.DataStart, Bpb.ClusterLimit, Bpb.Clusters, Bpb.ClusterSize, Bpb.Fat12, Bpb.ClusterOffset, Splice;
    SaneView(fs);
    ghost var v, cs := ViewOf(fs.g, fs.img[..]), fs.g.ClusterSize();
    ghost var blocks := Blocks([], cs, |free|);
    assert free[0..] == free && blocks[0..] == blocks;
    for i := 0 to |free|
      invariant fs.Ready() && fs.g.Sane(|fs.img[..]|)
      invariant Partly(v, ViewOf(fs.g, fs.img[..]), free, blocks, i)
    {
      WriteStep(ViewOf(fs.g, fs.img[..]).data, free, blocks, i);
      BlankBlock(cs, i);
      WriteWhole(fs, free[i], Zeros(fs.g.ClusterSize()));
    }
    WriteDone(ViewOf(fs.g, fs.img[..]).data);
  }

  lemma OpenedImage(g: Geometry, s: seq<byte>, L: Layout)
    requires ImageOK(g, s, L)
    ensures g.Sane(|s|) && g.nfat > 0 && |ViewOf(g, s).data| == g.Clusters()
  {
    SaneCopies(g, |s|);
  }

  lemma Blanked(g: Geometry, s: seq<byte>, r: seq<byte>, L: Layout, free: seq<nat>, blocks: seq<seq<byte>>)
    requires ImageOK(g, s, L) && |r| == |s| && blocks == Blocks([], g.ClusterSize(), |free|)
    requires var t := ImageVol(g, s, L).t;
      free == FirstFree(t, 2, |t|) && Rising(free, |t|) && (forall i :: 0 <= i < |free| ==> free[i] >= 2)
      && (forall k :: 2 <= k < |t| && t[k] == 0 ==> k in free) && |t| == |ViewOf(g, s).data| + 2
    requires ViewOf(g, r) == ViewOf(g, s).(data := WriteBlocks(ViewOf(g, s).data, free, blocks))
    ensures ImageOK(g, r, L)
    ensures SameFiles(ImageVol(g, s, L), ImageVol(g, r, L), g.End(), g.ClusterSize())
    ensures forall c :: 0 <= c < |ViewOf(g, s).data| ==>
      ViewOf(g, r).data[c] == if ImageVol(g, s, L).t[c + 2] == 0 then Zeros(g.ClusterSize()) else ViewOf(g, s).data[c]
  {
    hide ViewOf, Entries, Holds, VolOK, Open, Laid, FirstFree, Blocks, BlockAt, SameFiles, Masked, DirOf, WriteBlocks,
      VolOf, StateOK, DirsInside, Fillable, Bpb.Sane, Bpb.FatStart, Bpb.FatBytes, Bpb.RootStart, Bpb.DataStart,
      Bpb.ClusterLimit, Bpb.Clusters, Bpb.ClusterSize, Bpb.Fat12, Bpb.End, Bpb.Eoc;
    Whole(g, s, L);
    var v, f, root, data := ImageVol(g, s, L), ViewOf(g, s).fats[0], ViewOf(g, s).root, ViewOf(g, s).data;
    SaneSizes(g, |s|);
    FreeFillable(v, g.End(), g.ClusterSize());
    BlocksWritten(g, f, root, data, L, free, blocks);
    SizedWritten(data, g.ClusterSize(), free, blocks);
    FreeIsInvisible(v, g.End(), g.ClusterSize(), free, blocks);
    WriteNone(v, g.End(), g.ClusterSize(), free, blocks);
    StateFrom(g, f, ViewOf(g, r).root, ViewOf(g, r).data, L, Overwritten(v, g.End(), g.ClusterSize(), free, blocks));
    Flushed(g, s, r, f, L, L);
    BlankedClusters(v.t, data, free, g.ClusterSize());
  }

  lemma WriteNone(v: Vol, end: nat, csize: nat, got: seq<nat>, blocks: seq<seq<byte>>)
    requires Fillable(v, end, csize, got, blocks)
    ensures Overwritten(v, end, csize, got, blocks) ==
      v.(data := if got == [] then v.data else WriteBlocks(v.data, got, blocks))
    ensures got == [] ==> WriteBlocks(v.data, got, blocks) == v.data
  {
    if got == [] {
      WriteDone(v.data);
    }
  }

  lemma BlankedClusters(t: seq<nat>, data: seq<seq<byte>>, free: seq<nat>, cs: nat)
    requires |t| == |data| + 2 && Rising(free, |t|)
    requires forall i :: 0 <= i < |free| ==> free[i] >= 2 && t[free[i]] == 0
    requires forall k :: 2 <= k < |t| && t[k] == 0 ==> k in free
    ensures forall c :: 0 <= c < |data| ==>
      WriteBlocks(data, free, Blocks([], cs, |free|))[c] == if t[c + 2] == 0 then Zeros(cs) else data[c]
  {
    hide WriteBlocks, Blocks, BlockAt;
    var blocks := Blocks([], cs, |free|);
    forall c | 0 <= c < |data|
      ensures WriteBlocks(data, free, blocks)[c] == if t[c + 2] == 0 then Zeros(cs) else data[c]
    {
      if t[c + 2] == 0 {
        var i :| 0 <= i < |free| && free[i] == c + 2;
        BlankBlock(cs, i);
        assert WriteBlocks(data, free, blocks)[free[i] - 2] == blocks[i];
      }
    }
  }
}
