/** The volume that an image holds, and what changes of the image do to it. */
module FatImage {
  import opened Arith
  import opened Bytes
  import opened FatEntries
  import opened Chains
  import opened Geometry
  import opened Volume
  import opened VolumeFiles
  import opened Directory
  import opened Wrappers

  /** An image whose FAT copies agree and hold the volume that `L` lays out. */
  ghost predicate ImageOK(g: Geometry, s: seq<byte>, L: Layout) {
    && g.Sane(|s|) && Open(s) == Some(g)
    && (forall i :: 0 <= i < g.nfat ==> ViewOf(g, s).fats[i] == ViewOf(g, s).fats[0])
    && StateOK(g, ViewOf(g, s).fats[0], ViewOf(g, s).root, ViewOf(g, s).data, L)
  }

  ghost function ImageVol(g: Geometry, s: seq<byte>, L: Layout): Vol
    requires ImageOK(g, s, L)
  {
    VolOf(g, ViewOf(g, s).fats[0], ViewOf(g, s).root, ViewOf(g, s).data, L)
  }

  lemma SaneCopies(g: Geometry, n: nat)
    requires g.Sane(n)
    ensures g.nfat > 0
  {
  }

  lemma SaneFat(g: Geometry, s: seq<byte>, L: Layout)
    requires ImageOK(g, s, L)
    ensures g.Sane(|s|) && Open(s) == Some(g)
  {
  }

  lemma SaneSizes(g: Geometry, n: nat)
    requires g.Sane(n)
    ensures g.ClusterSize() > 0 && g.Clusters() + 2 <= g.End() <= g.Eoc() < 0x1_0000
  {
  }

  lemma LaidState(g: Geometry, f: seq<byte>, root: seq<byte>, data: seq<seq<byte>>, L: Layout)
    requires StateLaid(g, f, data, L)
    ensures |data| == g.Clusters() && Holds(f, g.Fat12(), g.Clusters() + 1) && Sized(data, g.ClusterSize())
      && DirsInside(L, |data|)
    ensures VolOf(g, f, root, data, L).chains == L.chains
    ensures VolOf(g, f, root, data, L).t == Entries(f, g.Fat12(), g.Clusters() + 2)
  {
    hide Entries;
  }

  lemma StillLaid(g: Geometry, f: seq<byte>, a: seq<seq<byte>>, b: seq<seq<byte>>, L: Layout)
    requires StateLaid(g, f, a, L) && |b| == |a| && Sized(b, g.ClusterSize())
    ensures StateLaid(g, f, b, L)
  {
    hide Entries, Laid;
  }

  /** What an image that holds a volume consists of. */
  lemma Whole(g: Geometry, s: seq<byte>, L: Layout)
    requires ImageOK(g, s, L)
    ensures g.nfat > 0 && 0 in L.dirs
    ensures StateLaid(g, ViewOf(g, s).fats[0], ViewOf(g, s).data, L) && DirsInside(L, |ViewOf(g, s).data|)
    ensures ImageVol(g, s, L).chains == L.chains && ImageVol(g, s, L).dirs.Keys == L.dirs
    ensures VolOK(ImageVol(g, s, L), g.End(), g.ClusterSize())
    ensures ImageVol(g, s, L) == VolOf(g, ViewOf(g, s).fats[0], ViewOf(g, s).root, ViewOf(g, s).data, L)
    ensures |ImageVol(g, s, L).t| == g.Clusters() + 2 && Holds(ViewOf(g, s).fats[0], g.Fat12(), g.Clusters() + 1)
    ensures ImageVol(g, s, L).t == Entries(ViewOf(g, s).fats[0], g.Fat12(), g.Clusters() + 2)
  {
    hide ViewOf, Open, Entries, Masked, DirOf, DirsOK, OneOwner, TreeOK;
    SaneCopies(g, |s|);
  }

  lemma ImageStart(g: Geometry, s: seq<byte>, L: Layout, d: nat)
    requires ImageOK(g, s, L) && d in L.dirs
    ensures StateLaid(g, ViewOf(g, s).fats[0], ViewOf(g, s).data, L)
    ensures d != 0 ==> (d in L.chains && Inside(L.chains[d], g.Clusters()) && d >= 2 &&
      Chain(Entries(ViewOf(g, s).fats[0], g.Fat12(), g.Clusters() + 2), g.End(), d, L.chains[d]))
    ensures ImageVol(g, s, L).t == Entries(ViewOf(g, s).fats[0], g.Fat12(), g.Clusters() + 2)
    ensures ImageVol(g, s, L).chains == L.chains && d in ImageVol(g, s, L).dirs
    ensures VolOK(ImageVol(g, s, L), g.End(), g.ClusterSize()) && g.nfat > 0
    ensures EndMarked(ImageVol(g, s, L).dirs[d])
    ensures ImageVol(g, s, L).dirs[d] == DirOf(ViewOf(g, s).root, ViewOf(g, s).data, L, d)
  {
    hide ViewOf, Bpb.Sane, Entries, Masked, DirOf, Owns;
    SaneCopies(g, |s|);
    var v := ImageVol(g, s, L);
    assert DirOK(v, g.ClusterSize(), v.dirs[d]);
    if d != 0 {
      ChainSuffix(v.t, g.End(), d, L.chains[d], 0);
    }
  }

  lemma SlotsOf(g: Geometry, s: seq<byte>, L: Layout, d: nat)
    requires ImageOK(g, s, L) && d in L.dirs && d in ImageVol(g, s, L).dirs
    requires d != 0 ==> d in L.chains && Inside(L.chains[d], |ViewOf(g, s).data|)
    ensures VolOK(ImageVol(g, s, L), g.End(), g.ClusterSize())
    ensures ImageVol(g, s, L).dirs[d] == if d == 0 then Slots(ViewOf(g, s).root)
      else ChainSlots(ViewOf(g, s).data, L.chains[d])
  {
    hide ViewOf, Open, Laid, DirOK, Entries, Masked, Owns, Bpb.Sane, Slots, ChainSlots;
    SaneCopies(g, |s|);
  }

  lemma DirInVol(g: Geometry, f: seq<byte>, root: seq<byte>, data: seq<seq<byte>>, L: Layout, d: nat)
    requires Holds(f, g.Fat12(), g.Clusters() + 1) && DirsInside(L, |data|) && d in L.dirs
    ensures VolOf(g, f, root, data, L).dirs[d] == DirOf(root, data, L, d)
    ensures VolOf(g, f, root, data, L).t == Entries(f, g.Fat12(), g.Clusters() + 2)
  {
  }

  /** A name is missing when no slot has it; otherwise the slot found says what it means. */
  lemma Found(v: Vol, end: nat, csize: nat, d: nat, name: tag)
    requires VolOK(v, end, csize) && d in v.dirs
    ensures LookUp(v, end, csize, d, name) == Missing <==> Find(v.dirs[d], name, 0) == |v.dirs[d]|
    ensures Find(v.dirs[d], name, 0) < |v.dirs[d]| && !LookUp(v, end, csize, d, name).Directory? ==>
      FileAt(v, d, Find(v.dirs[d], name, 0))
  {
    hide Laid, Owns, DirOK, Find;
    var k := Find(v.dirs[d], name, 0);
  }

  lemma HoldsNow(v: Vol, end: nat, csize: nat, d: nat, k: nat, bytes: seq<byte>)
    requires VolOK(v, end, csize) && FileAt(v, d, k) && LookUp(v, end, csize, d, Tag(v.dirs[d][k])) == File(bytes)
    ensures Clus(v.dirs[d][k]) != 0 ==> ChainInside(v, Clus(v.dirs[d][k]))
    ensures FileBytes(v, v.dirs[d][k]) == bytes
  {
    hide Laid, Owns, FileBytes, EntryOK;
    assert DirOK(v, csize, v.dirs[d]);
    TagsApart(v.dirs[d], k);
    FindAt(v.dirs[d], Tag(v.dirs[d][k]), k);
    FileInside(v, end, csize, d, k);
  }

  /** The chain that the entry in slot `k` names. */
  ghost function FileChainOf(L: Layout, c: nat): seq<nat> {
    if c in L.chains then L.chains[c] else []
  }

  lemma EntryStart(g: Geometry, s: seq<byte>, L: Layout, d: nat, k: nat)
    requires ImageOK(g, s, L) && NamedAt(ImageVol(g, s, L), d, k)
    ensures var v := ImageVol(g, s, L); var c := Clus(v.dirs[d][k]);
      && Droppable(v, c) && (c != 0 ==> c != d && (c in L.dirs <==> IsDir(v.dirs[d][k])))
      && (if c < 2 then c == 0 && FileChainOf(L, c) == [] else Chain(v.t, g.End(), c, FileChainOf(L, c)))
      && (forall i :: 0 <= i < |FileChainOf(L, c)| ==> FileChainOf(L, c)[i] < |v.t|)
      && (c != 0 ==> FileChainOf(L, c) == L.chains[c])
  {
    hide ViewOf, Open, Entries, Masked, DirOf, VolOK, Live, IsDir, IsDot, Bpb.Sane;
    Whole(g, s, L);
    var v := ImageVol(g, s, L);
    var c := Clus(v.dirs[d][k]);
    NamedChain(v, g.End(), g.ClusterSize(), d, k);
    HeadsInside(v, g.End(), g.ClusterSize());
    LaidOf(v, g.End(), g.ClusterSize());
  }

  lemma FileStart(g: Geometry, s: seq<byte>, L: Layout, d: nat, k: nat)
    requires ImageOK(g, s, L) && FileAt(ImageVol(g, s, L), d, k)
    ensures var v := ImageVol(g, s, L); var c := Clus(v.dirs[d][k]);
      && Droppable(v, c) && (c != 0 ==> c !in L.dirs)
      && (if c < 2 then c == 0 && FileChainOf(L, c) == [] else Chain(v.t, g.End(), c, FileChainOf(L, c)))
      && (forall i :: 0 <= i < |FileChainOf(L, c)| ==> FileChainOf(L, c)[i] < |v.t|)
      && (c != 0 ==> FileChainOf(L, c) == L.chains[c])
  {
    hide ImageOK, ImageVol, VolOK, Live, IsDir, IsDot, Droppable;
    Whole(g, s, L);
    FileChain(ImageVol(g, s, L), g.End(), g.ClusterSize(), d, k);
    EntryStart(g, s, L, d, k);
  }

  /** The layout without what the chain at `c` was. */
  ghost function Without(L: Layout, c: nat): Layout {
    if c == 0 then L else Layout(L.chains - {c}, L.dirs - {c})
  }

  /** Releasing a chain in the table and in the layout is freeing it in the volume. */
  lemma Released(g: Geometry, f: seq<byte>, h: seq<byte>, root: seq<byte>, data: seq<seq<byte>>, L: Layout, c: nat)
    requires StateLaid(g, f, data, L) && Holds(h, g.Fat12(), g.Clusters() + 1)
    requires Droppable(VolOf(g, f, root, data, L), c)
    requires var t := Entries(f, g.Fat12(), g.Clusters() + 2);
      Entries(h, g.Fat12(), g.Clusters() + 2) == if c == 0 then t else Release(t, L.chains[c])
    ensures StateLaid(g, h, data, Without(L, c))
    ensures Freed(VolOf(g, f, root, data, L), VolOf(g, h, root, data, Without(L, c)), g.ClusterSize(), c)
  {
    hide Entries, Holds, Masked, ChainSlots, Slots, Bpb.Clusters, Bpb.ClusterSize, Bpb.Fat12, Laid, DirClusters;
    if c != 0 {
      ReleaseLaid(Entries(f, g.Fat12(), g.Clusters() + 2), g.End(), L.chains, c);
      WithoutClusters(L, c);
      var v, w := VolOf(g, f, root, data, L), VolOf(g, h, root, data, Without(L, c));
      assert w.dirs == v.dirs - {c} by {
        assert forall d :: d in w.dirs ==> w.dirs[d] == v.dirs[d];
      }
    }
  }

  lemma WithoutClusters(L: Layout, c: nat)
    requires c in L.chains
    ensures forall x :: x !in L.chains[c] ==> (x in DirClusters(Without(L, c)) <==> x in DirClusters(L))
  {
    var M := Without(L, c);
    forall x | x !in L.chains[c] && x in DirClusters(L)
      ensures x in DirClusters(M)
    {
      var d, i :| d in L.dirs && d in L.chains && 0 <= i < |L.chains[d]| && L.chains[d][i] == x;
      assert c != 0 ==> d in M.dirs && M.chains[d][i] == x;
    }
    forall x | x in DirClusters(M)
      ensures x in DirClusters(L)
    {
      var d, i :| d in M.dirs && d in M.chains && 0 <= i < |M.chains[d]| && M.chains[d][i] == x;
      assert L.chains[d][i] == x;
    }
  }

  lemma LinkNone(t: seq<nat>, eoc: nat)
    ensures Link(t, [], eoc) == t
  {
  }

  lemma NotDirs(L: Layout, n: nat, v: Vol, end: nat, got: seq<nat>)
    requires DirsInside(L, n) && Laid(v.t, end, L.chains) && (got != [] ==> Allocatable(v.t, end, got))
    ensures got != [] ==> got[0] !in L.chains && got[0] !in L.dirs
  {
    if got != [] {
      FreeApart(v.t, end, L.chains, got);
    }
  }

  /** Linking and filling clusters in table, layout and image is doing so in the volume. */
  lemma Grown(g: Geometry, f: seq<byte>, h: seq<byte>, root: seq<byte>, data: seq<seq<byte>>, L: Layout, M: Layout,
              got: seq<nat>, blocks: seq<seq<byte>>)
    requires StateLaid(g, f, data, L) && Holds(h, g.Fat12(), g.Clusters() + 1) && g.Eoc() >= g.End()
    requires Fillable(VolOf(g, f, root, data, L), g.End(), g.ClusterSize(), got, blocks)
    requires Rising(got, |data| + 2) && forall i :: 0 <= i < |got| ==> got[i] >= 2
    requires Entries(h, g.Fat12(), g.Clusters() + 2) == Link(Entries(f, g.Fat12(), g.Clusters() + 2), got, g.Eoc())
    requires M == if got == [] then L else Layout(L.chains[got[0] := got], L.dirs)
    requires Laid(VolOf(g, f, root, data, L).t, g.End(), L.chains)
    ensures StateLaid(g, h, WriteBlocks(data, got, blocks), M)
    ensures VolOf(g, h, root, WriteBlocks(data, got, blocks), M) ==
            WithChain(VolOf(g, f, root, data, L), g.End(), g.ClusterSize(), got, blocks, g.Eoc())
  {
    hide Entries, Holds, Masked, ChainSlots, Bpb.Clusters, Bpb.ClusterSize, Bpb.Fat12, Bpb.End, Bpb.Eoc,
      Allocatable, WriteBlocks, Laid, Link;
    var v := VolOf(g, f, root, data, L);
    WithChainLaid(v, g.End(), g.ClusterSize(), got, blocks, g.Eoc());
    SizedWritten(data, g.ClusterSize(), got, blocks);
    BlocksWritten(g, f, root, data, L, got, blocks);
    NotDirs(L, |data|, v, g.End(), got);
    ChainsReplaced(g, f, h, root, WriteBlocks(data, got, blocks), L, M);
    if got == [] {
      LinkNone(v.t, g.Eoc());
    }
  }

  lemma StateFrom(g: Geometry, f: seq<byte>, root: seq<byte>, data: seq<seq<byte>>, L: Layout, v: Vol)
    requires Holds(f, g.Fat12(), g.Clusters() + 1) && |data| == g.Clusters() && Sized(data, g.ClusterSize())
    requires DirsInside(L, |data|) && VolOf(g, f, root, data, L) == v && VolOK(v, g.End(), g.ClusterSize())
    ensures StateOK(g, f, root, data, L)
  {
  }

  /** What an image holds after the table in memory has been flushed to every copy. */
  lemma Flushed(g: Geometry, s: seq<byte>, r: seq<byte>, f: seq<byte>, L: Layout, M: Layout)
    requires ImageOK(g, s, L) && |r| == |s| && Holds(f, g.Fat12(), g.Clusters() + 1)
    requires ViewOf(g, r).boot == ViewOf(g, s).boot
    requires forall i :: 0 <= i < g.nfat ==> ViewOf(g, r).fats[i] == f
    requires StateOK(g, f, ViewOf(g, r).root, ViewOf(g, r).data, M)
    ensures ImageOK(g, r, M)
    ensures ImageVol(g, r, M) == VolOf(g, f, ViewOf(g, r).root, ViewOf(g, r).data, M)
  {
    hide StateOK, VolOf, Entries, Pieces;
    PartsInOrder(g, |s|);
    OpenSame(s, r, g);
  }

  // ---- what an image shows, whether that is a volume or not ----

  /** Read by the layout `L`, the image shows `v`: the chains run as `L` says; `v` need not be a volume. */
  ghost predicate Shows(g: Geometry, s: seq<byte>, L: Layout, v: Vol) {
    && g.Sane(|s|) && Open(s) == Some(g)
    && (forall i :: 0 <= i < g.nfat ==> ViewOf(g, s).fats[i] == ViewOf(g, s).fats[0])
    && StateLaid(g, ViewOf(g, s).fats[0], ViewOf(g, s).data, L)
    && v == VolOf(g, ViewOf(g, s).fats[0], ViewOf(g, s).root, ViewOf(g, s).data, L)
  }

  lemma ShowsVolume(g: Geometry, s: seq<byte>, L: Layout, v: Vol)
    requires Shows(g, s, L, v) && VolOK(v, g.End(), g.ClusterSize())
    ensures ImageOK(g, s, L) && ImageVol(g, s, L) == v
  {
    hide ViewOf, Open, Entries, Masked, DirOf, VolOK, Laid, Bpb.Sane;
    SaneCopies(g, |s|);
  }

  lemma VolumeShows(g: Geometry, s: seq<byte>, L: Layout)
    requires ImageOK(g, s, L)
    ensures Shows(g, s, L, ImageVol(g, s, L))
  {
    hide ViewOf, Open, Entries, Masked, DirOf, VolOK, Bpb.Sane;
    SaneCopies(g, |s|);
    Whole(g, s, L);
  }

  /** Two readings of an image agree on what both have. */
  lemma ShownAgree(g: Geometry, s: seq<byte>, L: Layout, v: Vol, M: Layout, w: Vol)
    requires Shows(g, s, L, v) && Shows(g, s, M, w)
    ensures v.t == w.t && Agree(v, w)
  {
    hide ViewOf, Open, Entries, Masked, Slots, ChainSlots, Chain, Bpb.Sane, Bpb.Clusters, Bpb.ClusterSize, Bpb.Fat12,
      Bpb.End;
    SaneCopies(g, |s|);
    forall h | h in v.chains && h in w.chains
      ensures w.chains[h] == v.chains[h]
    {
      ChainUnique(v.t, g.End(), h, v.chains[h], w.chains[h]);
    }
  }

  /** What an image shows after the table in memory has been flushed to every copy. */
  lemma FlushedShows(g: Geometry, s: seq<byte>, r: seq<byte>, f: seq<byte>, M: Layout, w: Vol)
    requires g.Sane(|s|) && Open(s) == Some(g) && |r| == |s| && ViewOf(g, r).boot == ViewOf(g, s).boot
    requires StateLaid(g, f, ViewOf(g, r).data, M) && w == VolOf(g, f, ViewOf(g, r).root, ViewOf(g, r).data, M)
    requires forall i :: 0 <= i < g.nfat ==> ViewOf(g, r).fats[i] == f
    ensures Shows(g, r, M, w)
  {
    hide StateLaid, VolOf, Entries, Pieces;
    PartsInOrder(g, |s|);
    OpenSame(s, r, g);
  }

  /** The image is a volume in which, against `v`, one name means something else and nothing is lost. */
  ghost predicate BecomesOn(g: Geometry, s: seq<byte>, L: Layout, v: Vol, d: nat, name: tag, to: Lookup)
    requires VolOK(v, g.End(), g.ClusterSize()) && d in v.dirs
  {
    && ImageOK(g, s, L) && VolOK(ImageVol(g, s, L), g.End(), g.ClusterSize())
    && Becomes(v, ImageVol(g, s, L), g.End(), g.ClusterSize(), d, name, to)
  }
}
