/** Making a directory (`make_dir` of tools/fatcp.py). */
module FatMakeDir {
  import opened Arith
  import opened Bytes
  import opened FatEntries
  import opened Chains
  import opened Geometry
  import opened Volume
  import opened VolumeFiles
  import opened Directory
  import opened FatImage
  import opened FatVolume
  import opened FatCopy
  import opened Wrappers

  const DOT: tag := [0x2E, 0x20, 0x20, 0x20, 0x20, 0x20, 0x20, 0x20, 0x20, 0x20, 0x20]
  const DOTDOT: tag := [0x2E, 0x2E, 0x20, 0x20, 0x20, 0x20, 0x20, 0x20, 0x20, 0x20, 0x20]

  /** The search of `make_dir`: whether a directory has the name already, and the first free slot. */
  method FindFree(raws: seq<raw>, g: tag) returns (taken: bool, free: Option<nat>)
    requires EndMarked(raws) && TagsDistinct(raws) && Nameable(g)
    ensures taken <==> Find(raws, g, 0) < |raws| && IsDir(raws[Find(raws, g, 0)])
    ensures !taken && free.Some? ==> FreePlace(raws, free.value)
    ensures !taken && free.None? ==> forall k :: 0 <= k < |raws| ==> !Free(raws[k])
  {
    taken, free := false, None;
    var i := 0;
    while i < |raws|
      invariant 0 <= i <= |raws|
      invariant Find(raws, g, 0) < |raws| && IsDir(raws[Find(raws, g, 0)]) ==> i <= Find(raws, g, 0)
      invariant forall j :: 0 <= j < i ==> raws[j][0] != 0
      invariant free.Some? ==> FreePlace(raws, free.value)
      invariant free.None? ==> forall j :: 0 <= j < i ==> !Free(raws[j])
    {
      var e := raws[i];
      if e[11] != LONGNAME {
        if Tag(e) == g && IsDir(e) {
          assert Live(e) by { assert e[0] == Tag(e)[0]; }
          TagsApart(raws, i);
          FindAt(raws, g, i);
          return true, free;
        }
        if e[0] == 0 || e[0] == DELETED {
          if free.None? {
            free := Some(i);
          }
          if e[0] == 0 {
            return;
          }
        }
      }
      i := i + 1;
    }
  }

  /** Where a name is in use by a file, taking the first free slot for it leaves two entries of that name:
      the directory invariant survives exactly when no entry had the name. */
  lemma SecondEntry(es: seq<raw>, k: nat, e: raw)
    requires TagsDistinct(es) && FreePlace(es, k) && Live(e)
    ensures TagsDistinct(es[k := e]) <==> Find(es, Tag(e), 0) == |es|
  {
    var j := Find(es, Tag(e), 0);
    if j < |es| {
      assert j != k && Live(es[k := e][j]) && Live(es[k := e][k]);
      if j < k {
        assert Tag(es[k := e][j]) == Tag(es[k := e][k]);
      } else {
        assert Tag(es[k := e][k]) == Tag(es[k := e][j]);
      }
    }
  }

  // ---- the new directory's cluster ----

  function DirEntry(nm: tag, c: nat, tm: nat, dt: nat): (e: raw)
    requires tm < 0x1_0000 && dt < 0x1_0000 && c < 0x1_0000
    ensures Tag(e) == nm && e[11] == 0x10 && Clus(e) == c
  {
    NewEntry(nm, 0x10, tm, dt, c, 0)
  }

  /** A cleared cluster with "." and ".." at its start. */
  function DirBlock(cs: nat, c: nat, d: nat, tm: nat, dt: nat): (b: seq<byte>)
    requires cs >= 64 && tm < 0x1_0000 && dt < 0x1_0000 && c < 0x1_0000 && d < 0x1_0000
    ensures |b| == cs
  {
    Splice(Splice(Zeros(cs), 0, DirEntry(DOT, c, tm, dt)), 32, DirEntry(DOTDOT, d, tm, dt))
  }

  lemma DirBlockFresh(cs: nat, c: nat, d: nat, tm: nat, dt: nat)
    requires cs >= 64 && tm < 0x1_0000 && dt < 0x1_0000 && c < 0x1_0000 && d < 0x1_0000
    ensures FreshDir(Slots(DirBlock(cs, c, d, tm, dt)), c, d)
  {
    hide NewEntry, Clus, Splice;
    var b, one, two := DirBlock(cs, c, d, tm, dt), DirEntry(DOT, c, tm, dt), DirEntry(DOTDOT, d, tm, dt);
    var fs := Slots(b);
    CutSplice(Splice(Zeros(cs), 0, one), 32, two);
    CutElsewhere(Splice(Zeros(cs), 0, one), 32, two, 0, 32);
    CutSplice(Zeros(cs), 0, one);
    assert fs[0] == one && fs[1] == two;
    assert one[0] == Tag(one)[0] && two[0] == Tag(two)[0];
    forall i | 2 <= i < |fs|
      ensures fs[i][0] == 0 && fs[i][11] == 0
    {
      assert fs[i][0] == b[32 * i] && fs[i][11] == b[32 * i + 11];
    }
  }

  method WriteDots(fs: FatRW, c: nat, d: nat, tm: nat, dt: nat)
    requires fs.Ready() && 2 <= c < fs.g.Clusters() + 2 && c < 0x1_0000 && d < 0x1_0000
    requires tm < 0x1_0000 && dt < 0x1_0000 && fs.g.ClusterSize() >= 64
    modifies fs.img
    ensures fs.Ready() && fs.fat[..] == old(fs.fat[..])
    ensures var v := ViewOf(fs.g, old(fs.img[..]));
            ViewOf(fs.g, fs.img[..]) == v.(data := v.data[c - 2 := DirBlock(fs.g.ClusterSize(), c, d, tm, dt)])
  {
    hide ViewOf, Holds, DirEntry, Bpb.Sane, Bpb.FatStart, Bpb.FatBytes, Bpb.RootStart, Bpb.DataStart, Bpb.ClusterLimit,
      Bpb.Clusters, Bpb.ClusterSize, Bpb.Fat12, Bpb.ClusterOffset, Splice;
    var one, two := DirEntry(DOT, c, tm, dt), DirEntry(DOTDOT, d, tm, dt);
    WriteWhole(fs, c, Zeros(fs.g.ClusterSize()));
    SaneView(fs);
    WriteCluster(fs.g, fs.img[..], c, 0, one);
    fs.WriteAt(fs.g.ClusterOffset(c), one);
    WriteCluster(fs.g, fs.img[..], c, 32, two);
    fs.WriteAt(fs.g.ClusterOffset(c) + 32, two);
  }

  // ---- the new directory in the volume ----

  lemma OneBlock(data: seq<seq<byte>>, c: nat, b: seq<byte>)
    requires 2 <= c < |data| + 2
    ensures WriteBlocks(data, [c], [b]) == data[c - 2 := b]
  {
    assert [c][1..] == [] && [b][1..] == [];
  }

  lemma OneChainSlots(data: seq<seq<byte>>, c: nat)
    requires 2 <= c < |data| + 2
    ensures Inside([c], |data|) && ChainSlots(data, [c]) == Slots(data[c - 2])
  {
    hide Slots, ChainSlots;
    assert [c][1..] == [];
    ChainSlotsStep(data, [c]);
    NoSlots(data);
  }

  lemma NoSlots(data: seq<seq<byte>>)
    ensures ChainSlots(data, []) == []
  {
  }

  /** Calling a one-cluster chain a directory: its slots are what the cluster holds, and its bytes no longer count. */
  lemma Opened(g: Geometry, f: seq<byte>, root: seq<byte>, data: seq<seq<byte>>, L: Layout, M: Layout, c: nat,
        b: seq<byte>)
    requires Holds(f, g.Fat12(), g.Clusters() + 1) && DirsInside(L, |data|)
    requires 2 <= c < |data| + 2 && c !in L.dirs && c in L.chains && L.chains[c] == [c]
    requires c !in DirClusters(L) && data[c - 2] == b
    requires M == Layout(L.chains, L.dirs + {c})
    ensures DirsInside(M, |data|)
    ensures var v := VolOf(g, f, root, data, L);
            VolOf(g, f, root, data, M) == v.(dirs := v.dirs[c := Slots(b)],
              data := v.data[c - 2 := Zeros(g.ClusterSize())])
  {
    hide Entries, Slots, ChainSlots, Holds, Bpb.ClusterSize, Bpb.Clusters, Bpb.Fat12;
    OneChainSlots(data, c);
    MoreDirClusters(L, M, c);
    var v, w := VolOf(g, f, root, data, L), VolOf(g, f, root, data, M);
    assert w.dirs == v.dirs[c := Slots(b)] by {
      assert forall d :: d in w.dirs ==> w.dirs[d] == v.dirs[c := Slots(b)][d];
    }
    assert w.data == v.data[c - 2 := Zeros(g.ClusterSize())];
  }

  lemma MoreDirClusters(L: Layout, M: Layout, c: nat)
    requires c in L.chains && L.chains[c] == [c] && M == Layout(L.chains, L.dirs + {c})
    ensures forall x :: x in DirClusters(M) <==> x == c || x in DirClusters(L)
  {
    assert c == M.chains[c][0];
  }

  /** The volume between the two halves of `make_dir`: the new directory is there, its entry is not. */
  ghost function WithOrphan(v: Vol, end: nat, csize: nat, c: nat, fs: seq<raw>, eoc: nat): Vol
    requires Fillable(v, end, csize, [c], [Zeros(csize)])
  {
    var w := WithChain(v, end, csize, [c], [Zeros(csize)], eoc);
    w.(dirs := w.dirs[c := fs])
  }

  lemma DirGrown(g: Geometry, f: seq<byte>, h: seq<byte>, root: seq<byte>, data: seq<seq<byte>>, L: Layout, M: Layout,
                 c: nat, b: seq<byte>)
    requires StateLaid(g, f, data, L) && Holds(h, g.Fat12(), g.Clusters() + 1) && g.Eoc() >= g.End()
    requires Fillable(VolOf(g, f, root, data, L), g.End(), g.ClusterSize(), [c], [b])
    requires Entries(h, g.Fat12(), g.Clusters() + 2) == Link(Entries(f, g.Fat12(), g.Clusters() + 2), [c], g.Eoc())
    requires 2 <= c < |data| + 2 && M == Layout(L.chains[c := [c]], L.dirs + {c})
    ensures Fillable(VolOf(g, f, root, data, L), g.End(), g.ClusterSize(), [c], [Zeros(g.ClusterSize())])
    ensures StateLaid(g, h, data[c - 2 := b], M) && c !in L.chains && c !in L.dirs
    ensures VolOf(g, h, root, data[c - 2 := b], M) ==
            WithOrphan(VolOf(g, f, root, data, L), g.End(), g.ClusterSize(), c, Slots(b), g.Eoc())
  {
    hide Entries, Holds, Slots, ChainSlots, Laid, Link, Rising, Allocatable, Masked, WriteBlocks,
      Bpb.Clusters, Bpb.ClusterSize, Bpb.Fat12, Bpb.End, Bpb.Eoc;
    var v, cs := VolOf(g, f, root, data, L), g.ClusterSize();
    var Mid := Layout(L.chains[c := [c]], L.dirs);
    OneRising(c, |data| + 2);
    FreeNotDir(g, f, root, data, L, [c], [b]);
    NotDirs(L, |data|, v, g.End(), [c]);
    Grown(g, f, h, root, data, L, Mid, [c], [b]);
    OneBlock(data, c, b);
    SameDirClusters(L, Mid, c);
    Opened(g, h, root, data[c - 2 := b], Mid, M, c, b);
    OneBlock(v.data, c, b);
    OneBlock(v.data, c, Zeros(cs));
    assert v.data[c - 2 := b][c - 2 := Zeros(cs)] == v.data[c - 2 := Zeros(cs)];
  }

  lemma OneRising(c: nat, n: nat)
    requires c < n
    ensures Rising([c], n)
  {
  }

  lemma SameDirClusters(L: Layout, M: Layout, c: nat)
    requires c !in L.dirs && M == Layout(L.chains[c := [c]], L.dirs)
    ensures DirClusters(M) == DirClusters(L)
  {
    forall x | x in DirClusters(L)
      ensures x in DirClusters(M)
    {
      var d, i :| d in L.dirs && d in L.chains && 0 <= i < |L.chains[d]| && L.chains[d][i] == x;
      assert M.chains[d][i] == x;
    }
    forall x | x in DirClusters(M)
      ensures x in DirClusters(L)
    {
      var d, i :| d in M.dirs && d in M.chains && 0 <= i < |M.chains[d]| && M.chains[d][i] == x;
      assert L.chains[d][i] == x;
    }
  }

  lemma WithDirOf(v: Vol, end: nat, csize: nat, d: nat, k: nat, e: raw, c: nat, fs: seq<raw>, eoc: nat)
    requires Fillable(v, end, csize, [c], [Zeros(csize)]) && d in v.dirs && k < |v.dirs[d]| && c != d
    ensures WithEntry(WithOrphan(v, end, csize, c, fs, eoc), d, k, e) ==
            WithDir(v, end, csize, d, k, e, c, Zeros(csize), fs, eoc)
  {
    hide Fillable;
    var a, b := WithEntry(WithOrphan(v, end, csize, c, fs, eoc), d, k, e),
                WithDir(v, end, csize, d, k, e, c, Zeros(csize), fs, eoc);
    assert a.dirs == b.dirs;
  }

  /** What a made directory means: its name leads to it, it is empty but for "." and "..", nothing else changed. */
  ghost predicate Makes(v: Vol, w: Vol, end: nat, csize: nat, d: nat, g: tag, c: nat)
    requires VolOK(v, end, csize) && VolOK(w, end, csize) && d in v.dirs
  {
    && c !in v.dirs && w.dirs.Keys == v.dirs.Keys + {c}
    && LookUp(w, end, csize, d, g) == Directory(c)
    && (forall b, h :: b in v.dirs && (b != d || h != g) ==> LookUp(w, end, csize, b, h) == LookUp(v, end, csize, b, h))
    && (forall h: tag :: !IsDot(h) ==> LookUp(w, end, csize, c, h) == Missing)
    && LookUp(w, end, csize, c, DOT) == Directory(c) && LookUp(w, end, csize, c, DOTDOT) == Directory(d)
    && Lost(w.t, w.chains) == Lost(v.t, v.chains)
  }

  lemma MadeDots(v: Vol, w: Vol, end: nat, csize: nat, d: nat, g: tag, c: nat)
    requires VolOK(w, end, csize) && c in w.dirs && FreshDir(w.dirs[c], c, d)
    ensures LookUp(w, end, csize, c, DOT) == Directory(c) && LookUp(w, end, csize, c, DOTDOT) == Directory(d)
  {
    hide VolOK, Clus;
    var es := w.dirs[c];
    assert Tag(es[0]) == DOT && Tag(es[1]) == DOTDOT;
    FindAt(es, DOT, 0);
    FindAt(es, DOTDOT, 1);
  }

  lemma DirMade(v: Vol, end: nat, csize: nat, d: nat, k: nat, e: raw, c: nat, fs: seq<raw>, eoc: nat)
    requires VolOK(v, end, csize) && NewDirEntry(v, d, k, e, c) && eoc >= end
    requires Fillable(v, end, csize, [c], [Zeros(csize)]) && FreshDir(fs, c, d)
    ensures var w := WithDir(v, end, csize, d, k, e, c, Zeros(csize), fs, eoc);
            VolOK(w, end, csize) && Makes(v, w, end, csize, d, Tag(e), c)
  {
    hide VolOK, Lost, Laid, LookUp, FreshDir, Allocatable, Live, Free, Clus, NewDirEntry;
    NewDirPlace(v, d, k, e, c);
    var w := WithDir(v, end, csize, d, k, e, c, Zeros(csize), fs, eoc);
    MkDirKeeps(v, end, csize, d, k, e, c, Zeros(csize), fs, eoc);
    MkDirUpdates(v, end, csize, d, k, e, c, Zeros(csize), fs, eoc);
    MadeDots(v, w, end, csize, d, Tag(e), c);
    LaidOf(v, end, csize);
    LinkConserves(v.t, end, v.chains, [c], eoc);
  }

  lemma NewDirPlace(v: Vol, d: nat, k: nat, e: raw, c: nat)
    requires NewDirEntry(v, d, k, e, c)
    ensures d in v.dirs && k < |v.dirs[d]|
  {
  }

  lemma PlaceForDir(v: Vol, end: nat, csize: nat, d: nat, name: tag, k: nat, e: raw, c: nat)
    requires VolOK(v, end, csize) && d in v.dirs && LookUp(v, end, csize, d, name) == Missing
    requires FreePlace(v.dirs[d], k) && Nameable(name) && c >= 2
    requires Tag(e) == name && e[11] == 0x10 && Clus(e) == c
    ensures NewDirEntry(v, d, k, e, c)
  {
    hide VolOK, LookUp;
    Found(v, end, csize, d, name);
    assert e[0] == name[0];
  }

  lemma SaneCluster(g: Geometry, n: nat)
    requires g.Sane(n)
    ensures g.ClusterSize() >= 64 && g.Clusters() + 2 <= g.End() <= g.Eoc() < 0x1_0000
  {
  }

  lemma FirstFreeOne(v: Vol, end: nat, csize: nat, b: seq<byte>)
    requires DataOK(v, csize) && |v.t| <= end && |FirstFree(v.t, 2, 1)| >= 1 && |b| == csize
    ensures var got := FirstFree(v.t, 2, 1);
            got == [got[0]] && 2 <= got[0] < |v.t| && Fillable(v, end, csize, [got[0]], [b])
  {
    var got := FirstFree(v.t, 2, 1);
    assert got == [got[0]];
  }

  lemma OffsetsKept(g: Geometry, L: Layout, M: Layout, d: nat, offs: seq<nat>, c: nat, n: nat)
    requires d in L.dirs && DirsInside(L, n) && n == g.Clusters() && OffsetsOf(g, L, d, offs)
    requires c !in L.dirs && M == Layout(L.chains[c := [c]], L.dirs + {c})
    ensures d in M.dirs && (d != 0 ==> d in M.chains && Inside(M.chains[d], n)) && OffsetsOf(g, M, d, offs)
  {
  }

  /** `w` is `v` with a directory in cluster `c` and the entry `e` for it in slot `k` of `d`. */
  ghost predicate Made(g: Geometry, v: Vol, w: Vol, d: nat, k: nat, e: raw, c: nat, fs: seq<raw>)
    requires d in v.dirs && k < |v.dirs[d]|
  {
    && Fillable(v, g.End(), g.ClusterSize(), [c], [Zeros(g.ClusterSize())]) && FreshDir(fs, c, d) && g.End() <= g.Eoc()
    && w == WithDir(v, g.End(), g.ClusterSize(), d, k, e, c, Zeros(g.ClusterSize()), fs, g.Eoc())
    && e[11] == 0x10 && Clus(e) == c && c >= 2 && c != d
  }

  /** The new entry, and the slots of the new directory. */
  ghost predicate NewSlots(g: Geometry, e: raw, slots: seq<raw>, d: nat, name: tag, c: nat, tm: nat, dt: nat) {
    && tm < 0x1_0000 && dt < 0x1_0000 && c < 0x1_0000 && d < 0x1_0000 && g.ClusterSize() >= 64
    && e == DirEntry(name, c, tm, dt) && slots == Slots(DirBlock(g.ClusterSize(), c, d, tm, dt))
  }

  /** What is left to do once cluster `c` is taken: clear it, write the entries, flush the table. */
  method MakeIn(fs: FatRW, dclus: nat, k: nat, offs: seq<nat>, name: tag, c: nat, tm: nat, dt: nat, ghost L: Layout,
        ghost M: Layout)
    returns (ghost w: Vol, ghost e: raw, ghost slots: seq<raw>)
    requires fs.Ready() && ImageOK(fs.g, fs.img[..], L) && dclus in L.dirs && DirsInside(L, fs.g.Clusters())
    requires OffsetsOf(fs.g, L, dclus, offs) && k < |offs| && tm < 0x1_0000 && dt < 0x1_0000
    requires var v := ImageVol(fs.g, fs.img[..], L);
      && dclus in v.dirs && |offs| == |v.dirs[dclus]|
      && FirstFree(v.t, 2, 1) == [c] && Rising([c], |v.t|) && fs.Table() == Link(v.t, [c], fs.g.Eoc())
    requires M == Layout(L.chains[c := [c]], L.dirs + {c})
    modifies fs.img
    ensures fs.Ready() && Shows(fs.g, fs.img[..], M, w)
    ensures Made(fs.g, ImageVol(fs.g, old(fs.img[..]), L), w, dclus, k, e, c, slots) && Tag(e) == name
    ensures NewSlots(fs.g, e, slots, dclus, name, c, tm, dt)
  {
    hide ViewOf, Entries, Holds, VolOK, VolOf, StateOK, Updates, Lost, Open, Laid, Slots, ChainSlots, ChainOffsets,
      RootOffsets, Link, FirstFree, Rising, WithEntry, WithDir, WithOrphan, WithChain, DirsInside, LookUp, Live,
      NewDirEntry, Fillable, FreshDir, DirBlock, DirEntry, Makes, DataOK, IsDot, FreePlace, Find, OffsetsOf, ImageOK,
      ImageVol, StateLaid, DirOf, Shows, Bpb.Sane, Bpb.FatStart, Bpb.FatBytes, Bpb.RootStart, Bpb.DataStart,
      Bpb.ClusterLimit, Bpb.Clusters, Bpb.ClusterSize, Bpb.Fat12, Bpb.End, Bpb.Eoc;
    var g := fs.g;
    ghost var s, v := fs.img[..], ImageVol(g, fs.img[..], L);
    SaneFat(g, s, L);
    MakeStart(g, s, L, M, fs.fat[..], dclus, offs, c, tm, dt);
    ghost var b := DirBlock(g.ClusterSize(), c, dclus, tm, dt);
    WriteDots(fs, c, dclus, tm, dt);
    ghost var written := ViewOf(g, fs.img[..]).data;
    var ent := DirEntry(name, c, tm, dt);
    WriteEntry(fs, offs[k], ent, dclus, k, offs, M);
    StillLaid(g, fs.fat[..], written, ViewOf(g, fs.img[..]).data, M);
    slots, e := Slots(b), ent;
    WithDirOf(v, g.End(), g.ClusterSize(), dclus, k, e, c, slots, g.Eoc());
    w := WithDir(v, g.End(), g.ClusterSize(), dclus, k, e, c, Zeros(g.ClusterSize()), slots, g.Eoc());
    fs.FlushFat();
    FlushedShows(g, s, fs.img[..], fs.fat[..], M, w);
  }

  /** The image is a volume with the new directory, and nothing else of `v` is changed. */
  ghost predicate MakesOn(g: Geometry, s: seq<byte>, L: Layout, v: Vol, d: nat, name: tag, c: nat)
    requires VolOK(v, g.End(), g.ClusterSize()) && d in v.dirs
  {
    && ImageOK(g, s, L) && VolOK(ImageVol(g, s, L), g.End(), g.ClusterSize())
    && Makes(v, ImageVol(g, s, L), g.End(), g.ClusterSize(), d, name, c)
  }

  /** Beside a file of the same name no volume is left: the directory is made exactly where the name was missing. */
  lemma MadeMeans(g: Geometry, s: seq<byte>, M: Layout, v: Vol, w: Vol, d: nat, k: nat, e: raw, c: nat, fs: seq<raw>)
    requires VolOK(v, g.End(), g.ClusterSize()) && d in v.dirs && FreePlace(v.dirs[d], k) && Nameable(Tag(e))
    requires Made(g, v, w, d, k, e, c, fs) && Shows(g, s, M, w)
    ensures LookUp(v, g.End(), g.ClusterSize(), d, Tag(e)) == Missing <==>
      exists N, x :: MakesOn(g, s, N, v, d, Tag(e), x)
    ensures LookUp(v, g.End(), g.ClusterSize(), d, Tag(e)) == Missing ==> MakesOn(g, s, M, v, d, Tag(e), c)
  {
    hide ImageOK, ImageVol, VolOK, Shows, Makes, LookUp, FreePlace, Find, Fillable, FreshDir, TagsDistinct, Live,
      IsDot, Nameable, Bpb.End, Bpb.Eoc, Bpb.ClusterSize, WithDir;
    Found(v, g.End(), g.ClusterSize(), d, Tag(e));
    FreePlaceFree(v.dirs[d], k);
    if LookUp(v, g.End(), g.ClusterSize(), d, Tag(e)) == Missing {
      PlaceForDir(v, g.End(), g.ClusterSize(), d, Tag(e), k, e, c);
      DirMade(v, g.End(), g.ClusterSize(), d, k, e, c, fs, g.Eoc());
      ShowsVolume(g, s, M, w);
      assert MakesOn(g, s, M, v, d, Tag(e), c);
    }
    forall N, x | MakesOn(g, s, N, v, d, Tag(e), x)
      ensures LookUp(v, g.End(), g.ClusterSize(), d, Tag(e)) == Missing
    {
      var u := ImageVol(g, s, N);
      VolumeShows(g, s, N);
      ShownAgree(g, s, M, w, N, u);
      MadeSlots(g, v, w, u, d, k, e, c, fs, x);
      DirsAt(v, g.End(), g.ClusterSize(), d);
      DirsAt(u, g.End(), g.ClusterSize(), d);
      LiveEntry(e);
      SecondEntry(v.dirs[d], k, e);
    }
  }

  lemma LiveEntry(e: raw)
    requires Nameable(Tag(e)) && e[11] == 0x10
    ensures Live(e)
  {
    assert e[0] == Tag(e)[0];
  }

  lemma MadeSlots(g: Geometry, v: Vol, w: Vol, u: Vol, d: nat, k: nat, e: raw, c: nat, fs: seq<raw>, x: nat)
    requires VolOK(v, g.End(), g.ClusterSize()) && VolOK(u, g.End(), g.ClusterSize()) && d in v.dirs && k < |v.dirs[d]|
    requires Made(g, v, w, d, k, e, c, fs) && Agree(w, u) && Makes(v, u, g.End(), g.ClusterSize(), d, Tag(e), x)
    ensures d in u.dirs && u.dirs[d] == v.dirs[d][k := e]
  {
    hide VolOK, Fillable, FreshDir, LookUp, Lost, IsDot, Bpb.End, Bpb.Eoc, Bpb.ClusterSize;
  }

  /** What the image shows after a directory was made, whatever the name stood for: the first free cluster cleared, with
      "." and ".." at its start, and an entry for it in the first free slot. */
  ghost predicate MadeShown(g: Geometry, s: seq<byte>, M: Layout, v: Vol, d: nat, name: tag, tm: nat, dt: nat, k: nat,
        w: Vol, e: raw, c: nat, slots: seq<raw>)
  {
    && d in v.dirs && FreePlace(v.dirs[d], k) && FirstFree(v.t, 2, 1) == [c]
    && Made(g, v, w, d, k, e, c, slots) && NewSlots(g, e, slots, d, name, c, tm, dt) && Shows(g, s, M, w)
  }

  /** What making a directory answers. */
  ghost function MakeAnswer(v: Vol, end: nat, csize: nat, d: nat, name: tag): Outcome
    requires VolOK(v, end, csize) && d in v.dirs
  {
    if LookUp(v, end, csize, d, name).Directory? then Exists
    else if forall k :: 0 <= k < |v.dirs[d]| ==> !Free(v.dirs[d][k]) then DirectoryFull
    else if FreeSet(v.t) == {} then NoSpace
    else Done
  }

  /** Creates a directory. The tool does so beside a file of the same name as well; then the directory has two entries
      of that name and the image is no volume any more. */
  method MakeDir(img: array<byte>, g: Geometry, ghost L: Layout, dclus: nat, name: tag, tm: nat, dt: nat)
    returns (r: Outcome, ghost M: Layout, ghost c: nat)
    requires ImageOK(g, img[..], L) && dclus in L.dirs && Nameable(name) && tm < 0x1_0000 && dt < 0x1_0000
    modifies img
    ensures VolOK(ImageVol(g, old(img[..]), L), g.End(), g.ClusterSize()) && dclus in ImageVol(g, old(img[..]), L).dirs
    ensures r == MakeAnswer(ImageVol(g, old(img[..]), L), g.End(), g.ClusterSize(), dclus, name)
    ensures r != Done ==> img[..] == old(img[..]) && M == L
    ensures r == Done ==>
      var v := ImageVol(g, old(img[..]), L); var fresh_ := LookUp(v, g.End(), g.ClusterSize(), dclus, name) == Missing;
      && (fresh_ <==> exists N, x :: MakesOn(g, img[..], N, v, dclus, name, x))
      && (fresh_ ==> MakesOn(g, img[..], M, v, dclus, name, c))
      && exists k, w, e, slots :: MadeShown(g, img[..], M, v, dclus, name, tm, dt, k, w, e, c, slots)
  {
    hide ViewOf, Entries, Holds, VolOK, VolOf, ImageOK, ImageVol, StateLaid, Open, Laid, Slots, ChainSlots,
      ChainOffsets, RootOffsets, Link, FirstFree, Rising, DirsInside, LookUp, Live, Made, MakesOn, Makes, Shows,
      FreePlace, Find, OffsetsOf, Inside, IsDot, FreeFrom, TagsDistinct, EndMarked, Bpb.Sane, Bpb.FatStart,
      Bpb.FatBytes, Bpb.RootStart, Bpb.DataStart, Bpb.ClusterLimit, Bpb.Clusters, Bpb.ClusterSize, Bpb.Fat12, Bpb.End,
      Bpb.Eoc, Nameable, NewSlots, Free, FatRW.Ready;
    ghost var s, v := img[..], ImageVol(g, img[..], L);
    var fs, offs, raws := Start(img, g, dclus, L);
    SearchStart(v, g.End(), g.ClusterSize(), dclus, name);
    Whole(g, s, L);
    M, c := L, 0;
    var already, free := FindFree(raws, name);
    if already {
      return Exists, L, 0;
    }
    if free.None? {
      return DirectoryFull, L, 0;
    }
    FreePlaceFree(raws, free.value);
    OneFree(v.t);
    var got := fs.Alloc(1);
    if got.None? {
      return NoSpace, L, 0;
    }
    FreeRising(v.t, 2, 1);
    c := got.value[0];
    assert got.value == [c];
    M := Layout(L.chains[c := [c]], L.dirs + {c});
    ghost var w, e, slots := MakeIn(fs, dclus, free.value, offs, name, got.value[0], tm, dt, L, M);
    MadeMeans(g, img[..], M, v, w, dclus, free.value, e, c, slots);
    assert MadeShown(g, img[..], M, v, dclus, name, tm, dt, free.value, w, e, c, slots);
    return Done, M, c;
  }

  lemma FreePlaceFree(es: seq<raw>, k: nat)
    requires FreePlace(es, k)
    ensures k < |es| && Free(es[k])
  {
  }

  lemma OneFree(t: seq<nat>)
    ensures |FirstFree(t, 2, 1)| < 1 <==> FreeSet(t) == {}
  {
    hide FirstFree, FreeFrom;
    FirstFreeCount(t, 2, 1);
    assert FreeSet(t) != {} ==> |FreeSet(t)| > 0;
  }

  /** What taking cluster `c` for a directory needs and gives. */
  lemma MakeStart(g: Geometry, s: seq<byte>, L: Layout, M: Layout, h: seq<byte>, d: nat, offs: seq<nat>, c: nat,
        tm: nat, dt: nat)
    requires ImageOK(g, s, L) && d in L.dirs && DirsInside(L, g.Clusters()) && OffsetsOf(g, L, d, offs)
    requires FirstFree(ImageVol(g, s, L).t, 2, 1) == [c] && Rising([c], |ImageVol(g, s, L).t|)
    requires Holds(h, g.Fat12(), g.Clusters() + 1)
    requires Entries(h, g.Fat12(), g.Clusters() + 2) == Link(ImageVol(g, s, L).t, [c], g.Eoc())
    requires M == Layout(L.chains[c := [c]], L.dirs + {c}) && tm < 0x1_0000 && dt < 0x1_0000
    ensures g.ClusterSize() >= 64 && 2 <= c < g.Clusters() + 2 && c < 0x1_0000 && d < 0x1_0000 && c != d
      && g.Eoc() >= g.End()
    ensures VolOK(ImageVol(g, s, L), g.End(), g.ClusterSize()) && DirsInside(M, g.Clusters())
    ensures Fillable(ImageVol(g, s, L), g.End(), g.ClusterSize(), [c], [Zeros(g.ClusterSize())])
    ensures d in M.dirs && (d != 0 ==> d in M.chains && Inside(M.chains[d], g.Clusters())) && OffsetsOf(g, M, d, offs)
    ensures var b := DirBlock(g.ClusterSize(), c, d, tm, dt); var v := ImageVol(g, s, L); var data := ViewOf(g, s).data;
      && FreshDir(Slots(b), c, d) && StateLaid(g, h, data[c - 2 := b], M)
      && VolOf(g, h, ViewOf(g, s).root, data[c - 2 := b], M) ==
        WithOrphan(v, g.End(), g.ClusterSize(), c, Slots(b), g.Eoc())
      && DirOf(ViewOf(g, s).root, data[c - 2 := b], M, d) == v.dirs[d]
  {
    hide ViewOf, Entries, Holds, VolOf, Open, Laid, Slots, ChainSlots, ChainOffsets, RootOffsets, Link, FirstFree,
      Rising, WithChain, Fillable, FreshDir, DirBlock, DataOK, OffsetsOf, DirOf, Bpb.Sane, Bpb.FatStart, Bpb.FatBytes,
      Bpb.RootStart, Bpb.DataStart, Bpb.ClusterLimit, Bpb.Clusters, Bpb.ClusterSize, Bpb.Fat12, Bpb.End, Bpb.Eoc;
    ImageStart(g, s, L, d);
    SaneCluster(g, |s|);
    var v, f, root, data := ImageVol(g, s, L), ViewOf(g, s).fats[0], ViewOf(g, s).root, ViewOf(g, s).data;
    LaidOf(v, g.End(), g.ClusterSize());
    var b := DirBlock(g.ClusterSize(), c, d, tm, dt);
    FirstFreeOne(v, g.End(), g.ClusterSize(), b);
    DirGrown(g, f, h, root, data, L, M, c, b);
    DirBlockFresh(g.ClusterSize(), c, d, tm, dt);
    OffsetsKept(g, L, M, d, offs, c, |data|);
    DirInVol(g, h, root, data[c - 2 := b], M, d);
    OrphanDirs(v, g.End(), g.ClusterSize(), c, Slots(b), g.Eoc(), d);
  }

  lemma OrphanDirs(v: Vol, end: nat, csize: nat, c: nat, fs: seq<raw>, eoc: nat, d: nat)
    requires Fillable(v, end, csize, [c], [Zeros(csize)]) && d in v.dirs && c != d
    ensures var w := WithOrphan(v, end, csize, c, fs, eoc); d in w.dirs && w.dirs[d] == v.dirs[d]
  {
  }

  lemma SearchStart(v: Vol, end: nat, csize: nat, d: nat, name: tag)
    requires VolOK(v, end, csize) && d in v.dirs
    ensures EndMarked(v.dirs[d]) && TagsDistinct(v.dirs[d])
    ensures var k := Find(v.dirs[d], name, 0);
      LookUp(v, end, csize, d, name).Directory? <==> k < |v.dirs[d]| && IsDir(v.dirs[d][k])
    ensures LookUp(v, end, csize, d, name) == Missing <==> Find(v.dirs[d], name, 0) == |v.dirs[d]|
  {
    hide Laid, Owns, Find;
    assert DirOK(v, csize, v.dirs[d]);
  }
}
