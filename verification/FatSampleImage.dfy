/** The sample volume as the bytes of an image that the tools can be given. */
module FatSampleImage {
  import opened Bytes
  import opened Chains
  import opened FatEntries
  import opened Geometry
  import opened Volume
  import opened VolumeFiles
  import opened Directory
  import opened FatImage
  import opened FatCopy
  import opened FatMakeDir
  import opened FatInPlace
  import opened FatSample
  import opened Wrappers

  const TINY: Geometry := Bpb(0, SIZE, 1, 1, 1, 16, 1, 6)
  const LAYOUT := Layout(map[2 := [2], 3 := [3]], {0, 2})

  /** The boot sector of a volume of six sectors: itself, one FAT, the root directory and three clusters. */
  function BootBytes(): (s: seq<byte>)
    ensures |s| == SIZE
  {
    [0xEB] + Zeros(10) + [0, 2, 1, 1, 0, 1, 16, 0, 6, 0, 0xF0, 1, 0] + Zeros(486) + [0x55, 0xAA]
  }

  function TableBytes(): (s: seq<byte>)
    ensures |s| == SIZE
  {
    [0xF0, 0xFF, 0xFF, 0xFF, 0xFF, 0xFF] + Zeros(506)
  }

  /** Slots one after the other. */
  function Flat(es: seq<raw>): (s: seq<byte>)
    ensures |s| == 32 * |es|
  {
    if es == [] then [] else Flat(es[..|es| - 1]) + es[|es| - 1]
  }

  lemma {:induction false} FlatAt(es: seq<raw>, k: nat)
    requires k < |es|
    ensures Cut(Flat(es), 32 * k, 32) == es[k]
    decreases |es|
  {
    var n := |es| - 1;
    if k < n {
      FlatAt(es[..n], k);
      CutLeft(Flat(es[..n]), es[n], 32 * k, 32);
    }
  }

  lemma CutLeft(a: seq<byte>, b: seq<byte>, o: nat, n: nat)
    requires o + n <= |a|
    ensures Cut(a + b, o, n) == Cut(a, o, n)
  {
  }

  lemma CutRight(a: seq<byte>, b: seq<byte>, o: nat, n: nat)
    requires o >= |a| && o + n <= |a| + |b|
    ensures Cut(a + b, o, n) == Cut(b, o - |a|, n)
  {
  }

  lemma SlotsFlat(es: seq<raw>)
    ensures Slots(Flat(es)) == es
  {
    hide Flat;
    forall k | 0 <= k < |es|
      ensures Slots(Flat(es))[k] == es[k]
    {
      FlatAt(es, k);
    }
  }

  /** The sectors in their order. */
  function Sectors(): (r: seq<seq<byte>>)
    ensures |r| == 6 && forall i :: 0 <= i < 6 ==> |r[i]| == SIZE
  {
    SampleSizes();
    [BootBytes(), TableBytes(), Flat(RootSlots()), Flat(SubSlots()), Sevens(), Zeros(SIZE)]
  }

  lemma SampleSizes()
    ensures |RootSlots()| == 16 && |SubSlots()| == 16 && |Sevens()| == SIZE
  {
    hide FatSample.Entry, Unused;
  }

  function Assembled(r: seq<seq<byte>>): (s: seq<byte>)
    requires forall i :: 0 <= i < |r| ==> |r[i]| == SIZE
    ensures |s| == SIZE * |r|
  {
    if r == [] then [] else Assembled(r[..|r| - 1]) + r[|r| - 1]
  }

  lemma {:induction false} AssembledAt(r: seq<seq<byte>>, i: nat)
    requires i < |r| && forall i :: 0 <= i < |r| ==> |r[i]| == SIZE
    ensures Cut(Assembled(r), SIZE * i, SIZE) == r[i]
    decreases |r|
  {
    var n := |r| - 1;
    if i < n {
      AssembledAt(r[..n], i);
      CutLeft(Assembled(r[..n]), r[n], SIZE * i, SIZE);
    } else {
      CutRight(Assembled(r[..n]), r[n], SIZE * i, SIZE);
    }
  }

  /** The bytes of the image. */
  function SampleBytes(): (s: seq<byte>)
    ensures |s| == 6 * SIZE
  {
    Assembled(Sectors())
  }

  lemma TinyNumbers()
    ensures TINY.FatStart() == 512 && TINY.FatBytes() == 512 && TINY.RootStart() == 1024 && TINY.DataStart() == 1536
    ensures TINY.ClusterSize() == SIZE && TINY.Clusters() == 3 && TINY.Fat12() && TINY.End() == END
      && TINY.Eoc() == 0xFFF
    ensures TINY.Sane(6 * SIZE)
  {
  }

  lemma TinyOpens(s: seq<byte>)
    requires |s| == 6 * SIZE && s[..SIZE] == BootBytes()
    ensures Open(s) == Some(TINY)
  {
    var b := BootBytes();
    assert forall i :: 0 <= i < SIZE ==> s[i] == b[i];
  }

  /** The parts of the image are its sectors. */
  lemma SampleView()
    ensures TINY.Sane(|SampleBytes()|) && Open(SampleBytes()) == Some(TINY)
    ensures var v := ViewOf(TINY, SampleBytes());
      && v.fats == [TableBytes()] && v.root == Flat(RootSlots()) && v.data == [Flat(SubSlots()), Sevens(), Zeros(SIZE)]
  {
    hide Assembled, Pieces, Cut, Open, Bpb.Sane, Bpb.FatStart, Bpb.FatBytes, Bpb.RootStart, Bpb.DataStart,
      Bpb.ClusterLimit, Bpb.Clusters, Bpb.ClusterSize, BootBytes, TableBytes, RootSlots, SubSlots, Sevens, Flat, Zeros;
    TinyNumbers();
    SampleSizes();
    var s, r := SampleBytes(), Sectors();
    AssembledAt(r, 0);
    AssembledAt(r, 1);
    AssembledAt(r, 2);
    AssembledAt(r, 3);
    AssembledAt(r, 4);
    AssembledAt(r, 5);
    CutStart(s, SIZE);
    TinyOpens(s);
    PieceAt(s, 512, 1, 512, 0);
    PieceAt(s, 1536, 3, 512, 0);
    PieceAt(s, 1536, 3, 512, 1);
    PieceAt(s, 1536, 3, 512, 2);
  }

  lemma CutStart(s: seq<byte>, n: nat)
    requires n <= |s|
    ensures Cut(s, 0, n) == s[..n]
  {
  }

  lemma SampleTable()
    ensures Holds(TableBytes(), true, 4) && Entries(TableBytes(), true, 5) == Sample().t
  {
    hide FatEntries.Entry, RootSlots, SubSlots, Sevens;
    var f := TableBytes();
    assert f[..8] == [0xF0, 0xFF, 0xFF, 0xFF, 0xFF, 0xFF, 0, 0];
    forall c | 0 <= c < 5
      ensures Entries(f, true, 5)[c] == Sample().t[c]
    {
      EntriesAt(f, true, 5, c);
      EntryBytes(f, c);
    }
  }

  lemma SampleHeld(data: seq<seq<byte>>)
    requires data == [Flat(SubSlots()), Sevens(), Zeros(SIZE)] && |Flat(SubSlots())| == SIZE == |Sevens()|
    requires Holds(TableBytes(), TINY.Fat12(), TINY.Clusters() + 1) && TINY.ClusterSize() == SIZE
      && TINY.Clusters() == 3
    requires Entries(TableBytes(), TINY.Fat12(), TINY.Clusters() + 2) == Sample().t
    requires Slots(Flat(RootSlots())) == RootSlots() && Slots(Flat(SubSlots())) == SubSlots()
    ensures DirsInside(LAYOUT, |data|) && Sized(data, SIZE)
    ensures VolOf(TINY, TableBytes(), Flat(RootSlots()), data, LAYOUT) == Sample()
  {
    hide Entries, Slots, Flat, RootSlots, SubSlots, Sevens, TableBytes, Zeros, ChainSlots, Bpb.Clusters,
      Bpb.ClusterSize, Bpb.Fat12;
    OneCluster(data);
    assert DirClusters(LAYOUT) == {2} by {
      assert LAYOUT.chains[2][0] == 2;
    }
    var v := VolOf(TINY, TableBytes(), Flat(RootSlots()), data, LAYOUT);
    assert v.dirs == Sample().dirs;
    assert v.data == Sample().data;
  }

  lemma OneCluster(data: seq<seq<byte>>)
    requires |data| == 3
    ensures ChainSlots(data, [2]) == Slots(data[0])
  {
    hide Slots;
    assert [2][1..] == [] && ChainSlots(data, []) == [];
  }

  /** The image is one that the tools can be given, and it holds the sample. */
  lemma SampleImage()
    ensures ImageOK(TINY, SampleBytes(), LAYOUT) && ImageVol(TINY, SampleBytes(), LAYOUT) == Sample()
  {
    hide ViewOf, Open, Entries, Slots, Flat, RootSlots, SubSlots, Sevens, TableBytes, SampleBytes, Zeros, VolOK,
      Bpb.Sane, Bpb.Clusters, Bpb.ClusterSize, Bpb.Fat12, Bpb.End;
    TinyNumbers();
    SampleView();
    SampleTable();
    SampleOK();
    SampleSizes();
    SlotsFlat(RootSlots());
    SlotsFlat(SubSlots());
    SampleHeld([Flat(SubSlots()), Sevens(), Zeros(SIZE)]);
  }

  /** Removing `a`, putting `size` bytes over it and making a directory `b` are all carried out, and none of them is
      harmless. */
  ghost predicate DoneAndHarmful(v: Vol, end: nat, csize: nat, d: nat, a: tag, size: nat, b: tag) {
    && VolOK(v, end, csize) && d in v.dirs && csize > 0
    && LookUp(v, end, csize, d, a) != Missing && !Replaceable(v, end, csize, d, a)
    && PutAnswer(v, csize, d, a, size) == Done && (forall given :: !Puttable(v, end, csize, d, a, given))
    && MakeAnswer(v, end, csize, d, b) == Done && LookUp(v, end, csize, d, b).File?
  }

  /** The sample image is one of those: by the contracts of the three commands, none of them leaves a volume that has
      lost nothing but what was asked for. */
  lemma SampleHarmed()
    ensures ImageOK(TINY, SampleBytes(), LAYOUT)
      && DoneAndHarmful(ImageVol(TINY, SampleBytes(), LAYOUT), END, SIZE, 0, NAME_A, 1, NAME_B)
  {
    hide ImageOK, ImageVol, VolOK, LookUp, RootSlots, SubSlots, Sevens, SampleBytes, EmptyDir, Full, FreeFrom, Free,
      FreePlace;
    SampleImage();
    SampleNames();
    SampleA();
    SampleRoom();
  }

  lemma SampleRoom()
    ensures !Full(Sample().dirs[0], NAME_A) && 4 in FreeSet(Sample().t) && |FreeSet(Sample().t)| >= 1
    ensures exists k :: 0 <= k < |Sample().dirs[0]| && Free(Sample().dirs[0][k])
  {
    hide FatSample.Entry, Unused, RootSlots, SubSlots, Sevens, Find;
    SampleSlots();
    SampleA();
    assert Free(Sample().dirs[0][2]);
    assert {4} <= FreeSet(Sample().t);
    SetAtLeast({4}, FreeSet(Sample().t));
  }

  lemma SetAtLeast(a: set<nat>, b: set<nat>)
    requires a <= b
    ensures |a| <= |b|
  {
    assert b == a + (b - a);
  }

  lemma SampleB()
    ensures FileAt(Sample(), 0, 1) && Tag(Sample().dirs[0][1]) == NAME_B && Clus(Sample().dirs[0][1]) == 3
      && Size(Sample().dirs[0][1]) == 1
  {
    hide FatSample.Entry, Unused, RootSlots, SubSlots, Sevens;
    SampleSlots();
  }

  /** The tool answers that the file in slot `k` of `d` is as asked already, and it is not. */
  ghost predicate FalselySame(g: Geometry, s: seq<byte>, L: Layout, d: nat, k: nat, bytes: seq<byte>, yes: bool) {
    && ImageOK(g, s, L) && g.Sane(|s|) && VolOK(ImageVol(g, s, L), g.End(), g.ClusterSize())
      && FileAt(ImageVol(g, s, L), d, k)
    && var e := ImageVol(g, s, L).dirs[d][k];
    && Decided(g, ViewOf(g, s).data, FileChainOf(L, Clus(e)), Size(e), bytes, yes, Same)
    && LookUp(ImageVol(g, s, L), g.End(), g.ClusterSize(), d, Tag(e)) != File(bytes)
  }

  /** Two 7s for "B" count as already there, while "B" is one 7. */
  lemma SlackTaken(yes: bool)
    ensures FalselySame(TINY, SampleBytes(), LAYOUT, 0, 1, [7, 7], yes)
  {
    hide ImageOK, ImageVol, ViewOf, VolOK, Sample, Sevens, LookUp, Bpb.ClusterSize, Bpb.Clusters, SampleBytes, Flat,
      Zeros, Bpb.Sane, Open, FileAt, ChainBytes, Tag, Clus, Size, EmptyDir, RootSlots, SubSlots;
    SampleImage();
    SampleNames();
    SampleView();
    SampleB();
    TinyNumbers();
    SevensIn(ViewOf(TINY, SampleBytes()).data);
  }

  lemma SevensIn(data: seq<seq<byte>>)
    requires |data| == 3 && data[1] == Sevens()
    ensures |Sevens()| == SIZE && ChainBytes(data, [3]) == Sevens() && Sevens()[..2] == [7, 7]
  {
    assert [3][1..] == [] && ChainBytes(data, []) == [];
  }
}
