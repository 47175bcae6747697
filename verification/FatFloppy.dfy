/** A blank FAT12 floppy and one file placed on it (tools/mkfloppy.py). */
module FatFloppy {
  import opened Arith
  import opened Bytes
  import opened FatEntries
  import opened Chains
  import opened Geometry
  import opened Volume
  import opened VolumeFiles
  import opened Directory
  import opened FatImage
  import opened FatVolume
  import opened FatCopy
  import opened FatRead
  import opened Wrappers

  const FLOPPY: Geometry := Bpb(0, 512, 1, 1, 2, 224, 9, 2880)
  const IMAGE_SIZE: nat := 1_474_560
  const CAPACITY: nat := 2847
  const EMPTY := Layout(map[], {0})

  /** A table with nothing but the media byte and the two reserved entries. */
  function Fresh(): (f: seq<byte>)
    ensures |f| == 4608
  {
    [0xF0, 0xFF, 0xFF] + Zeros(4605)
  }

  lemma FloppyNumbers()
    ensures FLOPPY.FatStart() == 512 && FLOPPY.FatBytes() == 4608 && FLOPPY.RootStart() == 9728
      && FLOPPY.DataStart() == 16896
    ensures FLOPPY.ClusterSize() == 512 && FLOPPY.ClusterLimit() == 2849 && FLOPPY.Clusters() == CAPACITY
    ensures FLOPPY.Fat12() && FLOPPY.End() == 0xFF8 && FLOPPY.Eoc() == 0xFFF && FLOPPY.Sane(IMAGE_SIZE)
  {
  }

  ghost predicate BlankFloppy(s: seq<byte>) {
    && |s| == IMAGE_SIZE && Open(s) == Some(FLOPPY) && FLOPPY.Sane(|s|)
    && (forall i :: 0 <= i < 2 ==> ViewOf(FLOPPY, s).fats[i] == Fresh())
    && ViewOf(FLOPPY, s).root == Zeros(7168)
    && forall c :: 0 <= c < CAPACITY ==> ViewOf(FLOPPY, s).data[c] == Zeros(512)
  }

  lemma FreshEntry(c: nat)
    requires 2 <= c <= 2848
    ensures Holds(Fresh(), true, c) && Entry(Fresh(), true, c) == 0
  {
    hide Entry;
    EntryBytes(Fresh(), c);
  }

  lemma FreshTable()
    ensures Holds(Fresh(), true, 2848)
    ensures forall c :: 2 <= c < 2849 ==> Entries(Fresh(), true, 2849)[c] == 0
  {
    hide Entries, Entry, Fresh;
    forall c | 2 <= c < 2849
      ensures Entries(Fresh(), true, 2849)[c] == 0
    {
      FreshEntry(c);
      EntriesAt(Fresh(), true, 2849, c);
    }
  }

  lemma UnusedSlots()
    ensures |Slots(Zeros(7168))| == 224 && forall k :: 0 <= k < 224 ==> Slots(Zeros(7168))[k] == Zeros(32)
  {
    forall k | 0 <= k < 224
      ensures Slots(Zeros(7168))[k] == Zeros(32)
    {
      assert Slots(Zeros(7168))[k] == Cut(Zeros(7168), 32 * k, 32);
    }
  }

  ghost function BlankSlots(): seq<raw> {
    Slots(Zeros(7168))
  }

  lemma Unlisted(es: seq<raw>, g: tag)
    requires forall k :: 0 <= k < |es| ==> es[k] == Zeros(32)
    ensures Find(es, g, 0) == |es| && EndMarked(es) && TagsDistinct(es) && forall k :: 0 <= k < |es| ==>
      !Live(es[k]) && Free(es[k])
  {
  }

  /** The volume that a blank floppy with the clusters `data` holds. */
  ghost predicate BlankVol(v: Vol, data: seq<seq<byte>>) {
    && StateLaid(FLOPPY, Fresh(), data, EMPTY) && |data| == CAPACITY && DirsInside(EMPTY, |data|)
    && Holds(Fresh(), FLOPPY.Fat12(), FLOPPY.Clusters() + 1)
    && v == VolOf(FLOPPY, Fresh(), Zeros(7168), data, EMPTY) && VolOK(v, 0xFF8, 512)
    && v.dirs == map[0 := BlankSlots()] && v.chains == map[] && |v.t| == 2849 && forall c :: 2 <= c < 2849 ==>
      v.t[c] == 0
  }

  lemma BlankVolume(s: seq<byte>)
    requires BlankFloppy(s)
    ensures ImageOK(FLOPPY, s, EMPTY) && BlankVol(ImageVol(FLOPPY, s, EMPTY), ViewOf(FLOPPY, s).data)
  {
    hide ViewOf, Entries, Open, Fresh, Bpb.Sane, Slots, Masked, Bpb.FatStart, Bpb.FatBytes, Bpb.RootStart,
      Bpb.DataStart, Bpb.ClusterLimit, Bpb.Clusters, Bpb.ClusterSize, Bpb.Fat12, Bpb.End, VolOK;
    FloppyNumbers();
    FreshTable();
    UnusedSlots();
    var data := ViewOf(FLOPPY, s).data;
    var v := VolOf(FLOPPY, Fresh(), Zeros(7168), data, EMPTY);
    assert v.dirs == map[0 := BlankSlots()];
    BareVolume(v, 0xFF8, 512);
  }

  // ---- building the image ----

  /** `a[off:off + len(b)] = b` */
  method PutBytes(a: array<byte>, off: nat, b: seq<byte>)
    requires off + |b| <= a.Length
    modifies a
    ensures a[..] == Splice(old(a[..]), off, b)
  {
    for i := 0 to |b|
      invariant forall k :: 0 <= k < a.Length ==> a[k] == if off <= k < off + i then b[k - off] else old(a[k])
    {
      a[off + i] := b[i];
    }
  }

  /** What the reader takes from the boot sector. */
  ghost predicate BootFields(bs: seq<byte>) {
    && |bs| == 512 && bs[0] == 0xEB && U16(bs, 11) == 512 && bs[13] == 1 && U16(bs, 14) == 1 && bs[16] == 2
      && U16(bs, 17) == 224
    && U16(bs, 19) == 2880 && bs[21] == 0xF0 && U16(bs, 22) == 9 && U16(bs, 510) == 0xAA55
  }

  method BootSector(volume: seq<byte>) returns (bs: array<byte>)
    requires |volume| == 11
    ensures fresh(bs) && bs.Length == 512 && BootFields(bs[..])
  {
    hide Splice, U16;
    bs := new byte[512](_ => 0);
    PutBytes(bs, 0, [0xEB, 0x3C, 0x90]);
    PutBytes(bs, 3, [0x4D, 0x53, 0x44, 0x4F, 0x53, 0x35, 0x2E, 0x30]);
    Geometries(bs);
    Descriptions(bs, volume);
    Kept(bs[..]);
  }

  /** The numbers that say how the volume is laid out. */
  method Geometries(bs: array<byte>)
    requires bs.Length == 512
    modifies bs
    ensures bs[0] == old(bs[0]) && bs[11..24] == [0, 2, 1, 1, 0, 2, 224, 0, 64, 11, 0xF0, 9, 0]
  {
    hide Splice;
    PutBytes(bs, 11, LE16(512));
    bs[13] := 1;
    PutBytes(bs, 14, LE16(1));
    bs[16] := 2;
    PutBytes(bs, 17, LE16(224));
    PutBytes(bs, 19, LE16(2880));
    bs[21] := 0xF0;
    PutBytes(bs, 22, LE16(9));
  }

  /** What the reader does not use, and the signature. */
  method Descriptions(bs: array<byte>, volume: seq<byte>)
    requires bs.Length == 512 && |volume| == 11
    modifies bs
    ensures bs[..24] == old(bs[..24]) && bs[510] == 0x55 && bs[511] == 0xAA
  {
    hide Splice, LE16, LE32;
    PutBytes(bs, 24, LE16(18));
    PutBytes(bs, 26, LE16(2));
    PutBytes(bs, 28, LE32(0));
    PutBytes(bs, 32, LE32(0));
    bs[36] := 0;
    bs[38] := 0x29;
    PutBytes(bs, 39, [0x34, 0x12, 0x78, 0x56]);
    PutBytes(bs, 43, volume);
    PutBytes(bs, 54, [0x46, 0x41, 0x54, 0x31, 0x32, 0x20, 0x20, 0x20]);
    PutBytes(bs, 510, [0x55, 0xAA]);
  }

  lemma Kept(b: seq<byte>)
    requires |b| == 512 && b[0] == 0xEB && b[11..24] == [0, 2, 1, 1, 0, 2, 224, 0, 64, 11, 0xF0, 9, 0]
    requires b[510] == 0x55 && b[511] == 0xAA
    ensures BootFields(b)
  {
    var f := b[11..24];
    assert b[11] == f[0] && b[12] == f[1] && b[13] == f[2] && b[14] == f[3] && b[15] == f[4] && b[16] == f[5]
      && b[17] == f[6]
        && b[18] == f[7] && b[19] == f[8] && b[20] == f[9] && b[21] == f[10] && b[22] == f[11] && b[23] == f[12];
  }

  /** `build` */
  method Build(volume: seq<byte>) returns (s: seq<byte>)
    requires |volume| == 11
    ensures BlankFloppy(s)
  {
    hide Splice, ViewOf, Open, Fresh, Bpb.Sane, BlankFloppy, BootFields;
    var img := new byte[IMAGE_SIZE](_ => 0);
    var bs := BootSector(volume);
    PutBytes(img, 0, bs[..]);
    ghost var boot, b := bs[..], img[..];
    for n := 0 to 2
      invariant |b| == IMAGE_SIZE && img[..] == Marked(b, n)
    {
      PutBytes(img, (1 + n * 9) * 512, [0xF0, 0xFF, 0xFF]);
    }
    s := img[..];
    BuiltBlank(boot, b, s);
  }

  /** The first `n` tables marked. */
  function Marked(b: seq<byte>, n: nat): (s: seq<byte>)
    requires |b| == IMAGE_SIZE && n <= 2
    ensures |s| == |b|
  {
    if n == 0 then b else Splice(Marked(b, n - 1), (1 + (n - 1) * 9) * 512, [0xF0, 0xFF, 0xFF])
  }

  lemma MarkedBytes(b: seq<byte>)
    requires |b| == IMAGE_SIZE
    ensures var m := [0xF0, 0xFF, 0xFF]; forall i :: 0 <= i < |b| ==>
      Marked(b, 2)[i] == if 512 <= i < 515 then m[i - 512] else if 5120 <= i < 5123 then m[i - 5120] else b[i]
  {
    hide Splice, Marked;
    var m: seq<byte> := [0xF0, 0xFF, 0xFF];
    MarkedNext(b, 0);
    MarkedNext(b, 1);
    TwoSplices(b, m);
  }

  lemma MarkedNext(b: seq<byte>, n: nat)
    requires |b| == IMAGE_SIZE && n < 2
    ensures Marked(b, 0) == b && Marked(b, n + 1) == Splice(Marked(b, n), (1 + n * 9) * 512, [0xF0, 0xFF, 0xFF])
  {
    hide Splice;
  }

  lemma TwoSplices(b: seq<byte>, m: seq<byte>)
    requires |b| == IMAGE_SIZE && |m| == 3
    ensures forall i :: 0 <= i < |b| ==>
      Splice(Splice(b, 512, m), 5120, m)[i] == if 512 <= i < 515 then m[i - 512]
        else if 5120 <= i < 5123 then m[i - 5120] else b[i]
  {
    hide Splice;
  }

  lemma BuiltBlank(bs: seq<byte>, b: seq<byte>, s: seq<byte>)
    requires BootFields(bs) && |b| == IMAGE_SIZE && b[..512] == bs && (forall i :: 512 <= i < |b| ==> b[i] == 0)
      && s == Marked(b, 2)
    ensures BlankFloppy(s)
  {
    hide Splice, ViewOf, Open, Fresh, Bpb.Sane, Marked, BootFields, Bpb.FatStart, Bpb.FatBytes, Bpb.RootStart,
      Bpb.DataStart, Bpb.ClusterLimit, Bpb.Clusters, Bpb.ClusterSize, Bpb.Fat12, Bpb.End;
    FloppyNumbers();
    MarkedBytes(b);
    OpensAs(bs, s);
    BlankParts(s);
  }

  lemma OpensAs(bs: seq<byte>, s: seq<byte>)
    requires BootFields(bs) && |s| == IMAGE_SIZE && s[..512] == bs
    ensures Open(s) == Some(FLOPPY)
  {
    assert forall i :: 0 <= i < 512 ==> s[i] == bs[i];
  }

  lemma BlankParts(s: seq<byte>)
    requires |s| == IMAGE_SIZE && FLOPPY.Sane(|s|)
    requires var m := [0xF0, 0xFF, 0xFF]; forall i :: 512 <= i < |s| ==>
      s[i] == if i < 515 then m[i - 512] else if 5120 <= i < 5123 then m[i - 5120] else 0
    ensures var v := ViewOf(FLOPPY, s);
      && (forall i :: 0 <= i < 2 ==> v.fats[i] == Fresh()) && v.root == Zeros(7168)
      && forall c :: 0 <= c < CAPACITY ==> v.data[c] == Zeros(512)
  {
    hide Pieces, Cut, Fresh, Bpb.Sane, Bpb.FatStart, Bpb.FatBytes, Bpb.RootStart, Bpb.DataStart, Bpb.ClusterLimit,
      Bpb.Clusters, Bpb.ClusterSize;
    FloppyNumbers();
    PieceAt(s, 512, 2, 4608, 0);
    PieceAt(s, 512, 2, 4608, 1);
    FreshCut(s, 512);
    FreshCut(s, 5120);
    ZerosCut(s, 9728, 7168);
    forall c | 0 <= c < CAPACITY
      ensures ViewOf(FLOPPY, s).data[c] == Zeros(512)
    {
      PieceAt(s, 16896, CAPACITY, 512, c);
      ZerosCut(s, 16896 + c * 512, 512);
    }
  }

  lemma FreshCut(s: seq<byte>, off: nat)
    requires off + 4608 <= |s| && s[off] == 0xF0 && s[off + 1] == 0xFF && s[off + 2] == 0xFF
    requires forall i :: off + 3 <= i < off + 4608 ==> s[i] == 0
    ensures Cut(s, off, 4608) == Fresh()
  {
    FreshBytes(Cut(s, off, 4608));
  }

  lemma ZerosCut(s: seq<byte>, off: nat, n: nat)
    requires off + n <= |s| && forall i :: off <= i < off + n ==> s[i] == 0
    ensures Cut(s, off, n) == Zeros(n)
  {
  }

  // ---- one file ----

  /** The first clusters of the disk. */
  function Clusters(n: nat): (s: seq<nat>)
    ensures |s| == n && forall i :: 0 <= i < n ==> s[i] == 2 + i
  {
    seq(n, i requires 0 <= i < n => 2 + i)
  }

  function Needed(data: seq<byte>): (n: nat)
    ensures |data| <= CAPACITY * 512 ==> n <= CAPACITY
    ensures data != [] ==> n > 0
  {
    (|data| + 511) / 512
  }

  ghost function WithFile(n: nat): Layout
    requires n > 0
  {
    Layout(map[2 := Clusters(n)], {0})
  }

  /** The clusters with the data in the first of them. */
  ghost function FileData(data0: seq<seq<byte>>, data: seq<byte>): (r: seq<seq<byte>>)
    requires |data0| == CAPACITY && |data| <= CAPACITY * 512
    ensures |r| == CAPACITY
  {
    WriteBlocks(data0, Clusters(Needed(data)), Blocks(data, 512, Needed(data)))
  }

  /** Data written from the first cluster on fills the first clusters, the last one up with the zeros there. */
  lemma Filled(s: seq<byte>, data: seq<byte>)
    requires BlankFloppy(s) && |data| <= CAPACITY * 512
    ensures 16896 + |data| <= |s| && FLOPPY.Sane(|s|)
    ensures var v := ViewOf(FLOPPY, s);
      |v.data| == CAPACITY && ViewOf(FLOPPY, Splice(s, 16896, data)) == v.(data := FileData(v.data, data))
  {
    hide ViewOf, Bpb.Sane, Splice, Open, WriteBlocks, Blocks, BlockAt, Cut, Clusters, Needed, Fresh;
    FloppyNumbers();
    var r, n, v := Splice(s, 16896, data), Needed(data), ViewOf(FLOPPY, s);
    FilledParts(s, data);
    var all := WriteBlocks(v.data, Clusters(n), Blocks(data, 512, n));
    forall c | 0 <= c < CAPACITY
      ensures ViewOf(FLOPPY, r).data[c] == all[c]
    {
      FilledCluster(s, data, c);
      WrittenCluster(v.data, n, Blocks(data, 512, n), c);
    }
    assert ViewOf(FLOPPY, r).data == all;
  }

  lemma FilledParts(s: seq<byte>, data: seq<byte>)
    requires |s| == IMAGE_SIZE && FLOPPY.Sane(|s|) && |data| <= CAPACITY * 512
    ensures 16896 + |data| <= |s|
    ensures var v := ViewOf(FLOPPY, s); var w := ViewOf(FLOPPY, Splice(s, 16896, data));
      w.boot == v.boot && w.fats == v.fats && w.root == v.root && |w.data| == |v.data| == CAPACITY
  {
    hide Pieces, Bpb.Sane, Splice, Cut;
    FloppyNumbers();
    PiecesElsewhere(s, 512, 2, 4608, 16896, data);
    CutElsewhere(s, 16896, data, 9728, 7168);
    CutElsewhere(s, 16896, data, 0, 512);
  }

  lemma FilledCluster(s: seq<byte>, data: seq<byte>, c: nat)
    requires |s| == IMAGE_SIZE && FLOPPY.Sane(|s|) && |data| <= CAPACITY * 512 && c < CAPACITY
    requires ViewOf(FLOPPY, s).data[c] == Zeros(512)
    ensures ViewOf(FLOPPY, Splice(s, 16896, data)).data[c] == if c < Needed(data) then BlockAt(data, 512, c)
      else Zeros(512)
  {
    hide Pieces, Bpb.Sane, Splice, BlockAt, Cut, Needed;
    FloppyNumbers();
    PieceAt(s, 16896, CAPACITY, 512, c);
    PieceAt(Splice(s, 16896, data), 16896, CAPACITY, 512, c);
    OneBlock(s, data, c);
  }

  lemma WrittenCluster(data: seq<seq<byte>>, n: nat, blocks: seq<seq<byte>>, c: nat)
    requires n <= |data| && |blocks| == n && c < |data|
    ensures WriteBlocks(data, Clusters(n), blocks)[c] == if c < n then blocks[c] else data[c]
  {
    hide WriteBlocks;
    if c < n {
      assert Clusters(n)[c] - 2 == c;
    }
  }

  lemma OneBlock(s: seq<byte>, data: seq<byte>, c: nat)
    requires |s| == IMAGE_SIZE && |data| <= CAPACITY * 512 && c < CAPACITY && Cut(s, 16896 + c * 512, 512) == Zeros(512)
    ensures Cut(Splice(s, 16896, data), 16896 + c * 512, 512) == if c < Needed(data) then BlockAt(data, 512, c)
      else Zeros(512)
  {
    hide Splice;
    var off, b := 16896 + c * 512, BlockAt(data, 512, c);
    var r := Splice(s, 16896, data);
    forall i | 0 <= i < 512
      ensures Cut(r, off, 512)[i] == if c < Needed(data) then b[i] else 0
    {
      assert s[off + i] == Cut(s, off, 512)[i];
      assert r[off + i] == if off + i < 16896 + |data| then data[c * 512 + i] else 0;
      BlockByte(data, c, i);
    }
  }

  lemma BlockByte(data: seq<byte>, c: nat, i: nat)
    requires i < 512
    ensures BlockAt(data, 512, c)[i] == if c * 512 + i < |data| then data[c * 512 + i] else 0
    ensures c * 512 + i < |data| ==> c < Needed(data)
  {
  }

  /** The table with the first `n` clusters chained. */
  method ChainFirst(n: nat) returns (fat: array<byte>)
    requires 0 < n <= CAPACITY
    ensures fresh(fat) && fat.Length == 4608 && ChainTable(fat[..], n)
  {
    hide Entries, Entry, SetEntry, Link, Rising, Fresh, Clusters;
    fat := new byte[4608](_ => 0);
    fat[0], fat[1], fat[2] := 0xF0, 0xFF, 0xFF;
    FreshBytes(fat[..]);
    FreshTable();
    ghost var t, got := Entries(Fresh(), true, 2849), Clusters(n);
    ClustersRise(n);
    assert got[0..] == got;
    for i := 0 to n
      invariant fat.Length == 4608 && Rising(got[i..], 2849)
      invariant Link(Entries(fat[..], true, 2849), got[i..], 0xFFF) == Link(t, got, 0xFFF)
    {
      var c := 2 + i;
      LinkStep(Entries(fat[..], true, 2849), got, i, 0xFFF);
      SetEntries(fat[..], true, 2849, c, if i == n - 1 then 0xFFF else c + 1);
      Fat12Set(fat, c, if i == n - 1 then 0xFFF else c + 1);
    }
    LinkDone(Entries(fat[..], true, 2849), 0xFFF);
    assert got[n..] == [];
  }

  lemma FreshBytes(f: seq<byte>)
    requires |f| == 4608 && f[0] == 0xF0 && f[1] == 0xFF && f[2] == 0xFF && forall i :: 3 <= i < 4608 ==> f[i] == 0
    ensures f == Fresh()
  {
  }

  lemma ClustersRise(n: nat)
    requires n <= CAPACITY
    ensures Rising(Clusters(n), 2849) && forall i :: 0 <= i < n ==> Clusters(n)[i] == 2 + i
  {
  }

  /** A table with the first `n` clusters chained. */
  ghost predicate ChainTable(f: seq<byte>, n: nat) {
    && |f| == 4608 && Holds(f, true, 2848) && Holds(Fresh(), true, 2848) && Rising(Clusters(n), 2849)
    && Entries(f, true, 2849) == Link(Entries(Fresh(), true, 2849), Clusters(n), 0xFFF)
  }

  /** The entry that `add_file` writes. */
  function FileSlot(name: tag, size: nat): (e: raw)
    requires size < 0x1_0000_0000
  {
    NewEntry(name, 0x20, 0, 23860, 2, size)
  }

  lemma FileSlotIs(name: tag, size: nat, n: nat)
    requires Nameable(name) && 0 < size < 0x1_0000_0000 && 0 < n && size <= n * 512
    ensures FileEntry(FileSlot(name, size), 512, Clusters(n))
    ensures Tag(FileSlot(name, size)) == name && Size(FileSlot(name, size)) == size
  {
    hide NewEntry, Live, IsDot, FitsChain;
    EntryMade(name, 0x20, 0, 23860, 2, size, 512, Clusters(n));
  }

  /** The blank volume has room for the file. */
  lemma Room(v: Vol, data0: seq<seq<byte>>, data: seq<byte>, name: tag)
    requires BlankVol(v, data0) && data != [] && |data| <= CAPACITY * 512 && Nameable(name)
    ensures var n := Needed(data);
      && VolOK(v, 0xFF8, 512) && 0 in v.dirs && |v.dirs[0]| > 0 && PlaceFor(v, 0, 0, name)
      && OldChain(v, 0, 0) == 0 && Spare(v, 0, 0)
      && Fillable(v, 0xFF8, 512, Clusters(n), Blocks(data, 512, n))
      && FileEntry(FileSlot(name, |data|), 512, Clusters(n))
      && Tag(FileSlot(name, |data|)) == name && Size(FileSlot(name, |data|)) == |data| <= |Join(Blocks(data, 512, n))|
      && Join(Blocks(data, 512, n))[..|data|] == data
  {
    hide Slots, FileSlot, Blocks, BlockAt, Join, Live, Find, FileEntry, Fillable, Clusters;
    UnusedSlots();
    Unlisted(BlankSlots(), name);
    BlocksHold(data, 512);
    FileSlotIs(name, |data|, Needed(data));
    AllFillable(v, data);
  }

  lemma AllFillable(v: Vol, data: seq<byte>)
    requires |v.t| == 2849 && (forall c :: 2 <= c < 2849 ==> v.t[c] == 0) && DataOK(v, 512) && |data| <= CAPACITY * 512
    ensures Fillable(v, 0xFF8, 512, Clusters(Needed(data)), Blocks(data, 512, Needed(data)))
  {
    hide BlockAt, Blocks;
  }

  /** The parts of the finished image. */
  ghost predicate Finished(s: seq<byte>, r: seq<byte>, data: seq<byte>, name: tag, f: seq<byte>)
    requires |data| <= CAPACITY * 512
  {
    && |r| == |s| == IMAGE_SIZE && FLOPPY.Sane(|s|)
    && (var v := ViewOf(FLOPPY, s); var w := ViewOf(FLOPPY, r);
      && w.boot == v.boot && |v.data| == CAPACITY && |w.fats| == 2 && (forall i :: 0 <= i < 2 ==> w.fats[i] == f)
      && w.root == Splice(Zeros(7168), 0, FileSlot(name, |data|))
      && w.data == FileData(v.data, data))
  }

  /** The one file is what has come to be on the volume. */
  ghost predicate Holding(v: Vol, w: Vol, name: tag, data: seq<byte>) {
    && VolOK(v, 0xFF8, 512) && VolOK(w, 0xFF8, 512) && 0 in v.dirs && Updates(v, w, 0xFF8, 512, 0, name, File(data))
    && Lost(w.t, w.chains) == Lost(v.t, v.chains)
  }

  /** What the finished image holds. */
  lemma Added(s: seq<byte>, r: seq<byte>, data: seq<byte>, name: tag, f: seq<byte>)
    requires BlankFloppy(s) && data != [] && |data| <= CAPACITY * 512 && Nameable(name)
    requires ChainTable(f, Needed(data)) && Finished(s, r, data, name, f)
    ensures ImageOK(FLOPPY, s, EMPTY) && ImageOK(FLOPPY, r, WithFile(Needed(data)))
    ensures Holding(ImageVol(FLOPPY, s, EMPTY), ImageVol(FLOPPY, r, WithFile(Needed(data))), name, data)
  {
    hide ViewOf, Entries, Open, Fresh, VolOK, Slots, Masked, Link, FileData, NewEntry, Splice, FileSlot, BlankVol,
      Holding, VolOf, StateLaid, StateOK, ChainTable, Clusters, Needed, BlankFloppy, ImageOK, ImageVol, Zeros,
      Nameable, Bpb.Sane, Bpb.FatStart, Bpb.FatBytes, Bpb.RootStart, Bpb.DataStart, Bpb.ClusterLimit, Bpb.Clusters,
      Bpb.ClusterSize, Bpb.Fat12, Bpb.End, Bpb.Eoc;
    BlankVolume(s);
    var v, M := ImageVol(FLOPPY, s, EMPTY), WithFile(Needed(data));
    var w := PutThere(v, ViewOf(FLOPPY, s).data, data, name, f);
    HeldOK(v, w, name, data);
    FloppyNumbers();
    StateFrom(FLOPPY, f, ViewOf(FLOPPY, r).root, ViewOf(FLOPPY, r).data, M, w);
    FlushedFloppy(s, r, f, M);
  }

  lemma HeldOK(v: Vol, w: Vol, name: tag, data: seq<byte>)
    requires Holding(v, w, name, data)
    ensures VolOK(w, 0xFF8, 512)
  {
  }

  lemma BlankSize(s: seq<byte>)
    requires BlankFloppy(s)
    ensures |s| == IMAGE_SIZE && FLOPPY.Sane(|s|) && ViewOf(FLOPPY, s).root == Zeros(7168)
      && |ViewOf(FLOPPY, s).data| == CAPACITY
  {
  }

  /** The volume with the file, and what an image of it consists of. */
  lemma PutThere(v: Vol, data0: seq<seq<byte>>, data: seq<byte>, name: tag, f: seq<byte>) returns (w: Vol)
    requires BlankVol(v, data0) && |data0| == CAPACITY
    requires data != [] && |data| <= CAPACITY * 512 && Nameable(name) && ChainTable(f, Needed(data))
    ensures var data1 := FileData(data0, data); var M := WithFile(Needed(data));
      && DirsInside(M, |data1|) && Holds(f, FLOPPY.Fat12(), FLOPPY.Clusters() + 1) && |data1| == FLOPPY.Clusters()
      && Sized(data1, FLOPPY.ClusterSize())
      && w == VolOf(FLOPPY, f, Splice(Zeros(7168), 0, FileSlot(name, |data|)), data1, M)
    ensures Holding(v, w, name, data)
  {
    hide Entries, Fresh, VolOK, Slots, Masked, Updates, Lost, Link, WriteBlocks, Blocks, BlockAt, Join, NewEntry,
      FileSlot, Splice, LookUp, Zeros, Fillable, WithChain, WithEntry, VolOf, StateLaid, DataOK, Laid, ChainTable,
      Clusters, Needed, BlankSlots, BlankVol, Nameable, Tag, Size, Holding, Chaining, FileData, Bpb.Sane, Bpb.FatStart,
      Bpb.FatBytes, Bpb.RootStart, Bpb.DataStart, Bpb.ClusterLimit, Bpb.Clusters, Bpb.ClusterSize, Bpb.Fat12, Bpb.End,
      Bpb.Eoc;
    var e, M, data1 := FileSlot(name, |data|), WithFile(Needed(data)), FileData(data0, data);
    w := PutBlank(v, data0, data, name);
    Chained(v, data0, data, f);
    LaidState(FLOPPY, f, Zeros(7168), data1, M);
    Rooted(f, data1, M, e);
  }

  /** The volume with the file's clusters chained and filled but no entry for it. */
  ghost function Chaining(v: Vol, data: seq<byte>): Vol
    requires Fillable(v, 0xFF8, 512, Clusters(Needed(data)), Blocks(data, 512, Needed(data)))
  {
    WithChain(v, 0xFF8, 512, Clusters(Needed(data)), Blocks(data, 512, Needed(data)), 0xFFF)
  }

  lemma PutBlank(v: Vol, data0: seq<seq<byte>>, data: seq<byte>, name: tag) returns (w: Vol)
    requires BlankVol(v, data0) && data != [] && |data| <= CAPACITY * 512 && Nameable(name)
    ensures Fillable(v, 0xFF8, 512, Clusters(Needed(data)), Blocks(data, 512, Needed(data)))
    ensures var u := Chaining(v, data);
      0 in u.dirs && |u.dirs[0]| > 0 && w == WithEntry(u, 0, 0, FileSlot(name, |data|))
    ensures Holding(v, w, name, data)
  {
    hide VolOK, Updates, Lost, Blocks, BlockAt, Join, FileSlot, LookUp, Fillable, FileEntry, PlaceFor, Spare, WithEntry,
      Clusters, BlankVol, Nameable, Tag, Size, OldChain, Link, WriteBlocks;
    var n := Needed(data);
    Room(v, data0, data, name);
    PutKeeps(v, v, 0xFF8, 512, 0, 0, FileSlot(name, |data|), Clusters(n), Blocks(data, 512, n), 0xFFF);
    w := Volume.Filled(v, 0xFF8, 512, 0, 0, FileSlot(name, |data|), Clusters(n), Blocks(data, 512, n), 0xFFF);
    FilledKeys(v, 0xFF8, 512, 0, 0, FileSlot(name, |data|), Clusters(n), Blocks(data, 512, n), 0xFFF);
    UpdatesBecome(v, w, 0xFF8, 512, 0, name, File(data));
  }

  lemma Rooted(f: seq<byte>, data: seq<seq<byte>>, M: Layout, e: raw)
    requires Holds(f, FLOPPY.Fat12(), FLOPPY.Clusters() + 1) && DirsInside(M, |data|) && 0 in M.dirs
    ensures 0 in VolOf(FLOPPY, f, Zeros(7168), data, M).dirs && |VolOf(FLOPPY, f, Zeros(7168), data, M).dirs[0]| > 0
    ensures VolOf(FLOPPY, f, Splice(Zeros(7168), 0, e), data, M) ==
      WithEntry(VolOf(FLOPPY, f, Zeros(7168), data, M), 0, 0, e)
  {
    hide Entries, Splice, Masked, WithEntry, Bpb.Clusters, Bpb.ClusterSize, Bpb.Fat12;
    RootEntry(FLOPPY, f, Zeros(7168), data, M, 0, e);
  }

  lemma Chained(v: Vol, data0: seq<seq<byte>>, data: seq<byte>, f: seq<byte>)
    requires BlankVol(v, data0) && |data0| == CAPACITY && data != [] && |data| <= CAPACITY * 512
      && ChainTable(f, Needed(data))
    requires Fillable(v, 0xFF8, 512, Clusters(Needed(data)), Blocks(data, 512, Needed(data)))
    ensures StateLaid(FLOPPY, f, FileData(data0, data), WithFile(Needed(data)))
    ensures DirsInside(WithFile(Needed(data)), CAPACITY) && Holds(f, FLOPPY.Fat12(), FLOPPY.Clusters() + 1)
    ensures VolOf(FLOPPY, f, Zeros(7168), FileData(data0, data), WithFile(Needed(data))) == Chaining(v, data)
  {
    hide Fresh, WriteBlocks, Fillable, WithChain, VolOf, StateLaid, ChainTable, BlankVol, Clusters, Zeros, Blocks,
      Needed, Holds, DirsInside, Bpb.Clusters, Bpb.Fat12;
    ChainedWith(v, data0, Clusters(Needed(data)), Blocks(data, 512, Needed(data)), f);
  }

  lemma ChainedWith(v: Vol, data0: seq<seq<byte>>, got: seq<nat>, blocks: seq<seq<byte>>, f: seq<byte>)
    requires BlankVol(v, data0) && |data0| == CAPACITY && Fillable(v, 0xFF8, 512, got, blocks)
    requires |blocks| == |got| && 0 < |got| <= CAPACITY && got == Clusters(|got|) && ChainTable(f, |got|)
    ensures Rising(got, 2849) && StateLaid(FLOPPY, f, WriteBlocks(data0, got, blocks), WithFile(|got|))
    ensures DirsInside(WithFile(|got|), CAPACITY) && Holds(f, FLOPPY.Fat12(), FLOPPY.Clusters() + 1)
    ensures VolOf(FLOPPY, f, Zeros(7168), WriteBlocks(data0, got, blocks), WithFile(|got|)) ==
      WithChain(v, 0xFF8, 512, got, blocks, 0xFFF)
  {
    hide Entries, Fresh, Slots, Masked, Link, WriteBlocks, Fillable, WithChain, VolOf, StateLaid, Laid, Rising,
      Clusters, Zeros, VolOK, BlankSlots, Bpb.Sane, Bpb.FatStart, Bpb.FatBytes, Bpb.RootStart, Bpb.DataStart,
      Bpb.ClusterLimit, Bpb.Clusters, Bpb.ClusterSize, Bpb.Fat12, Bpb.End, Bpb.Eoc;
    FloppyNumbers();
    ClustersRise(|got|);
    Volumes(v);
    TableOf(Fresh(), Zeros(7168), data0, EMPTY);
    FatSize(f);
    assert map[][got[0] := got] == map[2 := got];
    Grown(FLOPPY, Fresh(), f, Zeros(7168), data0, EMPTY, WithFile(|got|), got, blocks);
    LaidState(FLOPPY, f, Zeros(7168), WriteBlocks(data0, got, blocks), WithFile(|got|));
  }

  lemma FatSize(f: seq<byte>)
    requires |f| == 4608
    ensures Holds(f, FLOPPY.Fat12(), FLOPPY.Clusters() + 1)
  {
  }

  lemma TableOf(f: seq<byte>, root: seq<byte>, data: seq<seq<byte>>, L: Layout)
    requires Holds(f, FLOPPY.Fat12(), FLOPPY.Clusters() + 1) && DirsInside(L, |data|)
    ensures VolOf(FLOPPY, f, root, data, L).t == Entries(f, FLOPPY.Fat12(), FLOPPY.Clusters() + 2)
    ensures VolOf(FLOPPY, f, root, data, L).chains == L.chains
  {
  }

  lemma Volumes(v: Vol)
    requires VolOK(v, 0xFF8, 512)
    ensures DataOK(v, 512) && Laid(v.t, 0xFF8, v.chains) && 0 in v.dirs
  {
  }

  lemma FlushedFloppy(s: seq<byte>, r: seq<byte>, f: seq<byte>, M: Layout)
    requires ImageOK(FLOPPY, s, EMPTY) && |r| == |s| && Holds(f, FLOPPY.Fat12(), FLOPPY.Clusters() + 1)
    requires ViewOf(FLOPPY, r).boot == ViewOf(FLOPPY, s).boot && forall i :: 0 <= i < 2 ==>
      ViewOf(FLOPPY, r).fats[i] == f
    requires StateOK(FLOPPY, f, ViewOf(FLOPPY, r).root, ViewOf(FLOPPY, r).data, M)
    ensures ImageOK(FLOPPY, r, M) && ImageVol(FLOPPY, r, M) ==
      VolOf(FLOPPY, f, ViewOf(FLOPPY, r).root, ViewOf(FLOPPY, r).data, M)
  {
    hide ViewOf, Open, StateOK, VolOf, Bpb.Sane, Bpb.Clusters, Bpb.ClusterSize, Bpb.Fat12, Bpb.End;
    Flushed(FLOPPY, s, r, f, EMPTY, M);
  }

  /** `add_file` on a blank floppy, and the check of the image's length behind it; `None` is the refusal of an empty
      file, or of one that makes the image longer than a floppy. */
  method AddFile(s: seq<byte>, name: tag, data: seq<byte>) returns (r: Option<seq<byte>>)
    requires BlankFloppy(s) && Nameable(name)
    ensures r.None? <==> data == [] || |data| > CAPACITY * 512
    ensures r.Some? ==> ImageOK(FLOPPY, s, EMPTY) && ImageOK(FLOPPY, r.value, WithFile(Needed(data)))
    ensures r.Some? ==> Holding(ImageVol(FLOPPY, s, EMPTY), ImageVol(FLOPPY, r.value, WithFile(Needed(data))), name,
      data)
    ensures r.Some? ==> exists f :: ChainTable(f, Needed(data)) && Finished(s, r.value, data, name, f)
  {
    hide *;
    BlankSize(s);
    DataEnd();
    if 16896 + |data| > |s| {
      return None;
    }
    var n := (|data| + 511) / 512;
    Count(data);
    if n == 0 {
      return None;
    }
    var img := new byte[|s|](i requires 0 <= i < |s| => s[i]);
    assert img[..] == s;
    Filled(s, data);
    PutBytes(img, 16896, data);
    ghost var filled := img[..];
    var fat := ChainFirst(n);
    ghost var f := fat[..];
    TablesStart(filled, f);
    for i := 0 to 2
      invariant |img[..]| == |s| && fat.Length == 4608 && fat[..] == f && Tables(filled, img[..], f, i)
    {
      TablesNext(filled, img[..], f, i);
      PutBytes(img, (1 + i * 9) * 512, fat[..]);
    }
    var ent := NewEntry(name, 0x20, 0, 23860, 2, |data|);
    RootWritten(filled, img[..], f, ent);
    PutBytes(img, 9728, ent);
    Done(s, filled, img[..], data, name, f);
    Added(s, img[..], data, name, f);
    return Some(img[..]);
  }

  lemma DataEnd()
    ensures 16896 + CAPACITY * 512 == IMAGE_SIZE
  {
  }

  lemma Done(s: seq<byte>, b: seq<byte>, r: seq<byte>, data: seq<byte>, name: tag, f: seq<byte>)
    requires |s| == |b| == |r| == IMAGE_SIZE && FLOPPY.Sane(|s|) && |data| <= CAPACITY * 512 && |f| == 4608
    requires var u := ViewOf(FLOPPY, s); var v := ViewOf(FLOPPY, b); var w := ViewOf(FLOPPY, r);
      && |u.data| == CAPACITY && u.root == Zeros(7168) && v == u.(data := FileData(u.data, data))
      && w.boot == v.boot && w.data == v.data && |w.fats| == 2 && (forall k :: 0 <= k < 2 ==> w.fats[k] == f)
      && w.root == Splice(v.root, 0, NewEntry(name, 0x20, 0, 23860, 2, |data|))
    ensures Finished(s, r, data, name, f)
  {
    hide ViewOf, Splice, FileData, NewEntry, Bpb.Sane;
  }

  lemma Count(data: seq<byte>)
    ensures Needed(data) == (|data| + 511) / 512 && (Needed(data) == 0 <==> data == [])
    ensures |data| <= CAPACITY * 512 ==> Needed(data) <= CAPACITY && |data| < 0x1_0000_0000
  {
  }

  /** The first `i` tables are `f`; all else is as it was. */
  ghost predicate Tables(s: seq<byte>, r: seq<byte>, f: seq<byte>, i: nat) {
    && |s| == |r| == IMAGE_SIZE && i <= 2 && |f| == 4608 && FLOPPY.Sane(|s|)
    && (var v := ViewOf(FLOPPY, s); var w := ViewOf(FLOPPY, r);
        && w.boot == v.boot && w.root == v.root && w.data == v.data && |w.fats| == 2 && forall k :: 0 <= k < i ==>
          w.fats[k] == f)
  }

  lemma TablesStart(s: seq<byte>, f: seq<byte>)
    requires |s| == IMAGE_SIZE && |f| == 4608
    ensures Tables(s, s, f, 0)
  {
    hide Bpb.Sane;
    FloppyNumbers();
  }

  lemma TablesNext(s: seq<byte>, r: seq<byte>, f: seq<byte>, i: nat)
    requires Tables(s, r, f, i) && i < 2
    ensures (1 + i * 9) * 512 + |f| <= |r| && Tables(s, Splice(r, (1 + i * 9) * 512, f), f, i + 1)
  {
    hide ViewOf, Bpb.Sane, Splice;
    FloppyNumbers();
    WriteFat(FLOPPY, r, i, f);
  }

  lemma RootWritten(s: seq<byte>, r: seq<byte>, f: seq<byte>, e: raw)
    requires Tables(s, r, f, 2)
    ensures var v := ViewOf(FLOPPY, s); var w := ViewOf(FLOPPY, Splice(r, 9728, e));
      && w.boot == v.boot && w.data == v.data && |w.fats| == 2 && (forall k :: 0 <= k < 2 ==> w.fats[k] == f)
      && w.root == Splice(v.root, 0, e)
  {
    hide ViewOf, Bpb.Sane, Splice;
    FloppyNumbers();
    WriteRoot(FLOPPY, r, 0, e);
  }

  /** A floppy built with one file is read back, through its table and its root directory, as exactly that file. */
  method BuildAndRead(volume: seq<byte>, name: tag, data: seq<byte>) returns (got: Option<seq<byte>>)
    requires |volume| == 11 && Nameable(name)
    ensures got == if data == [] || |data| > CAPACITY * 512 then None else Some(data)
  {
    hide *;
    var s := Build(volume);
    var r := AddFile(s, name, data);
    if r.None? {
      return None;
    }
    ghost var L := WithFile(Needed(data));
    var img := new byte[|r.value|](i requires 0 <= i < |r.value| => r.value[i]);
    assert img[..] == r.value;
    NamedThere(ImageVol(FLOPPY, s, EMPTY), ImageVol(FLOPPY, r.value, L), name, data);
    OneFileThere(r.value, L, name, data);
    var fs := new FatRW(img, FLOPPY);
    Opened(fs, L);
    var offs, raws := fs.DirSlots(0, []);
    var slot, free := FindSlot(raws, name);
    var b := Read(fs, raws[slot.value], 0, slot.value, L);
    return Some(b);
  }

  lemma NamedThere(v: Vol, w: Vol, name: tag, data: seq<byte>)
    requires Holding(v, w, name, data) && data != []
    ensures VolOK(w, 0xFF8, 512) && 0 in w.dirs && LookUp(w, 0xFF8, 512, 0, name) == File(data)
      && 0 in WithFile(Needed(data)).dirs
  {
    hide VolOK, LookUp;
  }

  lemma OneFileThere(s: seq<byte>, L: Layout, name: tag, data: seq<byte>)
    requires ImageOK(FLOPPY, s, L) && 0 in L.dirs && VolOK(ImageVol(FLOPPY, s, L), 0xFF8, 512)
      && 0 in ImageVol(FLOPPY, s, L).dirs
    requires LookUp(ImageVol(FLOPPY, s, L), 0xFF8, 512, 0, name) == File(data)
    ensures FLOPPY.Sane(|s|) && ImageVol(FLOPPY, s, L).dirs[0] == Slots(ViewOf(FLOPPY, s).root)
    ensures var v := ImageVol(FLOPPY, s, L); var k := Find(v.dirs[0], name, 0);
      && EndMarked(v.dirs[0]) && k < |v.dirs[0]| && FileAt(v, 0, k)
        && (Clus(v.dirs[0][k]) != 0 ==> ChainInside(v, Clus(v.dirs[0][k])))
      && FileBytes(v, v.dirs[0][k]) == data
  {
    hide ViewOf, VolOK, LookUp, Open, Slots, Find, FileBytes, ImageOK, ImageVol, Bpb.Sane, Bpb.End, Bpb.ClusterSize;
    var v := ImageVol(FLOPPY, s, L);
    FloppyNumbers();
    SlotsOf(FLOPPY, s, L, 0);
    ImageStart(FLOPPY, s, L, 0);
    Found(v, 0xFF8, 512, 0, name);
    HoldsNow(v, 0xFF8, 512, 0, Find(v.dirs[0], name, 0), data);
    SaneFat(FLOPPY, s, L);
  }
}
