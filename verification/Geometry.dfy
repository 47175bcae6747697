/** Where a FAT12/16 image keeps its tables, root directory and clusters. */
module Geometry {
  import opened Arith
  import opened Bytes
  import opened FatEntries
  import opened Wrappers

  datatype Bpb = Bpb(base: nat, bps: nat, spc: nat, rsvd: nat, nfat: nat, rootent: nat, spf: nat, tot: nat) {
    function FatStart(): nat { base + rsvd * bps }
    function FatBytes(): nat { spf * bps }
    function RootStart(): nat { FatStart() + nfat * FatBytes() }
    function DataStart(): nat
      requires bps > 0
    {
      var sectors: nat := (rootent * 32 + bps - 1) / bps;
      RootStart() + sectors * bps
    }
    function ClusterSize(): nat { spc * bps }

    /** One past the last cluster number. */
    function ClusterLimit(): int
      requires bps > 0 && spc > 0
    {
      (tot - (DataStart() - base) / bps) / spc + 2
    }

    function Clusters(): nat
      requires bps > 0 && spc > 0
    {
      if ClusterLimit() < 2 then 0 else ClusterLimit() - 2
    }

    /** The code compares the cluster limit, two more than the cluster count, with 4085. */
    predicate Fat12()
      requires bps > 0 && spc > 0
    {
      ClusterLimit() < 4085
    }

    /** The first end-of-chain value. */
    function End(): nat
      requires bps > 0 && spc > 0
    {
      if Fat12() then 0xFF8 else 0xFFF8
    }

    function Eoc(): nat
      requires bps > 0 && spc > 0
    {
      if Fat12() then 0xFFF else 0xFFFF
    }

    /** Image offset of cluster `c`. */
    function ClusterOffset(c: nat): nat
      requires bps > 0 && c >= 2
    {
      At(DataStart(), c - 2, ClusterSize())
    }

    /** The image is large enough for what the boot sector announces, and the entries reach every cluster. */
    ghost predicate Sane(n: nat) {
      && bps > 0 && spc > 0 && nfat > 0
      && base + 512 <= FatStart()
      && 2 <= ClusterLimit() <= End()
      && EntryOffset(Fat12(), (ClusterLimit() - 1) as nat) + 2 <= FatBytes()
      && At(DataStart(), Clusters(), ClusterSize()) <= n
      && 64 <= ClusterSize() && ClusterSize() % 32 == 0
    }
  }

  type Geometry = g: Bpb | g.bps > 0 && g.spc > 0 witness Bpb(0, 1, 1, 0, 0, 0, 0, 0)

  /** The code decides as the specification does, by the cluster count, except for 4083 and 4084 clusters. */
  lemma Fat12Differs(g: Geometry, n: nat)
    requires g.Sane(n)
    ensures g.Fat12() == (g.Clusters() < 4085) <==> g.Clusters() != 4083 && g.Clusters() != 4084
  {
    hide Bpb.ClusterLimit, Bpb.DataStart, Bpb.FatBytes, Bpb.FatStart, Bpb.ClusterSize;
    assert g.Clusters() == g.ClusterLimit() - 2;
  }

  /** A volume of 4083 clusters, one sector each: FAT12 by the specification, FAT16 to the code. */
  const BETWEEN: Geometry := Bpb(0, 512, 1, 1, 1, 16, 16, 4101)

  lemma Fat12DiffersThere()
    ensures BETWEEN.Sane(4101 * 512) && BETWEEN.Clusters() == 4083 && !BETWEEN.Fat12()
  {
    hide Bpb.Sane;
    assert BETWEEN.FatStart() == 512 && BETWEEN.FatBytes() == 8192 && BETWEEN.RootStart() == 8704;
    assert BETWEEN.DataStart() == 9216 && BETWEEN.ClusterSize() == 512 && BETWEEN.ClusterLimit() == 4085;
    BetweenSane();
  }

  lemma BetweenSane()
    requires BETWEEN.FatStart() == 512 && BETWEEN.FatBytes() == 8192 && BETWEEN.DataStart() == 9216
    requires BETWEEN.ClusterSize() == 512 && BETWEEN.ClusterLimit() == 4085
    ensures BETWEEN.Sane(4101 * 512)
  {
    hide Bpb.FatStart, Bpb.FatBytes, Bpb.DataStart, Bpb.ClusterSize, Bpb.ClusterLimit;
  }

  /** The `i`-th of equal stretches laid end to end. */
  function At(start: nat, i: nat, size: nat): nat {
    start + i * size
  }

  lemma AtFits(start: nat, i: nat, n: nat, size: nat)
    requires i < n
    ensures At(start, i, size) + size <= At(start, n, size)
  {
    MulSucc(i, size);
    MulMono(i + 1, n, size);
  }

  /** Where the volume starts: a floppy has its volume boot sector first, a disk an MBR. */
  function BaseOf(s: seq<byte>): nat
    requires |s| >= 512
  {
    if (s[0] == 0xEB || s[0] == 0xE9) && U16(s, 11) == 512 && s[21] >= 0xF0 then 0
    else U32(s, 0x1BE + 8) * 512
  }

  function ReadBpb(s: seq<byte>, base: nat): Bpb
    requires base + 36 <= |s|
  {
    var tot := if U16(s, base + 19) != 0 then U16(s, base + 19) else U32(s, base + 32);
    Bpb(base, U16(s, base + 11), s[base + 13], U16(s, base + 14), s[base + 16],
        U16(s, base + 17), U16(s, base + 22), tot)
  }

  /** `Fat.__init__` of tools/fatls.py; `None` is its refusal. */
  function Open(s: seq<byte>): Option<Geometry> {
    if |s| < 512 || U16(s, 510) != 0xAA55 || BaseOf(s) + 36 > |s| then None
    else
      var g := ReadBpb(s, BaseOf(s));
      if g.bps == 0 || g.spc == 0 then None else var h: Geometry := g; Some(h)
  }

  lemma OpenBase(s: seq<byte>, r: seq<byte>)
    requires 512 <= |s| == |r| && forall i :: 0 <= i < 512 ==> r[i] == s[i]
    ensures BaseOf(r) == BaseOf(s) && U16(r, 510) == U16(s, 510)
  {
  }

  lemma OpenFields(s: seq<byte>, r: seq<byte>, base: nat)
    requires base + 36 <= |s| == |r| && forall i :: base <= i < base + 36 ==> r[i] == s[i]
    ensures ReadBpb(r, base) == ReadBpb(s, base)
  {
  }

  /** Writing behind the boot sectors leaves the geometry as it was. */
  lemma OpenSame(s: seq<byte>, r: seq<byte>, g: Geometry)
    requires Open(s) == Some(g) && g.Sane(|s|) && |r| == |s|
    requires g.FatStart() <= |s| && r[..g.FatStart()] == s[..g.FatStart()]
    ensures Open(r) == Some(g)
  {
    hide Bpb.FatStart, Bpb.FatBytes, Bpb.DataStart, Bpb.ClusterLimit, Bpb.ClusterSize, Bpb.Clusters,
      BaseOf, ReadBpb, U16, U32;
    assert ReadBpb(s, BaseOf(s)).base == BaseOf(s) by { BpbBase(s, BaseOf(s)); }
    forall i | 0 <= i < g.FatStart()
      ensures r[i] == s[i]
    {
      assert r[..g.FatStart()][i] == r[i] && s[..g.FatStart()][i] == s[i];
    }
    OpenBase(s, r);
    OpenFields(s, r, BaseOf(s));
  }

  lemma BpbBase(s: seq<byte>, base: nat)
    requires base + 36 <= |s|
    ensures ReadBpb(s, base).base == base
  {
  }

  // ---- the image, part by part ----

  datatype View = View(boot: seq<byte>, fats: seq<seq<byte>>, root: seq<byte>, data: seq<seq<byte>>)

  /** `n` equal stretches from `start` on. */
  function Pieces(s: seq<byte>, start: nat, n: nat, size: nat): (r: seq<seq<byte>>)
    requires At(start, n, size) <= |s|
    ensures |r| == n
  {
    if n == 0 then []
    else
      AtFits(start, n - 1, n, size);
      Pieces(s, start, n - 1, size) + [Cut(s, At(start, n - 1, size), size)]
  }

  lemma {:induction false} PieceAt(s: seq<byte>, start: nat, n: nat, size: nat, i: nat)
    requires At(start, n, size) <= |s| && i < n
    ensures At(start, i, size) + size <= |s|
    ensures Pieces(s, start, n, size)[i] == Cut(s, At(start, i, size), size)
    decreases n
  {
    AtFits(start, n - 1, n, size);
    if i < n - 1 {
      PieceAt(s, start, n - 1, size, i);
    }
  }

  lemma PiecesElsewhere(s: seq<byte>, start: nat, n: nat, size: nat, off: nat, b: seq<byte>)
    requires At(start, n, size) <= |s| && off + |b| <= |s|
    requires off + |b| <= start || At(start, n, size) <= off
    ensures Pieces(Splice(s, off, b), start, n, size) == Pieces(s, start, n, size)
  {
    hide At, Pieces, Cut, Splice;
    forall i | 0 <= i < n
      ensures Pieces(Splice(s, off, b), start, n, size)[i] == Pieces(s, start, n, size)[i]
    {
      PieceAt(s, start, n, size, i);
      PieceAt(Splice(s, off, b), start, n, size, i);
      AtFits(start, i, n, size);
      AtBase(start, i, size);
      CutElsewhere(s, off, b, At(start, i, size), size);
    }
  }

  lemma AtBase(start: nat, i: nat, size: nat)
    ensures At(start, i, size) >= start
  {
    MulMono(0, i, size);
  }

  /** Writing inside one piece changes that piece alone. */
  lemma PiecesInside(s: seq<byte>, start: nat, n: nat, size: nat, k: nat, o: nat, b: seq<byte>)
    requires At(start, n, size) <= |s| && k < n && o + |b| <= size
    ensures At(start, k, size) + o + |b| <= |s| && |Pieces(s, start, n, size)[k]| == size
    ensures Pieces(Splice(s, At(start, k, size) + o, b), start, n, size) ==
            Pieces(s, start, n, size)[k := Splice(Pieces(s, start, n, size)[k], o, b)]
  {
    hide At, Pieces, Cut, Splice;
    AtFits(start, k, n, size);
    PieceAt(s, start, n, size, k);
    var off := At(start, k, size) + o;
    forall i | 0 <= i < n
      ensures Pieces(Splice(s, off, b), start, n, size)[i] ==
              if i == k then Splice(Pieces(s, start, n, size)[k], o, b) else Pieces(s, start, n, size)[i]
    {
      PieceAt(s, start, n, size, i);
      PieceAt(Splice(s, off, b), start, n, size, i);
      if i == k {
        CutInside(s, off, b, At(start, k, size), size);
      } else {
        if i < k { AtFits(start, i, k, size); } else { AtFits(start, k, i, size); }
        CutElsewhere(s, off, b, At(start, i, size), size);
      }
    }
  }

  lemma RoundUp(x: nat, d: nat)
    requires d > 0
    ensures (x + d - 1) / d * d >= x
  {
    DivMod(x + d - 1, d);
  }

  /** The parts follow one another: boot sectors, FATs, root directory, clusters. */
  lemma PartsInOrder(g: Geometry, n: nat)
    requires g.Sane(n)
    ensures g.FatStart() <= g.RootStart() == At(g.FatStart(), g.nfat, g.FatBytes())
    ensures g.RootStart() + g.rootent * 32 <= g.DataStart() <= At(g.DataStart(), g.Clusters(), g.ClusterSize()) <= n
    ensures g.Clusters() == g.ClusterLimit() - 2
  {
    hide Bpb.ClusterLimit, Bpb.FatBytes, Bpb.FatStart, Bpb.ClusterSize;
    RoundUp(g.rootent * 32, g.bps);
    MulMono(0, g.nfat, g.FatBytes());
    AtBase(g.DataStart(), g.Clusters(), g.ClusterSize());
  }

  function ViewOf(g: Geometry, s: seq<byte>): (v: View)
    requires g.Sane(|s|)
    ensures |v.fats| == g.nfat && |v.root| == g.rootent * 32 && |v.data| == g.Clusters()
  {
    PartsInOrder(g, |s|);
    View(s[..g.FatStart()],
         Pieces(s, g.FatStart(), g.nfat, g.FatBytes()),
         Cut(s, g.RootStart(), g.rootent * 32),
         Pieces(s, g.DataStart(), g.Clusters(), g.ClusterSize()))
  }

  lemma SpliceWhole(a: seq<byte>, b: seq<byte>)
    requires |a| == |b|
    ensures Splice(a, 0, b) == b
  {
  }

  lemma WriteCluster(g: Geometry, s: seq<byte>, c: nat, o: nat, b: seq<byte>)
    requires g.Sane(|s|) && 2 <= c < g.Clusters() + 2 && o + |b| <= g.ClusterSize()
    ensures g.ClusterOffset(c) + o + |b| <= |s| && |ViewOf(g, s).data[c - 2]| == g.ClusterSize()
    ensures var v := ViewOf(g, s);
            ViewOf(g, Splice(s, g.ClusterOffset(c) + o, b)) == v.(data := v.data[c - 2 := Splice(v.data[c - 2], o, b)])
  {
    hide Pieces, Bpb.Sane, Bpb.ClusterLimit, Bpb.DataStart, Bpb.RootStart, Bpb.FatStart, Bpb.FatBytes, Bpb.ClusterSize,
      Bpb.Clusters, At, Splice, Cut;
    PartsInOrder(g, |s|);
    var off := g.ClusterOffset(c) + o;
    PiecesInside(s, g.DataStart(), g.Clusters(), g.ClusterSize(), c - 2, o, b);
    AtBase(g.DataStart(), c - 2, g.ClusterSize());
    PiecesElsewhere(s, g.FatStart(), g.nfat, g.FatBytes(), off, b);
    CutElsewhere(s, off, b, g.RootStart(), g.rootent * 32);
    CutElsewhere(s, off, b, 0, g.FatStart());
  }

  lemma WriteRoot(g: Geometry, s: seq<byte>, o: nat, b: seq<byte>)
    requires g.Sane(|s|) && o + |b| <= g.rootent * 32
    ensures g.RootStart() + o + |b| <= |s|
    ensures ViewOf(g, Splice(s, g.RootStart() + o, b)) == ViewOf(g, s).(root := Splice(ViewOf(g, s).root, o, b))
  {
    hide Pieces, Bpb.Sane, Bpb.ClusterLimit, Bpb.DataStart, Bpb.RootStart, Bpb.FatStart, Bpb.FatBytes, Bpb.ClusterSize,
      Bpb.Clusters, At, Splice, Cut;
    PartsInOrder(g, |s|);
    var off := g.RootStart() + o;
    PiecesElsewhere(s, g.DataStart(), g.Clusters(), g.ClusterSize(), off, b);
    PiecesElsewhere(s, g.FatStart(), g.nfat, g.FatBytes(), off, b);
    CutInside(s, off, b, g.RootStart(), g.rootent * 32);
    CutElsewhere(s, off, b, 0, g.FatStart());
  }

  lemma WriteFat(g: Geometry, s: seq<byte>, i: nat, b: seq<byte>)
    requires g.Sane(|s|) && i < g.nfat && |b| == g.FatBytes()
    ensures At(g.FatStart(), i, g.FatBytes()) + |b| <= |s|
    ensures ViewOf(g, Splice(s, At(g.FatStart(), i, g.FatBytes()), b)) ==
      ViewOf(g, s).(fats := ViewOf(g, s).fats[i := b])
  {
    hide Pieces, Bpb.Sane, Bpb.ClusterLimit, Bpb.DataStart, Bpb.RootStart, Bpb.FatStart, Bpb.FatBytes, Bpb.ClusterSize,
      Bpb.Clusters, At, Splice, Cut;
    PartsInOrder(g, |s|);
    var off := At(g.FatStart(), i, g.FatBytes());
    PiecesInside(s, g.FatStart(), g.nfat, g.FatBytes(), i, 0, b);
    SpliceWhole(ViewOf(g, s).fats[i], b);
    AtFits(g.FatStart(), i, g.nfat, g.FatBytes());
    AtBase(g.FatStart(), i, g.FatBytes());
    PiecesElsewhere(s, g.DataStart(), g.Clusters(), g.ClusterSize(), off, b);
    CutElsewhere(s, off, b, g.RootStart(), g.rootent * 32);
    CutElsewhere(s, off, b, 0, g.FatStart());
  }
}
