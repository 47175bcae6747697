/** Reading and rewriting a volume in place (tools/fatls.py and class FatRW of tools/fatcp.py). */
module FatVolume {
  import opened Arith
  import opened Bytes
  import opened FatEntries
  import opened Chains
  import opened Geometry
  import opened Volume
  import opened Directory
  import opened Wrappers

  class FatRW {
    const img: array<byte>
    const g: Geometry
    const fat: array<byte>

    ghost predicate Ready()
      reads img, fat
    {
      && img != fat && g.Sane(img.Length) && fat.Length == g.FatBytes()
      && Holds(fat[..], g.Fat12(), g.Clusters() + 1)
    }

    /** The table in memory. */
    ghost function Table(): seq<nat>
      requires Ready()
      reads img, fat
    {
      Entries(fat[..], g.Fat12(), g.Clusters() + 2)
    }

    constructor (img: array<byte>, g: Geometry)
      requires g.Sane(img.Length)
      ensures Ready() && fresh(fat) && this.img == img && this.g == g
      ensures fat[..] == ViewOf(g, img[..]).fats[0]
    {
      var b := new byte[g.FatBytes()];
      FirstFat(g, img[..]);
      for i := 0 to b.Length
        invariant forall k :: 0 <= k < i ==> b[k] == img[g.FatStart() + k]
      {
        b[i] := img[g.FatStart() + i];
      }
      this.img, this.g, fat := img, g, b;
      new;
      assert fat[..] == Cut(img[..], g.FatStart(), g.FatBytes());
    }

    /** Entry `c` of the table in memory. */
    method Get(c: nat) returns (v: nat)
      requires Ready() && c < g.Clusters() + 2
      ensures v == Table()[c]
    {
      EntriesAt(fat[..], g.Fat12(), g.Clusters() + 2, c);
      v := Entry(fat[..], g.Fat12(), c);
    }

    method Set(c: nat, v: nat)
      requires Ready() && c < g.Clusters() + 2 && FitsEntry(g.Fat12(), v)
      modifies fat
      ensures Ready() && Table() == old(Table())[c := v]
    {
      hide Entries, Entry, NewWord, Bpb.Sane, Bpb.FatBytes, Bpb.ClusterLimit, Bpb.Clusters, Bpb.DataStart;
      EntriesAt(fat[..], g.Fat12(), g.Clusters() + 2, c);
      SetEntries(fat[..], g.Fat12(), g.Clusters() + 2, c, v);
      var o := EntryOffset(g.Fat12(), c);
      var w := NewWord(U16(fat[..], o), g.Fat12(), c, v);
      fat[o], fat[o + 1] := w % 0x100, w / 0x100;
      assert fat[..] == SetEntry(old(fat[..]), g.Fat12(), c, v);
    }

    /** The clusters from `c` on, up to an end mark. `s` names them; a looping chain has no such `s`. */
    method Chain(c: nat, ghost s: seq<nat>) returns (out: seq<nat>)
      requires Ready()
      requires if c < 2 then s == [] else Chains.Chain(Table(), g.End(), c, s)
      ensures out == s
    {
      out := [];
      var k := c;
      while 2 <= k < g.End()
        invariant |out| <= |s| && out == s[..|out|]
        invariant if k < 2 then out == s else Chains.Chain(Table(), g.End(), k, s[|out|..])
        decreases |s| - |out|
      {
        ghost var rest := s[|out|..];
        assert rest[0] == k;
        assert rest[1..] == s[|out| + 1..];
        out := out + [k];
        k := Get(k);
        if |out| < |s| {
          assert s[|out|..] != [];
        }
      }
    }

    method FreeChain(c: nat, ghost s: seq<nat>)
      requires Ready()
      requires if c < 2 then s == [] else Chains.Chain(Table(), g.End(), c, s)
      requires forall i :: 0 <= i < |s| ==> s[i] < |Table()|
      modifies fat
      ensures Ready() && Table() == Release(old(Table()), s)
    {
      var out := Chain(c, s);
      for i := 0 to |out|
        invariant Ready() && |Table()| == |old(Table())|
        invariant forall k :: 0 <= k < |s[i..]| ==> s[i..][k] < |Table()|
        invariant Release(Table(), s[i..]) == Release(old(Table()), s)
      {
        assert s[i..][0] == s[i] && s[i..][1..] == s[i + 1..];
        Set(out[i], 0);
      }
    }

    /** The first `n` free clusters, linked to a chain; nothing is changed when there are fewer. */
    method Alloc(n: nat) returns (r: Option<seq<nat>>)
      requires Ready() && n > 0
      modifies fat
      ensures Ready()
      ensures r.None? <==> |FirstFree(old(Table()), 2, n)| < n
      ensures r.None? ==> fat[..] == old(fat[..])
      ensures r.Some? ==> r.value == FirstFree(old(Table()), 2, n)
      ensures r.Some? ==> Table() == Link(old(Table()), r.value, g.Eoc())
    {
      hide Entries, Holds, Link, FirstFree, Rising, Bpb.Sane, Bpb.FatStart, Bpb.FatBytes, Bpb.RootStart, Bpb.DataStart,
        Bpb.ClusterLimit, Bpb.Clusters, Bpb.ClusterSize, Bpb.Fat12;
      ghost var t := Table();
      var got: seq<nat> := [];
      var c: nat := 2;
      while c < g.Clusters() + 2 && |got| < n
        modifies {}
        invariant 2 <= c <= g.Clusters() + 2 && |got| <= n
        invariant got + FirstFree(t, c, n - |got|) == FirstFree(t, 2, n)
      {
        FreeStep(t, c, n, got);
        var v := Get(c);
        if v == 0 {
          got := got + [c];
        }
        c := c + 1;
      }
      FreeStop(t, c, n - |got|);
      FreeRising(t, 2, n);
      assert got + [] == got;
      if |got| != n {
        return None;
      }
      LinkAll(got);
      return Some(got);
    }

    method LinkAll(got: seq<nat>)
      requires Ready() && Rising(got, |Table()|)
      modifies fat
      ensures Ready() && Table() == Link(old(Table()), got, g.Eoc())
    {
      hide Entries, Holds, Link, Rising, Bpb.End, Bpb.Eoc, Bpb.Sane, Bpb.FatStart, Bpb.FatBytes, Bpb.RootStart,
        Bpb.DataStart, Bpb.ClusterLimit, Bpb.Clusters, Bpb.ClusterSize, Bpb.Fat12;
      EntriesBelow(g, img.Length);
      assert got[0..] == got;
      for i := 0 to |got|
        invariant Ready() && |Table()| == |old(Table())|
        invariant Rising(got[i..], |Table()|)
        invariant Link(Table(), got[i..], g.Eoc()) == Link(old(Table()), got, g.Eoc())
      {
        LinkStep(Table(), got, i, g.Eoc());
        var next := if i + 1 < |got| then got[i + 1] else g.Eoc();
        Set(got[i], next);
      }
      LinkDone(Table(), g.Eoc());
      assert got[|got|..] == [];
    }

    /** `f.seek(off); f.write(b)` */
    method WriteAt(off: nat, b: seq<byte>)
      requires Ready() && off + |b| <= img.Length
      modifies img
      ensures Ready()
      ensures img[..] == Splice(old(img[..]), off, b)
    {
      forall i | 0 <= i < |b| {
        img[off + i] := b[i];
      }
    }

    /** Every copy of the FAT becomes the one in memory. */
    method FlushFat()
      requires Ready()
      modifies img
      ensures Ready()
      ensures var v := ViewOf(g, old(img[..])); var w := ViewOf(g, img[..]);
              w.boot == v.boot && w.root == v.root && w.data == v.data
      ensures forall k :: 0 <= k < g.nfat ==> ViewOf(g, img[..]).fats[k] == fat[..]
    {
      hide ViewOf, Bpb.Sane, At, Splice;
      ghost var v := ViewOf(g, img[..]);
      for i := 0 to g.nfat
        invariant Ready() && g.Sane(img.Length)
        invariant var w := ViewOf(g, img[..]); w.boot == v.boot && w.root == v.root && w.data == v.data
        invariant forall k :: 0 <= k < i ==> ViewOf(g, img[..]).fats[k] == fat[..]
      {
        WriteFat(g, img[..], i, fat[..]);
        WriteAt(At(g.FatStart(), i, g.FatBytes()), fat[..]);
      }
    }

    /** Image offset and bytes of every slot of a directory. */
    method DirSlots(clus: nat, ghost s: seq<nat>) returns (offs: seq<nat>, raws: seq<raw>)
      requires Ready()
      requires clus != 0 ==> clus >= 2 && Chains.Chain(Table(), g.End(), clus, s) && Inside(s, g.Clusters())
      ensures |offs| == |raws|
      ensures clus == 0 ==> raws == Slots(ViewOf(g, img[..]).root) && offs == RootOffsets(g)
      ensures clus != 0 ==> raws == ChainSlots(ViewOf(g, img[..]).data, s) && offs == ChainOffsets(g, s)
    {
      hide Entries, Holds, ViewOf, Slots, ChainSlots, ChainOffsets, Bpb.ClusterOffset, ClusterOffsets, Bpb.Sane,
        Bpb.FatStart, Bpb.FatBytes, Bpb.RootStart, Bpb.DataStart, Bpb.ClusterLimit, Bpb.Clusters, Bpb.ClusterSize,
        Bpb.Fat12;
      if clus == 0 {
        RootPlace(g, img[..]);
        return RootOffsets(g), Slots(img[g.RootStart()..g.RootStart() + g.rootent * 32]);
      }
      var out := Chain(clus, s);
      ghost var data := ViewOf(g, img[..]).data;
      offs, raws := [], [];
      assert s[0..] == s;
      for j := 0 to |out|
        modifies {}
        invariant |offs| == |raws| && Inside(s[j..], g.Clusters())
        invariant offs + ChainOffsets(g, s[j..]) == ChainOffsets(g, s)
        invariant raws + ChainSlots(data, s[j..]) == ChainSlots(data, s)
      {
        var c := out[j];
        SlotsOfNext(g, data, s, j, offs, raws);
        ClusterPlace(g, img[..], c);
        offs := offs + ClusterOffsets(g, c);
        raws := raws + Slots(img[g.ClusterOffset(c)..g.ClusterOffset(c) + g.ClusterSize()]);
      }
      SlotsOfNone(g, data);
      assert s[|out|..] == [] && offs + [] == offs && raws + [] == raws;
    }
  }

  lemma SlotsOfNext(g: Geometry, data: seq<seq<byte>>, s: seq<nat>, j: nat, offs: seq<nat>, raws: seq<raw>)
    requires j < |s| && Inside(s[j..], |data|)
    ensures 2 <= s[j] < |data| + 2 && Inside(s[j + 1..], |data|)
    ensures offs + ChainOffsets(g, s[j..]) == offs + ClusterOffsets(g, s[j]) + ChainOffsets(g, s[j + 1..])
    ensures raws + ChainSlots(data, s[j..]) == raws + Slots(data[s[j] - 2]) + ChainSlots(data, s[j + 1..])
  {
    hide ClusterOffsets, Slots;
    assert s[j..][0] == s[j] && s[j..][1..] == s[j + 1..];
    var rest := s[j + 1..];
    forall i | 0 <= i < |rest|
      ensures 2 <= rest[i] < |data| + 2
    {
      assert rest[i] == s[j..][i + 1];
    }
  }

  lemma SlotsOfNone(g: Geometry, data: seq<seq<byte>>)
    ensures ChainOffsets(g, []) == [] && ChainSlots(data, []) == []
  {
  }

  lemma FreeStep(t: seq<nat>, c: nat, n: nat, got: seq<nat>)
    requires c < |t| && |got| < n
    ensures got + FirstFree(t, c, n - |got|) ==
            if t[c] == 0 then got + [c] + FirstFree(t, c + 1, n - |got + [c]|)
            else got + FirstFree(t, c + 1, n - |got|)
  {
  }

  lemma FreeStop(t: seq<nat>, c: nat, n: nat)
    requires c >= |t| || n == 0
    ensures FirstFree(t, c, n) == []
  {
  }

  lemma FreeRising(t: seq<nat>, c: nat, n: nat)
    ensures Rising(FirstFree(t, c, n), |t|)
  {
  }

  lemma LinkStep(t: seq<nat>, got: seq<nat>, i: nat, eoc: nat)
    requires i < |got| && Rising(got[i..], |t|)
    ensures got[i] < |t| && (i + 1 < |got| ==> got[i + 1] < |t|) && Rising(got[i + 1..], |t|)
    ensures Link(t[got[i] := if i + 1 < |got| then got[i + 1] else eoc], got[i + 1..], eoc) == Link(t, got[i..], eoc)
  {
    var s := got[i..];
    assert s[0] == got[i] && s[1..] == got[i + 1..];
    assert forall k :: 0 <= k < |s[1..]| ==> s[1..][k] == s[k + 1];
    if i + 1 < |got| {
      assert s[1] == got[i + 1];
    }
  }

  lemma LinkDone(t: seq<nat>, eoc: nat)
    ensures Rising([], |t|) && Link(t, [], eoc) == t
  {
  }

  function RootOffsets(g: Geometry): seq<nat> {
    seq(g.rootent, i requires 0 <= i => RootSlotOffset(g, i))
  }

  function RootSlotOffset(g: Geometry, i: nat): nat {
    g.RootStart() + 32 * i
  }

  lemma RootPlace(g: Geometry, s: seq<byte>)
    requires g.Sane(|s|)
    ensures g.RootStart() + g.rootent * 32 <= |s|
    ensures ViewOf(g, s).root == s[g.RootStart()..g.RootStart() + g.rootent * 32]
  {
    PartsInOrder(g, |s|);
  }

  lemma ClusterPlace(g: Geometry, s: seq<byte>, c: nat)
    requires g.Sane(|s|) && 2 <= c < g.Clusters() + 2
    ensures g.ClusterOffset(c) + g.ClusterSize() <= |s|
    ensures ViewOf(g, s).data[c - 2] == s[g.ClusterOffset(c)..g.ClusterOffset(c) + g.ClusterSize()]
  {
    PartsInOrder(g, |s|);
    PieceAt(s, g.DataStart(), g.Clusters(), g.ClusterSize(), c - 2);
  }

  /** Every cluster number, and the end mark, fits an entry. */
  lemma EntriesBelow(g: Geometry, n: nat)
    requires g.Sane(n)
    ensures g.Clusters() + 2 <= g.End() <= g.Eoc() && FitsEntry(g.Fat12(), g.Eoc())
    ensures forall c :: 0 <= c < g.Clusters() + 2 ==> FitsEntry(g.Fat12(), c)
  {
  }

  lemma FirstFat(g: Geometry, s: seq<byte>)
    requires g.Sane(|s|)
    ensures g.FatStart() + g.FatBytes() <= |s|
    ensures ViewOf(g, s).fats[0] == Cut(s, g.FatStart(), g.FatBytes())
    ensures Holds(ViewOf(g, s).fats[0], g.Fat12(), g.Clusters() + 1)
  {
    PartsInOrder(g, |s|);
    PieceAt(s, g.FatStart(), g.nfat, g.FatBytes(), 0);
  }
}
