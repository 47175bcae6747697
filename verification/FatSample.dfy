/** A small volume on which each tool, asked for what its promise does not cover, breaks it. */
module FatSample {
  import opened Bytes
  import opened Chains
  import opened Volume
  import opened VolumeFiles
  import opened Directory
  import opened FatCopy
  import opened FatMakeDir

  const NAME_A: tag := [0x41, 0x20, 0x20, 0x20, 0x20, 0x20, 0x20, 0x20, 0x20, 0x20, 0x20]
  const NAME_B: tag := [0x42, 0x20, 0x20, 0x20, 0x20, 0x20, 0x20, 0x20, 0x20, 0x20, 0x20]
  const NAME_C: tag := [0x43, 0x20, 0x20, 0x20, 0x20, 0x20, 0x20, 0x20, 0x20, 0x20, 0x20]
  const END: nat := 0xFF8
  const SIZE: nat := 512

  function Unused(n: nat): (es: seq<raw>)
    ensures |es| == n && forall k :: 0 <= k < n ==> es[k][0] == 0 && es[k][11] == 0
  {
    if n == 0 then [] else Unused(n - 1) + [Zeros(32)]
  }

  function Entry(name: tag, attr: byte, clus: nat, size: nat): (e: raw)
    requires clus < 0x1_0000 && size < 0x1_0000_0000
    ensures Tag(e) == name && e[0] == name[0] && e[11] == attr && Clus(e) == clus && Size(e) == size
  {
    var e := NewEntry(name, attr, 0, 0, clus, size);
    assert e[0] == Tag(e)[0];
    e
  }

  function RootSlots(): seq<raw> {
    [Entry(NAME_A, 0x10, 2, 0), Entry(NAME_B, 0x20, 3, 1)] + Unused(14)
  }

  function SubSlots(): seq<raw> {
    [Entry(DOT, 0x10, 2, 0), Entry(DOTDOT, 0x10, 0, 0), Entry(NAME_C, 0x20, 0, 0)] + Unused(13)
  }

  function Sevens(): seq<byte> {
    [7, 7] + Zeros(510)
  }

  /** The root holds the directory "A", with an empty file "C" in it, and the file "B": one 7, with another behind its
      end. */
  function Sample(): Vol {
    Vol([0xFF0, 0xFFF, 0xFFF, 0xFFF, 0], map[2 := [2], 3 := [3]], map[0 := RootSlots(), 2 := SubSlots()],
        [Zeros(SIZE), Sevens(), Zeros(SIZE)])
  }

  lemma SampleSlots()
    ensures var es := RootSlots();
      && |es| == 16 && es[0] == Entry(NAME_A, 0x10, 2, 0) && es[1] == Entry(NAME_B, 0x20, 3, 1)
      && (forall k :: 2 <= k < 16 ==> es[k][0] == 0 && es[k][11] == 0)
    ensures var es := SubSlots();
      && |es| == 16 && es[0] == Entry(DOT, 0x10, 2, 0) && es[1] == Entry(DOTDOT, 0x10, 0, 0)
        && es[2] == Entry(NAME_C, 0x20, 0, 0)
      && (forall k :: 3 <= k < 16 ==> es[k][0] == 0 && es[k][11] == 0)
  {
    hide Entry, Unused;
  }

  /** Who owns what. */
  lemma SampleOwners(d: nat, k: nat, c: nat)
    ensures Owns(Sample(), d, k, c) <==> d == 0 && ((k == 0 && c == 2) || (k == 1 && c == 3))
  {
    hide Entry, Unused, RootSlots, SubSlots, Sevens;
    SampleSlots();
  }

  lemma SampleLaid()
    ensures Laid(Sample().t, END, Sample().chains) && DataOK(Sample(), SIZE)
  {
    hide RootSlots, SubSlots, Zeros;
    var t := Sample().t;
    assert [2][1..] == [] && [3][1..] == [];
    assert Chain(t, END, 0xFFF, []);
    assert Chain(t, END, 2, [2]) && Chain(t, END, 3, [3]);
  }

  lemma SampleRoot()
    ensures DirOK(Sample(), SIZE, RootSlots())
  {
    hide Entry, Unused, RootSlots, SubSlots, Sevens;
    SampleSlots();
  }

  lemma SampleSub()
    ensures DirOK(Sample(), SIZE, SubSlots())
  {
    hide Entry, Unused, RootSlots, SubSlots, Sevens;
    SampleSlots();
  }

  lemma SampleDirs()
    ensures DirsOK(Sample(), SIZE)
  {
    hide DirOK, RootSlots, SubSlots, Sevens;
    SampleRoot();
    SampleSub();
  }

  lemma SampleTree()
    ensures OneOwner(Sample()) && TreeOK(Sample())
  {
    hide Entry, Unused, RootSlots, SubSlots, Sevens, Owns;
    SampleSlots();
    forall d, k, c
      ensures Owns(Sample(), d, k, c) <==> d == 0 && ((k == 0 && c == 2) || (k == 1 && c == 3))
    {
      SampleOwners(d, k, c);
    }
    assert Owns(Sample(), 0, 0, 2) && Owns(Sample(), 0, 1, 3);
    assert Ranked(Sample(), map[0 := 0, 2 := 1]);
  }

  lemma SampleOK()
    ensures VolOK(Sample(), END, SIZE)
  {
    hide Laid, DataOK, DirsOK, OneOwner, TreeOK, RootSlots, SubSlots, Sevens;
    SampleLaid();
    SampleDirs();
    SampleTree();
  }

  lemma SampleNames()
    ensures VolOK(Sample(), END, SIZE)
    ensures LookUp(Sample(), END, SIZE, 0, NAME_A) == Directory(2) && LookUp(Sample(), END, SIZE, 2, NAME_C) == File([])
    ensures LookUp(Sample(), END, SIZE, 0, NAME_B) == File([7]) && !EmptyDir(Sample().dirs[2])
  {
    hide VolOK, Entry, Unused, RootSlots, SubSlots, Sevens;
    SampleOK();
    SampleSlots();
    FindAt(RootSlots(), NAME_A, 0);
    FindAt(RootSlots(), NAME_B, 1);
    FindAt(SubSlots(), NAME_C, 2);
    SevenBytes();
  }

  lemma SevenBytes()
    ensures |Sevens()| == 512 && ChainBytes(Sample().data, [3]) == Sevens() && Sevens()[..1] == [7]
      && Sevens()[..2] == [7, 7]
  {
    hide RootSlots, SubSlots;
    assert [3][1..] == [] && ChainBytes(Sample().data, []) == [];
  }

  /** `--rm A`: whatever volume is read off the image afterwards, "C" is lost with it. */
  lemma RemovingLoses(v1: Vol, x: Vol)
    requires Freed(Sample(), v1, SIZE, 2) && VolOK(x, END, SIZE) && x.t == v1.t
    ensures VolOK(Sample(), END, SIZE) && !Becomes(Sample(), x, END, SIZE, 0, NAME_A, Missing)
  {
    hide VolOK, Freed, RootSlots, SubSlots, EmptyDir, OnlyEmptyGone, LookUp;
    SampleNames();
    SampleA();
    if OnlyEmptyGone(Sample(), x, END, SIZE) {
      RemoveNeeds(Sample(), v1, x, END, SIZE, 0, 0);
    }
  }

  lemma SampleA()
    ensures NamedAt(Sample(), 0, 0) && NamedAt(Sample(), 0, 1) && Clus(Sample().dirs[0][0]) == 2
      && Tag(Sample().dirs[0][0]) == NAME_A
    ensures OldChain(Sample(), 0, 0) == 2 && IsDir(Sample().dirs[0][0]) && !Spare(Sample(), 0, 0)
    ensures Tag(Sample().dirs[0][1]) == NAME_B && FreePlace(Sample().dirs[0], 2)
  {
    hide Entry, Unused, RootSlots, SubSlots, Sevens;
    SampleSlots();
  }

  /** Putting a file over "A", with `--attr` or without. */
  lemma PuttingLoses(v1: Vol, w: Vol, x: Vol, e: raw, got: seq<nat>, blocks: seq<seq<byte>>, eoc: nat, data: seq<byte>)
    requires Freed(Sample(), v1, SIZE, 2) && 0 in v1.dirs && v1.dirs[0] == Sample().dirs[0]
    requires Live(e) && Tag(e) == NAME_A && Fillable(v1, END, SIZE, got, blocks) && Clus(e) == if got == [] then 0
      else got[0]
    requires w == Filled(v1, END, SIZE, 0, 0, e, got, blocks, eoc) && VolOK(x, END, SIZE) && x.t == w.t && Agree(w, x)
    ensures VolOK(Sample(), END, SIZE) && !Becomes(Sample(), x, END, SIZE, 0, NAME_A, File(data))
  {
    hide VolOK, Freed, RootSlots, SubSlots, EmptyDir, LookUp, Fillable, Agree, Becomes, Live, IsDir, Spare, Link,
      WriteBlocks;
    SampleNames();
    SampleA();
    if Becomes(Sample(), x, END, SIZE, 0, NAME_A, File(data)) {
      PutNeeds(Sample(), v1, x, END, SIZE, 0, 0, e, got, blocks, eoc, data);
    }
  }

  /** `--mkdir B`: with the new entry in the first free slot, the root is no volume's. */
  lemma MakingSpoils(x: Vol, e: raw)
    requires Live(e) && Tag(e) == NAME_B && 0 in x.dirs && x.dirs[0] == Sample().dirs[0][2 := e]
    ensures !VolOK(x, END, SIZE)
  {
    hide VolOK, RootSlots, SubSlots, TagsDistinct, Live, Free;
    SampleA();
    SampleOK();
    DirsAt(Sample(), END, SIZE, 0);
    SecondEntry(Sample().dirs[0], 2, e);
    assert Find(Sample().dirs[0], NAME_B, 0) <= 1 by { FindSome(Sample().dirs[0], NAME_B, 1); }
    if VolOK(x, END, SIZE) {
      DirsAt(x, END, SIZE, 0);
    }
  }

  lemma FindSome(es: seq<raw>, g: tag, k: nat)
    requires k < |es| && Live(es[k]) && Tag(es[k]) == g
    ensures Find(es, g, 0) <= k
  {
  }
}
