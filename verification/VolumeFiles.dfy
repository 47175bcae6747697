/** What putting a file under a name and removing a name do to a volume, whatever the name stood for before. */
module VolumeFiles {
  import opened Bytes
  import opened Chains
  import opened Volume

  /** Nothing is in the directory but "." and "..". */
  predicate EmptyDir(es: seq<raw>) {
    forall k :: 0 <= k < |es| && Live(es[k]) ==> IsDot(Tag(es[k]))
  }

  /** Directories that are gone had nothing in them. */
  ghost predicate OnlyEmptyGone(v: Vol, w: Vol, end: nat, csize: nat)
    requires VolOK(v, end, csize)
  {
    forall b, h :: b in v.dirs && b !in w.dirs && !IsDot(h) ==> LookUp(v, end, csize, b, h) == Missing
  }

  /** One name of a directory that stays means something else now; no other name does, and no cluster is lost. */
  ghost predicate Becomes(v: Vol, w: Vol, end: nat, csize: nat, d: nat, g: tag, to: Lookup)
    requires VolOK(v, end, csize) && VolOK(w, end, csize) && d in v.dirs
  {
    && d in w.dirs && w.dirs.Keys <= v.dirs.Keys
    && LookUp(w, end, csize, d, g) == to
    && (forall b, h :: b in w.dirs && (b != d || h != g) ==> LookUp(w, end, csize, b, h) == LookUp(v, end, csize, b, h))
    && OnlyEmptyGone(v, w, end, csize)
    && Lost(w.t, w.chains) == Lost(v.t, v.chains)
  }

  lemma UpdatesBecome(v: Vol, w: Vol, end: nat, csize: nat, d: nat, g: tag, to: Lookup)
    requires VolOK(v, end, csize) && VolOK(w, end, csize) && d in v.dirs && w.dirs.Keys == v.dirs.Keys
    requires Lost(w.t, w.chains) == Lost(v.t, v.chains)
    ensures Updates(v, w, end, csize, d, g, to) <==> Becomes(v, w, end, csize, d, g, to)
  {
    hide VolOK, LookUp, Lost, IsDot;
  }

  lemma BecomesThen(u: Vol, v: Vol, w: Vol, end: nat, csize: nat, d: nat, g: tag, mid: Lookup, to: Lookup)
    requires VolOK(u, end, csize) && VolOK(v, end, csize) && VolOK(w, end, csize) && d in u.dirs
    requires Becomes(u, v, end, csize, d, g, mid) && Updates(v, w, end, csize, d, g, to)
    requires Lost(w.t, w.chains) == Lost(v.t, v.chains)
    ensures Becomes(u, w, end, csize, d, g, to)
  {
    hide VolOK, LookUp, Lost, IsDot;
  }

  // ---- giving up what a slot names ----

  /** The first cluster of what is in that slot, if it has one. */
  function OldChain(v: Vol, d: nat, k: nat): nat
    requires d in v.dirs && k < |v.dirs[d]|
  {
    if Live(v.dirs[d][k]) then Clus(v.dirs[d][k]) else 0
  }

  ghost predicate SameOutside(v: Vol, w: Vol, s: seq<nat>) {
    |w.data| == |v.data| && forall i :: 0 <= i < |v.data| && i + 2 !in s ==> w.data[i] == v.data[i]
  }

  /** `w`: the chain at `c` is free, and if a directory was there, none is; what the free clusters hold may be
      anything. */
  ghost predicate Freed(v: Vol, w: Vol, csize: nat, c: nat) {
    if c == 0 then w == v
    else
      && Droppable(v, c) && w.t == Release(v.t, v.chains[c]) && w.chains == v.chains - {c}
      && w.dirs == v.dirs - {c} && SameOutside(v, w, v.chains[c]) && DataOK(w, csize)
  }

  /** Slot `k` of `d` is in use by an entry of its own, not by "." or "..". */
  ghost predicate NamedAt(v: Vol, d: nat, k: nat) {
    d in v.dirs && k < |v.dirs[d]| && Live(v.dirs[d][k]) && !IsDot(Tag(v.dirs[d][k]))
  }

  /** What the slot names can be given up without losing names: it is no directory, or an empty one. */
  predicate Spare(v: Vol, d: nat, k: nat)
    requires d in v.dirs && k < |v.dirs[d]|
  {
    var c := Clus(v.dirs[d][k]);
    Live(v.dirs[d][k]) && IsDir(v.dirs[d][k]) ==> c in v.dirs && EmptyDir(v.dirs[c])
  }

  lemma EntryAt(v: Vol, end: nat, csize: nat, d: nat, k: nat)
    requires VolOK(v, end, csize) && d in v.dirs && k < |v.dirs[d]| && Live(v.dirs[d][k])
    ensures EntryOK(v, csize, v.dirs[d][k]) && DotOK(v, d, v.dirs[d][k])
  {
    hide Laid, DataOK, OneOwner, EntryOK, DotOK, EndMarked, TagsDistinct, Live, Ranked, Owned;
    assert DirOK(v, csize, v.dirs[d]);
  }

  /** A directory's entry is not in the directory itself. */
  lemma NotInItself(v: Vol, end: nat, csize: nat, d: nat, k: nat, c: nat)
    requires VolOK(v, end, csize) && Owns(v, d, k, c)
    ensures c != d
  {
    hide Laid, DataOK, OneOwner, DirsOK, DotOK, Owned;
    var rank :| Ranked(v, rank);
  }

  lemma NamedChain(v: Vol, end: nat, csize: nat, d: nat, k: nat)
    requires VolOK(v, end, csize) && NamedAt(v, d, k)
    ensures var c := Clus(v.dirs[d][k]);
      Droppable(v, c) && (c != 0 ==> c != d)
    ensures var c := Clus(v.dirs[d][k]);
      if c == 0 then !IsDir(v.dirs[d][k])
      else Owns(v, d, k, c) && ChainInside(v, c) && (IsDir(v.dirs[d][k]) <==> c in v.dirs)
  {
    hide VolOK, Laid, Live, IsDir, IsDot;
    var c := Clus(v.dirs[d][k]);
    EntryAt(v, end, csize, d, k);
    LaidOf(v, end, csize);
    if c != 0 {
      ChainIsInside(v, end, csize, c);
      NotInItself(v, end, csize, d, k, c);
    }
  }

  ghost predicate GivenUp(v: Vol, v1: Vol, csize: nat, d: nat, k: nat) {
    && NamedAt(v, d, k) && Spare(v, d, k) && Freed(v, v1, csize, Clus(v.dirs[d][k]))
    && d in v1.dirs && v1.dirs[d] == v.dirs[d]
  }

  lemma GivenUpDirs(v: Vol, v1: Vol, end: nat, csize: nat, d: nat, k: nat)
    requires VolOK(v, end, csize) && NamedAt(v, d, k) && Freed(v, v1, csize, Clus(v.dirs[d][k]))
    ensures d in v1.dirs && v1.dirs[d] == v.dirs[d]
    ensures Spare(v, d, k) ==> GivenUp(v, v1, csize, d, k)
  {
    hide VolOK, Spare, Live, IsDot, DataOK, SameOutside, Droppable;
    NamedChain(v, end, csize, d, k);
  }

  /** Every entry owns what it owned, but for the slot, whose chain is gone. */
  lemma OwnersLeft(v: Vol, v1: Vol, end: nat, csize: nat, d: nat, k: nat, e: raw, b: nat, j: nat, h: nat)
    requires VolOK(v, end, csize) && GivenUp(v, v1, csize, d, k) && Clus(e) == 0
    ensures Owns(WithEntry(v1, d, k, e), b, j, h) <==> Owns(v, b, j, h) && h != Clus(v.dirs[d][k])
  {
    hide Laid, DataOK, DirsOK, TreeOK, Live, IsDir, IsDot, SameOutside, ChainInside, Droppable;
    NamedChain(v, end, csize, d, k);
    var c := Clus(v.dirs[d][k]);
    if Owns(v, b, j, h) && h == c {
      assert Owns(v, d, k, c);
    }
  }

  lemma GivenUpChains(v: Vol, v1: Vol, end: nat, csize: nat, d: nat, k: nat)
    requires VolOK(v, end, csize) && GivenUp(v, v1, csize, d, k)
    ensures DataOK(v1, csize) && Laid(v1.t, end, v1.chains) && Lost(v1.t, v1.chains) == Lost(v.t, v.chains)
    ensures v1.chains == v.chains - {Clus(v.dirs[d][k])}
    ensures v1.dirs.Keys == if Clus(v.dirs[d][k]) in v.dirs
      && Clus(v.dirs[d][k]) != 0 then v.dirs.Keys - {Clus(v.dirs[d][k])} else v.dirs.Keys
  {
    hide VolOK, Lost, Laid, DataOK, Live, IsDot, SameOutside, Spare;
    LaidOf(v, end, csize);
    HeadsInside(v, end, csize);
    var c := Clus(v.dirs[d][k]);
    if c != 0 {
      ReleaseLaid(v.t, end, v.chains, c);
      ReleaseConserves(v.t, end, v.chains, c);
    }
  }

  lemma HeadsInside(v: Vol, end: nat, csize: nat)
    requires VolOK(v, end, csize)
    ensures forall h :: h in v.chains ==> h >= 2
  {
    hide DataOK, DirsOK, OneOwner, TreeOK;
    forall h | h in v.chains
      ensures h >= 2
    {
      assert v.chains[h] != [] && Chain(v.t, end, h, v.chains[h]);
    }
  }

  /** A directory that stays is not below the one that goes. */
  lemma ParentStays(v: Vol, v1: Vol, end: nat, csize: nat, d: nat, k: nat, e: raw, b: nat, i: nat, p: nat)
    requires VolOK(v, end, csize) && GivenUp(v, v1, csize, d, k) && Clus(e) == 0 && Clus(v.dirs[d][k]) != b
    requires Owns(v, p, i, b)
    ensures Owns(WithEntry(v1, d, k, e), p, i, b) && p in WithEntry(v1, d, k, e).dirs
  {
    hide VolOK, Live, IsDir, IsDot, GivenUp;
    OwnersLeft(v, v1, end, csize, d, k, e, p, i, b);
  }

  lemma EntryLeft(v: Vol, v1: Vol, end: nat, csize: nat, d: nat, k: nat, e: raw, b: nat, j: nat)
    requires VolOK(v, end, csize) && GivenUp(v, v1, csize, d, k) && Clus(e) == 0
    requires b in v1.dirs && b in v.dirs && j < |v.dirs[b]| && (b != d || j != k) && Live(v.dirs[b][j])
    ensures EntryOK(WithEntry(v1, d, k, e), csize, v.dirs[b][j]) && DotOK(WithEntry(v1, d, k, e), b, v.dirs[b][j])
  {
    hide VolOK, Laid, DataOK, Live, IsDir, IsDot, Lost, Spare, Freed;
    GivenUpChains(v, v1, end, csize, d, k);
    EntryAt(v, end, csize, b, j);
    var x, c, w := v.dirs[b][j], Clus(v.dirs[d][k]), WithEntry(v1, d, k, e);
    if IsDot(Tag(x)) {
      if Tag(x)[1] != 0x20 {
        var i: nat :| Owns(v, Clus(x), i, b);
        ParentStays(v, v1, end, csize, d, k, e, b, i, Clus(x));
      }
    } else if Clus(x) != 0 {
      OwnersLeft(v, v1, end, csize, d, k, e, b, j, Clus(x));
      assert Owns(v, b, j, Clus(x));
      if Clus(x) == c {
        OtherSlot(v, end, csize, d, k, b, j);
      }
    }
  }

  lemma OtherSlot(v: Vol, end: nat, csize: nat, d: nat, k: nat, b: nat, j: nat)
    requires VolOK(v, end, csize) && NamedAt(v, d, k) && NamedAt(v, b, j) && Clus(v.dirs[d][k]) != 0
    requires b != d || j != k
    ensures Clus(v.dirs[b][j]) != Clus(v.dirs[d][k])
  {
    hide Laid, DataOK, DirsOK, TreeOK, Live, IsDot;
    assert Owns(v, d, k, Clus(v.dirs[d][k]));
    assert Clus(v.dirs[b][j]) != 0 ==> Owns(v, b, j, Clus(v.dirs[b][j]));
  }

  /** An entry of a file with nothing in it. */
  ghost predicate EmptyFile(e: raw, g: tag) {
    Live(e) && !IsDir(e) && !IsDot(g) && Tag(e) == g && Clus(e) == 0 && Size(e) == 0
  }

  lemma LeftSlots(v: Vol, end: nat, csize: nat, d: nat, k: nat, e: raw)
    requires VolOK(v, end, csize) && NamedAt(v, d, k) && EmptyFile(e, Tag(v.dirs[d][k]))
    ensures EndMarked(v.dirs[d][k := e]) && TagsDistinct(v.dirs[d][k := e])
  {
    hide Laid, DataOK, OneOwner, TreeOK, EntryOK, IsDir, IsDot;
    var es := v.dirs[d];
    assert DirOK(v, csize, es);
    BeforeLive(es, k);
    TagsApart(es, k);
    SlotsKept(es, k, e);
  }

  lemma LeftDirs(v: Vol, v1: Vol, end: nat, csize: nat, d: nat, k: nat, e: raw)
    requires VolOK(v, end, csize) && GivenUp(v, v1, csize, d, k) && EmptyFile(e, Tag(v.dirs[d][k]))
    ensures DirsOK(WithEntry(v1, d, k, e), csize)
    ensures forall b, j :: b in WithEntry(v1, d, k, e).dirs && 0 <= j < |WithEntry(v1, d, k, e).dirs[b]| ==>
      DotOK(WithEntry(v1, d, k, e), b, WithEntry(v1, d, k, e).dirs[b][j])
  {
    hide VolOK, Live, IsDir, IsDot, Spare, EndMarked, TagsDistinct, Owns;
    var w := WithEntry(v1, d, k, e);
    LeftSlots(v, end, csize, d, k, e);
    forall b | b in w.dirs
      ensures DirOK(w, csize, w.dirs[b])
    {
      assert b != d ==> w.dirs[b] == v.dirs[b];
      DirsAt(v, end, csize, b);
      forall j | 0 <= j < |w.dirs[b]| && Live(w.dirs[b][j])
        ensures EntryOK(w, csize, w.dirs[b][j])
      {
        if b != d || j != k {
          EntryLeft(v, v1, end, csize, d, k, e, b, j);
        }
      }
    }
    forall b, j | b in w.dirs && 0 <= j < |w.dirs[b]|
      ensures DotOK(w, b, w.dirs[b][j])
    {
      if (b != d || j != k) && Live(w.dirs[b][j]) {
        EntryLeft(v, v1, end, csize, d, k, e, b, j);
      }
    }
  }

  lemma DirsAt(v: Vol, end: nat, csize: nat, d: nat)
    requires VolOK(v, end, csize) && d in v.dirs
    ensures EndMarked(v.dirs[d]) && TagsDistinct(v.dirs[d])
  {
    hide Laid, DataOK, OneOwner, TreeOK, EndMarked, TagsDistinct;
    assert DirOK(v, csize, v.dirs[d]);
  }

  lemma LeftTree(v: Vol, v1: Vol, end: nat, csize: nat, d: nat, k: nat, e: raw)
    requires VolOK(v, end, csize) && GivenUp(v, v1, csize, d, k) && EmptyFile(e, Tag(v.dirs[d][k]))
    ensures TreeOK(WithEntry(v1, d, k, e)) && OneOwner(WithEntry(v1, d, k, e))
  {
    hide Laid, DataOK, DirsOK, Live, IsDir, IsDot, Spare, Freed, Owns, DotOK;
    var w, c := WithEntry(v1, d, k, e), Clus(v.dirs[d][k]);
    GivenUpChains(v, v1, end, csize, d, k);
    LeftDirs(v, v1, end, csize, d, k, e);
    forall b, j, h
      ensures Owns(w, b, j, h) <==> Owns(v, b, j, h) && h != c
    {
      OwnersLeft(v, v1, end, csize, d, k, e, b, j, h);
    }
    forall h | h in w.chains
      ensures Owned(w, h)
    {
      assert Owned(v, h);
      var b: nat, j: nat :| Owns(v, b, j, h);
      assert Owns(w, b, j, h);
    }
    var rank :| Ranked(v, rank);
    assert Ranked(w, map b | b in w.dirs :: rank[b]);
  }

  /** What stays when a slot gives up what it names is a volume in which the name is an empty file's. */
  lemma GivenUpKeeps(v: Vol, v1: Vol, end: nat, csize: nat, d: nat, k: nat, e: raw)
    requires VolOK(v, end, csize) && GivenUp(v, v1, csize, d, k) && EmptyFile(e, Tag(v.dirs[d][k]))
    ensures VolOK(WithEntry(v1, d, k, e), end, csize)
  {
    hide Laid, DirsOK, OneOwner, TreeOK, Spare, Freed, EmptyFile;
    GivenUpChains(v, v1, end, csize, d, k);
    LeftDirs(v, v1, end, csize, d, k, e);
    LeftTree(v, v1, end, csize, d, k, e);
    HeadsStay(v, v1, end, csize, d, k);
  }

  lemma HeadsStay(v: Vol, v1: Vol, end: nat, csize: nat, d: nat, k: nat)
    requires VolOK(v, end, csize) && GivenUp(v, v1, csize, d, k)
    ensures 0 in v1.dirs && forall b :: b in v1.dirs && b != 0 ==> b in v1.chains
  {
    hide Laid, DataOK, DirsOK, OneOwner, TreeOK, Spare;
    GivenUpChains(v, v1, end, csize, d, k);
  }

  lemma BytesLeft(v: Vol, v1: Vol, end: nat, csize: nat, d: nat, k: nat, b: nat, j: nat)
    requires VolOK(v, end, csize) && GivenUp(v, v1, csize, d, k) && (b != d || j != k)
    requires b in v.dirs && j < |v.dirs[b]| && Live(v.dirs[b][j]) && !IsDir(v.dirs[b][j])
    ensures SameBytes(v, v1, Clus(v.dirs[b][j]))
  {
    hide VolOK, DataOK, Live, IsDir, IsDot, Spare, Chain;
    FileChain(v, end, csize, b, j);
    LaidOf(v, end, csize);
    if Clus(v.dirs[d][k]) != 0 {
      OtherSlot(v, end, csize, d, k, b, j);
      NamedChain(v, end, csize, d, k);
    }
  }

  lemma GivenUpOther(v: Vol, v1: Vol, end: nat, csize: nat, d: nat, k: nat, e: raw, b: nat, h: tag)
    requires VolOK(v, end, csize) && GivenUp(v, v1, csize, d, k) && EmptyFile(e, Tag(v.dirs[d][k]))
    requires VolOK(WithEntry(v1, d, k, e), end, csize)
    requires b in v1.dirs && (b != d || h != Tag(e))
    ensures b in v.dirs && LookUp(WithEntry(v1, d, k, e), end, csize, b, h) == LookUp(v, end, csize, b, h)
  {
    hide VolOK, DataOK, LookUp, Live, IsDir, IsDot, Spare, SameBytes, SameOutside;
    var w := WithEntry(v1, d, k, e);
    FindSame(v.dirs[b], w.dirs[b], h, 0);
    var j := Find(v.dirs[b], h, 0);
    if j < |v.dirs[b]| && !IsDir(v.dirs[b][j]) {
      BytesLeft(v, v1, end, csize, d, k, b, j);
      SameInEntry(v, v1, d, k, e, Clus(v.dirs[b][j]));
    }
    LookUpSame(v, w, end, csize, b, h);
  }

  lemma SameInEntry(v: Vol, v1: Vol, d: nat, k: nat, e: raw, c: nat)
    requires d in v1.dirs && k < |v1.dirs[d]| && SameBytes(v, v1, c)
    ensures SameBytes(v, WithEntry(v1, d, k, e), c)
  {
  }

  lemma GivenUpNamed(v: Vol, v1: Vol, end: nat, csize: nat, d: nat, k: nat, e: raw)
    requires VolOK(v, end, csize) && GivenUp(v, v1, csize, d, k) && EmptyFile(e, Tag(v.dirs[d][k]))
    requires VolOK(WithEntry(v1, d, k, e), end, csize)
    ensures LookUp(WithEntry(v1, d, k, e), end, csize, d, Tag(e)) == File([])
  {
    hide VolOK, Spare, Freed;
    DirsAt(v, end, csize, d);
    TagsApart(v.dirs[d], k);
    FindAt(WithEntry(v1, d, k, e).dirs[d], Tag(e), k);
  }

  lemma EmptyLookUp(v: Vol, end: nat, csize: nat, b: nat, h: tag)
    requires VolOK(v, end, csize) && b in v.dirs && EmptyDir(v.dirs[b]) && !IsDot(h)
    ensures LookUp(v, end, csize, b, h) == Missing
  {
    hide VolOK, IsDot, Live;
  }

  lemma GivenUpBecomes(v: Vol, v1: Vol, end: nat, csize: nat, d: nat, k: nat, e: raw)
    requires VolOK(v, end, csize) && GivenUp(v, v1, csize, d, k) && EmptyFile(e, Tag(v.dirs[d][k]))
    requires VolOK(WithEntry(v1, d, k, e), end, csize)
    ensures Becomes(v, WithEntry(v1, d, k, e), end, csize, d, Tag(e), File([]))
    ensures !IsDir(v.dirs[d][k]) ==> v1.dirs.Keys == v.dirs.Keys
  {
    hide VolOK, DataOK, LookUp, Live, IsDir, IsDot, Freed, Lost, EmptyDir;
    var w := WithEntry(v1, d, k, e);
    GivenUpChains(v, v1, end, csize, d, k);
    NamedChain(v, end, csize, d, k);
    GivenUpNamed(v, v1, end, csize, d, k, e);
    forall b, h | b in w.dirs && (b != d || h != Tag(e))
      ensures LookUp(w, end, csize, b, h) == LookUp(v, end, csize, b, h)
    {
      GivenUpOther(v, v1, end, csize, d, k, e, b, h);
    }
    forall b, h | b in v.dirs && b !in w.dirs && !IsDot(h)
      ensures LookUp(v, end, csize, b, h) == Missing
    {
      EmptyLookUp(v, end, csize, b, h);
    }
  }

  // ---- putting a file ----

  /** The slot a file goes to: the one that has its name, or one free for it. */
  ghost predicate PlaceFor(v: Vol, d: nat, k: nat, g: tag) {
    && d in v.dirs && k < |v.dirs[d]| && !IsDot(g)
    && ((Live(v.dirs[d][k]) && Tag(v.dirs[d][k]) == g)
        || (Free(v.dirs[d][k]) && (forall j :: 0 <= j < k ==> v.dirs[d][j][0] != 0)
            && Find(v.dirs[d], g, 0) == |v.dirs[d]|))
  }

  /** A file entry that names `got` as its clusters. */
  ghost predicate FileEntry(e: raw, csize: nat, got: seq<nat>) {
    Live(e) && !IsDir(e) && !IsDot(Tag(e)) && FitsChain(e, csize, got)
  }

  lemma PlaceNamed(v: Vol, d: nat, k: nat, g: tag)
    requires PlaceFor(v, d, k, g) && Live(v.dirs[d][k])
    ensures NamedAt(v, d, k) && Tag(v.dirs[d][k]) == g
  {
  }

  lemma EmptiedFile(e: raw)
    requires Live(e) && !IsDot(Tag(e))
    ensures EmptyFile(Emptied(e), Tag(e))
  {
    hide Emptied;
    assert Emptied(e)[0] == Tag(Emptied(e))[0];
  }

  /** With the slot's chain given up, an empty file of that name is a volume's: where its contents go. */
  lemma PlaceCleared(v: Vol, v1: Vol, end: nat, csize: nat, d: nat, k: nat, e: raw)
    requires VolOK(v, end, csize) && PlaceFor(v, d, k, Tag(e)) && Freed(v, v1, csize, OldChain(v, d, k))
    requires Spare(v, d, k) && Live(e) && d in v1.dirs && v1.dirs[d] == v.dirs[d]
    ensures var u := WithEntry(v1, d, k, Emptied(e));
      && VolOK(u, end, csize) && FileAt(u, d, k) && Clus(u.dirs[d][k]) == 0 && Tag(u.dirs[d][k]) == Tag(e)
      && Becomes(v, u, end, csize, d, Tag(e), File([]))
    ensures OldChain(v, d, k) == 0 || OldChain(v, d, k) !in v.dirs ==> v1.dirs.Keys == v.dirs.Keys
  {
    hide VolOK, Becomes, Freed, Live, IsDir, IsDot, Lost, Emptied, Find, Updates, Spare, Free;
    EmptiedFile(e);
    var u := WithEntry(v1, d, k, Emptied(e));
    if Live(v.dirs[d][k]) {
      PlaceNamed(v, d, k, Tag(e));
      GivenUpDirs(v, v1, end, csize, d, k);
      GivenUpKeeps(v, v1, end, csize, d, k, Emptied(e));
      GivenUpBecomes(v, v1, end, csize, d, k, Emptied(e));
      GivenUpChains(v, v1, end, csize, d, k);
    } else {
      NothingFreed(v, v1, csize);
      InsertEmpty(v, end, csize, d, k, Emptied(e));
      InsertEmptyUpdates(v, end, csize, d, k, Emptied(e));
      UpdatesBecome(v, u, end, csize, d, Tag(e), File([]));
    }
  }

  lemma NothingFreed(v: Vol, v1: Vol, csize: nat)
    requires Freed(v, v1, csize, 0)
    ensures v1 == v
  {
  }

  /** Putting a file keeps the invariant, changes exactly one name, and loses no cluster. */
  lemma PutKeeps(v: Vol, v1: Vol, end: nat, csize: nat, d: nat, k: nat, e: raw,
                 got: seq<nat>, blocks: seq<seq<byte>>, eoc: nat)
    requires VolOK(v, end, csize) && PlaceFor(v, d, k, Tag(e)) && Freed(v, v1, csize, OldChain(v, d, k))
    requires Spare(v, d, k) && FileEntry(e, csize, got) && d in v1.dirs && v1.dirs[d] == v.dirs[d]
    requires Fillable(v1, end, csize, got, blocks) && Size(e) <= |Join(blocks)| && eoc >= end
    ensures var w := Filled(v1, end, csize, d, k, e, got, blocks, eoc);
            VolOK(w, end, csize) && Becomes(v, w, end, csize, d, Tag(e), File(Join(blocks)[..Size(e)]))
    ensures OldChain(v, d, k) == 0 || OldChain(v, d, k) !in v.dirs ==> v1.dirs.Keys == v.dirs.Keys
  {
    hide VolOK, Updates, Becomes, Freed, Lost, Laid, IsDot, Live, IsDir, Emptied, Spare, FitsChain, OldChain, Join,
      Free, Find;
    PlaceCleared(v, v1, end, csize, d, k, e);
    var u, w := WithEntry(v1, d, k, Emptied(e)), Filled(v1, end, csize, d, k, e, got, blocks, eoc);
    SameFill(v1, end, csize, d, k, Emptied(e), e, got, blocks, eoc);
    FillKeeps(u, end, csize, d, k, e, got, blocks, eoc);
    FillUpdates(u, end, csize, d, k, e, got, blocks, eoc);
    LaidOf(u, end, csize);
    FillConserves(u, end, csize, d, k, e, got, blocks, eoc);
    BecomesThen(v, u, w, end, csize, d, Tag(e), File([]), File(Join(blocks)[..Size(e)]));
  }

  lemma FillConserves(v: Vol, end: nat, csize: nat, d: nat, k: nat, e: raw, got: seq<nat>, blocks: seq<seq<byte>>,
        eoc: nat)
    requires Laid(v.t, end, v.chains) && Fillable(v, end, csize, got, blocks) && d in v.dirs && k < |v.dirs[d]|
      && eoc >= end
    ensures var w := Filled(v, end, csize, d, k, e, got, blocks, eoc); Lost(w.t, w.chains) == Lost(v.t, v.chains)
  {
    hide Lost, Laid, Allocatable;
    if got != [] {
      LinkConserves(v.t, end, v.chains, got, eoc);
    }
  }

  lemma SameFill(v: Vol, end: nat, csize: nat, d: nat, k: nat, a: raw, e: raw, got: seq<nat>, blocks: seq<seq<byte>>,
        eoc: nat)
    requires Fillable(v, end, csize, got, blocks) && d in v.dirs && k < |v.dirs[d]|
    ensures var u := WithEntry(v, d, k, a);
      Fillable(u, end, csize, got, blocks)
      && Filled(u, end, csize, d, k, e, got, blocks, eoc) == Filled(v, end, csize, d, k, e, got, blocks, eoc)
  {
    hide Allocatable;
    var u := WithEntry(v, d, k, a);
    var x, y := Filled(u, end, csize, d, k, e, got, blocks, eoc), Filled(v, end, csize, d, k, e, got, blocks, eoc);
    assert x.dirs[d] == y.dirs[d];
    assert x.dirs == y.dirs;
  }

  lemma FilledKeys(v: Vol, end: nat, csize: nat, d: nat, k: nat, e: raw, got: seq<nat>, blocks: seq<seq<byte>>,
        eoc: nat)
    requires Fillable(v, end, csize, got, blocks) && d in v.dirs && k < |v.dirs[d]|
    ensures Filled(v, end, csize, d, k, e, got, blocks, eoc).dirs.Keys == v.dirs.Keys
  {
  }

  // ---- removing a name ----

  /** Removing a name keeps the invariant, takes exactly that name away, and loses no cluster. */
  lemma RemoveKeeps(v: Vol, v1: Vol, end: nat, csize: nat, d: nat, k: nat, e: raw)
    requires VolOK(v, end, csize) && GivenUp(v, v1, csize, d, k) && e[0] == DELETED
    ensures var w := WithEntry(v1, d, k, e);
            VolOK(w, end, csize) && Becomes(v, w, end, csize, d, Tag(v.dirs[d][k]), Missing)
    ensures !IsDir(v.dirs[d][k]) ==> v1.dirs.Keys == v.dirs.Keys
  {
    hide VolOK, Updates, Becomes, Freed, Lost, IsDot, Live, IsDir, Emptied, Spare;
    var old_ := v.dirs[d][k];
    EmptiedFile(old_);
    var u, w := WithEntry(v1, d, k, Emptied(old_)), WithEntry(v1, d, k, e);
    GivenUpKeeps(v, v1, end, csize, d, k, Emptied(old_));
    GivenUpBecomes(v, v1, end, csize, d, k, Emptied(old_));
    assert WithEntry(u, d, k, e) == w by {
      assert WithEntry(u, d, k, e).dirs[d] == w.dirs[d];
      assert WithEntry(u, d, k, e).dirs == w.dirs;
    }
    DeleteKeeps(u, end, csize, d, k, e);
    DeleteUpdates(u, end, csize, d, k, e);
    BecomesThen(v, u, w, end, csize, d, Tag(old_), File([]), Missing);
  }

  // ---- when there is more in a directory than the result accounts for ----

  /** Directories and chains that both volumes have are the same in both. */
  ghost predicate Agree(v: Vol, w: Vol) {
    && (forall d :: d in v.dirs && d in w.dirs ==> w.dirs[d] == v.dirs[d])
    && (forall h :: h in v.chains && h in w.chains ==> w.chains[h] == v.chains[h])
  }

  /** If no name is to be lost, a directory with something in it must still be there. */
  lemma StillThere(v: Vol, x: Vol, end: nat, csize: nat, c: nat)
    requires VolOK(v, end, csize) && VolOK(x, end, csize) && OnlyEmptyGone(v, x, end, csize)
    requires c in v.dirs && c != 0 && !EmptyDir(v.dirs[c])
    ensures c in x.dirs && c in x.chains && c in x.chains[c] && c < |x.t| && x.t[c] != 0
  {
    hide Laid, DataOK, DirsOK, OneOwner, TreeOK, IsDot, Live, IsDir, FileBytes;
    var j :| 0 <= j < |v.dirs[c]| && Live(v.dirs[c][j]) && !IsDot(Tag(v.dirs[c][j]));
    assert LookUp(v, end, csize, c, Tag(v.dirs[c][j])) != Missing;
    HeadInside(x, end, csize, c);
  }

  lemma HeadInside(v: Vol, end: nat, csize: nat, c: nat)
    requires VolOK(v, end, csize) && c in v.chains
    ensures c in v.chains[c] && c < |v.t| && v.t[c] != 0
  {
    hide DataOK, DirsOK, OneOwner, TreeOK;
    LaidUsed(v.t, end, v.chains, c, 0);
    assert v.chains[c][0] == c;
  }

  /** Removing a directory that holds something loses names, whatever volume the rest is taken for. */
  lemma RemoveNeeds(v: Vol, v1: Vol, x: Vol, end: nat, csize: nat, d: nat, k: nat)
    requires VolOK(v, end, csize) && NamedAt(v, d, k) && Freed(v, v1, csize, Clus(v.dirs[d][k]))
    requires VolOK(x, end, csize) && x.t == v1.t && OnlyEmptyGone(v, x, end, csize)
    ensures Spare(v, d, k)
  {
    hide VolOK, OnlyEmptyGone, IsDot, Live, IsDir, EmptyDir, SameOutside, DataOK;
    NamedChain(v, end, csize, d, k);
    var c := Clus(v.dirs[d][k]);
    if c != 0 && c in v.dirs && !EmptyDir(v.dirs[c]) {
      StillThere(v, x, end, csize, c);
      HeadInside(v, end, csize, c);
      assert false;
    }
  }

  lemma ReusedNeeds(v: Vol, w: Vol, x: Vol, end: nat, csize: nat, d: nat, k: nat, e: raw, c: nat)
    requires VolOK(x, end, csize) && Agree(w, x) && d in x.dirs && d in w.dirs && k < |w.dirs[d]| && w.dirs[d][k] == e
    requires Live(e) && !IsDir(e) && !IsDot(Tag(e)) && Clus(e) != 0 && Clus(e) in w.chains && c in w.chains[Clus(e)]
    ensures !(c in x.dirs && c in x.chains && c in x.chains[c])
  {
    hide DataOK, OneOwner, TreeOK, IsDot, Live, IsDir;
    EntryAt(x, end, csize, d, k);
    var h := Clus(e);
    assert x.chains[h] == w.chains[h] && h !in x.dirs;
    var i :| 0 <= i < |x.chains[h]| && x.chains[h][i] == c;
    if c in x.chains && c != h {
      assert Disjoint(x.chains[h], x.chains[c]);
    }
  }

  /** Putting a file over a directory that holds something, or leaving the directory's attribute, is no update. */
  lemma PutNeeds(v: Vol, v1: Vol, x: Vol, end: nat, csize: nat, d: nat, k: nat, e: raw,
                 got: seq<nat>, blocks: seq<seq<byte>>, eoc: nat, bytes: seq<byte>)
    requires VolOK(v, end, csize) && PlaceFor(v, d, k, Tag(e)) && Freed(v, v1, csize, OldChain(v, d, k))
    requires Live(e) && d in v1.dirs && v1.dirs[d] == v.dirs[d]
    requires Fillable(v1, end, csize, got, blocks) && Clus(e) == if got == [] then 0 else got[0]
    requires var w := Filled(v1, end, csize, d, k, e, got, blocks, eoc); x.t == w.t && Agree(w, x)
    requires VolOK(x, end, csize) && Becomes(v, x, end, csize, d, Tag(e), File(bytes))
    ensures Spare(v, d, k) && !IsDir(e)
  {
    hide VolOK, OnlyEmptyGone, IsDot, Live, IsDir, EmptyDir, SameOutside, DataOK, LookUp, Link, WriteBlocks, Lost,
      Find, Free;
    var w := Filled(v1, end, csize, d, k, e, got, blocks, eoc);
    assert x.dirs[d] == w.dirs[d] && x.dirs[d][k] == e;
    ShownDir(x, end, csize, d, k);
    if Live(v.dirs[d][k]) {
      PlaceNamed(v, d, k, Tag(e));
      NamedChain(v, end, csize, d, k);
      var c := Clus(v.dirs[d][k]);
      if c != 0 && c in v.dirs && !EmptyDir(v.dirs[c]) {
        StillThere(v, x, end, csize, c);
        HeadInside(v, end, csize, c);
        if c in got {
          ReusedNeeds(v, w, x, end, csize, d, k, e, c);
        }
        assert false;
      }
    }
  }

  lemma ShownDir(v: Vol, end: nat, csize: nat, d: nat, k: nat)
    requires VolOK(v, end, csize) && d in v.dirs && k < |v.dirs[d]| && Live(v.dirs[d][k])
    ensures LookUp(v, end, csize, d, Tag(v.dirs[d][k])).Directory? <==> IsDir(v.dirs[d][k])
    ensures LookUp(v, end, csize, d, Tag(v.dirs[d][k])).File? <==> !IsDir(v.dirs[d][k])
  {
    hide VolOK, IsDot, Live, IsDir, FileBytes;
    DirsAt(v, end, csize, d);
    TagsApart(v.dirs[d], k);
    FindAt(v.dirs[d], Tag(v.dirs[d][k]), k);
  }

  // ---- room, and what may be replaced ----

  /** No slot of the directory has the name, and none is free for it. */
  predicate Full(es: seq<raw>, g: tag) {
    Find(es, g, 0) == |es| && forall k :: 0 <= k < |es| ==> !Free(es[k])
  }

  /** How many clusters what has the name has. */
  ghost function HeldBy(v: Vol, d: nat, g: tag): nat
    requires d in v.dirs
  {
    var k := Find(v.dirs[d], g, 0);
    if k < |v.dirs[d]| && Clus(v.dirs[d][k]) in v.chains then |v.chains[Clus(v.dirs[d][k])]| else 0
  }

  lemma PlaceFinds(v: Vol, end: nat, csize: nat, d: nat, k: nat, g: tag)
    requires VolOK(v, end, csize) && PlaceFor(v, d, k, g)
    ensures Find(v.dirs[d], g, 0) == if Live(v.dirs[d][k]) then k else |v.dirs[d]|
  {
    hide VolOK, IsDot;
    DirsAt(v, end, csize, d);
    if Live(v.dirs[d][k]) {
      TagsApart(v.dirs[d], k);
      FindAt(v.dirs[d], g, k);
    }
  }

  /** Clusters run short exactly when those free and those of what is replaced are too few. */
  lemma RoomLeft(v: Vol, v1: Vol, end: nat, csize: nat, d: nat, k: nat, g: tag, n: nat)
    requires VolOK(v, end, csize) && PlaceFor(v, d, k, g) && Freed(v, v1, csize, OldChain(v, d, k))
    ensures |FirstFree(v1.t, 2, n)| < n <==> |FreeSet(v.t)| + HeldBy(v, d, g) < n
  {
    hide VolOK, FirstFree, FreeFrom, Find, Live, Free, IsDot, SameOutside, DataOK;
    FirstFreeCount(v1.t, 2, n);
    PlaceFinds(v, end, csize, d, k, g);
    HeadsInside(v, end, csize);
    if Live(v.dirs[d][k]) {
      PlaceNamed(v, d, k, g);
      NamedChain(v, end, csize, d, k);
      LaidOf(v, end, csize);
      if OldChain(v, d, k) != 0 {
        ReleaseCount(v.t, end, v.chains, OldChain(v, d, k));
      }
    }
  }

  /** What a name stands for can be replaced or removed without losing other names: no directory, or an empty one. */
  ghost predicate Replaceable(v: Vol, end: nat, csize: nat, d: nat, g: tag)
    requires VolOK(v, end, csize) && d in v.dirs
  {
    var m := LookUp(v, end, csize, d, g);
    m.Directory? ==> m.clus in v.dirs && EmptyDir(v.dirs[m.clus])
  }

  lemma SpareMeans(v: Vol, end: nat, csize: nat, d: nat, k: nat, g: tag)
    requires VolOK(v, end, csize) && PlaceFor(v, d, k, g)
    ensures Spare(v, d, k) <==> Replaceable(v, end, csize, d, g)
    ensures LookUp(v, end, csize, d, g).Directory? <==> Live(v.dirs[d][k]) && IsDir(v.dirs[d][k])
    ensures LookUp(v, end, csize, d, g) == Missing <==> !Live(v.dirs[d][k])
  {
    hide VolOK, IsDot, Live, IsDir, FileBytes, EmptyDir, Free, Find;
    PlaceFinds(v, end, csize, d, k, g);
  }
}
