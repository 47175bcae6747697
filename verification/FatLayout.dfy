/** Where the chains run and which are directories is decided by the bytes of an image alone. */
module FatLayout {
  import opened Bytes
  import opened FatEntries
  import opened Chains
  import opened Geometry
  import opened Volume
  import opened VolumeFiles
  import opened Directory
  import opened FatImage

  /** Following entries from the root finds every directory. */
  lemma {:induction false} DirFound(v: Vol, w: Vol, end: nat, csize: nat, rank: map<nat, nat>, d: nat)
    requires VolOK(v, end, csize) && VolOK(w, end, csize) && Agree(v, w) && Ranked(v, rank) && d in v.dirs
    ensures d in w.dirs
    decreases rank[d]
  {
    hide Laid, DataOK, DirOK, OneOwner, DirsOK, DotOK, Live, IsDot, IsDir;
    if d != 0 {
      assert Owned(v, d);
      var p: nat, k: nat :| Owns(v, p, k, d);
      OwnsDir(v, csize, p, k, d);
      DirFound(v, w, end, csize, rank, p);
      assert Owns(w, p, k, d);
      OwnsDir(w, csize, p, k, d);
    }
  }

  lemma ChainFound(v: Vol, w: Vol, end: nat, csize: nat, h: nat)
    requires VolOK(v, end, csize) && VolOK(w, end, csize) && Agree(v, w) && h in v.chains
    ensures h in w.chains
  {
    hide Laid, DataOK, DirOK, OneOwner, DirsOK, DotOK, Live, IsDot, IsDir;
    var rank :| Ranked(v, rank);
    assert Owned(v, h);
    var p: nat, k: nat :| Owns(v, p, k, h);
    DirFound(v, w, end, csize, rank, p);
    assert Owns(w, p, k, h);
    OwnsDir(w, csize, p, k, h);
  }

  lemma AgreeBack(v: Vol, w: Vol)
    requires Agree(v, w)
    ensures Agree(w, v)
  {
  }

  lemma SameKeys(v: Vol, w: Vol, end: nat, csize: nat)
    requires VolOK(v, end, csize) && VolOK(w, end, csize) && Agree(v, w)
    ensures w.dirs.Keys == v.dirs.Keys && w.chains == v.chains
  {
    hide VolOK, Ranked;
    AgreeBack(v, w);
    var a := RankOf(v, end, csize);
    var b := RankOf(w, end, csize);
    forall d
      ensures d in v.dirs <==> d in w.dirs
    {
      if d in v.dirs { DirFound(v, w, end, csize, a, d); }
      if d in w.dirs { DirFound(w, v, end, csize, b, d); }
    }
    forall h
      ensures h in v.chains <==> h in w.chains
    {
      if h in v.chains { ChainFound(v, w, end, csize, h); }
      if h in w.chains { ChainFound(w, v, end, csize, h); }
    }
  }

  lemma RankOf(v: Vol, end: nat, csize: nat) returns (rank: map<nat, nat>)
    requires VolOK(v, end, csize)
    ensures Ranked(v, rank)
  {
    hide Laid, DataOK, DirsOK, OneOwner, DotOK;
    rank :| Ranked(v, rank);
  }

  /** An image holds one volume: its layout is determined. */
  lemma LayoutUnique(g: Geometry, s: seq<byte>, L: Layout, M: Layout)
    requires ImageOK(g, s, L) && ImageOK(g, s, M)
    ensures L == M
  {
    hide ImageOK, ImageVol, VolOK, Agree, Bpb.End, Bpb.ClusterSize;
    Whole(g, s, L);
    Whole(g, s, M);
    VolumeShows(g, s, L);
    VolumeShows(g, s, M);
    ShownAgree(g, s, L, ImageVol(g, s, L), M, ImageVol(g, s, M));
    SameKeys(ImageVol(g, s, L), ImageVol(g, s, M), g.End(), g.ClusterSize());
  }
}
