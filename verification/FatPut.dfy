/** Rewriting a file over its own clusters (tools/fatput.py). */
module FatPut {
  import opened Arith
  import opened Bytes
  import opened FatEntries
  import opened Chains
  import opened Geometry
  import opened Volume
  import opened VolumeFiles
  import opened Directory
  import opened FatImage
  import opened FatVolume
  import opened FatCopy
  import opened FatRead
  import opened FatTool

  // ---- new bytes over a chain ----

  function Min(a: nat, b: nat): nat { if a < b then a else b }

  /** The chain's clusters with `bytes` written over their start; the rest of the last one stays. */
  function Overlay(data: seq<seq<byte>>, s: seq<nat>, bytes: seq<byte>): (r: seq<seq<byte>>)
    requires forall i :: 0 <= i < |s| ==> 2 <= s[i] < |data| + 2
    ensures |r| == |data| && forall c :: 0 <= c < |data| ==> |r[c]| == |data[c]|
    ensures forall c :: 0 <= c < |data| && c + 2 !in s ==> r[c] == data[c]
    decreases |s|
  {
    if s == [] then data
    else
      var n := Min(|bytes|, |data[s[0] - 2]|);
      assert forall i :: 0 <= i < |s[1..]| ==> s[1..][i] == s[i + 1];
      Overlay(data[s[0] - 2 := Splice(data[s[0] - 2], 0, bytes[..n])], s[1..], bytes[n..])
  }

  lemma {:induction false} OverlayBytes(data: seq<seq<byte>>, s: seq<nat>, bytes: seq<byte>)
    requires Inside(s, |data|) && NoRepeat(s) && |bytes| <= |ChainBytes(data, s)|
    ensures ChainBytes(Overlay(data, s, bytes), s) == bytes + ChainBytes(data, s)[|bytes|..]
    decreases |s|
  {
    hide Splice;
    if s != [] {
      var n, rest := Min(|bytes|, |data[s[0] - 2]|), s[1..];
      var head := Splice(data[s[0] - 2], 0, bytes[..n]);
      var next := data[s[0] - 2 := head];
      assert forall i :: 0 <= i < |rest| ==> rest[i] == s[i + 1];
      ChainBytesSame(data, next, rest);
      OverlayBytes(next, rest, bytes[n..]);
      assert s[0] !in rest;
      assert Overlay(next, rest, bytes[n..])[s[0] - 2] == head;
      Halves(data[s[0] - 2], ChainBytes(data, rest), bytes, n);
    }
  }

  lemma Halves(a: seq<byte>, b: seq<byte>, bytes: seq<byte>, n: nat)
    requires n == Min(|bytes|, |a|) && |bytes| <= |a| + |b|
    ensures |bytes[n..]| <= |b|
    ensures Splice(a, 0, bytes[..n]) + (bytes[n..] + b[|bytes[n..]|..]) == bytes + (a + b)[|bytes|..]
  {
    if n < |bytes| {
      assert Splice(a, 0, bytes[..n]) == bytes[..n];
    } else {
      assert Splice(a, 0, bytes[..n]) == bytes + a[n..];
    }
  }

  lemma {:induction false} MaskOverlay(data: seq<seq<byte>>, csize: nat, L: Layout, s: seq<nat>, bytes: seq<byte>)
    requires Inside(s, |data|) && Sized(data, csize) && forall i :: 0 <= i < |s| ==> s[i] !in DirClusters(L)
    ensures Masked(Overlay(data, s, bytes), csize, L) == Overlay(Masked(data, csize, L), s, bytes)
    decreases |s|
  {
    hide DirClusters, Splice;
    if s != [] {
      var n, rest := Min(|bytes|, csize), s[1..];
      var next := data[s[0] - 2 := Splice(data[s[0] - 2], 0, bytes[..n])];
      assert forall i :: 0 <= i < |rest| ==> rest[i] == s[i + 1];
      assert Masked(next, csize, L) == Masked(data, csize, L)[s[0] - 2 := next[s[0] - 2]];
      MaskOverlay(next, csize, L, rest, bytes[n..]);
    }
  }

  // ---- the volume ----

  /** The entry with another size. */
  function Resized(e: raw, size: nat): (r: raw)
    requires size < 0x1_0000_0000
    ensures Tag(r) == Tag(e) && r[11] == e[11] && Clus(r) == Clus(e) && Size(r) == size && r[0] == e[0]
  {
    var r := Splice(e, 28, LE32(size));
    assert forall i :: 0 <= i < 4 ==> r[28 + i] == LE32(size)[i];
    r
  }

  /** The file in slot `k` with other bytes in its clusters and their number as its size. */
  ghost function Rewritten(v: Vol, d: nat, k: nat, bytes: seq<byte>): Vol
    requires d in v.dirs && k < |v.dirs[d]| && |bytes| < 0x1_0000_0000
    requires ChainInside(v, Clus(v.dirs[d][k]))
  {
    WithEntry(v.(data := Overlay(v.data, v.chains[Clus(v.dirs[d][k])], bytes)), d, k, Resized(v.dirs[d][k], |bytes|))
  }

  lemma RewrittenKeeps(v: Vol, end: nat, csize: nat, d: nat, k: nat, bytes: seq<byte>)
    requires VolOK(v, end, csize) && FileAt(v, d, k) && |bytes| < 0x1_0000_0000
    requires ChainInside(v, Clus(v.dirs[d][k])) && Clus(v.dirs[d][k]) != 0
    requires |bytes| <= |v.chains[Clus(v.dirs[d][k])]| * csize
    ensures VolOK(Rewritten(v, d, k, bytes), end, csize)
  {
    hide Laid, Overlay, TreeOK, OneOwner;
    var w, es := Rewritten(v, d, k, bytes), v.dirs[d];
    var e := Resized(es[k], |bytes|);
    BeforeLive(es, k);
    TagsApart(es, k);
    SlotsKept(es, k, e);
    FileChain(v, end, csize, d, k);
    forall b | b in w.dirs
      ensures DirOK(w, csize, w.dirs[b])
    {
      forall j | 0 <= j < |w.dirs[b]| && Live(w.dirs[b][j])
        ensures EntryOK(w, csize, w.dirs[b][j])
      {
        if b != d || j != k {
          assert EntryOK(v, csize, v.dirs[b][j]);
        }
      }
    }
    RewrittenTree(v, end, csize, d, k, bytes);
  }

  lemma RewrittenTree(v: Vol, end: nat, csize: nat, d: nat, k: nat, bytes: seq<byte>)
    requires VolOK(v, end, csize) && FileAt(v, d, k) && |bytes| < 0x1_0000_0000
    requires ChainInside(v, Clus(v.dirs[d][k])) && DirsOK(Rewritten(v, d, k, bytes), csize)
    ensures TreeOK(Rewritten(v, d, k, bytes)) && OneOwner(Rewritten(v, d, k, bytes))
  {
    hide TreeOK, DirsOK, Laid, Overlay, IsDot;
    var w, e := Rewritten(v, d, k, bytes), Resized(v.dirs[d][k], |bytes|);
    forall b, j, c
      ensures Owns(w, b, j, c) <==> Owns(v, b, j, c)
    {
    }
    OneSlotTree(v, w, end, csize, d, k, e);
  }

  lemma RewrittenOthers(v: Vol, end: nat, csize: nat, d: nat, k: nat, bytes: seq<byte>, b: nat, j: nat)
    requires VolOK(v, end, csize) && FileAt(v, d, k) && |bytes| < 0x1_0000_0000
    requires ChainInside(v, Clus(v.dirs[d][k])) && Clus(v.dirs[d][k]) != 0
    requires FileAt(v, b, j) && (b != d || j != k)
    ensures SameBytes(v, Rewritten(v, d, k, bytes), Clus(v.dirs[b][j]))
  {
    hide Overlay, DirOK, Chains.Chain;
    FileChain(v, end, csize, b, j);
    if Clus(v.dirs[b][j]) != 0 {
      FileChain(v, end, csize, d, k);
      OtherSlot(v, end, csize, d, k, b, j);
    }
  }

  lemma ChainApartOf(v: Vol, end: nat, csize: nat, c: nat)
    requires VolOK(v, end, csize) && c in v.chains
    ensures NoRepeat(v.chains[c]) && Inside(v.chains[c], |v.data|)
    ensures |ChainBytes(v.data, v.chains[c])| == |v.chains[c]| * csize
  {
    hide DirOK, Owns;
    ChainIsInside(v, end, csize, c);
    forall i, j | 0 <= i < j < |v.chains[c]|
      ensures v.chains[c][i] != v.chains[c][j]
    {
      ChainDistinct(v.t, end, c, v.chains[c], i, j);
    }
    ChainLength(v.data, csize, v.chains[c]);
  }

  lemma {:induction false} ChainLength(data: seq<seq<byte>>, csize: nat, s: seq<nat>)
    requires Inside(s, |data|) && Sized(data, csize)
    ensures |ChainBytes(data, s)| == |s| * csize
    decreases |s|
  {
    if s != [] {
      assert forall i :: 0 <= i < |s[1..]| ==> s[1..][i] == s[i + 1];
      ChainLength(data, csize, s[1..]);
      MulSucc(|s| - 1, csize);
    }
  }

  /** Rewriting a file in place changes what its name holds, to the new bytes, and no other name. */
  lemma RewrittenUpdates(v: Vol, end: nat, csize: nat, d: nat, k: nat, bytes: seq<byte>)
    requires VolOK(v, end, csize) && FileAt(v, d, k) && |bytes| < 0x1_0000_0000
    requires ChainInside(v, Clus(v.dirs[d][k])) && Clus(v.dirs[d][k]) != 0
    requires |bytes| <= |v.chains[Clus(v.dirs[d][k])]| * csize
    requires VolOK(Rewritten(v, d, k, bytes), end, csize)
    ensures Updates(v, Rewritten(v, d, k, bytes), end, csize, d, Tag(v.dirs[d][k]), File(bytes))
  {
    hide Laid, Overlay, DirOK, Owns, ChainBytes, EntryOK, DataOK;
    var w, es, c := Rewritten(v, d, k, bytes), v.dirs[d], Clus(v.dirs[d][k]);
    var e := Resized(es[k], |bytes|);
    ChainApartOf(v, end, csize, c);
    ChainApartOf(w, end, csize, c);
    OverlayBytes(v.data, v.chains[c], bytes);
    SlotTags(v, end, csize, d, k);
    FindAt(w.dirs[d], Tag(e), k);
    assert FileBytes(w, e) == bytes;
    forall b, j | b in v.dirs && 0 <= j < |v.dirs[b]| && (b != d || j != k)
      ensures Live(v.dirs[b][j]) && !IsDir(v.dirs[b][j]) ==> SameBytes(v, w, Clus(v.dirs[b][j]))
    {
      if Live(v.dirs[b][j]) && !IsDir(v.dirs[b][j]) {
        RewrittenOthers(v, end, csize, d, k, bytes, b, j);
      }
    }
    OneNameChanges(v, w, end, csize, d, k, e, File(bytes));
  }

  lemma SlotTags(v: Vol, end: nat, csize: nat, d: nat, k: nat)
    requires VolOK(v, end, csize) && d in v.dirs && k < |v.dirs[d]| && Live(v.dirs[d][k])
    ensures forall j :: 0 <= j < |v.dirs[d]| && j != k && Live(v.dirs[d][j]) ==> Tag(v.dirs[d][j]) != Tag(v.dirs[d][k])
  {
    TagsApart(v.dirs[d], k);
  }

  // ---- extents ----

  /** Offset and length of the stretches that the first `size` bytes of a chain take. */
  function ExtentsOf(g: Geometry, s: seq<nat>, size: nat): seq<(nat, nat)>
    requires forall i :: 0 <= i < |s| ==> s[i] >= 2
    decreases |s|
  {
    if s == [] || size == 0 then []
    else
      assert forall i :: 0 <= i < |s[1..]| ==> s[1..][i] == s[i + 1];
      var n := Min(size, g.ClusterSize());
      [(g.ClusterOffset(s[0]), n)] + ExtentsOf(g, s[1..], size - n)
  }

  lemma ExtentsStep(g: Geometry, s: seq<nat>, i: nat, left: nat)
    requires i < |s| && Inside(s, g.Clusters())
    ensures Inside(s[i..], g.Clusters()) && Inside(s[i + 1..], g.Clusters())
    ensures ExtentsOf(g, s[i..], left) ==
      if left == 0 then []
      else
        [(g.ClusterOffset(s[i]), Min(left, g.ClusterSize()))] +
        ExtentsOf(g, s[i + 1..], left - Min(left, g.ClusterSize()))
  {
    hide Bpb.ClusterOffset, Bpb.ClusterSize, Bpb.Clusters;
    InsideFrom(s, i, g.Clusters());
    InsideTail(s, i, g.Clusters());
  }

  lemma InsideFrom(s: seq<nat>, i: nat, n: nat)
    requires i <= |s| && Inside(s, n)
    ensures Inside(s[i..], n)
  {
    var rest := s[i..];
    assert forall j :: 0 <= j < |rest| ==> rest[j] == s[i + j];
  }

  lemma InsideTail(s: seq<nat>, j: nat, n: nat)
    requires j < |s| && Inside(s[j..], n)
    ensures 2 <= s[j] < n + 2 && Inside(s[j + 1..], n)
    ensures s[j..] != [] && s[j..][0] == s[j] && s[j..][1..] == s[j + 1..]
  {
    var all, rest := s[j..], s[j + 1..];
    assert all[0] == s[j];
    forall i | 0 <= i < |rest|
      ensures 2 <= rest[i] < n + 2
    {
      assert rest[i] == all[i + 1];
    }
  }

  /** `extents`; the chain is long enough, so it never refuses. */
  method Extents(g: Geometry, chain: seq<nat>, size: nat) returns (ex: seq<(nat, nat)>)
    requires Inside(chain, g.Clusters())
    ensures ex == ExtentsOf(g, chain, size)
  {
    hide Bpb.ClusterOffset, Bpb.ClusterSize, Bpb.Clusters, ExtentsOf, Inside;
    ex := [];
    var left := size;
    NoExtents(g, 0);
    Everything(chain, g.Clusters());
    var i := 0;
    while i < |chain| && left > 0
      invariant 0 <= i <= |chain| && Inside(chain[i..], g.Clusters())
      invariant ex + ExtentsOf(g, chain[i..], left) == ExtentsOf(g, chain, size)
    {
      ExtentsStep(g, chain, i, left);
      ClusterAtLeast(chain, i, g.Clusters());
      var n := Min(left, g.ClusterSize());
      ex := ex + [(g.ClusterOffset(chain[i]), n)];
      left := left - n;
      i := i + 1;
    }
    if i < |chain| { ExtentsStep(g, chain, i, left); } else { NoExtents(g, left); assert chain[i..] == []; }
    assert ex + [] == ex;
  }

  lemma Everything(s: seq<nat>, n: nat)
    requires Inside(s, n)
    ensures s[0..] == s && Inside(s[0..], n) && forall i :: 0 <= i < |s| ==> s[i] >= 2
  {
    InsideFrom(s, 0, n);
  }

  lemma ClusterAtLeast(s: seq<nat>, i: nat, n: nat)
    requires i < |s| && Inside(s, n)
    ensures 2 <= s[i] < n + 2
  {
  }

  lemma NoExtents(g: Geometry, left: nat)
    ensures ExtentsOf(g, [], left) == [] && Inside([], g.Clusters())
  {
  }

  /** What is left to write from cluster `i` on completes `w` to `v` with all bytes written. */
  ghost predicate Overlaying(g: Geometry, v: View, w: View, s: seq<nat>, i: nat, bytes: seq<byte>, pos: nat)
    requires i <= |s| && pos <= |bytes| && Inside(s[i..], |v.data|) && Inside(s, |v.data|)
  {
    && w.boot == v.boot && w.fats == v.fats && w.root == v.root && |w.data| == |v.data|
    && Sized(w.data, g.ClusterSize())
    && Overlay(w.data, s[i..], bytes[pos..]) == Overlay(v.data, s, bytes)
  }

  lemma OverlayStep(g: Geometry, v: View, w: View, s: seq<nat>, i: nat, bytes: seq<byte>, pos: nat)
    requires i < |s| && pos <= |bytes| && Inside(s[i..], |v.data|) && Inside(s, |v.data|)
      && Inside(s[i + 1..], |v.data|)
    requires Overlaying(g, v, w, s, i, bytes, pos)
    ensures var n := Min(|bytes| - pos, g.ClusterSize()); var c := s[i] - 2;
      && 0 <= c < |w.data| && |w.data[c]| == g.ClusterSize()
      && Overlaying(g, v, w.(data := w.data[c := Splice(w.data[c], 0, bytes[pos..pos + n])]), s, i + 1, bytes, pos + n)
  {
    hide Splice, Bpb.ClusterSize;
    ClusterAtLeast(s, i, |v.data|);
    var n := Min(|bytes| - pos, g.ClusterSize());
    assert s[i..][0] == s[i] && s[i..][1..] == s[i + 1..];
    assert bytes[pos..][..n] == bytes[pos..pos + n] && bytes[pos..][n..] == bytes[pos + n..];
  }

  lemma {:induction false} OverlayNone(data: seq<seq<byte>>, s: seq<nat>)
    requires forall i :: 0 <= i < |s| ==> 2 <= s[i] < |data| + 2
    ensures Overlay(data, s, []) == data
    decreases |s|
  {
    hide Splice;
    if s != [] {
      var rest := s[1..];
      assert forall i :: 0 <= i < |rest| ==> rest[i] == s[i + 1];
      SpliceNone(data[s[0] - 2]);
      OverlayEmpty(data, s);
      OverlayNone(data, rest);
    }
  }

  lemma SpliceNone(b: seq<byte>)
    ensures Splice(b, 0, []) == b
  {
  }

  lemma OverlayEmpty(data: seq<seq<byte>>, s: seq<nat>)
    requires s != [] && forall i :: 0 <= i < |s| ==> 2 <= s[i] < |data| + 2
    requires Splice(data[s[0] - 2], 0, []) == data[s[0] - 2]
    ensures (forall i :: 0 <= i < |s[1..]| ==> 2 <= s[1..][i] < |data| + 2)
      && Overlay(data, s, []) == Overlay(data, s[1..], [])
  {
    hide Splice;
    var rest: seq<byte> := [];
    assert rest[..0] == [] && rest[0..] == [];
    assert data[s[0] - 2 := data[s[0] - 2]] == data;
    assert forall i :: 0 <= i < |s[1..]| ==> s[1..][i] == s[i + 1];
  }

  lemma ViewShape(fs: FatRW)
    requires fs.Ready()
    ensures fs.g.Sane(|fs.img[..]|) && |ViewOf(fs.g, fs.img[..]).data| == fs.g.Clusters()
    ensures Sized(ViewOf(fs.g, fs.img[..]).data, fs.g.ClusterSize())
  {
    hide Bpb.Sane;
    SaneView(fs);
    ViewSized(fs.g, fs.img[..]);
  }

  lemma ViewSized(g: Geometry, s: seq<byte>)
    requires g.Sane(|s|)
    ensures |ViewOf(g, s).data| == g.Clusters() && Sized(ViewOf(g, s).data, g.ClusterSize())
  {
    hide Bpb.Sane, Bpb.ClusterSize, Bpb.Clusters, Bpb.DataStart, At, Pieces;
    PartsInOrder(g, |s|);
    forall c | 0 <= c < g.Clusters()
      ensures |ViewOf(g, s).data[c]| == g.ClusterSize()
    {
      PieceAt(s, g.DataStart(), g.Clusters(), g.ClusterSize(), c);
    }
  }

  lemma OverlayStarts(g: Geometry, v: View, s: seq<nat>, bytes: seq<byte>)
    requires Inside(s, |v.data|) && Sized(v.data, g.ClusterSize())
    ensures Inside(s[0..], |v.data|) && Overlaying(g, v, v, s, 0, bytes, 0)
  {
    Everything(s, |v.data|);
    assert bytes[0..] == bytes;
  }

  lemma OverlayEnds(g: Geometry, v: View, w: View, s: seq<nat>, i: nat, bytes: seq<byte>, pos: nat)
    requires i <= |s| && pos <= |bytes| && Inside(s[i..], |v.data|) && Inside(s, |v.data|)
    requires Overlaying(g, v, w, s, i, bytes, pos) && ExtentsOf(g, s[i..], |bytes| - pos) == []
    ensures w == v.(data := Overlay(v.data, s, bytes))
  {
    if s[i..] == [] {
    } else {
      assert bytes[pos..] == [];
      OverlayNone(w.data, s[i..]);
    }
  }

  lemma ExtentsNext(g: Geometry, ex: seq<(nat, nat)>, s: seq<nat>, i: nat, left: nat)
    requires i < |ex| && i <= |s| && Inside(s, g.Clusters()) && Inside(s[i..], g.Clusters())
    requires ex[i..] == ExtentsOf(g, s[i..], left)
    ensures i < |s| && left > 0 && Inside(s[i + 1..], g.Clusters()) && 2 <= s[i]
    ensures ex[i] == (g.ClusterOffset(s[i]), Min(left, g.ClusterSize()))
    ensures ex[i + 1..] == ExtentsOf(g, s[i + 1..], left - Min(left, g.ClusterSize()))
  {
    hide Bpb.ClusterOffset, Bpb.ClusterSize, Bpb.Clusters;
    assert ex[i..] != [] && ex[i..][0] == ex[i] && ex[i..][1..] == ex[i + 1..];
    assert s[i..] != [];
    ExtentsStep(g, s, i, left);
    ClusterAtLeast(s, i, g.Clusters());
  }

  /** Writing the extents one after the other. */
  method WriteExtents(fs: FatRW, ex: seq<(nat, nat)>, bytes: seq<byte>, ghost s: seq<nat>)
    requires fs.Ready() && Inside(s, fs.g.Clusters()) && ex == ExtentsOf(fs.g, s, |bytes|)
    requires |bytes| <= |s| * fs.g.ClusterSize() && fs.g.ClusterSize() > 0
    modifies fs.img
    ensures fs.Ready() && fs.fat[..] == old(fs.fat[..])
    ensures var v := ViewOf(fs.g, old(fs.img[..]));
      |v.data| == fs.g.Clusters() && ViewOf(fs.g, fs.img[..]) == v.(data := Overlay(v.data, s, bytes))
  {
    hide ViewOf, Holds, ExtentsOf, Inside, Overlay, Overlaying, FatRW.Ready, Bpb.Sane, Bpb.FatStart, Bpb.FatBytes,
      Bpb.RootStart, Bpb.DataStart, Bpb.ClusterLimit, Bpb.Clusters, Bpb.ClusterSize, Bpb.Fat12, Bpb.ClusterOffset,
      Splice;
    ViewShape(fs);
    ghost var v := ViewOf(fs.g, fs.img[..]);
    Everything(s, fs.g.Clusters());
    var pos: nat := 0;
    OverlayStarts(fs.g, v, s, bytes);
    for i := 0 to |ex|
      invariant fs.Ready() && fs.fat[..] == old(fs.fat[..]) && fs.g.Sane(|fs.img[..]|)
      invariant i <= |s| && pos <= |bytes| && Inside(s[i..], fs.g.Clusters())
      invariant ex[i..] == ExtentsOf(fs.g, s[i..], |bytes| - pos)
      invariant Overlaying(fs.g, v, ViewOf(fs.g, fs.img[..]), s, i, bytes, pos)
    {
      ghost var w := ViewOf(fs.g, fs.img[..]);
      ExtentsNext(fs.g, ex, s, i, |bytes| - pos);
      ExtentsStep(fs.g, s, i, |bytes| - pos);
      OverlayStep(fs.g, v, w, s, i, bytes, pos);
      ClusterAtLeast(s, i, fs.g.Clusters());
      var n := ex[i].1;
      WriteCluster(fs.g, fs.img[..], s[i], 0, bytes[pos..pos + n]);
      fs.WriteAt(ex[i].0, bytes[pos..pos + n]);
      pos := pos + n;
    }
    OverlayEnds(fs.g, v, ViewOf(fs.g, fs.img[..]), s, |ex|, bytes, pos);
  }
}
