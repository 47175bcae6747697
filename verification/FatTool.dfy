/** `main` of tools/fatcp.py from path to readback. */
module FatTool {
  import opened Bytes
  import opened Chains
  import opened Geometry
  import opened Volume
  import opened VolumeFiles
  import opened Directory
  import opened FatImage
  import opened FatVolume
  import opened FatCopy
  import opened FatRead
  import opened Wrappers

  /** How names compare: `up` is the upper-cased text of a name. */
  type Upper = seq<byte> -> seq<char>

  predicate Named(up: Upper, e: raw, part: seq<byte>) {
    up(NameOf(Tag(e))) == up(part)
  }

  /** Slot of the first entry in use with the name from `i` on, directories only if `dirs`. */
  function Hit(up: Upper, es: seq<raw>, part: seq<byte>, dirs: bool, i: nat): (k: nat)
    requires i <= |es|
    ensures i <= k <= |es|
    ensures k < |es| ==> Live(es[k]) && Named(up, es[k], part) && (dirs ==> IsDir(es[k]))
    ensures forall j :: i <= j < k ==> !(Live(es[j]) && Named(up, es[j], part) && (dirs ==> IsDir(es[j])))
    decreases |es| - i
  {
    if i == |es| || (Live(es[i]) && Named(up, es[i], part) && (dirs ==> IsDir(es[i]))) then i
    else Hit(up, es, part, dirs, i + 1)
  }

  /** The first entry of a listing with the name. */
  method FirstNamed(up: Upper, list: seq<raw>, part: seq<byte>, dirs: bool, ghost es: seq<raw>) returns (r: Option<raw>)
    requires list == Lives(es)
    ensures var k := Hit(up, es, part, dirs, 0); r == if k < |es| then Some(es[k]) else None
  {
    hide Named, Live, Lives, Hit;
    r := None;
    ghost var p := 0;
    var i := 0;
    assert list[0..] == list && es[0..] == es;
    while i < |list|
      invariant i <= |list| && p <= |es|
      invariant list[i..] == Lives(es[p..]) && Hit(up, es, part, dirs, 0) == Hit(up, es, part, dirs, p)
    {
      p := SkipDead(up, es, part, dirs, p, list[i..]);
      if Named(up, list[i], part) && (dirs ==> IsDir(list[i])) {
        HitHere(up, es, part, dirs, p);
        return Some(list[i]);
      }
      HitNext(up, es, part, dirs, p);
      assert list[i..][1..] == list[i + 1..];
      i := i + 1;
      p := p + 1;
    }
    NoHit(up, es, part, dirs, p);
  }

  lemma HitHere(up: Upper, es: seq<raw>, part: seq<byte>, dirs: bool, p: nat)
    requires p < |es| && Live(es[p]) && Named(up, es[p], part) && (dirs ==> IsDir(es[p]))
    ensures Hit(up, es, part, dirs, p) == p
  {
  }

  lemma HitNext(up: Upper, es: seq<raw>, part: seq<byte>, dirs: bool, p: nat)
    requires p < |es| && !(Live(es[p]) && Named(up, es[p], part) && (dirs ==> IsDir(es[p])))
    ensures Hit(up, es, part, dirs, p) == Hit(up, es, part, dirs, p + 1)
  {
  }

  lemma {:induction false} SkipDead(up: Upper, es: seq<raw>, part: seq<byte>, dirs: bool, p: nat, rest: seq<raw>)
    returns (q: nat)
    requires p <= |es| && rest == Lives(es[p..]) && rest != []
    ensures p <= q < |es| && Live(es[q]) && rest[0] == es[q] && rest[1..] == Lives(es[q + 1..])
    ensures Hit(up, es, part, dirs, q) == Hit(up, es, part, dirs, p)
    decreases |es| - p
  {
    hide Named, Live, Hit;
    q := p;
    assert es[p..][1..] == es[p + 1..];
    if !Live(es[p]) {
      HitNext(up, es, part, dirs, p);
      q := SkipDead(up, es, part, dirs, p + 1, rest);
    }
  }

  lemma {:induction false} NoHit(up: Upper, es: seq<raw>, part: seq<byte>, dirs: bool, p: nat)
    requires p <= |es| && Lives(es[p..]) == []
    ensures Hit(up, es, part, dirs, p) == |es|
    decreases |es| - p
  {
    hide Named, Live;
    if p < |es| {
      assert es[p..][1..] == es[p + 1..];
      NoHit(up, es, part, dirs, p + 1);
    }
  }

  // ---- paths ----

  /** The directory that `parts` lead to from `d`. */
  function Walk(up: Upper, v: Vol, d: nat, parts: seq<seq<byte>>): (r: Option<nat>)
    requires d in v.dirs
    ensures r.Some? ==> r.value in v.dirs
    decreases |parts|
  {
    if parts == [] then Some(d)
    else
      var k := Hit(up, v.dirs[d], parts[0], true, 0);
      if k == |v.dirs[d]| || Clus(v.dirs[d][k]) !in v.dirs then None
      else Walk(up, v, Clus(v.dirs[d][k]), parts[1..])
  }

  /** No file has the name of a directory on the way: `resolve` takes the first entry of a name, whatever it is. */
  predicate OnlyDirs(up: Upper, v: Vol, d: nat, parts: seq<seq<byte>>)
    requires d in v.dirs
    decreases |parts|
  {
    parts == [] ||
    (var k := Hit(up, v.dirs[d], parts[0], true, 0);
     k == Hit(up, v.dirs[d], parts[0], false, 0) &&
     (k == |v.dirs[d]| || Clus(v.dirs[d][k]) !in v.dirs || OnlyDirs(up, v, Clus(v.dirs[d][k]), parts[1..])))
  }

  lemma DirLeads(v: Vol, end: nat, csize: nat, d: nat, k: nat)
    requires VolOK(v, end, csize) && d in v.dirs && k < |v.dirs[d]| && Live(v.dirs[d][k]) && IsDir(v.dirs[d][k])
    ensures Clus(v.dirs[d][k]) in v.dirs
  {
    assert EntryOK(v, csize, v.dirs[d][k]);
  }

  /** `resolve_dir`; `None` is its "no such directory". */
  method ResolveDir(fs: FatRW, up: Upper, parts: seq<seq<byte>>, ghost L: Layout) returns (r: Option<nat>)
    requires Reading(fs, L)
    ensures 0 in L.dirs && ImageVol(fs.g, fs.img[..], L).dirs.Keys == L.dirs
    ensures r == Walk(up, ImageVol(fs.g, fs.img[..], L), 0, parts)
  {
    hide ImageOK, ImageVol, VolOK, Hit, Lives, IsDir, FatRW.Ready;
    ghost var v := ImageVol(fs.g, fs.img[..], L);
    Rooted(fs.g, fs.img[..], L);
    var clus := 0;
    assert parts[0..] == parts;
    for i := 0 to |parts|
      invariant clus in L.dirs && Walk(up, v, clus, parts[i..]) == Walk(up, v, 0, parts)
    {
      var list := ListDir(fs, clus, L);
      var hit := FirstNamed(up, list, parts[i], true, v.dirs[clus]);
      assert parts[i..][0] == parts[i] && parts[i..][1..] == parts[i + 1..];
      if hit.None? {
        return None;
      }
      DirLeads(v, fs.g.End(), fs.g.ClusterSize(), clus, Hit(up, v.dirs[clus], parts[i], true, 0));
      clus := Clus(hit.value);
    }
    assert parts[|parts|..] == [];
    return Some(clus);
  }

  lemma Rooted(g: Geometry, s: seq<byte>, L: Layout)
    requires ImageOK(g, s, L)
    ensures 0 in L.dirs && ImageVol(g, s, L).dirs.Keys == L.dirs
    ensures VolOK(ImageVol(g, s, L), g.End(), g.ClusterSize())
  {
    hide ViewOf, Open, Laid, DirOK, DirOf, Entries, Masked, Owns, Bpb.Sane, DataOK;
  }

  /** The way of `resolve` to the directory of the last name, if the inner names are directories'. */
  method ResolveInner(fs: FatRW, up: Upper, parts: seq<seq<byte>>, ghost L: Layout) returns (r: Option<nat>)
    requires Reading(fs, L) && 0 in ImageVol(fs.g, fs.img[..], L).dirs
    requires OnlyDirs(up, ImageVol(fs.g, fs.img[..], L), 0, parts)
    ensures ImageVol(fs.g, fs.img[..], L).dirs.Keys == L.dirs
    ensures r == Walk(up, ImageVol(fs.g, fs.img[..], L), 0, parts)
  {
    hide ImageOK, ImageVol, VolOK, Hit, Lives, IsDir, FatRW.Ready;
    ghost var v := ImageVol(fs.g, fs.img[..], L);
    Rooted(fs.g, fs.img[..], L);
    var clus := 0;
    assert parts[0..] == parts;
    for i := 0 to |parts|
      invariant clus in L.dirs && Walk(up, v, clus, parts[i..]) == Walk(up, v, 0, parts)
        && OnlyDirs(up, v, clus, parts[i..])
    {
      var list := ListDir(fs, clus, L);
      var hit := FirstNamed(up, list, parts[i], false, v.dirs[clus]);
      assert parts[i..][0] == parts[i] && parts[i..][1..] == parts[i + 1..];
      if hit.None? {
        return None;
      }
      DirLeads(v, fs.g.End(), fs.g.ClusterSize(), clus, Hit(up, v.dirs[clus], parts[i], true, 0));
      clus := Clus(hit.value);
    }
    assert parts[|parts|..] == [];
    return Some(clus);
  }

  // ---- the reader's way ----

  datatype Reached = Nothing | Entry(e: raw) | Beyond

  /** The first entry of a listing with the name. */
  function First(up: Upper, list: seq<raw>, part: seq<byte>): Option<raw> {
    if list == [] then None else if Named(up, list[0], part) then Some(list[0]) else First(up, list[1..], part)
  }

  /** `resolve`: the first entry of each name, a directory's or not; `Beyond` where that leads to no listing. */
  ghost function ResolveOf(up: Upper, k: Disk, c: nat, path: seq<seq<byte>>): Reached
    requires |k.t| == |k.data| + 2 && path != []
    decreases |path|
  {
    var list := Listing(k, c);
    if list.None? then Beyond
    else
      var e := First(up, list.value, path[0]);
      if e.None? then Nothing
      else if |path| == 1 then Entry(e.value)
      else ResolveOf(up, k, Clus(e.value), path[1..])
  }

  method FirstShown(up: Upper, list: seq<raw>, part: seq<byte>) returns (r: Option<raw>)
    ensures r == First(up, list, part)
  {
    hide Named, First;
    assert list[0..] == list;
    for i := 0 to |list|
      invariant First(up, list, part) == First(up, list[i..], part)
    {
      FirstStep(up, list, part, i);
      if Named(up, list[i], part) {
        return Some(list[i]);
      }
    }
    FirstNone(up, part);
    assert list[|list|..] == [];
    return None;
  }

  lemma FirstStep(up: Upper, list: seq<raw>, part: seq<byte>, i: nat)
    requires i < |list|
    ensures First(up, list[i..], part) == if Named(up, list[i], part) then Some(list[i])
      else First(up, list[i + 1..], part)
  {
    assert list[i..][1..] == list[i + 1..];
  }

  lemma FirstNone(up: Upper, part: seq<byte>)
    ensures First(up, [], part) == None
  {
  }

  /** `resolve` on any image. */
  method Resolve(fs: FatRW, up: Upper, path: seq<seq<byte>>) returns (r: Reached)
    requires Loaded(fs) && path != []
    ensures fs.g.Sane(|fs.img[..]|) && r == ResolveOf(up, DiskOf(fs.g, fs.img[..]), 0, path)
  {
    hide ViewOf, Listing, DiskOf, First, FatRW.Ready, Bpb.Sane, Loaded, ResolveOf, Clus;
    LoadedDisk(fs);
    ghost var k := DiskOf(fs.g, fs.img[..]);
    var clus: nat := 0;
    r := Nothing;
    assert path[0..] == path;
    for i := 0 to |path|
      invariant i < |path| ==> ResolveOf(up, k, clus, path[i..]) == ResolveOf(up, k, 0, path)
      invariant i == |path| ==> r == ResolveOf(up, k, 0, path)
    {
      ResolveStep(up, k, clus, path, i);
      var list := List(fs, clus);
      if list.None? {
        return Beyond;
      }
      var e := FirstShown(up, list.value, path[i]);
      if e.None? {
        return Nothing;
      }
      r, clus := Entry(e.value), Clus(e.value);
    }
  }

  lemma ResolveStep(up: Upper, k: Disk, c: nat, path: seq<seq<byte>>, i: nat)
    requires |k.t| == |k.data| + 2 && i < |path|
    ensures Listing(k, c).None? ==> ResolveOf(up, k, c, path[i..]) == Beyond
    ensures Listing(k, c).Some? ==>
      var e := First(up, Listing(k, c).value, path[i]);
      && (e.None? ==> ResolveOf(up, k, c, path[i..]) == Nothing)
      && (e.Some? && i + 1 == |path| ==> ResolveOf(up, k, c, path[i..]) == Entry(e.value))
      && (e.Some? && i + 1 < |path| ==>
        ResolveOf(up, k, c, path[i..]) == ResolveOf(up, k, Clus(e.value), path[i + 1..]))
  {
    hide Listing, First, Clus;
    assert path[i..][0] == path[i] && path[i..][1..] == path[i + 1..];
  }

  lemma {:induction false} FirstIsHit(up: Upper, es: seq<raw>, part: seq<byte>, i: nat)
    requires i <= |es|
    ensures var k := Hit(up, es, part, false, i);
      First(up, Lives(es[i..]), part) == if k < |es| then Some(es[k]) else None
    decreases |es| - i
  {
    hide Named, Live;
    if i < |es| {
      assert es[i..][1..] == es[i + 1..];
      FirstIsHit(up, es, part, i + 1);
    }
  }

  /** What the path means on a volume, if its inner names are directories'. */
  ghost function FoundIn(up: Upper, v: Vol, c: nat, parts: seq<seq<byte>>, leaf: seq<byte>): Reached
    requires c in v.dirs
  {
    var d := Walk(up, v, c, parts);
    if d.None? then Nothing
    else
      var k := Hit(up, v.dirs[d.value], leaf, false, 0);
      if k < |v.dirs[d.value]| then Entry(v.dirs[d.value][k]) else Nothing
  }

  lemma {:induction false} ResolveIn(up: Upper, g: Geometry, s: seq<byte>, L: Layout, c: nat, parts: seq<seq<byte>>,
        leaf: seq<byte>)
    requires ImageOK(g, s, L) && c in ImageVol(g, s, L).dirs && OnlyDirs(up, ImageVol(g, s, L), c, parts)
    ensures g.Sane(|s|) && ResolveOf(up, DiskOf(g, s), c, parts + [leaf]) ==
      FoundIn(up, ImageVol(g, s, L), c, parts, leaf)
    decreases |parts|
  {
    hide ImageOK, ImageVol, VolOK, Hit, Lives, First, Listing, DiskOf, IsDir, Clus, Bpb.Sane;
    var v, path := ImageVol(g, s, L), parts + [leaf];
    Rooted(g, s, L);
    DirListed(g, s, L, c);
    assert v.dirs[c][0..] == v.dirs[c];
    FirstIsHit(up, v.dirs[c], path[0], 0);
    if parts == [] {
      assert path == [leaf];
    } else {
      assert path[1..] == parts[1..] + [leaf];
      var k := Hit(up, v.dirs[c], parts[0], true, 0);
      if k < |v.dirs[c]| {
        DirLeads(v, g.End(), g.ClusterSize(), c, k);
        ResolveIn(up, g, s, L, Clus(v.dirs[c][k]), parts[1..], leaf);
      }
    }
  }

  // ---- the readback check ----

  /** Entries that show the name of `g` are named `g`, and are files'. */
  predicate Clear(up: Upper, es: seq<raw>, g: tag) {
    forall j :: 0 <= j < |es| && Live(es[j]) && Named(up, es[j], NameOf(g)) ==> Tag(es[j]) == g && !IsDir(es[j])
  }

  lemma {:induction false} HitSame(up: Upper, es: seq<raw>, fs: seq<raw>, part: seq<byte>, i: nat)
    requires |fs| == |es| && i <= |es|
    requires forall j :: i <= j < |es| ==> ((Live(es[j]) && IsDir(es[j])) <==> (Live(fs[j]) && IsDir(fs[j])))
    requires forall j :: i <= j < |es| && Live(es[j]) && IsDir(es[j]) ==> fs[j] == es[j]
    ensures Hit(up, fs, part, true, i) == Hit(up, es, part, true, i)
    decreases |es| - i
  {
    hide Named, Live, IsDir;
    if i < |es| && !(Live(es[i]) && Named(up, es[i], part) && IsDir(es[i])) {
      HitSame(up, es, fs, part, i + 1);
    }
  }

  lemma {:induction false} HitFiles(up: Upper, es: seq<raw>, fs: seq<raw>, part: seq<byte>, i: nat)
    requires |fs| == |es| && i <= |es|
    requires forall j :: i <= j < |es| ==>
      (Live(es[j]) && Named(up, es[j], part) <==> Live(fs[j]) && Named(up, fs[j], part))
    ensures Hit(up, fs, part, false, i) == Hit(up, es, part, false, i)
    decreases |es| - i
  {
    hide Named, Live, IsDir;
    if i < |es| && !(Live(es[i]) && Named(up, es[i], part)) {
      HitFiles(up, es, fs, part, i + 1);
    }
  }

  lemma DirHitSame(up: Upper, v: Vol, w: Vol, d: nat, g: tag, b: nat, part: seq<byte>)
    requires OneFile(v, w, d, g) && b in v.dirs
    ensures |w.dirs[b]| == |v.dirs[b]|
    ensures Hit(up, w.dirs[b], part, true, 0) == Hit(up, v.dirs[b], part, true, 0)
    ensures var k := Hit(up, v.dirs[b], part, true, 0); k < |v.dirs[b]| ==> w.dirs[b][k] == v.dirs[b][k]
  {
    hide Named, Live, IsDir, Hit;
    HitSame(up, v.dirs[b], w.dirs[b], part, 0);
  }

  /** Putting a file keeps every path to a directory. */
  lemma {:induction false} WalkSame(up: Upper, v: Vol, w: Vol, d: nat, g: tag, b: nat, parts: seq<seq<byte>>)
    requires OneFile(v, w, d, g) && b in v.dirs
    ensures Walk(up, w, b, parts) == Walk(up, v, b, parts)
    decreases |parts|
  {
    hide Named, Live, IsDir, Hit, FileNamed;
    if parts != [] {
      DirHitSame(up, v, w, d, g, b, parts[0]);
      var k := Hit(up, v.dirs[b], parts[0], true, 0);
      if k < |v.dirs[b]| && Clus(v.dirs[b][k]) in v.dirs {
        WalkSame(up, v, w, d, g, Clus(v.dirs[b][k]), parts[1..]);
      }
    }
  }

  lemma FirstHitSame(up: Upper, v: Vol, w: Vol, d: nat, g: tag, b: nat, part: seq<byte>)
    requires OneFile(v, w, d, g) && b in v.dirs && Clear(up, v.dirs[d], g)
    requires Hit(up, v.dirs[b], part, true, 0) < |v.dirs[b]|
    ensures Hit(up, w.dirs[b], part, false, 0) == Hit(up, v.dirs[b], part, false, 0)
  {
    hide Live, IsDir, Hit, NameOf;
    var es, fs := v.dirs[b], w.dirs[b];
    assert b == d ==> up(part) != up(NameOf(g)) by {
      var k := Hit(up, es, part, true, 0);
      assert Live(es[k]) && IsDir(es[k]) && Named(up, es[k], part);
    }
    HitFiles(up, es, fs, part, 0);
  }

  lemma {:induction false} OnlyDirsSame(up: Upper, v: Vol, w: Vol, d: nat, g: tag, b: nat, parts: seq<seq<byte>>)
    requires OneFile(v, w, d, g) && b in v.dirs && Clear(up, v.dirs[d], g)
    requires OnlyDirs(up, v, b, parts) && Walk(up, v, b, parts).Some?
    ensures OnlyDirs(up, w, b, parts)
    decreases |parts|
  {
    hide Named, Live, IsDir, Hit, FileNamed, Clear;
    if parts != [] {
      DirHitSame(up, v, w, d, g, b, parts[0]);
      FirstHitSame(up, v, w, d, g, b, parts[0]);
      OnlyDirsSame(up, v, w, d, g, Clus(v.dirs[b][Hit(up, v.dirs[b], parts[0], true, 0)]), parts[1..]);
    }
  }

  lemma {:induction false} HitIsFind(up: Upper, es: seq<raw>, g: tag, i: nat)
    requires Clear(up, es, g) && i <= |es|
    ensures Hit(up, es, NameOf(g), false, i) == Find(es, g, i)
    decreases |es| - i
  {
    hide NameOf, Live;
    if i < |es| && !(Live(es[i]) && Tag(es[i]) == g) {
      HitIsFind(up, es, g, i + 1);
    }
  }

  lemma ClearAfter(up: Upper, v: Vol, w: Vol, d: nat, g: tag)
    requires OneFile(v, w, d, g) && Clear(up, v.dirs[d], g)
    ensures Clear(up, w.dirs[d], g)
  {
    hide Live, IsDir, NameOf;
  }

  /** Reading back through the path gives exactly what was put there. */
  lemma PutIsReadBack(up: Upper, v: Vol, w: Vol, end: nat, csize: nat, d: nat, g: tag, data: seq<byte>,
        parts: seq<seq<byte>>)
    requires VolOK(v, end, csize) && VolOK(w, end, csize) && 0 in v.dirs
    requires OneFile(v, w, d, g) && Updates(v, w, end, csize, d, g, File(data)) && Clear(up, v.dirs[d], g)
    requires Walk(up, v, 0, parts) == Some(d) && OnlyDirs(up, v, 0, parts)
    ensures 0 in w.dirs && Walk(up, w, 0, parts) == Some(d) && OnlyDirs(up, w, 0, parts)
    ensures var k := Hit(up, w.dirs[d], NameOf(g), false, 0);
      && k < |w.dirs[d]| && FileAt(w, d, k) && (Clus(w.dirs[d][k]) != 0 ==> ChainInside(w, Clus(w.dirs[d][k])))
      && FileBytes(w, w.dirs[d][k]) == data
  {
    hide OneFile, Clear, Walk, OnlyDirs, NameOf, Hit, Owns, Laid, DirOK, FileBytes, ChainInside;
    WalkSame(up, v, w, d, g, 0, parts);
    OnlyDirsSame(up, v, w, d, g, 0, parts);
    ClearAfter(up, v, w, d, g);
    HitIsFind(up, w.dirs[d], g, 0);
    Found(w, end, csize, d, g);
    FileInside(w, end, csize, d, Find(w.dirs[d], g, 0));
  }

  /** The first entry shown under the path holds the data. */
  ghost predicate HoldsShown(up: Upper, g: Geometry, s: seq<byte>, path: seq<seq<byte>>, data: seq<byte>)
    requires path != []
  {
    && g.Sane(|s|) && (forall i :: 0 <= i < |DiskOf(g, s).data| ==> |DiskOf(g, s).data[i]| > 0)
    && var r := ResolveOf(up, DiskOf(g, s), 0, path);
    r.Entry? && ReadOf(DiskOf(g, s), r.e) == Some(data)
  }

  /** Opens the image anew, resolves the path, reads and compares. */
  method Readback(img: array<byte>, g: Geometry, up: Upper, path: seq<seq<byte>>, data: seq<byte>) returns (ok: bool)
    requires g.Sane(img.Length) && path != []
    ensures ok <==> HoldsShown(up, g, img[..], path, data)
  {
    hide ViewOf, DiskOf, ResolveOf, ReadOf, FatRW.Ready, Bpb.Sane;
    var back := new FatRW(img, g);
    var r := Resolve(back, up, path);
    SizedView(g, img[..]);
    LoadedDisk(back);
    if !r.Entry? {
      return false;
    }
    var got := ReadEntry(back, r.e);
    ok := got == Some(data);
  }

  /** What `main` answers to putting a file under a path. */
  ghost function CopyAnswer(up: Upper, v: Vol, csize: nat, parts: seq<seq<byte>>, leaf: seq<byte>, size: nat): Outcome
    requires 0 in v.dirs && csize > 0
  {
    var d, name := Walk(up, v, 0, parts), Name83(leaf);
    if d.None? then NoDirectory else if name.None? then BadName else PutAnswer(v, csize, d.value, name.value, size)
  }

  /** Nothing stands between the file and its path: the name is tidy, inner names are directories' only, and no other
      entry, and no directory's, shows the name. */
  predicate Plain(up: Upper, v: Vol, parts: seq<seq<byte>>, leaf: seq<byte>)
    requires 0 in v.dirs
  {
    var d, name := Walk(up, v, 0, parts), Name83(leaf);
    Tidy(leaf) && OnlyDirs(up, v, 0, parts) && d.Some? && name.Some? && Clear(up, v.dirs[d.value], name.value)
  }

  /** The whole of `main` for a file, with its readback: `ok` is whether the check passes. */
  method CopyIn(img: array<byte>, g: Geometry, ghost L: Layout, up: Upper, parts: seq<seq<byte>>, leaf: seq<byte>,
                data: seq<byte>, attr: byte, given: bool, tm: nat, dt: nat)
    returns (r: Outcome, ok: bool, ghost M: Layout)
    requires ImageOK(g, img[..], L) && Typed(leaf)
    requires PlainAttr(attr) && tm < 0x1_0000 && dt < 0x1_0000 && |data| < 0x1_0000_0000
    modifies img
    ensures VolOK(ImageVol(g, old(img[..]), L), g.End(), g.ClusterSize()) && g.ClusterSize() > 0
    ensures r == CopyAnswer(up, ImageVol(g, old(img[..]), L), g.ClusterSize(), parts, leaf, |data|)
    ensures r != Done ==> img[..] == old(img[..]) && M == L
    ensures r == Done ==> Copied(up, g, img[..], M, ImageVol(g, old(img[..]), L), parts, leaf, data, attr, given, tm,
      dt, ok)
  {
    hide ImageOK, ImageVol, VolOK, Hit, Lives, FatRW.Ready, Name83, Walk, Plain, Updates, OneFile, Nameable, PlainAttr,
      LookUp, Lost, Bpb.Sane, ViewOf, Bpb.End, Bpb.ClusterSize, Full, HeldBy, FreeFrom, Typed, BecomesOn, PutShown,
      HoldsShown, Puttable;
    Rooted(g, img[..], L);
    SaneFat(g, img[..], L);
    SaneSizes(g, img.Length);
    M, ok := L, false;
    var fs := new FatRW(img, g);
    ghost var v := ImageVol(g, img[..], L);
    var dclus := ResolveDir(fs, up, parts, L);
    if dclus.None? {
      return NoDirectory, false, L;
    }
    var name := Name83(leaf);
    if name.None? {
      return BadName, false, L;
    }
    TypedName(leaf);
    r, M := PutFile(img, g, L, dclus.value, name.value, data, attr, given, tm, dt);
    if r == Done {
      ok := Readback(img, g, up, parts + [leaf], data);
      if Plain(up, v, parts, leaf) {
        ReadsBack(up, g, img[..], M, v, parts, leaf, data, given);
      }
    }
  }

  /** What a put that was carried out leaves: the file in place and no other name lost exactly if it could be put, and a
      readback that passes exactly if the first entry shown under the path holds the data, which is so for a plain
      path. */
  ghost predicate Copied(up: Upper, g: Geometry, s: seq<byte>, M: Layout, v: Vol, parts: seq<seq<byte>>,
        leaf: seq<byte>, data: seq<byte>, attr: byte, given: bool, tm: nat, dt: nat, ok: bool)
    requires VolOK(v, g.End(), g.ClusterSize()) && 0 in v.dirs
  {
    var d, name := Walk(up, v, 0, parts), Name83(leaf);
    && d.Some? && name.Some?
    && (Puttable(v, g.End(), g.ClusterSize(), d.value, name.value, given) <==>
          exists N :: BecomesOn(g, s, N, v, d.value, name.value, File(data)))
    && (Puttable(v, g.End(), g.ClusterSize(), d.value, name.value, given) ==>
          BecomesOn(g, s, M, v, d.value, name.value, File(data)))
    && (exists k, v1, w, e, got ::
          PutShown(g, s, M, v, d.value, name.value, data, attr, given, tm, dt, k, v1, w, e, got))
    && (ok <==> HoldsShown(up, g, s, parts + [leaf], data))
    && (Plain(up, v, parts, leaf) ==> ok && UpdatedOn(g, s, M, v, d.value, name.value, data))
  }

  /** The image is the volume with that one name changed to the file, and no cluster lost. */
  ghost predicate UpdatedOn(g: Geometry, s: seq<byte>, M: Layout, v: Vol, d: nat, name: tag, data: seq<byte>)
    requires VolOK(v, g.End(), g.ClusterSize()) && d in v.dirs
  {
    && ImageOK(g, s, M) && VolOK(ImageVol(g, s, M), g.End(), g.ClusterSize())
    && Updates(v, ImageVol(g, s, M), g.End(), g.ClusterSize(), d, name, File(data))
    && Lost(ImageVol(g, s, M).t, ImageVol(g, s, M).chains) == Lost(v.t, v.chains)
  }

  lemma ReadsBack(up: Upper, g: Geometry, s: seq<byte>, M: Layout, v: Vol, parts: seq<seq<byte>>, leaf: seq<byte>,
                  data: seq<byte>, given: bool)
    requires VolOK(v, g.End(), g.ClusterSize()) && 0 in v.dirs && Plain(up, v, parts, leaf)
    requires var d, name := Walk(up, v, 0, parts).value, Name83(leaf).value;
      && (Puttable(v, g.End(), g.ClusterSize(), d, name, given) ==> BecomesOn(g, s, M, v, d, name, File(data)))
      && (!LookUp(v, g.End(), g.ClusterSize(), d, name).Directory? && ImageOK(g, s, M) ==>
        OneFile(v, ImageVol(g, s, M), d, name))
    ensures UpdatedOn(g, s, M, v, Walk(up, v, 0, parts).value, Name83(leaf).value, data)
    ensures HoldsShown(up, g, s, parts + [leaf], data)
  {
    hide ImageOK, ImageVol, VolOK, Hit, Walk, OnlyDirs, Clear, Updates, OneFile, Tidy, Name83, NameOf, FileAt,
      FileBytes, ChainInside, LookUp, Lost, Bpb.Sane, Bpb.End, Bpb.ClusterSize, BecomesOn, DiskOf, ResolveOf, ReadOf;
    var d, name := Walk(up, v, 0, parts).value, Name83(leaf).value;
    NotDirectory(up, v, g.End(), g.ClusterSize(), d, name);
    FileUpdated(g, s, M, v, d, name, data);
    var w := ImageVol(g, s, M);
    Rooted(g, s, M);
    NameBack(leaf);
    PutIsReadBack(up, v, w, g.End(), g.ClusterSize(), d, name, data, parts);
    ResolveIn(up, g, s, M, 0, parts, leaf);
    FileRead(g, s, M, d, Hit(up, w.dirs[d], leaf, false, 0));
  }

  lemma FileUpdated(g: Geometry, s: seq<byte>, M: Layout, v: Vol, d: nat, name: tag, data: seq<byte>)
    requires VolOK(v, g.End(), g.ClusterSize()) && d in v.dirs && BecomesOn(g, s, M, v, d, name, File(data))
    requires ImageOK(g, s, M) ==> OneFile(v, ImageVol(g, s, M), d, name)
    ensures ImageOK(g, s, M) && OneFile(v, ImageVol(g, s, M), d, name)
    ensures var w := ImageVol(g, s, M);
      && VolOK(w, g.End(), g.ClusterSize()) && Updates(v, w, g.End(), g.ClusterSize(), d, name, File(data))
      && Lost(w.t, w.chains) == Lost(v.t, v.chains)
  {
    hide ImageOK, ImageVol, VolOK, LookUp, FileNamed, Live, Lost, Updates, Bpb.End, Bpb.ClusterSize;
    UpdatesBecome(v, ImageVol(g, s, M), g.End(), g.ClusterSize(), d, name, File(data));
  }

  lemma NotDirectory(up: Upper, v: Vol, end: nat, csize: nat, d: nat, g: tag)
    requires VolOK(v, end, csize) && d in v.dirs && Clear(up, v.dirs[d], g)
    ensures !LookUp(v, end, csize, d, g).Directory?
  {
    hide Owns, Laid, DirOK, NameOf;
  }
}
