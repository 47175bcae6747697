/** Listing directories and reading files (tools/fatls.py). */
module FatRead {
  import opened Arith
  import opened Bytes
  import opened FatEntries
  import opened Chains
  import opened Geometry
  import opened Volume
  import opened VolumeFiles
  import opened Directory
  import opened FatImage
  import opened FatVolume
  import opened FatCopy
  import opened Wrappers

  // ---- names ----

  /** What `rstrip` strips from a name decoded from code page 437. */
  predicate Blank(b: byte) {
    b == 0x20 || b == 0xFF || 0x09 <= b <= 0x0D || 0x1C <= b <= 0x1F
  }

  function Stripped(s: seq<byte>): (r: seq<byte>)
    ensures |r| <= |s| && r == s[..|r|]
    ensures r != [] ==> !Blank(r[|r| - 1])
    ensures forall i :: |r| <= i < |s| ==> Blank(s[i])
  {
    if s != [] && Blank(s[|s| - 1]) then Stripped(s[..|s| - 1]) else s
  }

  /** The name a listing shows for an entry: base, and extension behind a dot if there is one. */
  function NameOf(g: tag): seq<byte> {
    var nm, ex := Stripped(g[..8]), Stripped(g[8..]);
    if ex == [] then nm else nm + [0x2E] + ex
  }

  /** Where the first dot is, or the length. */
  function FirstDot(s: seq<byte>, i: nat): (r: nat)
    requires i <= |s|
    ensures i <= r <= |s| && (r < |s| ==> s[r] == 0x2E) && forall j :: i <= j < r ==> s[j] != 0x2E
    decreases |s| - i
  {
    if i == |s| || s[i] == 0x2E then i else FirstDot(s, i + 1)
  }

  function Base(leaf: seq<byte>): seq<byte> {
    leaf[..FirstDot(leaf, 0)]
  }

  function Extension(leaf: seq<byte>): seq<byte> {
    if FirstDot(leaf, 0) < |leaf| then leaf[FirstDot(leaf, 0) + 1..] else []
  }

  function Spaces(n: nat): (s: seq<byte>)
    ensures |s| == n && forall i :: 0 <= i < n ==> s[i] == 0x20
  {
    seq(n, _ => 0x20)
  }

  /** `name83` of tools/fatcp.py; `None` is its refusal. */
  function Name83(leaf: seq<byte>): (r: Option<tag>)
  {
    var b, e := Base(leaf), Extension(leaf);
    if |b| > 8 || |e| > 3 then None
    else
      var g: tag := b + Spaces(8 - |b|) + e + Spaces(3 - |e|);
      Some(g)
  }

  /** A name as the command line supplies it, in upper case: no argument holds byte 0, and upper case turns the small
      sigma (0xE5 of the code page) into the capital one. */
  predicate Typed(leaf: seq<byte>) {
    leaf != [] ==> leaf[0] != 0 && leaf[0] != DELETED
  }

  /** Such a name can be an entry's: "." and ".." do not come out of `name83`. */
  lemma TypedName(leaf: seq<byte>)
    requires Typed(leaf) && Name83(leaf).Some?
    ensures Nameable(Name83(leaf).value)
  {
    var g, b := Name83(leaf).value, Base(leaf);
    if b == [] {
      assert g[0] == 0x20;
    } else {
      assert g[0] == b[0] == leaf[0];
    }
  }

  predicate Trimmed(s: seq<byte>) {
    s == [] || !Blank(s[|s| - 1])
  }

  /** A name that survives the way into an entry and back. */
  predicate Tidy(leaf: seq<byte>) {
    Trimmed(Base(leaf)) && Trimmed(Extension(leaf)) && (FirstDot(leaf, 0) < |leaf| ==> Extension(leaf) != [])
  }

  lemma StrippedPadded(s: seq<byte>, n: nat)
    ensures Trimmed(s) ==> Stripped(s + Spaces(n)) == s
    ensures |Stripped(s + Spaces(n))| <= |s|
    ensures !Trimmed(s) ==> |Stripped(s + Spaces(n))| < |s|
  {
    var p := s + Spaces(n);
    var r := Stripped(p);
    assert r != [] ==> !Blank(p[|r| - 1]);
    assert forall i :: |s| <= i < |p| ==> Blank(p[i]);
    assert s != [] && |r| < |s| ==> Blank(p[|s| - 1]) && p[|s| - 1] == s[|s| - 1];
    assert |r| == |s| ==> r == s;
  }

  /** The listing shows the name an entry was made for exactly when the name is tidy. */
  lemma NameBack(leaf: seq<byte>)
    requires Name83(leaf).Some?
    ensures NameOf(Name83(leaf).value) == leaf <==> Tidy(leaf)
  {
    hide FirstDot, Trimmed, Stripped, Base, Extension, Blank;
    var b, e, g := Base(leaf), Extension(leaf), Name83(leaf).value;
    assert g[..8] == b + Spaces(8 - |b|);
    assert g[8..] == e + Spaces(3 - |e|);
    StrippedPadded(b, 8 - |b|);
    StrippedPadded(e, 3 - |e|);
    LeafParts(leaf);
    NameParts(b, e, Stripped(g[..8]), Stripped(g[8..]), FirstDot(leaf, 0) < |leaf|);
  }

  lemma NameParts(b: seq<byte>, e: seq<byte>, nm: seq<byte>, ex: seq<byte>, dot: bool)
    requires |nm| <= |b| && |ex| <= |e| && (!dot ==> e == [])
    requires Trimmed(b) ==> nm == b
    requires Trimmed(e) ==> ex == e
    requires !Trimmed(b) ==> |nm| < |b|
    requires !Trimmed(e) ==> |ex| < |e|
    ensures (if ex == [] then nm else nm + [0x2E] + ex) == b + (if dot then [0x2E] + e else [])
            <==> Trimmed(b) && Trimmed(e) && (dot ==> e != [])
  {
    hide Trimmed;
    var shown, leaf := if ex == [] then nm else nm + [0x2E] + ex, b + (if dot then [0x2E] + e else []);
    if Trimmed(b) && Trimmed(e) && (dot ==> e != []) {
      assert shown == leaf;
    } else {
      assert |shown| < |leaf|;
    }
  }

  lemma LeafParts(leaf: seq<byte>)
    ensures leaf == Base(leaf) + (if FirstDot(leaf, 0) < |leaf| then [0x2E] + Extension(leaf) else [])
    ensures FirstDot(leaf, 0) == |leaf| ==> Extension(leaf) == []
  {
    hide FirstDot;
    var i := FirstDot(leaf, 0);
    CutAt(leaf, i);
  }

  lemma CutAt(s: seq<byte>, i: nat)
    requires i <= |s|
    ensures i < |s| ==> s == s[..i] + ([s[i]] + s[i + 1..])
    ensures i == |s| ==> s == s[..i] + []
  {
  }

  // ---- listings ----

  /** The entries a listing shows. */
  function Lives(es: seq<raw>): seq<raw> {
    if es == [] then [] else if Live(es[0]) then [es[0]] + Lives(es[1..]) else Lives(es[1..])
  }

  lemma {:induction false} LivesAppend(a: seq<raw>, b: seq<raw>)
    ensures Lives(a + b) == Lives(a) + Lives(b)
    decreases |a|
  {
    hide Live;
    if a == [] {
      assert a + b == b;
    } else {
      LivesAppend(a[1..], b);
      assert (a + b)[1..] == a[1..] + b;
    }
  }

  lemma {:induction false} NoneLive(es: seq<raw>)
    requires forall i :: 0 <= i < |es| ==> !Live(es[i])
    ensures Lives(es) == []
    decreases |es|
  {
    hide Live;
    if es != [] {
      NoneLive(es[1..]);
    }
  }

  /** The entries up to the first unused slot, without deleted ones and parts of long names. */
  function Shown(es: seq<raw>): seq<raw> {
    if es == [] || es[0][0] == 0 then [] else (if Live(es[0]) then [es[0]] else []) + Shown(es[1..])
  }

  /** Where nothing is behind the end mark, those are all the entries in use. */
  lemma {:induction false} ShownLives(es: seq<raw>)
    requires EndMarked(es)
    ensures Shown(es) == Lives(es)
    decreases |es|
  {
    hide Live;
    if es != [] {
      if es[0][0] == 0 {
        NothingBehind(es);
      } else {
        MarkedParts(es[..1], es[1..]);
        assert es == es[..1] + es[1..];
        ShownLives(es[1..]);
      }
    }
  }

  lemma NothingBehind(es: seq<raw>)
    requires EndMarked(es) && es != [] && es[0][0] == 0
    ensures Lives(es) == []
  {
    NoneLive(es);
  }

  /** `_ents` */
  method Ents(es: seq<raw>) returns (out: seq<raw>)
    ensures out == Shown(es)
    ensures EndMarked(es) ==> out == Lives(es)
  {
    hide Shown, Lives, EndMarked;
    if EndMarked(es) {
      ShownLives(es);
    }
    out := [];
    var i := 0;
    assert es[0..] == es;
    while i < |es|
      invariant 0 <= i <= |es|
      invariant out + Shown(es[i..]) == Shown(es)
    {
      ShownStep(es, i, out);
      if es[i][0] == 0 {
        return;
      }
      if es[i][0] != DELETED && es[i][11] != LONGNAME {
        out := out + [es[i]];
      }
      i := i + 1;
    }
    ShownNone();
    assert es[i..] == [] && out + [] == out;
  }

  lemma ShownStep(es: seq<raw>, i: nat, out: seq<raw>)
    requires i < |es|
    ensures out + Shown(es[i..]) ==
      if es[i][0] == 0 then out else (if Live(es[i]) then out + [es[i]] else out) + Shown(es[i + 1..])
  {
    assert es[i..][1..] == es[i + 1..];
  }

  lemma ShownNone()
    ensures Shown([]) == []
  {
  }

  // ---- on any image ----

  /** An image as the reader sees it: the entries of its first FAT, the first end-of-chain value, the root's slots, the
      clusters. */
  datatype Disk = Disk(t: seq<nat>, end: nat, root: seq<raw>, data: seq<seq<byte>>)

  ghost function DiskOf(g: Geometry, s: seq<byte>): (k: Disk)
    requires g.Sane(|s|)
    ensures |k.t| == |k.data| + 2 == g.Clusters() + 2
  {
    FirstFat(g, s);
    Disk(Entries(ViewOf(g, s).fats[0], g.Fat12(), g.Clusters() + 2), g.End(), Slots(ViewOf(g, s).root),
      ViewOf(g, s).data)
  }

  /** Following the entries from `c` leads through `s` and then to no cluster number. */
  ghost predicate Trail(t: seq<nat>, end: nat, c: nat, s: seq<nat>)
    decreases |s|
  {
    if s == [] then !(2 <= c < end)
    else s[0] == c && 2 <= c < end && c < |t| && Trail(t, end, t[c], s[1..])
  }

  lemma {:induction false} TrailUnique(t: seq<nat>, end: nat, c: nat, s: seq<nat>, r: seq<nat>)
    requires Trail(t, end, c, s) && Trail(t, end, c, r)
    ensures s == r
    decreases |s|
  {
    if s != [] {
      TrailUnique(t, end, t[c], s[1..], r[1..]);
      assert s == [c] + s[1..] && r == [c] + r[1..];
    }
  }

  lemma {:induction false} TrailFrom(t: seq<nat>, end: nat, c: nat, s: seq<nat>, i: nat)
    requires Trail(t, end, c, s) && i < |s|
    ensures 2 <= s[i] < |t| && Trail(t, end, s[i], s[i..])
    decreases i
  {
    if i == 0 {
      assert s[0..] == s;
    } else {
      TrailFrom(t, end, t[c], s[1..], i - 1);
      assert s[1..][i - 1..] == s[i..];
    }
  }

  /** A trail is no longer than the table: it comes by no cluster twice. */
  lemma TrailShort(t: seq<nat>, end: nat, c: nat, s: seq<nat>)
    requires Trail(t, end, c, s)
    ensures |s| <= |t|
  {
    forall i, j | 0 <= i < j < |s|
      ensures s[i] != s[j]
    {
      TrailFrom(t, end, c, s, i);
      TrailFrom(t, end, c, s, j);
      if s[i] == s[j] {
        TrailUnique(t, end, s[i], s[i..], s[j..]);
      }
    }
    CountDistinct(s);
    forall x | x in Items(s)
      ensures x < |t|
    {
      var i :| 0 <= i < |s| && s[i] == x;
      TrailFrom(t, end, c, s, i);
    }
    Below(Items(s), |t|);
  }

  lemma {:induction false} Below(a: set<nat>, n: nat)
    requires forall x :: x in a ==> x < n
    ensures |a| <= n
    decreases n
  {
    if n == 0 {
      assert a == {};
    } else {
      Below(a - {n - 1}, n - 1);
      assert a <= (a - {n - 1}) + {n - 1};
    }
  }

  lemma {:induction false} ChainTrail(t: seq<nat>, end: nat, c: nat, s: seq<nat>)
    requires Chain(t, end, c, s)
    ensures Trail(t, end, c, s)
    decreases |s|
  {
    if s != [] {
      ChainTrail(t, end, t[c], s[1..]);
    }
  }

  /** What the clusters of a trail list, each up to its own first unused slot. */
  ghost function ShownAll(data: seq<seq<byte>>, s: seq<nat>): seq<raw>
    requires Inside(s, |data|)
  {
    if s == [] then [] else Shown(Slots(data[s[0] - 2])) + ShownAll(data, s[1..])
  }

  /** The same cluster by cluster, for `n` clusters at most. */
  ghost function ListFrom(k: Disk, c: nat, n: nat): Option<seq<raw>>
    requires |k.t| == |k.data| + 2
    decreases n
  {
    if !(2 <= c < k.end) then Some([])
    else if n == 0 || c >= |k.t| then None
    else
      var rest := ListFrom(k, k.t[c], n - 1);
      if rest.None? then None else Some(Shown(Slots(k.data[c - 2])) + rest.value)
  }

  /** What `listdir` lists for the cluster number of an entry, a directory's or not; `None` if that leads out of the
      volume or round for ever. */
  ghost function Listing(k: Disk, c: nat): Option<seq<raw>>
    requires |k.t| == |k.data| + 2
  {
    if c == 0 then Some(Shown(k.root)) else ListFrom(k, c, |k.t|)
  }

  lemma {:induction false} ListTrail(k: Disk, c: nat, n: nat, s: seq<nat>)
    requires |k.t| == |k.data| + 2 && Trail(k.t, k.end, c, s) && |s| <= n
    ensures Inside(s, |k.data|) && ListFrom(k, c, n) == Some(ShownAll(k.data, s))
    decreases n
  {
    hide Shown, Slots;
    if s != [] {
      ListTrail(k, k.t[c], n - 1, s[1..]);
      assert forall i :: 0 < i < |s| ==> s[i] == s[1..][i - 1];
    }
  }

  lemma {:induction false} TrailOf(k: Disk, c: nat, n: nat) returns (s: seq<nat>)
    requires |k.t| == |k.data| + 2 && ListFrom(k, c, n).Some?
    ensures Trail(k.t, k.end, c, s)
    decreases n
  {
    hide Shown, Slots;
    s := [];
    if 2 <= c < k.end {
      var rest := TrailOf(k, k.t[c], n - 1);
      s := [c] + rest;
      assert s[1..] == rest;
    }
  }

  /** A listing is that of the trail from there, and there is none exactly where there is no trail. */
  lemma ListingIs(k: Disk, c: nat, s: seq<nat>)
    requires |k.t| == |k.data| + 2 && c != 0
    ensures Trail(k.t, k.end, c, s) ==> Inside(s, |k.data|) && Listing(k, c) == Some(ShownAll(k.data, s))
    ensures Listing(k, c).None? <==> forall r :: !Trail(k.t, k.end, c, r)
  {
    hide Shown, Slots, ListFrom, ShownAll, Trail, Inside;
    forall r | Trail(k.t, k.end, c, r)
      ensures Inside(r, |k.data|) && Listing(k, c) == Some(ShownAll(k.data, r))
    {
      TrailShort(k.t, k.end, c, r);
      ListTrail(k, c, |k.t|, r);
    }
    if Listing(k, c).Some? {
      var r := TrailOf(k, c, |k.t|);
    }
  }

  /** The tool has the image's first FAT in memory. */
  ghost predicate Loaded(fs: FatRW)
    reads fs.img, fs.fat
  {
    fs.Ready() && fs.fat[..] == ViewOf(fs.g, fs.img[..]).fats[0]
  }

  lemma LoadedDisk(fs: FatRW)
    requires Loaded(fs)
    ensures fs.g.Sane(|fs.img[..]|) && fs.g.ClusterSize() > 0
    ensures var k := DiskOf(fs.g, fs.img[..]);
      && k.t == fs.Table() && k.end == fs.g.End() && k.root == Slots(ViewOf(fs.g, fs.img[..]).root)
      && k.data == ViewOf(fs.g, fs.img[..]).data && Sized(k.data, fs.g.ClusterSize())
  {
    hide ViewOf, Entries, Slots;
    var g, s := fs.g, fs.img[..];
    SizedView(g, s);
  }

  lemma SizedView(g: Geometry, s: seq<byte>)
    requires g.Sane(|s|)
    ensures Sized(ViewOf(g, s).data, g.ClusterSize()) && g.ClusterSize() > 0
  {
    hide Cut, Pieces, Bpb.DataStart, Bpb.FatStart, Bpb.RootStart, Bpb.ClusterLimit, Bpb.Clusters, Bpb.FatBytes,
      Bpb.ClusterSize;
    PartsInOrder(g, |s|);
    forall c | 0 <= c < g.Clusters()
      ensures |ViewOf(g, s).data[c]| == g.ClusterSize()
    {
      PieceAt(s, g.DataStart(), g.Clusters(), g.ClusterSize(), c);
    }
  }

  /** `f.seek(coff(c)); f.read(csize)` */
  method ClusterAt(fs: FatRW, c: nat) returns (b: seq<byte>)
    requires fs.Ready() && 2 <= c < fs.g.Clusters() + 2
    ensures b == ViewOf(fs.g, fs.img[..]).data[c - 2]
  {
    hide ViewOf, Holds, Bpb.Sane, Bpb.ClusterOffset, Bpb.ClusterSize, Bpb.Clusters, Bpb.Fat12, Bpb.FatBytes;
    ClusterPlace(fs.g, fs.img[..], c);
    b := fs.img[fs.g.ClusterOffset(c)..fs.g.ClusterOffset(c) + fs.g.ClusterSize()];
    assert b == fs.img[..][fs.g.ClusterOffset(c)..fs.g.ClusterOffset(c) + fs.g.ClusterSize()];
  }

  /** `listdir`; `None` where it would leave the volume, or has seen as many clusters as there are and so will not
      end. */
  method List(fs: FatRW, clus: nat) returns (r: Option<seq<raw>>)
    requires Loaded(fs)
    ensures fs.g.Sane(|fs.img[..]|) && r == Listing(DiskOf(fs.g, fs.img[..]), clus)
  {
    hide ViewOf, Entries, Holds, Slots, Shown, DiskOf, FatRW.Ready, Bpb.Sane, Bpb.RootStart, Bpb.Clusters,
      Bpb.ClusterSize, Bpb.Fat12, Bpb.End;
    LoadedDisk(fs);
    ghost var k := DiskOf(fs.g, fs.img[..]);
    if clus == 0 {
      RootPlace(fs.g, fs.img[..]);
      var es := Ents(Slots(fs.img[fs.g.RootStart()..fs.g.RootStart() + fs.g.rootent * 32]));
      return Some(es);
    }
    var out: seq<raw> := [];
    var c: nat, n: nat := clus, fs.g.Clusters() + 2;
    BehindNothing(ListFrom(k, c, n));
    while 2 <= c < fs.g.End()
      invariant Listing(k, clus) == Behind(out, ListFrom(k, c, n))
      decreases n
    {
      if n == 0 || c >= fs.g.Clusters() + 2 {
        return None;
      }
      var b := ClusterAt(fs, c);
      var more := Ents(Slots(b));
      BehindMore(out, more, ListFrom(k, k.t[c], n - 1));
      out := out + more;
      c := fs.Get(c);
      n := n - 1;
    }
    assert out + [] == out;
    return Some(out);
  }

  /** `out`, and what is listed behind it. */
  ghost function Behind(out: seq<raw>, rest: Option<seq<raw>>): Option<seq<raw>> {
    if rest.None? then None else Some(out + rest.value)
  }

  lemma BehindNothing(rest: Option<seq<raw>>)
    ensures Behind([], rest) == rest
  {
    if rest.Some? {
      assert [] + rest.value == rest.value;
    }
  }

  lemma BehindMore(out: seq<raw>, more: seq<raw>, rest: Option<seq<raw>>)
    ensures Behind(out, Behind(more, rest)) == Behind(out + more, rest)
  {
    if rest.Some? {
      assert out + (more + rest.value) == out + more + rest.value;
    }
  }

  /** The clusters from `c` on until `left` bytes are reached. */
  ghost function ReadFrom(k: Disk, c: nat, left: nat): Option<seq<byte>>
    requires |k.t| == |k.data| + 2 && forall i :: 0 <= i < |k.data| ==> |k.data[i]| > 0
    decreases left
  {
    if !(2 <= c < k.end) || left == 0 then Some([])
    else if c >= |k.t| then None
    else
      var b := k.data[c - 2];
      var rest := ReadFrom(k, k.t[c], if left > |b| then left - |b| else 0);
      if rest.None? then None else Some(b + rest.value)
  }

  /** What `read` gives for an entry, a file's or not; `None` if that leads out of the volume. */
  ghost function ReadOf(k: Disk, e: raw): Option<seq<byte>>
    requires |k.t| == |k.data| + 2 && forall i :: 0 <= i < |k.data| ==> |k.data[i]| > 0
  {
    var b := ReadFrom(k, Clus(e), Size(e));
    if b.None? then None else Some(if Size(e) <= |b.value| then b.value[..Size(e)] else b.value)
  }

  lemma {:induction false} ReadTrail(k: Disk, c: nat, left: nat, s: seq<nat>)
    requires |k.t| == |k.data| + 2 && forall i :: 0 <= i < |k.data| ==> |k.data[i]| > 0
    requires Trail(k.t, k.end, c, s)
    ensures Inside(s, |k.data|) && ReadFrom(k, c, left).Some?
    ensures var all := ChainBytes(k.data, s); var b := ReadFrom(k, c, left).value;
      b <= all && (|b| >= left || b == all)
    decreases |s|
  {
    if s != [] {
      var n := |k.data[c - 2]|;
      ReadTrail(k, k.t[c], if left > n then left - n else 0, s[1..]);
      assert forall i :: 0 < i < |s| ==> s[i] == s[1..][i - 1];
    }
  }

  /** `read`: the clusters until the size is reached, cut to the size. */
  method ReadEntry(fs: FatRW, e: raw) returns (r: Option<seq<byte>>)
    requires Loaded(fs)
    ensures fs.g.Sane(|fs.img[..]|) && forall i :: 0 <= i < |DiskOf(fs.g, fs.img[..]).data| ==>
      |DiskOf(fs.g, fs.img[..]).data[i]| > 0
    ensures r == ReadOf(DiskOf(fs.g, fs.img[..]), e)
  {
    hide ViewOf, Entries, Holds, Slots, DiskOf, FatRW.Ready, Bpb.Sane, Bpb.Clusters, Bpb.ClusterSize, Bpb.Fat12,
      Bpb.End, Clus, Size;
    LoadedDisk(fs);
    ghost var k := DiskOf(fs.g, fs.img[..]);
    var b: seq<byte> := [];
    var c: nat := Clus(e);
    ghost var left := Size(e);
    AfterNothing(ReadFrom(k, c, left));
    while 2 <= c < fs.g.End() && |b| < Size(e)
      invariant left == if |b| < Size(e) then Size(e) - |b| else 0
      invariant ReadFrom(k, Clus(e), Size(e)) == After(b, ReadFrom(k, c, left))
      decreases left
    {
      if c >= fs.g.Clusters() + 2 {
        return None;
      }
      var more := ClusterAt(fs, c);
      left := if left > |more| then left - |more| else 0;
      AfterMore(b, more, ReadFrom(k, k.t[c], left));
      b := b + more;
      c := fs.Get(c);
    }
    assert b + [] == b;
    return Some(if Size(e) <= |b| then b[..Size(e)] else b);
  }

  ghost function After(b: seq<byte>, rest: Option<seq<byte>>): Option<seq<byte>> {
    if rest.None? then None else Some(b + rest.value)
  }

  lemma AfterNothing(rest: Option<seq<byte>>)
    ensures After([], rest) == rest
  {
    if rest.Some? {
      assert [] + rest.value == rest.value;
    }
  }

  lemma AfterMore(b: seq<byte>, more: seq<byte>, rest: Option<seq<byte>>)
    ensures After(b, After(more, rest)) == After(b + more, rest)
  {
    if rest.Some? {
      assert b + (more + rest.value) == b + more + rest.value;
    }
  }

  // ---- on a volume ----

  /** A volume opened for reading: the table in memory is the image's. */
  ghost predicate Reading(fs: FatRW, L: Layout)
    reads fs.img, fs.fat
  {
    fs.Ready() && ImageOK(fs.g, fs.img[..], L) && fs.fat[..] == ViewOf(fs.g, fs.img[..]).fats[0]
  }

  lemma Opened(fs: FatRW, L: Layout)
    requires fs.Ready() && ImageOK(fs.g, fs.img[..], L) && fs.fat[..] == ViewOf(fs.g, fs.img[..]).fats[0]
    ensures Reading(fs, L) && fs.g.Sane(|fs.img[..]|) && fs.Table() == ImageVol(fs.g, fs.img[..], L).t
    ensures ImageVol(fs.g, fs.img[..], L) ==
      VolOf(fs.g, fs.fat[..], ViewOf(fs.g, fs.img[..]).root, ViewOf(fs.g, fs.img[..]).data, L)
  {
    hide ViewOf, Entries, Masked, DirOf, VolOK, Open, Bpb.Sane;
    SaneCopies(fs.g, |fs.img[..]|);
  }

  lemma ClusterSlots(data: seq<seq<byte>>, s: seq<nat>, out: seq<raw>)
    requires s != [] && Inside(s, |data|) && Inside(s[1..], |data|) && EndMarked(ChainSlots(data, s))
    ensures EndMarked(Slots(data[s[0] - 2])) && EndMarked(ChainSlots(data, s[1..]))
    ensures out + Lives(ChainSlots(data, s)) == out + Lives(Slots(data[s[0] - 2])) + Lives(ChainSlots(data, s[1..]))
  {
    hide Slots, Lives, EndMarked, ChainSlots;
    ChainSlotsStep(data, s);
    LivesAppend(Slots(data[s[0] - 2]), ChainSlots(data, s[1..]));
    MarkedParts(Slots(data[s[0] - 2]), ChainSlots(data, s[1..]));
  }

  lemma MarkedParts(a: seq<raw>, b: seq<raw>)
    requires EndMarked(a + b)
    ensures EndMarked(a) && EndMarked(b)
  {
    var es := a + b;
    assert forall i :: 0 <= i < |a| ==> es[i] == a[i];
    assert forall i :: 0 <= i < |b| ==> es[|a| + i] == b[i];
    forall i, j | 0 <= i <= j < |b| && b[i][0] == 0
      ensures b[j][0] == 0 && b[j][11] != LONGNAME
    {
      assert es[|a| + i][0] == 0 && es[|a| + j] == b[j];
    }
  }

  /** The file an entry names: its chain, and the bytes the volume says it has. */
  lemma FileClusters(g: Geometry, s: seq<byte>, L: Layout, d: nat, k: nat)
    requires ImageOK(g, s, L) && FileAt(ImageVol(g, s, L), d, k)
    ensures d in L.dirs
    ensures var v := ImageVol(g, s, L); var e := v.dirs[d][k]; var cs := FileChainOf(L, Clus(e));
      var data := ViewOf(g, s).data;
      && Inside(cs, |data|) && (if Clus(e) < 2 then cs == [] else Chain(v.t, g.End(), Clus(e), cs))
      && (Clus(e) != 0 ==> ChainInside(v, Clus(e)))
      && FileBytes(v, e) == if Size(e) <= |ChainBytes(data, cs)| then ChainBytes(data, cs)[..Size(e)]
        else ChainBytes(data, cs)
  {
    hide ViewOf, Open, Entries, Laid, Bpb.Sane, Bpb.Clusters, Bpb.ClusterSize, Bpb.Fat12, Bpb.End, DirOf, ChainBytes,
      DirOK;
    var v, data := ImageVol(g, s, L), ViewOf(g, s).data;
    var c := Clus(v.dirs[d][k]);
    FileStart(g, s, L, d, k);
    FileInside(v, g.End(), g.ClusterSize(), d, k);
    NoSize(v, g.ClusterSize(), d, k);
    if c != 0 {
      NotInDirs(L, v.t, g.End(), c, |data|);
      ChainBytesSame(data, v.data, L.chains[c]);
    } else {
      assert ChainBytes(data, []) == [] by { NoBytes(data); }
    }
  }

  lemma NoBytes(data: seq<seq<byte>>)
    ensures ChainBytes(data, []) == []
  {
  }

  lemma NoSize(v: Vol, csize: nat, d: nat, k: nat)
    requires FileAt(v, d, k) && DirOK(v, csize, v.dirs[d])
    ensures Clus(v.dirs[d][k]) == 0 ==> Size(v.dirs[d][k]) == 0
  {
    assert EntryOK(v, csize, v.dirs[d][k]);
  }

  lemma NotInDirs(L: Layout, t: seq<nat>, end: nat, c: nat, n: nat)
    requires Laid(t, end, L.chains) && c in L.chains && c !in L.dirs && |t| == n + 2
    ensures forall i :: 0 <= i < |L.chains[c]| ==> L.chains[c][i] !in DirClusters(L)
    ensures Inside(L.chains[c], n)
  {
    forall i | 0 <= i < |L.chains[c]|
      ensures 2 <= L.chains[c][i] < n + 2 && L.chains[c][i] !in DirClusters(L)
    {
      LaidUsed(t, end, L.chains, c, i);
    }
  }

  lemma ChainBytesHead(data: seq<seq<byte>>, s: seq<nat>)
    requires s != [] && Inside(s, |data|) && Inside(s[1..], |data|)
    ensures ChainBytes(data, s) == data[s[0] - 2] + ChainBytes(data, s[1..])
  {
  }

  /** On a volume, a directory's listing is its entries in use. */
  lemma DirListed(g: Geometry, s: seq<byte>, L: Layout, d: nat)
    requires ImageOK(g, s, L) && d in L.dirs
    ensures g.Sane(|s|) && d in ImageVol(g, s, L).dirs
      && Listing(DiskOf(g, s), d) == Some(Lives(ImageVol(g, s, L).dirs[d]))
  {
    hide ViewOf, Entries, VolOK, VolOf, Open, Laid, Slots, ChainSlots, Lives, Shown, EndMarked, Masked, Bpb.Sane,
      Bpb.Clusters, Bpb.ClusterSize, Bpb.Fat12, Bpb.End, Trail, Listing, ImageOK, ImageVol, Chain, ShownAll;
    SaneFat(g, s, L);
    ImageStart(g, s, L, d);
    SlotsOf(g, s, L, d);
    var k := DiskOf(g, s);
    if d == 0 {
      ShownLives(k.root);
      RootListed(k);
    } else {
      ChainTrail(k.t, k.end, d, L.chains[d]);
      ListingIs(k, d, L.chains[d]);
      SlotsShown(k.data, L.chains[d]);
    }
  }

  lemma RootListed(k: Disk)
    requires |k.t| == |k.data| + 2
    ensures Listing(k, 0) == Some(Shown(k.root))
  {
  }

  lemma NoneListed(data: seq<seq<byte>>)
    ensures Lives(ChainSlots(data, [])) == []
  {
  }

  lemma {:induction false} SlotsShown(data: seq<seq<byte>>, s: seq<nat>)
    requires Inside(s, |data|) && EndMarked(ChainSlots(data, s))
    ensures ShownAll(data, s) == Lives(ChainSlots(data, s))
    decreases |s|
  {
    hide Shown, Lives, Slots, EndMarked;
    NoneListed(data);
    if s != [] {
      assert forall i :: 0 < i < |s| ==> s[i] == s[1..][i - 1];
      ClusterSlots(data, s, []);
      ShownLives(Slots(data[s[0] - 2]));
      SlotsShown(data, s[1..]);
      assert [] + Lives(ChainSlots(data, s)) == Lives(ChainSlots(data, s));
      assert [] + Lives(Slots(data[s[0] - 2])) == Lives(Slots(data[s[0] - 2]));
    }
  }

  /** `listdir` of a directory. */
  method ListDir(fs: FatRW, clus: nat, ghost L: Layout) returns (out: seq<raw>)
    requires Reading(fs, L) && clus in L.dirs
    ensures clus in ImageVol(fs.g, fs.img[..], L).dirs && out == Lives(ImageVol(fs.g, fs.img[..], L).dirs[clus])
  {
    hide ViewOf, VolOK, ImageOK, ImageVol, Listing, Lives, FatRW.Ready, Bpb.Sane, DiskOf;
    DirListed(fs.g, fs.img[..], L, clus);
    var r := List(fs, clus);
    out := r.value;
  }

  /** On a volume, a file's entry is read as the file's bytes. */
  lemma FileRead(g: Geometry, s: seq<byte>, L: Layout, d: nat, k: nat)
    requires ImageOK(g, s, L) && FileAt(ImageVol(g, s, L), d, k)
    ensures g.Sane(|s|) && forall i :: 0 <= i < |DiskOf(g, s).data| ==> |DiskOf(g, s).data[i]| > 0
    ensures var v := ImageVol(g, s, L); var e := v.dirs[d][k];
      && (Clus(e) != 0 ==> ChainInside(v, Clus(e))) && ReadOf(DiskOf(g, s), e) == Some(FileBytes(v, e))
  {
    hide ViewOf, Entries, VolOK, Open, Laid, Slots, ChainSlots, Bpb.Sane, Bpb.Clusters, Bpb.ClusterSize, Bpb.Fat12,
      Bpb.End, Trail, ImageOK, ImageVol, Chain, FileBytes, ChainInside, Live, IsDir, Clus, Size, ReadFrom, ChainBytes,
      FileChainOf;
    SaneFat(g, s, L);
    SizedView(g, s);
    Whole(g, s, L);
    FileClusters(g, s, L, d, k);
    var e, disk := ImageVol(g, s, L).dirs[d][k], DiskOf(g, s);
    var cs := FileChainOf(L, Clus(e));
    if Clus(e) < 2 {
      NoTrail(disk.t, disk.end, Clus(e));
    } else {
      ChainTrail(disk.t, disk.end, Clus(e), cs);
    }
    ReadTrail(disk, Clus(e), Size(e), cs);
    CutShort(ReadFrom(disk, Clus(e), Size(e)).value, ChainBytes(disk.data, cs), Size(e));
  }

  lemma CutShort(b: seq<byte>, all: seq<byte>, n: nat)
    requires b <= all && (|b| >= n || b == all)
    ensures (if n <= |b| then b[..n] else b) == if n <= |all| then all[..n] else all
  {
  }

  lemma NoTrail(t: seq<nat>, end: nat, c: nat)
    requires c < 2
    ensures Trail(t, end, c, [])
  {
  }

  /** `read` of a file. */
  method Read(fs: FatRW, e: raw, ghost d: nat, ghost k: nat, ghost L: Layout) returns (b: seq<byte>)
    requires Reading(fs, L) && FileAt(ImageVol(fs.g, fs.img[..], L), d, k)
      && ImageVol(fs.g, fs.img[..], L).dirs[d][k] == e
    ensures Clus(e) != 0 ==> ChainInside(ImageVol(fs.g, fs.img[..], L), Clus(e))
    ensures b == FileBytes(ImageVol(fs.g, fs.img[..], L), e)
  {
    hide ViewOf, VolOK, ImageOK, ImageVol, ReadOf, FileBytes, FileAt, ChainInside, FatRW.Ready, Bpb.Sane, DiskOf, Clus;
    FileRead(fs.g, fs.img[..], L, d, k);
    var r := ReadEntry(fs, e);
    b := r.value;
  }
}
