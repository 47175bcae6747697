/** A FAT volume as directories of 32-byte entries over cluster chains, and what a file operation does to it. */
module Volume {
  import opened Bytes
  import opened Chains

  type raw = s: seq<byte> | |s| == 32 witness Zeros(32)
  type tag = s: seq<byte> | |s| == 11 witness Zeros(11)

  const DELETED: byte := 0xE5
  const LONGNAME: byte := 0x0F

  function Tag(e: raw): tag {
    e[..11]
  }

  function Clus(e: raw): nat {
    U16(e, 26)
  }

  function Size(e: raw): nat {
    U32(e, 28)
  }

  predicate IsDir(e: raw) {
    e[11] / 0x10 % 2 == 1
  }

  /** "." and "..", padded with spaces. */
  predicate IsDot(g: tag) {
    g[0] == 0x2E && (g[1] == 0x20 || g[1] == 0x2E) && forall i :: 2 <= i < 11 ==> g[i] == 0x20
  }

  /** An entry a listing shows. */
  predicate Live(e: raw) {
    e[0] != 0 && e[0] != DELETED && e[11] != LONGNAME
  }

  /** A slot that a new entry may take. */
  predicate Free(e: raw) {
    (e[0] == 0 || e[0] == DELETED) && e[11] != LONGNAME
  }

  /** Behind the end mark every slot is unused, so a listing misses nothing. */
  ghost predicate EndMarked(es: seq<raw>) {
    forall i, j :: 0 <= i <= j < |es| && es[i][0] == 0 ==> es[j][0] == 0 && es[j][11] != LONGNAME
  }

  ghost predicate TagsDistinct(es: seq<raw>) {
    forall i, j :: 0 <= i < j < |es| && Live(es[i]) && Live(es[j]) ==> Tag(es[i]) != Tag(es[j])
  }

  /** Slot of the first entry named `g` from `i` on; `|es|` when there is none. */
  function Find(es: seq<raw>, g: tag, i: nat): (k: nat)
    requires i <= |es|
    ensures i <= k <= |es|
    ensures k < |es| ==> Live(es[k]) && Tag(es[k]) == g
    ensures forall j :: i <= j < k ==> !(Live(es[j]) && Tag(es[j]) == g)
    decreases |es| - i
  {
    if i == |es| || (Live(es[i]) && Tag(es[i]) == g) then i else Find(es, g, i + 1)
  }

  /** `t`: the FAT entries; `chains`: each used chain by its first cluster; `dirs`: the slots of the
      root (0) and of each directory by its first cluster; `data`: the clusters' bytes, from cluster 2. */
  datatype Vol = Vol(t: seq<nat>, chains: map<nat, seq<nat>>, dirs: map<nat, seq<raw>>, data: seq<seq<byte>>)

  /** The bytes of a chain, one cluster after the other. */
  function ChainBytes(data: seq<seq<byte>>, s: seq<nat>): seq<byte>
    requires forall i :: 0 <= i < |s| ==> 2 <= s[i] < |data| + 2
  {
    if s == [] then [] else data[s[0] - 2] + ChainBytes(data, s[1..])
  }

  ghost predicate EntryOK(v: Vol, csize: nat, e: raw) {
    var c := Clus(e);
    if IsDot(Tag(e)) then IsDir(e) && c in v.dirs
    else if c == 0 then !IsDir(e) && Size(e) == 0
    else
      && c in v.chains
      && (IsDir(e) <==> c in v.dirs)
      && (!IsDir(e) ==> Size(e) <= |v.chains[c]| * csize)
  }

  /** Slot `k` of directory `d` holds the entry that owns the chain at `c`. */
  ghost predicate Owns(v: Vol, d: nat, k: nat, c: nat) {
    && d in v.dirs && k < |v.dirs[d]|
    && Live(v.dirs[d][k]) && !IsDot(Tag(v.dirs[d][k]))
    && Clus(v.dirs[d][k]) == c && c != 0
  }

  ghost predicate DirOK(v: Vol, csize: nat, es: seq<raw>) {
    && EndMarked(es) && TagsDistinct(es)
    && (forall k :: 0 <= k < |es| && Live(es[k]) ==> EntryOK(v, csize, es[k]))
  }

  ghost predicate DirsOK(v: Vol, csize: nat) {
    forall d :: d in v.dirs ==> DirOK(v, csize, v.dirs[d])
  }

  ghost predicate OneOwner(v: Vol) {
    forall d, k, d', k', c :: Owns(v, d, k, c) && Owns(v, d', k', c) ==> d == d' && k == k'
  }

  ghost predicate DataOK(v: Vol, csize: nat) {
    |v.t| == |v.data| + 2 && (forall c :: 0 <= c < |v.data| ==> |v.data[c]| == csize)
  }

  ghost predicate Owned(v: Vol, h: nat) {
    exists d: nat, k: nat :: Owns(v, d, k, h)
  }

  /** "." names the directory it is in, ".." the one whose entry owns that; the root has neither. */
  ghost predicate DotOK(v: Vol, d: nat, e: raw) {
    Live(e) && IsDot(Tag(e)) ==>
      d != 0 && if Tag(e)[1] == 0x20 then Clus(e) == d else exists j: nat :: Owns(v, Clus(e), j, d)
  }

  /** Directories stand below the ones whose entries own them. */
  ghost predicate Ranked(v: Vol, rank: map<nat, nat>) {
    && rank.Keys == v.dirs.Keys
    && (forall d, k, c :: Owns(v, d, k, c) && c in v.dirs ==> rank[d] < rank[c])
  }

  /** Some entry owns each chain, and the directories form a tree. */
  ghost predicate TreeOK(v: Vol) {
    && (forall h :: h in v.chains ==> Owned(v, h))
    && (forall d, k :: d in v.dirs && 0 <= k < |v.dirs[d]| ==> DotOK(v, d, v.dirs[d][k]))
    && (exists rank :: Ranked(v, rank))
  }

  /** The invariant of a volume. */
  ghost predicate VolOK(v: Vol, end: nat, csize: nat) {
    && DataOK(v, csize)
    && Laid(v.t, end, v.chains)
    && 0 in v.dirs && (forall d :: d in v.dirs && d != 0 ==> d in v.chains)
    && DirsOK(v, csize) && OneOwner(v) && TreeOK(v)
  }

  /** A volume with a root directory of unused slots and no chain. */
  lemma BareVolume(v: Vol, end: nat, csize: nat)
    requires DataOK(v, csize) && end > 2 && v.chains == map[] && v.dirs.Keys == {0}
    requires forall k :: 0 <= k < |v.dirs[0]| ==> v.dirs[0][k] == Zeros(32)
    ensures VolOK(v, end, csize)
  {
    hide EntryOK, DataOK;
    assert forall d, k :: d in v.dirs && 0 <= k < |v.dirs[d]| ==> !Live(v.dirs[d][k]);
    assert Ranked(v, map[0 := 0]);
  }

  datatype Lookup = Missing | Directory(clus: nat) | File(bytes: seq<byte>)

  ghost function FileBytes(v: Vol, e: raw): seq<byte>
    requires Clus(e) != 0 ==> ChainInside(v, Clus(e))
  {
    if Clus(e) == 0 then []
    else
      var b := ChainBytes(v.data, v.chains[Clus(e)]);
      if Size(e) <= |b| then b[..Size(e)] else b
  }

  /** What a directory holds under a name: the abstract file system. */
  ghost function LookUp(v: Vol, end: nat, csize: nat, d: nat, g: tag): Lookup
    requires VolOK(v, end, csize) && d in v.dirs
  {
    var k := Find(v.dirs[d], g, 0);
    if k == |v.dirs[d]| then Missing
    else
      var e := v.dirs[d][k];
      if IsDir(e) then Directory(Clus(e))
      else
        FileInside(v, end, csize, d, k);
        File(FileBytes(v, e))
  }

  lemma FileInside(v: Vol, end: nat, csize: nat, d: nat, k: nat)
    requires VolOK(v, end, csize) && d in v.dirs && k < |v.dirs[d]| && Live(v.dirs[d][k])
    requires !IsDir(v.dirs[d][k])
    ensures Clus(v.dirs[d][k]) != 0 ==> ChainInside(v, Clus(v.dirs[d][k]))
    ensures Clus(v.dirs[d][k]) !in v.dirs || Clus(v.dirs[d][k]) == 0
  {
    var c := Clus(v.dirs[d][k]);
    assert EntryOK(v, csize, v.dirs[d][k]);
    if c != 0 {
      ChainIsInside(v, end, csize, c);
    }
  }

  ghost predicate ChainInside(v: Vol, c: nat) {
    c in v.chains && forall i :: 0 <= i < |v.chains[c]| ==> 2 <= v.chains[c][i] < |v.data| + 2
  }

  lemma ChainIsInside(v: Vol, end: nat, csize: nat, c: nat)
    requires DataOK(v, csize) && Laid(v.t, end, v.chains) && c in v.chains
    ensures ChainInside(v, c)
  {
    forall i | 0 <= i < |v.chains[c]|
      ensures 2 <= v.chains[c][i] < |v.data| + 2
    {
      LaidUsed(v.t, end, v.chains, c, i);
    }
  }

  // ---- replacing one slot ----

  function WithEntry(v: Vol, d: nat, k: nat, e: raw): Vol
    requires d in v.dirs && k < |v.dirs[d]|
  {
    var es: seq<raw> := v.dirs[d][k := e];
    v.(dirs := v.dirs[d := es])
  }

  lemma {:induction false} FindSame(es: seq<raw>, fs: seq<raw>, g: tag, i: nat)
    requires |es| == |fs| && i <= |es|
    requires forall j :: i <= j < |es| ==>
      ((Live(es[j]) && Tag(es[j]) == g) <==> (Live(fs[j]) && Tag(fs[j]) == g))
    ensures Find(es, g, i) == Find(fs, g, i)
    decreases |es| - i
  {
    if i < |es| && !(Live(es[i]) && Tag(es[i]) == g) {
      FindSame(es, fs, g, i + 1);
    }
  }

  lemma FindAt(es: seq<raw>, g: tag, k: nat)
    requires k < |es| && Live(es[k]) && Tag(es[k]) == g
    requires forall j :: 0 <= j < |es| && j != k && Live(es[j]) ==> Tag(es[j]) != g
    ensures Find(es, g, 0) == k
  {
  }

  lemma TagsApart(es: seq<raw>, k: nat)
    requires TagsDistinct(es) && k < |es| && Live(es[k])
    ensures forall j :: 0 <= j < |es| && j != k && Live(es[j]) ==> Tag(es[j]) != Tag(es[k])
  {
  }

  /** The slots stay in order when a live slot, or the first unused one, is overwritten. */
  lemma SlotsKept(es: seq<raw>, k: nat, e: raw)
    requires EndMarked(es) && TagsDistinct(es) && k < |es|
    requires e[0] != 0 && forall j :: 0 <= j < k ==> es[j][0] != 0
    requires Live(e) ==> forall j :: 0 <= j < |es| && j != k && Live(es[j]) ==> Tag(es[j]) != Tag(e)
    ensures EndMarked(es[k := e]) && TagsDistinct(es[k := e])
  {
  }

  lemma BeforeLive(es: seq<raw>, k: nat)
    requires EndMarked(es) && k < |es| && Live(es[k])
    ensures forall j :: 0 <= j < k ==> es[j][0] != 0
  {
  }

  /** The tree depends on the entries and on which chains there are. */
  lemma TreeSame(v: Vol, w: Vol)
    requires TreeOK(v) && w.dirs == v.dirs && w.chains.Keys == v.chains.Keys
    ensures TreeOK(w)
  {
    hide Live, IsDot;
    forall h | h in w.chains
      ensures Owned(w, h)
    {
      var d: nat, k: nat :| Owns(v, d, k, h);
      assert Owns(w, d, k, h);
    }
    forall d, k | d in w.dirs && 0 <= k < |w.dirs[d]|
      ensures DotOK(w, d, w.dirs[d][k])
    {
      DotStays(v, w, d, w.dirs[d][k]);
    }
    var rank :| Ranked(v, rank);
    assert forall d, k, c :: Owns(w, d, k, c) ==> Owns(v, d, k, c);
    assert Ranked(w, rank);
  }

  lemma OwnersSame(v: Vol, w: Vol)
    requires OneOwner(v) && w.dirs == v.dirs
    ensures OneOwner(w)
  {
    hide Live, IsDot;
    forall d, k, d', k', c | Owns(w, d, k, c) && Owns(w, d', k', c)
      ensures d == d' && k == k'
    {
      assert Owns(v, d, k, c) && Owns(v, d', k', c);
    }
  }

  lemma DotStays(v: Vol, w: Vol, d: nat, e: raw)
    requires DotOK(v, d, e) && forall b, j :: Owns(v, b, j, d) ==> Owns(w, b, j, d)
    ensures DotOK(w, d, e)
  {
    hide Owns, Live;
    if Live(e) && IsDot(Tag(e)) && Tag(e)[1] != 0x20 {
      var j: nat :| Owns(v, Clus(e), j, d);
      assert Owns(w, Clus(e), j, d);
    }
  }

  /** The entries of directories, "." and ".." with them, stand in the same slots. */
  ghost predicate DirSlotsSame(v: Vol, w: Vol) {
    && w.dirs.Keys == v.dirs.Keys
    && (forall b :: b in v.dirs ==> |w.dirs[b]| == |v.dirs[b]|)
    && (forall b, j :: b in v.dirs && 0 <= j < |v.dirs[b]| && (LiveDir(v.dirs[b][j]) || LiveDir(w.dirs[b][j])) ==>
          w.dirs[b][j] == v.dirs[b][j])
  }

  predicate LiveDir(e: raw) { Live(e) && IsDir(e) }

  lemma OwnsDir(v: Vol, csize: nat, d: nat, k: nat, c: nat)
    requires DirsOK(v, csize) && Owns(v, d, k, c)
    ensures c in v.chains && (IsDir(v.dirs[d][k]) <==> c in v.dirs)
  {
    assert EntryOK(v, csize, v.dirs[d][k]);
  }

  lemma DotIsDir(v: Vol, csize: nat, d: nat, k: nat)
    requires DirsOK(v, csize) && d in v.dirs && k < |v.dirs[d]| && Live(v.dirs[d][k]) && IsDot(Tag(v.dirs[d][k]))
    ensures IsDir(v.dirs[d][k])
  {
    assert EntryOK(v, csize, v.dirs[d][k]);
  }

  /** What is done to files keeps the tree. */
  lemma TreeKept(v: Vol, w: Vol, csize: nat)
    requires TreeOK(v) && DirsOK(v, csize) && DirsOK(w, csize) && DirSlotsSame(v, w)
    requires forall h :: h in w.chains ==> Owned(w, h)
    ensures TreeOK(w)
  {
    hide DirsOK, DirOK, Live, IsDir, IsDot, Owned;
    forall b: nat, j: nat, c: nat | c in v.dirs
      ensures Owns(w, b, j, c) <==> Owns(v, b, j, c)
    {
      if Owns(v, b, j, c) { OwnsDir(v, csize, b, j, c); }
      if Owns(w, b, j, c) { OwnsDir(w, csize, b, j, c); }
    }
    forall d, k | d in w.dirs && 0 <= k < |w.dirs[d]|
      ensures DotOK(w, d, w.dirs[d][k])
    {
      if Live(w.dirs[d][k]) && IsDot(Tag(w.dirs[d][k])) {
        DotIsDir(w, csize, d, k);
        DotStays(v, w, d, w.dirs[d][k]);
      }
    }
    var rank :| Ranked(v, rank);
    assert Ranked(w, rank);
  }

  /** Slot `k` of `d` changes, from no directory's entry to none; each chain left is still owned or now by this slot. */
  lemma OneSlotTree(v: Vol, w: Vol, end: nat, csize: nat, d: nat, k: nat, e: raw)
    requires VolOK(v, end, csize) && DirsOK(w, csize) && d in v.dirs && k < |v.dirs[d]|
      && w.dirs == WithEntry(v, d, k, e).dirs
    requires !LiveDir(v.dirs[d][k]) && !LiveDir(e)
    requires forall h :: h in w.chains ==> (h in v.chains && !Owns(v, d, k, h)) || Owns(w, d, k, h)
    ensures TreeOK(w)
  {
    hide Live, IsDir, IsDot, DirOK, Laid, DataOK, DotOK, Ranked, EntryOK;
    forall h | h in w.chains
      ensures Owned(w, h)
    {
      if !Owns(w, d, k, h) {
        OwnerStays(v, w, d, k, e, h);
      }
    }
    OneSlotSame(v, w, d, k, e);
    TreeKept(v, w, csize);
  }

  lemma OwnerStays(v: Vol, w: Vol, d: nat, k: nat, e: raw, h: nat)
    requires d in v.dirs && k < |v.dirs[d]| && w.dirs == WithEntry(v, d, k, e).dirs && Owned(v, h) && !Owns(v, d, k, h)
    ensures Owned(w, h)
  {
    hide Live, IsDot;
    var b: nat, j: nat :| Owns(v, b, j, h);
    assert Owns(w, b, j, h);
  }

  lemma OneSlotSame(v: Vol, w: Vol, d: nat, k: nat, e: raw)
    requires d in v.dirs && k < |v.dirs[d]| && w.dirs == WithEntry(v, d, k, e).dirs && !LiveDir(v.dirs[d][k])
      && !LiveDir(e)
    ensures DirSlotsSame(v, w)
  {
    hide LiveDir;
  }

  /** A new entry for an empty file takes a free slot. */
  lemma InsertEmpty(v: Vol, end: nat, csize: nat, d: nat, k: nat, e: raw)
    requires VolOK(v, end, csize) && d in v.dirs && k < |v.dirs[d]|
    requires Free(v.dirs[d][k]) && forall j :: 0 <= j < k ==> v.dirs[d][j][0] != 0
    requires Live(e) && !IsDir(e) && !IsDot(Tag(e)) && Clus(e) == 0 && Size(e) == 0
    requires Find(v.dirs[d], Tag(e), 0) == |v.dirs[d]|
    ensures VolOK(WithEntry(v, d, k, e), end, csize)
  {
    hide TreeOK;
    var es, w := v.dirs[d], WithEntry(v, d, k, e);
    SlotsKept(es, k, e);
    forall b | b in w.dirs
      ensures DirOK(w, csize, w.dirs[b])
    {
      EntriesKept(v, w, csize, v.dirs[b]);
    }
    forall b, j, b', j', c | Owns(w, b, j, c) && Owns(w, b', j', c)
      ensures b == b' && j == j'
    {
      assert Owns(v, b, j, c) && Owns(v, b', j', c);
    }
    OneSlotTree(v, w, end, csize, d, k, e);
  }

  /** Entries stay right while the directories stay and the chains they own stay as long. */
  lemma EntriesKept(v: Vol, w: Vol, csize: nat, es: seq<raw>)
    requires DirOK(v, csize, es)
    requires w.dirs.Keys == v.dirs.Keys
    requires forall k :: 0 <= k < |es| && Live(es[k]) && !IsDot(Tag(es[k])) && Clus(es[k]) != 0 ==>
      Clus(es[k]) in w.chains && |w.chains[Clus(es[k])]| == |v.chains[Clus(es[k])]|
    ensures DirOK(w, csize, es)
  {
    forall k | 0 <= k < |es| && Live(es[k])
      ensures EntryOK(w, csize, es[k])
    {
      assert EntryOK(v, csize, es[k]);
    }
  }

  /** A name whose entry, chain and clusters are untouched means what it meant. */
  lemma LookUpSame(v: Vol, w: Vol, end: nat, csize: nat, d: nat, g: tag)
    requires VolOK(v, end, csize) && VolOK(w, end, csize) && d in v.dirs && d in w.dirs
    requires |v.dirs[d]| == |w.dirs[d]| && Find(v.dirs[d], g, 0) == Find(w.dirs[d], g, 0)
    requires var k := Find(v.dirs[d], g, 0); k < |v.dirs[d]| ==>
      (w.dirs[d][k] == v.dirs[d][k] && (!IsDir(v.dirs[d][k]) ==> SameBytes(v, w, Clus(v.dirs[d][k]))))
    ensures LookUp(w, end, csize, d, g) == LookUp(v, end, csize, d, g)
  {
    hide VolOK, DirOK, Find, Live, IsDir, ChainBytes, Clus, Size;
    var k := Find(v.dirs[d], g, 0);
    if k < |v.dirs[d]| && !IsDir(v.dirs[d][k]) {
      FileInside(v, end, csize, d, k);
      FileInside(w, end, csize, d, k);
      if Clus(v.dirs[d][k]) != 0 {
        ChainBytesSame(v.data, w.data, v.chains[Clus(v.dirs[d][k])]);
      }
    }
  }

  /** Chain `c` is the same in both volumes, clusters included. */
  ghost predicate SameBytes(v: Vol, w: Vol, c: nat) {
    c != 0 && c in v.chains ==>
      && c in w.chains && w.chains[c] == v.chains[c] && |w.data| == |v.data|
      && (forall i :: 0 <= i < |v.chains[c]| && 2 <= v.chains[c][i] < |v.data| + 2 ==>
            w.data[v.chains[c][i] - 2] == v.data[v.chains[c][i] - 2])
  }

  lemma {:induction false} ChainBytesSame(a: seq<seq<byte>>, b: seq<seq<byte>>, s: seq<nat>)
    requires |a| == |b| && forall i :: 0 <= i < |s| ==> 2 <= s[i] < |a| + 2
    requires forall i :: 0 <= i < |s| ==> a[s[i] - 2] == b[s[i] - 2]
    ensures ChainBytes(a, s) == ChainBytes(b, s)
    decreases |s|
  {
    if s != [] {
      assert forall i :: 0 <= i < |s[1..]| ==> s[1..][i] == s[i + 1];
      ChainBytesSame(a, b, s[1..]);
    }
  }

  /** What changes in the abstract file system: one name, to one new meaning. */
  ghost predicate Updates(v: Vol, w: Vol, end: nat, csize: nat, d: nat, g: tag, to: Lookup)
    requires VolOK(v, end, csize) && VolOK(w, end, csize) && d in v.dirs
  {
    && w.dirs.Keys == v.dirs.Keys
    && LookUp(w, end, csize, d, g) == to
    && (forall b, h :: b in v.dirs && (b != d || h != g) ==>
          LookUp(w, end, csize, b, h) == LookUp(v, end, csize, b, h))
  }

  /** If slot `k` alone changes and every other owner keeps its chain, only that name changes. */
  lemma OneNameChanges(v: Vol, w: Vol, end: nat, csize: nat, d: nat, k: nat, e: raw, to: Lookup)
    requires VolOK(v, end, csize) && VolOK(w, end, csize) && d in v.dirs && k < |v.dirs[d]|
    requires w.dirs == WithEntry(v, d, k, e).dirs
    requires Live(v.dirs[d][k]) ==> Tag(v.dirs[d][k]) == Tag(e)
    requires Live(e) || Live(v.dirs[d][k])
    requires forall j :: 0 <= j < |v.dirs[d]| && j != k && Live(v.dirs[d][j]) ==> Tag(v.dirs[d][j]) != Tag(e)
    requires forall b, j :: b in v.dirs && 0 <= j < |v.dirs[b]| && (b != d || j != k) ==>
      (Live(v.dirs[b][j]) && !IsDir(v.dirs[b][j]) ==> SameBytes(v, w, Clus(v.dirs[b][j])))
    requires LookUp(w, end, csize, d, Tag(e)) == to
    ensures Updates(v, w, end, csize, d, Tag(e), to)
  {
    hide VolOK, LookUp, Live, IsDir, Find, SameBytes;
    forall b, h | b in v.dirs && (b != d || h != Tag(e))
      ensures LookUp(w, end, csize, b, h) == LookUp(v, end, csize, b, h)
    {
      FindSame(v.dirs[b], w.dirs[b], h, 0);
      LookUpSame(v, w, end, csize, b, h);
    }
  }

  lemma InsertEmptyUpdates(v: Vol, end: nat, csize: nat, d: nat, k: nat, e: raw)
    requires d in v.dirs && k < |v.dirs[d]| && Free(v.dirs[d][k])
    requires VolOK(v, end, csize) && VolOK(WithEntry(v, d, k, e), end, csize)
    requires Live(e) && !IsDir(e) && Clus(e) == 0 && Size(e) == 0
    requires Find(v.dirs[d], Tag(e), 0) == |v.dirs[d]|
    ensures Updates(v, WithEntry(v, d, k, e), end, csize, d, Tag(e), File([]))
  {
    hide VolOK, Owns;
    var w := WithEntry(v, d, k, e);
    FindAt(w.dirs[d], Tag(e), k);
    OneNameChanges(v, w, end, csize, d, k, e, File([]));
  }

  // ---- emptying a file ----

  /** An entry of that name for an empty file. */
  function Emptied(e: raw): (r: raw)
    ensures Clus(r) == 0 && Size(r) == 0 && Tag(r) == Tag(e) && r[11] == 0x20
  {
    Splice(Splice(e, 26, Zeros(6)), 11, [0x20])
  }

  /** Slot `k` of directory `d` is a file's. */
  ghost predicate FileAt(v: Vol, d: nat, k: nat) {
    d in v.dirs && k < |v.dirs[d]| && Live(v.dirs[d][k]) && !IsDir(v.dirs[d][k])
  }

  /** The chain of a file: none, or one inside the table. */
  ghost predicate Droppable(v: Vol, c: nat) {
    c != 0 ==> c in v.chains && forall i :: 0 <= i < |v.chains[c]| ==> v.chains[c][i] < |v.t|
  }

  lemma FileChain(v: Vol, end: nat, csize: nat, d: nat, k: nat)
    requires VolOK(v, end, csize) && FileAt(v, d, k)
    ensures !IsDot(Tag(v.dirs[d][k]))
    ensures Droppable(v, Clus(v.dirs[d][k]))
    ensures Clus(v.dirs[d][k]) != 0 ==>
      (Clus(v.dirs[d][k]) !in v.dirs && Owns(v, d, k, Clus(v.dirs[d][k])))
  {
    var c := Clus(v.dirs[d][k]);
    assert EntryOK(v, csize, v.dirs[d][k]);
    if c != 0 {
      ChainIsInside(v, end, csize, c);
    }
  }

  // ---- giving an empty file its contents ----

  function WriteBlocks(data: seq<seq<byte>>, got: seq<nat>, blocks: seq<seq<byte>>): (r: seq<seq<byte>>)
    requires |got| == |blocks|
    requires forall i :: 0 <= i < |got| ==> 2 <= got[i] < |data| + 2
    requires forall i, j :: 0 <= i < j < |got| ==> got[i] < got[j]
    ensures |r| == |data|
    ensures forall i :: 0 <= i < |got| ==> r[got[i] - 2] == blocks[i]
    ensures forall c :: 0 <= c < |data| && c + 2 !in got ==> r[c] == data[c]
    decreases |got|
  {
    if got == [] then data
    else
      RestRises(got, |data|);
      var r := WriteBlocks(data[got[0] - 2 := blocks[0]], got[1..], blocks[1..]);
      RestWritten(data, r, got, blocks);
      r
  }

  lemma RestRises(got: seq<nat>, n: nat)
    requires got != [] && forall i :: 0 <= i < |got| ==> 2 <= got[i] < n + 2
    requires forall i, j :: 0 <= i < j < |got| ==> got[i] < got[j]
    ensures forall i :: 0 <= i < |got[1..]| ==> 2 <= got[1..][i] < n + 2
    ensures forall i, j :: 0 <= i < j < |got[1..]| ==> got[1..][i] < got[1..][j]
    ensures got[0] !in got[1..]
  {
  }

  lemma RestWritten(data: seq<seq<byte>>, r: seq<seq<byte>>, got: seq<nat>, blocks: seq<seq<byte>>)
    requires got != [] && |got| == |blocks| && |r| == |data| && got[0] !in got[1..]
    requires forall i :: 0 <= i < |got| ==> 2 <= got[i] < |data| + 2
    requires forall i :: 0 <= i < |got[1..]| ==> r[got[1..][i] - 2] == blocks[1..][i]
    requires forall c :: 0 <= c < |data| && c + 2 !in got[1..] ==> r[c] == data[got[0] - 2 := blocks[0]][c]
    ensures forall i :: 0 <= i < |got| ==> r[got[i] - 2] == blocks[i]
    ensures forall c :: 0 <= c < |data| && c + 2 !in got ==> r[c] == data[c]
  {
    forall i | 0 <= i < |got|
      ensures r[got[i] - 2] == blocks[i]
    {
      if i > 0 {
        assert got[1..][i - 1] == got[i] && blocks[1..][i - 1] == blocks[i];
      }
    }
  }

  function Join(blocks: seq<seq<byte>>): seq<byte> {
    if blocks == [] then [] else blocks[0] + Join(blocks[1..])
  }

  lemma {:induction false} ChainBytesJoin(data: seq<seq<byte>>, s: seq<nat>, blocks: seq<seq<byte>>)
    requires |s| == |blocks| && forall i :: 0 <= i < |s| ==> 2 <= s[i] < |data| + 2
    requires forall i :: 0 <= i < |s| ==> data[s[i] - 2] == blocks[i]
    ensures ChainBytes(data, s) == Join(blocks)
    decreases |s|
  {
    if s != [] {
      assert forall i :: 0 <= i < |s[1..]| ==> s[1..][i] == s[i + 1] && blocks[1..][i] == blocks[i + 1];
      ChainBytesJoin(data, s[1..], blocks[1..]);
    }
  }

  /** `got` are free clusters of `v`, lowest first, and `blocks` what goes into them. */
  ghost predicate Fillable(v: Vol, end: nat, csize: nat, got: seq<nat>, blocks: seq<seq<byte>>) {
    && |blocks| == |got| && DataOK(v, csize)
    && (got != [] ==> Allocatable(v.t, end, got))
    && (forall i :: 0 <= i < |blocks| ==> |blocks[i]| == csize)
  }

  /** `got` linked and filled, as a chain of its own. */
  ghost function WithChain(v: Vol, end: nat, csize: nat, got: seq<nat>, blocks: seq<seq<byte>>, eoc: nat): Vol
    requires Fillable(v, end, csize, got, blocks)
  {
    if got == [] then v
    else v.(t := Link(v.t, got, eoc), chains := v.chains[got[0] := got], data := WriteBlocks(v.data, got, blocks))
  }

  lemma WithChainLaid(v: Vol, end: nat, csize: nat, got: seq<nat>, blocks: seq<seq<byte>>, eoc: nat)
    requires Fillable(v, end, csize, got, blocks) && eoc >= end && Laid(v.t, end, v.chains)
    ensures var w := WithChain(v, end, csize, got, blocks, eoc);
            DataOK(w, csize) && Laid(w.t, end, w.chains) && (got != [] ==> got[0] !in v.chains)
  {
    hide Laid, Link, WriteBlocks;
    if got != [] {
      FreeApart(v.t, end, v.chains, got);
      LinkLaid(v.t, end, v.chains, got, eoc);
      BlocksSized(v.data, csize, got, blocks);
    }
  }

  lemma BlocksSized(data: seq<seq<byte>>, csize: nat, got: seq<nat>, blocks: seq<seq<byte>>)
    requires |got| == |blocks| && (forall i :: 0 <= i < |got| ==> 2 <= got[i] < |data| + 2)
    requires forall i, j :: 0 <= i < j < |got| ==> got[i] < got[j]
    requires (forall i :: 0 <= i < |blocks| ==> |blocks[i]| == csize) && forall c :: 0 <= c < |data| ==>
      |data[c]| == csize
    ensures forall c :: 0 <= c < |data| ==> |WriteBlocks(data, got, blocks)[c]| == csize
  {
    hide WriteBlocks;
    var w := WriteBlocks(data, got, blocks);
    forall c | 0 <= c < |data|
      ensures |w[c]| == csize
    {
      if c + 2 in got {
        var i :| 0 <= i < |got| && got[i] == c + 2;
        assert w[got[i] - 2] == blocks[i];
      }
    }
  }

  /** Chains that were there keep their clusters and their bytes. */
  lemma WithChainSame(v: Vol, end: nat, csize: nat, got: seq<nat>, blocks: seq<seq<byte>>, eoc: nat, c: nat)
    requires Fillable(v, end, csize, got, blocks) && Laid(v.t, end, v.chains)
    ensures SameBytes(v, WithChain(v, end, csize, got, blocks, eoc), c)
  {
    if got != [] && c in v.chains {
      FreeApart(v.t, end, v.chains, got);
      forall i | 0 <= i < |v.chains[c]|
        ensures v.chains[c][i] !in got
      {
        LaidUsed(v.t, end, v.chains, c, i);
      }
    }
  }

  ghost predicate FitsChain(e: raw, csize: nat, got: seq<nat>) {
    Clus(e) == (if got == [] then 0 else got[0]) && Size(e) <= |got| * csize
  }

  ghost function Filled(v: Vol, end: nat, csize: nat, d: nat, k: nat, e: raw,
                        got: seq<nat>, blocks: seq<seq<byte>>, eoc: nat): Vol
    requires Fillable(v, end, csize, got, blocks)
    requires d in v.dirs && k < |v.dirs[d]|
  {
    WithEntry(WithChain(v, end, csize, got, blocks, eoc), d, k, e)
  }

  lemma FillKeeps(v: Vol, end: nat, csize: nat, d: nat, k: nat, e: raw,
                  got: seq<nat>, blocks: seq<seq<byte>>, eoc: nat)
    requires VolOK(v, end, csize) && FileAt(v, d, k) && Clus(v.dirs[d][k]) == 0
    requires Live(e) && !IsDir(e) && Tag(e) == Tag(v.dirs[d][k]) && FitsChain(e, csize, got)
    requires Fillable(v, end, csize, got, blocks) && eoc >= end
    ensures VolOK(Filled(v, end, csize, d, k, e, got, blocks, eoc), end, csize)
  {
    hide TreeOK, DirsOK, OneOwner, Laid, Owns, Live, IsDot, IsDir, Fillable;
    WithChainLaid(v, end, csize, got, blocks, eoc);
    FillDirs(v, end, csize, d, k, e, got, blocks, eoc);
    FillOwners(v, end, csize, d, k, e, got, blocks, eoc);
    FillTree(v, end, csize, d, k, e, got, blocks, eoc);
  }

  lemma FillOwners(v: Vol, end: nat, csize: nat, d: nat, k: nat, e: raw,
                   got: seq<nat>, blocks: seq<seq<byte>>, eoc: nat)
    requires VolOK(v, end, csize) && FileAt(v, d, k)
    requires FitsChain(e, csize, got) && (got != [] ==> got[0] !in v.chains)
    requires Fillable(v, end, csize, got, blocks)
    ensures OneOwner(Filled(v, end, csize, d, k, e, got, blocks, eoc))
  {
    hide TreeOK, DirsOK, Laid, Owns, Live, IsDot, Fillable, DataOK, FitsChain;
    var w := Filled(v, end, csize, d, k, e, got, blocks, eoc);
    forall b, j, b', j', h | Owns(w, b, j, h) && Owns(w, b', j', h)
      ensures b == b' && j == j'
    {
      FillOwner(v, end, csize, d, k, e, got, blocks, eoc, b, j, h);
      FillOwner(v, end, csize, d, k, e, got, blocks, eoc, b', j', h);
    }
  }

  lemma FillTree(v: Vol, end: nat, csize: nat, d: nat, k: nat, e: raw,
                 got: seq<nat>, blocks: seq<seq<byte>>, eoc: nat)
    requires VolOK(v, end, csize) && FileAt(v, d, k) && Clus(v.dirs[d][k]) == 0
    requires Live(e) && !IsDir(e) && Tag(e) == Tag(v.dirs[d][k]) && FitsChain(e, csize, got)
    requires Fillable(v, end, csize, got, blocks)
    requires DirsOK(Filled(v, end, csize, d, k, e, got, blocks, eoc), csize)
    ensures TreeOK(Filled(v, end, csize, d, k, e, got, blocks, eoc))
  {
    hide TreeOK, DirOK, Laid, Live, DataOK;
    FileChain(v, end, csize, d, k);
    OneSlotTree(v, Filled(v, end, csize, d, k, e, got, blocks, eoc), end, csize, d, k, e);
  }

  /** An owner after filling is the filled entry or was one before. */
  lemma FillOwner(v: Vol, end: nat, csize: nat, d: nat, k: nat, e: raw,
                  got: seq<nat>, blocks: seq<seq<byte>>, eoc: nat, b: nat, j: nat, h: nat)
    requires VolOK(v, end, csize) && FileAt(v, d, k)
    requires FitsChain(e, csize, got) && (got != [] ==> got[0] !in v.chains)
    requires Fillable(v, end, csize, got, blocks)
    requires Owns(Filled(v, end, csize, d, k, e, got, blocks, eoc), b, j, h)
    ensures if got != [] && h == got[0] then b == d && j == k else Owns(v, b, j, h)
  {
    hide TreeOK;
    if b != d || j != k {
      assert Owns(v, b, j, h);
      assert EntryOK(v, csize, v.dirs[b][j]);
    }
  }

  lemma FillDirs(v: Vol, end: nat, csize: nat, d: nat, k: nat, e: raw,
                 got: seq<nat>, blocks: seq<seq<byte>>, eoc: nat)
    requires VolOK(v, end, csize) && FileAt(v, d, k) && Clus(v.dirs[d][k]) == 0
    requires Live(e) && !IsDir(e) && Tag(e) == Tag(v.dirs[d][k]) && FitsChain(e, csize, got)
    requires Fillable(v, end, csize, got, blocks) && (got != [] ==> got[0] !in v.chains)
    ensures DirsOK(Filled(v, end, csize, d, k, e, got, blocks, eoc), csize)
  {
    hide Owns, Laid, TreeOK;
    var w, es := Filled(v, end, csize, d, k, e, got, blocks, eoc), v.dirs[d];
    FileChain(v, end, csize, d, k);
    BeforeLive(es, k);
    TagsApart(es, k);
    SlotsKept(es, k, e);
    forall b | b in w.dirs
      ensures DirOK(w, csize, w.dirs[b])
    {
      forall j | 0 <= j < |w.dirs[b]| && Live(w.dirs[b][j])
        ensures EntryOK(w, csize, w.dirs[b][j])
      {
        if b != d || j != k {
          assert EntryOK(v, csize, v.dirs[b][j]);
        }
      }
    }
  }

  lemma FilledBytes(v: Vol, end: nat, csize: nat, d: nat, k: nat, e: raw,
                    got: seq<nat>, blocks: seq<seq<byte>>, eoc: nat)
    requires d in v.dirs && k < |v.dirs[d]| && FitsChain(e, csize, got)
    requires Fillable(v, end, csize, got, blocks) && Size(e) <= |Join(blocks)|
    ensures var w := Filled(v, end, csize, d, k, e, got, blocks, eoc);
            (Clus(e) != 0 ==> ChainInside(w, Clus(e))) && FileBytes(w, e) == Join(blocks)[..Size(e)]
  {
    hide Live;
    var w := Filled(v, end, csize, d, k, e, got, blocks, eoc);
    if got != [] {
      ChainBytesJoin(w.data, got, blocks);
    }
  }

  lemma FilledLookUp(v: Vol, end: nat, csize: nat, d: nat, k: nat, e: raw,
                     got: seq<nat>, blocks: seq<seq<byte>>, eoc: nat)
    requires VolOK(v, end, csize) && FileAt(v, d, k)
    requires Live(e) && !IsDir(e) && Tag(e) == Tag(v.dirs[d][k]) && FitsChain(e, csize, got)
    requires Fillable(v, end, csize, got, blocks) && Size(e) <= |Join(blocks)|
    requires VolOK(Filled(v, end, csize, d, k, e, got, blocks, eoc), end, csize)
    ensures LookUp(Filled(v, end, csize, d, k, e, got, blocks, eoc), end, csize, d, Tag(e)) ==
            File(Join(blocks)[..Size(e)])
  {
    hide TreeOK, FileBytes, Fillable, FitsChain, EntryOK, Owns, Laid, EndMarked;
    var w := Filled(v, end, csize, d, k, e, got, blocks, eoc);
    FilledBytes(v, end, csize, d, k, e, got, blocks, eoc);
    TagsApart(v.dirs[d], k);
    FindAt(w.dirs[d], Tag(e), k);
  }

  lemma FillUpdates(v: Vol, end: nat, csize: nat, d: nat, k: nat, e: raw,
                    got: seq<nat>, blocks: seq<seq<byte>>, eoc: nat)
    requires VolOK(v, end, csize) && FileAt(v, d, k)
    requires Live(e) && !IsDir(e) && Tag(e) == Tag(v.dirs[d][k]) && FitsChain(e, csize, got)
    requires Fillable(v, end, csize, got, blocks) && Size(e) <= |Join(blocks)|
    requires VolOK(Filled(v, end, csize, d, k, e, got, blocks, eoc), end, csize)
    ensures Updates(v, Filled(v, end, csize, d, k, e, got, blocks, eoc), end, csize, d, Tag(e),
                    File(Join(blocks)[..Size(e)]))
  {
    hide TreeOK, Owns, Laid, EntryOK, EndMarked, DataOK, LookUp;
    var w, es := Filled(v, end, csize, d, k, e, got, blocks, eoc), v.dirs[d];
    TagsApart(es, k);
    FilledLookUp(v, end, csize, d, k, e, got, blocks, eoc);
    forall b, j | b in v.dirs && 0 <= j < |v.dirs[b]| && (b != d || j != k)
      ensures Live(v.dirs[b][j]) && !IsDir(v.dirs[b][j]) ==> SameBytes(v, w, Clus(v.dirs[b][j]))
    {
      WithChainSame(v, end, csize, got, blocks, eoc, Clus(v.dirs[b][j]));
    }
    OneNameChanges(v, w, end, csize, d, k, e, File(Join(blocks)[..Size(e)]));
  }

  // ---- removing an empty file ----

  function Deleted(e: raw): (r: raw)
    ensures r[0] == DELETED && r[1..] == e[1..]
  {
    [DELETED] + e[1..]
  }

  lemma DeleteKeeps(v: Vol, end: nat, csize: nat, d: nat, k: nat, e: raw)
    requires VolOK(v, end, csize) && FileAt(v, d, k) && Clus(v.dirs[d][k]) == 0
    requires e[0] == DELETED
    ensures VolOK(WithEntry(v, d, k, e), end, csize)
  {
    hide TreeOK;
    var w, es := WithEntry(v, d, k, e), v.dirs[d];
    BeforeLive(es, k);
    SlotsKept(es, k, e);
    forall b | b in w.dirs
      ensures DirOK(w, csize, w.dirs[b])
    {
      EntriesKept(v, w, csize, v.dirs[b]);
    }
    forall b, j, b', j', h | Owns(w, b, j, h) && Owns(w, b', j', h)
      ensures b == b' && j == j'
    {
      assert Owns(v, b, j, h) && Owns(v, b', j', h);
    }
    OneSlotTree(v, w, end, csize, d, k, e);
  }

  lemma DeleteUpdates(v: Vol, end: nat, csize: nat, d: nat, k: nat, e: raw)
    requires FileAt(v, d, k) && e[0] == DELETED
    requires VolOK(v, end, csize) && VolOK(WithEntry(v, d, k, e), end, csize)
    ensures Updates(v, WithEntry(v, d, k, e), end, csize, d, Tag(v.dirs[d][k]), Missing)
  {
    hide VolOK, Owns;
    var w, es := WithEntry(v, d, k, e), v.dirs[d];
    GoneAt(v, end, csize, d, k, e);
    forall b, h | b in v.dirs && (b != d || h != Tag(es[k]))
      ensures LookUp(w, end, csize, b, h) == LookUp(v, end, csize, b, h)
    {
      FindSame(v.dirs[b], w.dirs[b], h, 0);
      LookUpSame(v, w, end, csize, b, h);
    }
  }

  lemma GoneAt(v: Vol, end: nat, csize: nat, d: nat, k: nat, e: raw)
    requires VolOK(v, end, csize) && FileAt(v, d, k) && e[0] == DELETED
    ensures Find(WithEntry(v, d, k, e).dirs[d], Tag(v.dirs[d][k]), 0) == |v.dirs[d]|
  {
    hide TreeOK;
    TagsApart(v.dirs[d], k);
  }

  // ---- making a directory ----

  /** The slots of a new directory: itself, its parent, then nothing. */
  ghost predicate FreshDir(fs: seq<raw>, c: nat, d: nat) {
    && |fs| >= 2
    && Live(fs[0]) && IsDir(fs[0]) && IsDot(Tag(fs[0])) && Tag(fs[0])[1] == 0x20 && Clus(fs[0]) == c
    && Live(fs[1]) && IsDir(fs[1]) && IsDot(Tag(fs[1])) && Tag(fs[1])[1] == 0x2E && Clus(fs[1]) == d
    && (forall i :: 2 <= i < |fs| ==> fs[i][0] == 0 && fs[i][11] == 0)
  }

  ghost function WithDir(v: Vol, end: nat, csize: nat, d: nat, k: nat, e: raw, c: nat,
                         block: seq<byte>, fs: seq<raw>, eoc: nat): Vol
    requires Fillable(v, end, csize, [c], [block])
    requires d in v.dirs && k < |v.dirs[d]|
  {
    var w := WithEntry(WithChain(v, end, csize, [c], [block], eoc), d, k, e);
    w.(dirs := w.dirs[c := fs])
  }

  ghost predicate NewDirEntry(v: Vol, d: nat, k: nat, e: raw, c: nat) {
    && d in v.dirs && k < |v.dirs[d]|
    && Free(v.dirs[d][k]) && (forall j :: 0 <= j < k ==> v.dirs[d][j][0] != 0)
    && Live(e) && IsDir(e) && !IsDot(Tag(e)) && Clus(e) == c && c != 0
    && Find(v.dirs[d], Tag(e), 0) == |v.dirs[d]|
  }

  lemma MkDirKeeps(v: Vol, end: nat, csize: nat, d: nat, k: nat, e: raw, c: nat,
                   block: seq<byte>, fs: seq<raw>, eoc: nat)
    requires VolOK(v, end, csize) && NewDirEntry(v, d, k, e, c)
    requires Fillable(v, end, csize, [c], [block]) && eoc >= end && FreshDir(fs, c, d)
    ensures c !in v.chains && c !in v.dirs
    ensures VolOK(WithDir(v, end, csize, d, k, e, c, block, fs, eoc), end, csize)
  {
    hide TreeOK;
    var w := WithDir(v, end, csize, d, k, e, c, block, fs, eoc);
    WithChainLaid(v, end, csize, [c], [block], eoc);
    MkDirDirs(v, end, csize, d, k, e, c, block, fs, eoc);
    forall b, j, b', j', h | Owns(w, b, j, h) && Owns(w, b', j', h)
      ensures b == b' && j == j'
    {
      MkDirOwner(v, end, csize, d, k, e, c, block, fs, eoc, b, j, h);
      MkDirOwner(v, end, csize, d, k, e, c, block, fs, eoc, b', j', h);
    }
    MkDirTree(v, end, csize, d, k, e, c, block, fs, eoc);
  }

  /** The new directory hangs below its parent. */
  lemma MkDirTree(v: Vol, end: nat, csize: nat, d: nat, k: nat, e: raw, c: nat,
                  block: seq<byte>, fs: seq<raw>, eoc: nat)
    requires VolOK(v, end, csize) && NewDirEntry(v, d, k, e, c) && c !in v.chains
    requires Fillable(v, end, csize, [c], [block]) && FreshDir(fs, c, d)
    ensures TreeOK(WithDir(v, end, csize, d, k, e, c, block, fs, eoc))
  {
    hide DirOK, Laid, DataOK, Live, IsDot, Find, Allocatable;
    var w := WithDir(v, end, csize, d, k, e, c, block, fs, eoc);
    assert Owns(w, d, k, c);
    forall b: nat, j: nat, h: nat | Owns(v, b, j, h)
      ensures Owns(w, b, j, h)
    {
      NotFreeSlot(v, d, k, b, j, h);
    }
    forall h | h in w.chains
      ensures Owned(w, h)
    {
      if h != c {
        var b: nat, j: nat :| Owns(v, b, j, h);
        assert Owns(w, b, j, h);
      }
    }
    MkDirDots(v, w, end, csize, d, k, e, c, fs);
    MkDirRank(v, end, csize, d, k, e, c, block, fs, eoc);
  }

  lemma NotFreeSlot(v: Vol, d: nat, k: nat, b: nat, j: nat, h: nat)
    requires d in v.dirs && k < |v.dirs[d]| && Free(v.dirs[d][k]) && Owns(v, b, j, h)
    ensures b != d || j != k
  {
  }

  lemma MkDirDots(v: Vol, w: Vol, end: nat, csize: nat, d: nat, k: nat, e: raw, c: nat, fs: seq<raw>)
    requires VolOK(v, end, csize) && NewDirEntry(v, d, k, e, c) && c !in v.dirs && FreshDir(fs, c, d)
    requires w.dirs == WithEntry(v, d, k, e).dirs[c := fs] && Owns(w, d, k, c)
    requires forall b: nat, j: nat, h: nat :: Owns(v, b, j, h) ==> Owns(w, b, j, h)
    ensures forall b, j :: b in w.dirs && 0 <= j < |w.dirs[b]| ==> DotOK(w, b, w.dirs[b][j])
  {
    hide DirOK, Laid, DataOK, Owns, Find;
    forall b, j | b in w.dirs && 0 <= j < |w.dirs[b]|
      ensures DotOK(w, b, w.dirs[b][j])
    {
      if b == c {
        assert j >= 2 ==> !Live(fs[j]);
      } else if b != d || j != k {
        DotStays(v, w, b, v.dirs[b][j]);
      }
    }
  }

  lemma MkDirRank(v: Vol, end: nat, csize: nat, d: nat, k: nat, e: raw, c: nat,
                  block: seq<byte>, fs: seq<raw>, eoc: nat)
    requires VolOK(v, end, csize) && NewDirEntry(v, d, k, e, c) && c !in v.chains
    requires Fillable(v, end, csize, [c], [block]) && FreshDir(fs, c, d)
    ensures exists rank :: Ranked(WithDir(v, end, csize, d, k, e, c, block, fs, eoc), rank)
  {
    hide DirOK, Laid, DataOK, Owns, Live, IsDot, Find, Allocatable, Owned, DotOK;
    var w := WithDir(v, end, csize, d, k, e, c, block, fs, eoc);
    var old_ :| Ranked(v, old_);
    var rank := old_[c := old_[d] + 1];
    forall b, j, h | Owns(w, b, j, h) && h in w.dirs
      ensures b in rank && rank[b] < rank[h]
    {
      OwnsIn(w, b, j, h);
      MkDirOwner(v, end, csize, d, k, e, c, block, fs, eoc, b, j, h);
      if h != c {
        OwnsIn(v, b, j, h);
      }
    }
    assert Ranked(w, rank);
  }

  lemma OwnsIn(v: Vol, d: nat, k: nat, c: nat)
    requires Owns(v, d, k, c)
    ensures d in v.dirs && c != 0
  {
  }

  lemma MkDirOwner(v: Vol, end: nat, csize: nat, d: nat, k: nat, e: raw, c: nat,
                   block: seq<byte>, fs: seq<raw>, eoc: nat, b: nat, j: nat, h: nat)
    requires VolOK(v, end, csize) && NewDirEntry(v, d, k, e, c) && c !in v.chains
    requires Fillable(v, end, csize, [c], [block]) && FreshDir(fs, c, d)
    requires Owns(WithDir(v, end, csize, d, k, e, c, block, fs, eoc), b, j, h)
    ensures if h == c then b == d && j == k else Owns(v, b, j, h)
  {
    hide TreeOK;
    if b != c && (b != d || j != k) {
      assert Owns(v, b, j, h);
      assert EntryOK(v, csize, v.dirs[b][j]);
    }
  }

  lemma MkDirDirs(v: Vol, end: nat, csize: nat, d: nat, k: nat, e: raw, c: nat,
                  block: seq<byte>, fs: seq<raw>, eoc: nat)
    requires VolOK(v, end, csize) && NewDirEntry(v, d, k, e, c) && c !in v.chains
    requires Fillable(v, end, csize, [c], [block]) && FreshDir(fs, c, d)
    ensures var w := WithDir(v, end, csize, d, k, e, c, block, fs, eoc);
            forall b :: b in w.dirs ==> DirOK(w, csize, w.dirs[b])
  {
    hide Owns, Laid, TreeOK;
    var w, es := WithDir(v, end, csize, d, k, e, c, block, fs, eoc), v.dirs[d];
    SlotsKept(es, k, e);
    forall b | b in w.dirs
      ensures DirOK(w, csize, w.dirs[b])
    {
      forall j | 0 <= j < |w.dirs[b]| && Live(w.dirs[b][j])
        ensures EntryOK(w, csize, w.dirs[b][j])
      {
        if b != c && (b != d || j != k) {
          assert EntryOK(v, csize, v.dirs[b][j]);
        }
      }
    }
  }

  /** Making a directory gives its name a meaning, puts nothing but "." and ".." in it, and changes no other name. */
  lemma MkDirUpdates(v: Vol, end: nat, csize: nat, d: nat, k: nat, e: raw, c: nat,
                     block: seq<byte>, fs: seq<raw>, eoc: nat)
    requires VolOK(v, end, csize) && NewDirEntry(v, d, k, e, c) && c !in v.dirs
    requires Fillable(v, end, csize, [c], [block]) && FreshDir(fs, c, d)
    requires VolOK(WithDir(v, end, csize, d, k, e, c, block, fs, eoc), end, csize)
    ensures var w := WithDir(v, end, csize, d, k, e, c, block, fs, eoc);
            && w.dirs.Keys == v.dirs.Keys + {c}
            && LookUp(w, end, csize, d, Tag(e)) == Directory(c)
            && (forall b, h :: b in v.dirs && (b != d || h != Tag(e)) ==>
                  LookUp(w, end, csize, b, h) == LookUp(v, end, csize, b, h))
            && (forall h: tag :: !IsDot(h) ==> LookUp(w, end, csize, c, h) == Missing)
  {
    hide TreeOK, Owns, Fillable, FreshDir, EntryOK, Laid;
    var w := WithDir(v, end, csize, d, k, e, c, block, fs, eoc);
    MkDirFound(v, end, csize, d, k, e, c, block, fs, eoc);
    forall b, h | b in v.dirs && (b != d || h != Tag(e))
      ensures LookUp(w, end, csize, b, h) == LookUp(v, end, csize, b, h)
    {
      MkDirOther(v, end, csize, d, k, e, c, block, fs, eoc, b, h);
    }
  }

  lemma MkDirFound(v: Vol, end: nat, csize: nat, d: nat, k: nat, e: raw, c: nat,
                   block: seq<byte>, fs: seq<raw>, eoc: nat)
    requires NewDirEntry(v, d, k, e, c) && c !in v.dirs
    requires Fillable(v, end, csize, [c], [block]) && FreshDir(fs, c, d)
    ensures var w := WithDir(v, end, csize, d, k, e, c, block, fs, eoc);
            && Find(w.dirs[d], Tag(e), 0) == k
            && (forall h: tag :: !IsDot(h) ==> Find(w.dirs[c], h, 0) == |fs|)
  {
    var w := WithDir(v, end, csize, d, k, e, c, block, fs, eoc);
    FindAt(w.dirs[d], Tag(e), k);
  }

  lemma MkDirOther(v: Vol, end: nat, csize: nat, d: nat, k: nat, e: raw, c: nat,
                   block: seq<byte>, fs: seq<raw>, eoc: nat, b: nat, h: tag)
    requires VolOK(v, end, csize) && NewDirEntry(v, d, k, e, c) && c !in v.dirs
    requires Fillable(v, end, csize, [c], [block])
    requires VolOK(WithDir(v, end, csize, d, k, e, c, block, fs, eoc), end, csize)
    requires b in v.dirs && (b != d || h != Tag(e))
    ensures LookUp(WithDir(v, end, csize, d, k, e, c, block, fs, eoc), end, csize, b, h) ==
            LookUp(v, end, csize, b, h)
  {
    hide TreeOK, Owns, LookUp, EntryOK;
    var w := WithDir(v, end, csize, d, k, e, c, block, fs, eoc);
    FindSame(v.dirs[b], w.dirs[b], h, 0);
    var j := Find(v.dirs[b], h, 0);
    if j < |v.dirs[b]| {
      WithChainSame(v, end, csize, [c], [block], eoc, Clus(v.dirs[b][j]));
    }
    LookUpSame(v, w, end, csize, b, h);
  }

  lemma LaidOf(v: Vol, end: nat, csize: nat)
    requires VolOK(v, end, csize)
    ensures Laid(v.t, end, v.chains) && DataOK(v, csize)
  {
  }
}
