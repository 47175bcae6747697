/** Directory slots in the image, and the volume an image holds. */
module Directory {
  import opened Arith
  import opened Bytes
  import opened FatEntries
  import opened Chains
  import opened Geometry
  import opened Volume

  // ---- the FAT as a table ----

  /** The entries of clusters 0 to `n - 1`. */
  function Entries(f: seq<byte>, fat12: bool, n: nat): (t: seq<nat>)
    requires n > 0 ==> Holds(f, fat12, n - 1)
    ensures |t| == n
  {
    if n == 0 then [] else Entries(f, fat12, n - 1) + [Entry(f, fat12, n - 1)]
  }

  lemma {:induction false} EntriesAt(f: seq<byte>, fat12: bool, n: nat, c: nat)
    requires c < n && Holds(f, fat12, n - 1)
    ensures Holds(f, fat12, c) && Entries(f, fat12, n)[c] == Entry(f, fat12, c)
    decreases n
  {
    if c < n - 1 {
      EntriesAt(f, fat12, n - 1, c);
    }
  }

  /** Setting a packed entry sets that place of the table. */
  lemma SetEntries(f: seq<byte>, fat12: bool, n: nat, c: nat, v: nat)
    requires c < n && Holds(f, fat12, n - 1) && FitsEntry(fat12, v)
    ensures Holds(f, fat12, c) && Entries(SetEntry(f, fat12, c, v), fat12, n) == Entries(f, fat12, n)[c := v]
  {
    hide Entry, SetEntry, Entries;
    EntriesAt(f, fat12, n, c);
    forall k | 0 <= k < n
      ensures Entries(SetEntry(f, fat12, c, v), fat12, n)[k] == Entries(f, fat12, n)[c := v][k]
    {
      EntriesAt(f, fat12, n, k);
      EntriesAt(SetEntry(f, fat12, c, v), fat12, n, k);
      SetGet(f, fat12, c, v, k);
    }
  }

  // ---- slots ----

  /** The 32-byte slots of a stretch of bytes. */
  function Slots(b: seq<byte>): (r: seq<raw>)
    ensures |r| == |b| / 32
    ensures forall i :: 0 <= i < |r| ==> r[i] == Cut(b, 32 * i, 32)
  {
    seq(|b| / 32, i requires 0 <= i < |b| / 32 => Cut(b, 32 * i, 32))
  }

  lemma SlotsUpdate(b: seq<byte>, i: nat, e: raw)
    requires i < |b| / 32
    ensures Slots(Splice(b, 32 * i, e)) == Slots(b)[i := e]
  {
    forall j | 0 <= j < |b| / 32
      ensures Slots(Splice(b, 32 * i, e))[j] == Slots(b)[i := e][j]
    {
      if j == i {
        CutSplice(b, 32 * i, e);
      } else {
        CutElsewhere(b, 32 * i, e, 32 * j, 32);
      }
    }
  }

  ghost predicate Inside(s: seq<nat>, n: nat) {
    forall i :: 0 <= i < |s| ==> 2 <= s[i] < n + 2
  }

  ghost predicate Sized(data: seq<seq<byte>>, csize: nat) {
    forall c :: 0 <= c < |data| ==> |data[c]| == csize
  }

  /** The slots of a directory's chain, cluster after cluster. */
  ghost function ChainSlots(data: seq<seq<byte>>, s: seq<nat>): seq<raw>
    requires Inside(s, |data|)
  {
    if s == [] then [] else Slots(data[s[0] - 2]) + ChainSlots(data, s[1..])
  }

  function SlotOffset(g: Geometry, c: nat, i: nat): nat
    requires c >= 2
  {
    g.ClusterOffset(c) + 32 * i
  }

  function ClusterOffsets(g: Geometry, c: nat): (r: seq<nat>)
    requires c >= 2
    ensures |r| == g.ClusterSize() / 32
  {
    seq(g.ClusterSize() / 32, i requires 0 <= i => SlotOffset(g, c, i))
  }

  /** The image offsets of those slots. */
  ghost function ChainOffsets(g: Geometry, s: seq<nat>): seq<nat>
    requires forall i :: 0 <= i < |s| ==> s[i] >= 2
  {
    if s == [] then [] else ClusterOffsets(g, s[0]) + ChainOffsets(g, s[1..])
  }

  lemma {:induction false} ChainSlotsSame(a: seq<seq<byte>>, b: seq<seq<byte>>, s: seq<nat>)
    requires Inside(s, |a|) && |a| == |b|
    requires forall i :: 0 <= i < |s| ==> a[s[i] - 2] == b[s[i] - 2]
    ensures ChainSlots(a, s) == ChainSlots(b, s)
    decreases |s|
  {
    if s != [] {
      assert forall i :: 0 <= i < |s[1..]| ==> s[1..][i] == s[i + 1];
      ChainSlotsSame(a, b, s[1..]);
    }
  }

  ghost predicate NoRepeat(s: seq<nat>) {
    forall i, j :: 0 <= i < j < |s| ==> s[i] != s[j]
  }

  lemma {:induction false} SlotCounts(g: Geometry, data: seq<seq<byte>>, s: seq<nat>)
    requires Inside(s, |data|) && Sized(data, g.ClusterSize())
    ensures |ChainSlots(data, s)| == |ChainOffsets(g, s)|
    decreases |s|
  {
    if s != [] {
      SlotCounts(g, data, s[1..]);
    }
  }

  /** `e` written at slot `i` of cluster `c`. */
  ghost function WithSlot(data: seq<seq<byte>>, c: nat, i: nat, e: raw): seq<seq<byte>>
    requires 2 <= c < |data| + 2 && 32 * i + 32 <= |data[c - 2]|
  {
    data[c - 2 := Splice(data[c - 2], 32 * i, e)]
  }

  lemma ChainSlotsStep(data: seq<seq<byte>>, s: seq<nat>)
    requires s != [] && Inside(s, |data|) && Inside(s[1..], |data|)
    ensures ChainSlots(data, s) == Slots(data[s[0] - 2]) + ChainSlots(data, s[1..])
  {
  }

  lemma WriteHead(data: seq<seq<byte>>, s: seq<nat>, i: nat, e: raw)
    requires s != [] && Inside(s, |data|) && NoRepeat(s) && 32 * i + 32 <= |data[s[0] - 2]|
    ensures ChainSlots(WithSlot(data, s[0], i, e), s) == ChainSlots(data, s)[i := e]
  {
    hide Slots, Splice, ChainSlots;
    var c, rest, more := s[0], s[1..], WithSlot(data, s[0], i, e);
    assert forall j :: 0 <= j < |rest| ==> rest[j] == s[j + 1];
    SlotsUpdate(data[c - 2], i, e);
    ChainSlotsSame(data, more, rest);
    ChainSlotsStep(data, s);
    ChainSlotsStep(more, s);
  }

  lemma WriteTail(data: seq<seq<byte>>, s: seq<nat>, c: nat, i: nat, k: nat, e: raw)
    requires s != [] && Inside(s, |data|) && NoRepeat(s) && Inside(s[1..], |data|)
    requires c in s[1..] && 2 <= c < |data| + 2 && 32 * i + 32 <= |data[c - 2]|
    requires k < |ChainSlots(data, s[1..])|
    requires ChainSlots(WithSlot(data, c, i, e), s[1..]) == ChainSlots(data, s[1..])[k := e]
    ensures ChainSlots(WithSlot(data, c, i, e), s) == ChainSlots(data, s)[|Slots(data[s[0] - 2])| + k := e]
  {
    hide Slots, Splice;
    var j :| 0 <= j < |s[1..]| && s[1..][j] == c;
    assert s[j + 1] == c && s[0] != c;
  }

  /** Slot `k` of a chain lies in one of its clusters, and writing an entry there changes slot `k` alone. */
  lemma {:induction false} WriteSlot(g: Geometry, data: seq<seq<byte>>, s: seq<nat>, k: nat, e: raw)
    returns (c: nat, i: nat)
    requires Inside(s, |data|) && Sized(data, g.ClusterSize()) && NoRepeat(s)
    requires k < |ChainSlots(data, s)|
    ensures k < |ChainOffsets(g, s)|
    ensures c in s && 2 <= c < |data| + 2 && 32 * i + 32 <= g.ClusterSize() == |data[c - 2]|
    ensures ChainOffsets(g, s)[k] == SlotOffset(g, c, i)
    ensures ChainSlots(WithSlot(data, c, i, e), s) == ChainSlots(data, s)[k := e]
    decreases |s|
  {
    hide Bpb.ClusterSize, SlotOffset, Splice, WithSlot;
    SlotCounts(g, data, s);
    var n := g.ClusterSize() / 32;
    var rest := s[1..];
    assert forall j :: 0 <= j < |rest| ==> rest[j] == s[j + 1];
    if k < n {
      c, i := s[0], k;
      WriteHead(data, s, i, e);
    } else {
      c, i := WriteSlot(g, data, rest, k - n, e);
      WriteTail(data, s, c, i, k - n, e);
    }
  }

  // ---- the volume in an image ----

  /** Where the chains run: each by its first cluster; and which of them are directories (0: the root). */
  datatype Layout = Layout(chains: map<nat, seq<nat>>, dirs: set<nat>)

  ghost predicate DirsInside(L: Layout, n: nat) {
    forall d :: d in L.dirs && d != 0 ==> d in L.chains && Inside(L.chains[d], n)
  }

  ghost function DirClusters(L: Layout): set<nat> {
    set d, i | d in L.dirs && d in L.chains && 0 <= i < |L.chains[d]| :: L.chains[d][i]
  }

  /** File clusters as they are, directory clusters blanked: their bytes count as slots. */
  ghost function Masked(data: seq<seq<byte>>, csize: nat, L: Layout): (r: seq<seq<byte>>)
    ensures |r| == |data|
    ensures forall i :: 0 <= i < |data| ==> r[i] == if i + 2 in DirClusters(L) then Zeros(csize) else data[i]
  {
    seq(|data|, i requires 0 <= i < |data| => if i + 2 in DirClusters(L) then Zeros(csize) else data[i])
  }

  ghost function DirOf(root: seq<byte>, data: seq<seq<byte>>, L: Layout, d: nat): seq<raw>
    requires DirsInside(L, |data|) && d in L.dirs
  {
    if d == 0 then Slots(root) else ChainSlots(data, L.chains[d])
  }

  ghost function VolOf(g: Geometry, f: seq<byte>, root: seq<byte>, data: seq<seq<byte>>, L: Layout): Vol
    requires Holds(f, g.Fat12(), g.Clusters() + 1) && DirsInside(L, |data|)
  {
    Vol(Entries(f, g.Fat12(), g.Clusters() + 2), L.chains,
        map d | d in L.dirs :: DirOf(root, data, L, d),
        Masked(data, g.ClusterSize(), L))
  }

  /** A writable state: `f` is the FAT in memory, `root` and `data` what the image holds. */
  ghost predicate StateOK(g: Geometry, f: seq<byte>, root: seq<byte>, data: seq<seq<byte>>, L: Layout) {
    && Holds(f, g.Fat12(), g.Clusters() + 1) && |data| == g.Clusters() && Sized(data, g.ClusterSize())
    && DirsInside(L, |data|)
    && VolOK(VolOf(g, f, root, data, L), g.End(), g.ClusterSize())
  }

  /** What holds between the steps of an operation: chains apart, directories inside. */
  ghost predicate StateLaid(g: Geometry, f: seq<byte>, data: seq<seq<byte>>, L: Layout) {
    && Holds(f, g.Fat12(), g.Clusters() + 1) && |data| == g.Clusters() && Sized(data, g.ClusterSize())
    && DirsInside(L, |data|)
    && Laid(Entries(f, g.Fat12(), g.Clusters() + 2), g.End(), L.chains)
  }

  lemma DirChains(g: Geometry, f: seq<byte>, root: seq<byte>, data: seq<seq<byte>>, L: Layout, d: nat)
    requires StateLaid(g, f, data, L) && d in L.dirs && d != 0
    ensures d in L.chains && Inside(L.chains[d], |data|) && NoRepeat(L.chains[d])
    ensures forall i :: 0 <= i < |L.chains[d]| ==> L.chains[d][i] in DirClusters(L)
    ensures forall b, i :: b in L.chains && b != d && 0 <= i < |L.chains[b]| ==> L.chains[b][i] !in L.chains[d]
  {
    hide Entries, Masked, DirOK, DirOf, Owns;
    var v := VolOf(g, f, root, data, L);
    forall i, j | 0 <= i < j < |L.chains[d]|
      ensures L.chains[d][i] != L.chains[d][j]
    {
      ChainDistinct(v.t, g.End(), d, L.chains[d], i, j);
    }
  }

  /** Writing an entry into a slot of the image is writing it into that slot of the directory. */
  lemma RootEntry(g: Geometry, f: seq<byte>, root: seq<byte>, data: seq<seq<byte>>, L: Layout, k: nat, e: raw)
    requires Holds(f, g.Fat12(), g.Clusters() + 1) && DirsInside(L, |data|) && 0 in L.dirs && k < |root| / 32
    ensures VolOf(g, f, Splice(root, 32 * k, e), data, L) == WithEntry(VolOf(g, f, root, data, L), 0, k, e)
  {
    hide Entries, Masked, Slots, Splice;
    SlotsUpdate(root, k, e);
    var v, w := VolOf(g, f, root, data, L), VolOf(g, f, Splice(root, 32 * k, e), data, L);
    assert forall d :: d in L.dirs ==> w.dirs[d] == WithEntry(v, 0, k, e).dirs[d];
  }

  lemma ChainEntry(g: Geometry, f: seq<byte>, root: seq<byte>, data: seq<seq<byte>>, L: Layout, d: nat, k: nat, e: raw)
    returns (c: nat, i: nat)
    requires StateLaid(g, f, data, L) && d in L.dirs && d != 0
    requires k < |DirOf(root, data, L, d)|
    ensures 2 <= c < |data| + 2 && 32 * i + 32 <= g.ClusterSize() == |data[c - 2]|
    ensures Inside(L.chains[d], |data|)
    ensures k < |ChainOffsets(g, L.chains[d])| && ChainOffsets(g, L.chains[d])[k] == SlotOffset(g, c, i)
    ensures VolOf(g, f, root, WithSlot(data, c, i, e), L) == WithEntry(VolOf(g, f, root, data, L), d, k, e)
  {
    hide Entries, Slots, Splice, SlotOffset, Bpb.ClusterSize, Bpb.Clusters, Bpb.Fat12;
    DirChains(g, f, root, data, L, d);
    c, i := WriteSlot(g, data, L.chains[d], k, e);
    EntryElsewhere(g, f, root, data, L, d, k, c, i, e);
  }

  lemma MaskSame(a: seq<seq<byte>>, b: seq<seq<byte>>, csize: nat, L: Layout)
    requires |a| == |b| && forall i :: 0 <= i < |a| && i + 2 !in DirClusters(L) ==> a[i] == b[i]
    ensures Masked(a, csize, L) == Masked(b, csize, L)
  {
  }

  lemma DirSame(root: seq<byte>, a: seq<seq<byte>>, b: seq<seq<byte>>, L: Layout, d: nat)
    requires |a| == |b| && DirsInside(L, |a|) && d in L.dirs
    requires d != 0 ==> forall i :: 0 <= i < |L.chains[d]| ==> a[L.chains[d][i] - 2] == b[L.chains[d][i] - 2]
    ensures DirOf(root, a, L, d) == DirOf(root, b, L, d)
  {
    if d != 0 {
      ChainSlotsSame(a, b, L.chains[d]);
    }
  }

  lemma EntryElsewhere(g: Geometry, f: seq<byte>, root: seq<byte>, data: seq<seq<byte>>, L: Layout,
                       d: nat, k: nat, c: nat, i: nat, e: raw)
    requires StateLaid(g, f, data, L) && d in L.dirs && d != 0
    requires k < |DirOf(root, data, L, d)|
    requires c in L.chains[d] && 2 <= c < |data| + 2 && 32 * i + 32 <= |data[c - 2]|
    requires ChainSlots(WithSlot(data, c, i, e), L.chains[d]) == ChainSlots(data, L.chains[d])[k := e]
    ensures VolOf(g, f, root, WithSlot(data, c, i, e), L) == WithEntry(VolOf(g, f, root, data, L), d, k, e)
  {
    hide Entries, Slots, Splice, Masked, ChainSlots, Laid, DirClusters, NoRepeat, Bpb.ClusterSize, Bpb.Clusters,
      Bpb.Fat12;
    DirChains(g, f, root, data, L, d);
    var more := WithSlot(data, c, i, e);
    MaskSame(data, more, g.ClusterSize(), L);
    var v, w := VolOf(g, f, root, data, L), VolOf(g, f, root, more, L);
    forall b | b in L.dirs
      ensures w.dirs[b] == WithEntry(v, d, k, e).dirs[b]
    {
      if b != d {
        DirSame(root, data, more, L, b);
      }
    }
  }

  lemma {:induction false} MaskWritten(data: seq<seq<byte>>, csize: nat, L: Layout,
                                       got: seq<nat>, blocks: seq<seq<byte>>)
    requires |got| == |blocks|
    requires forall i, j :: 0 <= i < j < |got| ==> got[i] < got[j]
    requires forall i :: 0 <= i < |got| ==> 2 <= got[i] < |data| + 2
    requires forall i :: 0 <= i < |got| ==> got[i] !in DirClusters(L)
    ensures Masked(WriteBlocks(data, got, blocks), csize, L) == WriteBlocks(Masked(data, csize, L), got, blocks)
    decreases |got|
  {
    hide DirClusters;
    if got != [] {
      var rest, next := got[1..], data[got[0] - 2 := blocks[0]];
      assert forall i :: 0 <= i < |rest| ==> rest[i] == got[i + 1];
      assert Masked(next, csize, L) == Masked(data, csize, L)[got[0] - 2 := blocks[0]];
      MaskWritten(next, csize, L, rest, blocks[1..]);
    }
  }

  lemma {:induction false} SizedWritten(data: seq<seq<byte>>, csize: nat, got: seq<nat>, blocks: seq<seq<byte>>)
    requires |got| == |blocks| && Sized(data, csize) && Sized(blocks, csize)
    requires forall i, j :: 0 <= i < j < |got| ==> got[i] < got[j]
    requires forall i :: 0 <= i < |got| ==> 2 <= got[i] < |data| + 2
    ensures Sized(WriteBlocks(data, got, blocks), csize)
    decreases |got|
  {
    if got != [] {
      var rest := got[1..];
      assert forall i :: 0 <= i < |rest| ==> rest[i] == got[i + 1];
      assert Sized(blocks[1..], csize) by {
        assert forall i :: 0 <= i < |blocks[1..]| ==> blocks[1..][i] == blocks[i + 1];
      }
      SizedWritten(data[got[0] - 2 := blocks[0]], csize, rest, blocks[1..]);
    }
  }

  /** Filling free clusters leaves every directory as it was. */
  lemma BlocksWritten(g: Geometry, f: seq<byte>, root: seq<byte>, data: seq<seq<byte>>, L: Layout,
                      got: seq<nat>, blocks: seq<seq<byte>>)
    requires StateLaid(g, f, data, L)
    requires Fillable(VolOf(g, f, root, data, L), g.End(), g.ClusterSize(), got, blocks)
    requires forall i, j :: 0 <= i < j < |got| ==> got[i] < got[j]
    requires forall i :: 0 <= i < |got| ==> 2 <= got[i] < |data| + 2
    ensures VolOf(g, f, root, WriteBlocks(data, got, blocks), L) ==
            VolOf(g, f, root, data, L).(data := WriteBlocks(VolOf(g, f, root, data, L).data, got, blocks))
  {
    hide Entries, Slots, Splice, Masked, WriteBlocks, Bpb.ClusterSize, Bpb.Clusters, Bpb.Fat12, DirClusters;
    var more, v := WriteBlocks(data, got, blocks), VolOf(g, f, root, data, L);
    var w := VolOf(g, f, root, more, L);
    FreeNotDir(g, f, root, data, L, got, blocks);
    MaskWritten(data, g.ClusterSize(), L, got, blocks);
    forall b | b in L.dirs
      ensures w.dirs[b] == v.dirs[b]
    {
      DirSame(root, data, more, L, b);
    }
  }

  lemma FreeNotDir(g: Geometry, f: seq<byte>, root: seq<byte>, data: seq<seq<byte>>, L: Layout,
                   got: seq<nat>, blocks: seq<seq<byte>>)
    requires StateLaid(g, f, data, L)
    requires Fillable(VolOf(g, f, root, data, L), g.End(), g.ClusterSize(), got, blocks)
    ensures forall c :: c in got ==> c !in DirClusters(L)
    ensures forall b, i :: b in L.chains && 0 <= i < |L.chains[b]| ==> L.chains[b][i] !in got
  {
    hide Entries, Slots, Splice, DirOK, Owns, Masked;
    var v := VolOf(g, f, root, data, L);
    if got != [] {
      FreeApart(v.t, g.End(), L.chains, got);
      forall b, i | b in L.chains && 0 <= i < |L.chains[b]|
        ensures L.chains[b][i] !in got
      {
        var c := L.chains[b][i];
        assert c in Members(L.chains);
      }
    }
  }

  /** Only the chains of directories matter for what directories hold. */
  lemma ChainsReplaced(g: Geometry, f: seq<byte>, h: seq<byte>, root: seq<byte>, data: seq<seq<byte>>, L: Layout,
        M: Layout)
    requires Holds(f, g.Fat12(), g.Clusters() + 1) && Holds(h, g.Fat12(), g.Clusters() + 1)
    requires DirsInside(L, |data|) && M.dirs == L.dirs
    requires forall d :: d in L.dirs ==>
      (d in L.chains <==> d in M.chains) && (d in L.chains ==> M.chains[d] == L.chains[d])
    ensures DirsInside(M, |data|)
    ensures VolOf(g, h, root, data, M) ==
            VolOf(g, f, root, data, L).(t := Entries(h, g.Fat12(), g.Clusters() + 2), chains := M.chains)
  {
    hide Entries, Slots, ChainSlots;
    assert DirClusters(M) == DirClusters(L);
    var v, w := VolOf(g, f, root, data, L), VolOf(g, h, root, data, M);
    assert forall d :: d in L.dirs ==> w.dirs[d] == v.dirs[d];
    assert w.data == v.data;
  }
}
