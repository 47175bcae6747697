/** Cluster chains over the table of FAT entries, and what allocating and freeing do to them. */
module Chains {

  /** Following the entries from `c` visits exactly `s` and then meets an end mark. */
  ghost predicate Chain(t: seq<nat>, end: nat, c: nat, s: seq<nat>)
    decreases |s|
  {
    if s == [] then c >= end
    else s[0] == c && 2 <= c < end && c < |t| && Chain(t, end, t[c], s[1..])
  }

  lemma {:induction false} ChainUnique(t: seq<nat>, end: nat, c: nat, s: seq<nat>, r: seq<nat>)
    requires Chain(t, end, c, s) && Chain(t, end, c, r)
    ensures s == r
    decreases |s|
  {
    if s != [] {
      ChainUnique(t, end, t[c], s[1..], r[1..]);
      assert s == [c] + s[1..] && r == [c] + r[1..];
    }
  }

  lemma {:induction false} ChainSuffix(t: seq<nat>, end: nat, c: nat, s: seq<nat>, i: nat)
    requires Chain(t, end, c, s) && i < |s|
    ensures 2 <= s[i] < end && s[i] < |t| && Chain(t, end, s[i], s[i..])
    ensures Chain(t, end, t[s[i]], s[i + 1..])
    decreases i
  {
    if i == 0 {
      assert s[0..] == s;
    } else {
      ChainSuffix(t, end, t[c], s[1..], i - 1);
      assert s[1..][i - 1..] == s[i..] && s[1..][i..] == s[i + 1..];
    }
  }

  /** A chain that ends visits no cluster twice. */
  lemma ChainDistinct(t: seq<nat>, end: nat, c: nat, s: seq<nat>, i: nat, j: nat)
    requires Chain(t, end, c, s) && i < j < |s|
    ensures s[i] != s[j]
  {
    ChainSuffix(t, end, c, s, i);
    ChainSuffix(t, end, c, s, j);
    if s[i] == s[j] {
      ChainUnique(t, end, s[i], s[i..], s[j..]);
    }
  }

  /** No cluster of a chain is marked free. */
  lemma ChainUsed(t: seq<nat>, end: nat, c: nat, s: seq<nat>, i: nat)
    requires Chain(t, end, c, s) && i < |s| && end > 0
    ensures s[i] < |t| && t[s[i]] != 0
  {
    ChainSuffix(t, end, c, s, i);
    if i + 1 < |s| {
      ChainSuffix(t, end, c, s, i + 1);
    }
  }

  lemma {:induction false} ChainFrame(t: seq<nat>, u: seq<nat>, end: nat, c: nat, s: seq<nat>)
    requires Chain(t, end, c, s) && |u| == |t|
    requires forall i :: 0 <= i < |s| && s[i] < |t| ==> u[s[i]] == t[s[i]]
    ensures Chain(u, end, c, s)
    decreases |s|
  {
    if s != [] {
      assert forall i :: 0 <= i < |s[1..]| ==> s[1..][i] == s[i + 1];
      ChainFrame(t, u, end, t[c], s[1..]);
    }
  }

  // ---- freeing ----

  function Release(t: seq<nat>, s: seq<nat>): (r: seq<nat>)
    requires forall i :: 0 <= i < |s| ==> s[i] < |t|
    ensures |r| == |t|
    ensures forall k :: 0 <= k < |t| ==> r[k] == if k in s then 0 else t[k]
    decreases |s|
  {
    if s == [] then t
    else
      assert forall i :: 0 <= i < |s[1..]| ==> s[1..][i] == s[i + 1];
      assert s == [s[0]] + s[1..];
      Release(t[s[0] := 0], s[1..])
  }

  // ---- allocating ----

  /** The first `n` free clusters from `c` on, or all of them when there are fewer. */
  function FirstFree(t: seq<nat>, c: nat, n: nat): (r: seq<nat>)
    ensures |r| <= n
    ensures forall i :: 0 <= i < |r| ==> c <= r[i] < |t| && t[r[i]] == 0
    ensures forall i, j :: 0 <= i < j < |r| ==> r[i] < r[j]
    ensures |r| < n ==> forall k :: c <= k < |t| && t[k] == 0 ==> k in r
    decreases |t| - c
  {
    if n == 0 || c >= |t| then []
    else if t[c] == 0 then [c] + FirstFree(t, c + 1, n - 1)
    else FirstFree(t, c + 1, n)
  }

  ghost function FreeFrom(t: seq<nat>, c: nat): set<nat> {
    set k | c <= k < |t| && t[k] == 0
  }

  lemma FirstFreeLength(t: seq<nat>, c: nat, n: nat)
    ensures |FirstFree(t, c, n)| == if n == 0 || c >= |t| then 0
                                    else if t[c] == 0 then 1 + |FirstFree(t, c + 1, n - 1)|
                                      else |FirstFree(t, c + 1, n)|
  {
  }

  lemma FreeFromNext(t: seq<nat>, c: nat)
    ensures |FreeFrom(t, c)| == if c >= |t| then 0 else if t[c] == 0 then 1 + |FreeFrom(t, c + 1)|
      else |FreeFrom(t, c + 1)|
  {
    if c >= |t| {
      assert FreeFrom(t, c) == {};
    } else {
      assert FreeFrom(t, c) == if t[c] == 0 then {c} + FreeFrom(t, c + 1) else FreeFrom(t, c + 1);
    }
  }

  /** The search for free clusters falls short exactly when there are too few. */
  lemma {:induction false} FirstFreeCount(t: seq<nat>, c: nat, n: nat)
    ensures |FirstFree(t, c, n)| == if n <= |FreeFrom(t, c)| then n else |FreeFrom(t, c)|
    decreases |t| - c
  {
    hide FirstFree, FreeFrom;
    FirstFreeLength(t, c, n);
    FreeFromNext(t, c);
    if n > 0 && c < |t| {
      FirstFreeCount(t, c + 1, if t[c] == 0 then n - 1 else n);
    }
  }

  ghost predicate Allocatable(t: seq<nat>, end: nat, got: seq<nat>) {
    && got != []
    && (forall i :: 0 <= i < |got| ==> 2 <= got[i] < |t| && got[i] < end && t[got[i]] == 0)
    && (forall i, j :: 0 <= i < j < |got| ==> got[i] < got[j])
  }

  /** Increasing cluster numbers below `n`. */
  ghost predicate Rising(got: seq<nat>, n: nat) {
    && (forall i :: 0 <= i < |got| ==> got[i] < n)
    && (forall i, j :: 0 <= i < j < |got| ==> got[i] < got[j])
  }

  /** The entry of the `i`-th cluster names the next one, or ends the chain. */
  ghost predicate Linked(t: seq<nat>, got: seq<nat>, i: nat, eoc: nat)
    requires i < |got|
  {
    got[i] < |t| && t[got[i]] == if i + 1 < |got| then got[i + 1] else eoc
  }

  /** Entries set one after the other: each cluster points to the next, the last holds the end mark. */
  function Link(t: seq<nat>, got: seq<nat>, eoc: nat): (r: seq<nat>)
    requires Rising(got, |t|)
    ensures |r| == |t|
    ensures forall i :: 0 <= i < |got| ==> Linked(r, got, i, eoc)
    ensures forall k :: 0 <= k < |t| && k !in got ==> r[k] == t[k]
    decreases |got|
  {
    if got == [] then t
    else
      var u := t[got[0] := if |got| > 1 then got[1] else eoc];
      var rest := got[1..];
      assert forall i :: 0 <= i < |rest| ==> rest[i] == got[i + 1];
      assert got[0] !in rest;
      var r := Link(u, rest, eoc);
      assert forall i :: 0 < i < |got| ==> Linked(r, rest, i - 1, eoc) && got[i] == rest[i - 1];
      r
  }

  lemma {:induction false} LinkedFrom(t: seq<nat>, end: nat, got: seq<nat>, i: nat, eoc: nat)
    requires i < |got|
    requires forall k :: 0 <= k < |got| ==> 2 <= got[k] < end && got[k] < |t|
    requires forall k :: 0 <= k < |got| ==> Linked(t, got, k, eoc)
    requires eoc >= end
    ensures Chain(t, end, got[i], got[i..])
    decreases |got| - i
  {
    assert Linked(t, got, i, eoc);
    if i + 1 < |got| {
      LinkedFrom(t, end, got, i + 1, eoc);
      assert got[i..][1..] == got[i + 1..];
    } else {
      assert got[i..][1..] == [];
      assert Chain(t, end, t[got[i]], []);
    }
  }

  // ---- all the chains of a volume ----

  ghost predicate Disjoint(s: seq<nat>, r: seq<nat>) {
    forall i, j :: 0 <= i < |s| && 0 <= j < |r| ==> s[i] != r[j]
  }

  /** `chains` maps the first cluster of each file or directory to its chain; none meet. */
  ghost predicate Laid(t: seq<nat>, end: nat, chains: map<nat, seq<nat>>) {
    && end > 2
    && (forall h :: h in chains ==> chains[h] != [] && Chain(t, end, h, chains[h]))
    && (forall h, k :: h in chains && k in chains && h != k ==> Disjoint(chains[h], chains[k]))
  }

  /** Clusters that hold something. */
  ghost function Members(chains: map<nat, seq<nat>>): set<nat> {
    set h, i | h in chains && 0 <= i < |chains[h]| :: chains[h][i]
  }

  ghost function FreeSet(t: seq<nat>): set<nat> {
    FreeFrom(t, 2)
  }

  /** Clusters neither free nor in any chain: bad or leaked ones. */
  ghost function Lost(t: seq<nat>, chains: map<nat, seq<nat>>): set<nat> {
    set c | 2 <= c < |t| && t[c] != 0 && c !in Members(chains)
  }

  lemma LaidUsed(t: seq<nat>, end: nat, chains: map<nat, seq<nat>>, h: nat, i: nat)
    requires Laid(t, end, chains) && h in chains && i < |chains[h]|
    ensures 2 <= chains[h][i] < |t| && chains[h][i] < end && t[chains[h][i]] != 0
  {
    ChainSuffix(t, end, h, chains[h], i);
    ChainUsed(t, end, h, chains[h], i);
  }

  lemma MembersOf(chains: map<nat, seq<nat>>, h: nat)
    requires h in chains
    ensures forall c :: c in Members(chains) <==> c in chains[h] || c in Members(chains - {h})
    ensures forall c :: c in Members(map[h := chains[h]]) <==> c in chains[h]
  {
    forall c | c in chains[h] ensures c in Members(chains) {
      var i :| 0 <= i < |chains[h]| && chains[h][i] == c;
    }
    forall c | c in Members(chains - {h}) ensures c in Members(chains) {
      var k, i :| k in chains - {h} && 0 <= i < |(chains - {h})[k]| && (chains - {h})[k][i] == c;
      assert k in chains && chains[k][i] == c;
    }
    forall c | c in Members(chains) && c !in chains[h] ensures c in Members(chains - {h}) {
      var k, i :| k in chains && 0 <= i < |chains[k]| && chains[k][i] == c;
      assert k in chains - {h} && (chains - {h})[k][i] == c;
    }
    forall c | c in chains[h] ensures c in Members(map[h := chains[h]]) {
      var i :| 0 <= i < |chains[h]| && chains[h][i] == c;
      assert map[h := chains[h]][h][i] == c;
    }
  }

  lemma ChainsApart(t: seq<nat>, end: nat, chains: map<nat, seq<nat>>, h: nat, c: nat)
    requires Laid(t, end, chains) && h in chains && c in chains[h]
    ensures c !in Members(chains - {h})
    ensures 2 <= c < |t| && t[c] != 0
  {
    var i :| 0 <= i < |chains[h]| && chains[h][i] == c;
    LaidUsed(t, end, chains, h, i);
  }

  /** Freeing one chain leaves the others as they were. */
  lemma ReleaseLaid(t: seq<nat>, end: nat, chains: map<nat, seq<nat>>, h: nat)
    requires Laid(t, end, chains) && h in chains
    requires forall i :: 0 <= i < |chains[h]| ==> chains[h][i] < |t|
    ensures Laid(Release(t, chains[h]), end, chains - {h})
  {
    var u, rest := Release(t, chains[h]), chains - {h};
    forall k | k in rest
      ensures Chain(u, end, k, rest[k])
    {
      ChainFrame(t, u, end, k, rest[k]);
    }
  }

  /** Freeing one chain returns exactly its clusters. */
  lemma ReleaseConserves(t: seq<nat>, end: nat, chains: map<nat, seq<nat>>, h: nat)
    requires Laid(t, end, chains) && h in chains
    requires forall i :: 0 <= i < |chains[h]| ==> chains[h][i] < |t|
    ensures FreeSet(Release(t, chains[h])) == FreeSet(t) + Members(map[h := chains[h]])
    ensures Lost(Release(t, chains[h]), chains - {h}) == Lost(t, chains)
  {
    hide Laid, Members;
    MembersOf(chains, h);
    forall c | c in chains[h] ensures 2 <= c < |t| && t[c] != 0 && c !in Members(chains - {h}) {
      ChainsApart(t, end, chains, h, c);
    }
  }

  ghost function Items(s: seq<nat>): set<nat> {
    set x | x in s
  }

  lemma {:induction false} CountDistinct(s: seq<nat>)
    requires forall i, j :: 0 <= i < j < |s| ==> s[i] != s[j]
    ensures |Items(s)| == |s|
    decreases |s|
  {
    if s != [] {
      var n := |s| - 1;
      CountDistinct(s[..n]);
      assert s == s[..n] + [s[n]] && s[n] !in s[..n];
      assert Items(s) == Items(s[..n]) + {s[n]};
    } else {
      assert Items(s) == {};
    }
  }

  /** Freeing a chain adds its length to the number of free clusters. */
  lemma ReleaseCount(t: seq<nat>, end: nat, chains: map<nat, seq<nat>>, h: nat)
    requires Laid(t, end, chains) && h in chains
    requires forall i :: 0 <= i < |chains[h]| ==> chains[h][i] < |t|
    ensures |FreeSet(Release(t, chains[h]))| == |FreeSet(t)| + |chains[h]|
  {
    hide Members, FreeFrom;
    var s := chains[h];
    ReleaseConserves(t, end, chains, h);
    MembersOf(chains, h);
    forall i, j | 0 <= i < j < |s|
      ensures s[i] != s[j]
    {
      ChainDistinct(t, end, h, s, i, j);
    }
    CountDistinct(s);
    assert Members(map[h := s]) == Items(s);
    ReleasedUsed(t, end, chains, h);
    assert FreeSet(t) * Members(map[h := s]) == {};
  }

  lemma ReleasedUsed(t: seq<nat>, end: nat, chains: map<nat, seq<nat>>, h: nat)
    requires Laid(t, end, chains) && h in chains
    ensures forall c :: c in chains[h] ==> c !in FreeSet(t)
  {
    hide Laid;
    forall c | c in chains[h]
      ensures c !in FreeSet(t)
    {
      ChainsApart(t, end, chains, h, c);
    }
  }

  lemma LinkChain(t: seq<nat>, end: nat, got: seq<nat>, eoc: nat)
    requires Allocatable(t, end, got) && eoc >= end
    ensures Chain(Link(t, got, eoc), end, got[0], got)
  {
    LinkedFrom(Link(t, got, eoc), end, got, 0, eoc);
    assert got[0..] == got;
  }

  lemma FreeApart(t: seq<nat>, end: nat, chains: map<nat, seq<nat>>, got: seq<nat>)
    requires Laid(t, end, chains) && Allocatable(t, end, got)
    ensures got[0] !in chains
    ensures forall h :: h in chains ==> Disjoint(chains[h], got)
    ensures forall c :: c in got ==> c !in Members(chains)
  {
    forall h, i | h in chains && 0 <= i < |chains[h]|
      ensures chains[h][i] !in got
    {
      LaidUsed(t, end, chains, h, i);
    }
    assert forall h :: h in chains ==> chains[h][0] == h;
  }

  /** A newly linked chain joins the others without touching them. */
  lemma LinkLaid(t: seq<nat>, end: nat, chains: map<nat, seq<nat>>, got: seq<nat>, eoc: nat)
    requires Laid(t, end, chains) && Allocatable(t, end, got) && eoc >= end
    ensures Laid(Link(t, got, eoc), end, chains[got[0] := got])
  {
    FreeApart(t, end, chains, got);
    LinkChain(t, end, got, eoc);
    forall h | h in chains
      ensures Chain(Link(t, got, eoc), end, h, chains[h])
    {
      ChainFrame(t, Link(t, got, eoc), end, h, chains[h]);
    }
  }

  /** Allocation takes exactly the clusters of the new chain. */
  lemma LinkConserves(t: seq<nat>, end: nat, chains: map<nat, seq<nat>>, got: seq<nat>, eoc: nat)
    requires Laid(t, end, chains) && Allocatable(t, end, got) && eoc >= end
    ensures FreeSet(Link(t, got, eoc)) == FreeSet(t) - Members(map[got[0] := got])
    ensures Lost(Link(t, got, eoc), chains[got[0] := got]) == Lost(t, chains)
  {
    hide Laid, Members, Chain;
    FreeApart(t, end, chains, got);
    var u, more := Link(t, got, eoc), chains[got[0] := got];
    assert more - {got[0]} == chains;
    MembersOf(more, got[0]);
    forall c | c in got
      ensures u[c] != 0 && t[c] == 0 && 2 <= c < |t|
    {
      var i :| 0 <= i < |got| && got[i] == c;
      assert Linked(u, got, i, eoc);
    }
  }
}
