/** Lowering the page limit that a driver passes to _PageAllocate (vxd-patches/patch_vxd_dma_maxphys.py). */
module VxdMaxPhys {
  import opened Bytes
  import opened VxdStream
  import opened Wrappers

  const PAGEALLOCATE := 0x00010053
  const XT_MAX_PAGE := 0xFF

  /** How many of the instructions that end before `i` are pushes, up to `n`. */
  function Pushes(s: seq<Entry>, i: nat, n: nat): (r: nat)
    requires i <= |s|
    ensures r <= n && r <= i
    ensures forall j :: i - r <= j < i ==> s[j].mn == "push"
    ensures r < n && r < i ==> s[i - r - 1].mn != "push"
    decreases n
  {
    if n == 0 || i == 0 || s[i - 1].mn != "push" then 0 else 1 + Pushes(s, i - 1, n - 1)
  }

  /** Instruction `i` calls _PageAllocate and the sixth push before it is `PUSH imm32` of a number above the limit. */
  predicate NeedsLimit(buf: seq<byte>, s: seq<Entry>, i: nat)
    requires i < |s|
  {
    && i >= 6 && s[i].mn == "VxDCall" && s[i].ops == Hex(PAGEALLOCATE)
    && Pushes(s, i, 8) >= 6
    && s[i - 6].ops.Hex? && s[i - 6].ops.value > XT_MAX_PAGE
    && s[i - 6].size == 5 && s[i - 6].off < |buf| && buf[s[i - 6].off] == 0x68
  }

  /** The pushes before instruction `i`, latest first, up to `n`. */
  method LastPushes(s: seq<Entry>, i: nat, n: nat) returns (pushes: seq<Entry>)
    requires i <= |s|
    ensures |pushes| == Pushes(s, i, n)
    ensures forall p :: 0 <= p < |pushes| ==> pushes[p] == s[i - 1 - p]
  {
    pushes := [];
    var j: int := i - 1;
    while j >= 0 && |pushes| < n && s[j].mn == "push"
      invariant -1 <= j < i && |pushes| == i - 1 - j && |pushes| <= n
      invariant forall p :: 0 <= p < |pushes| ==> pushes[p] == s[i - 1 - p]
      invariant |pushes| + Pushes(s, j + 1, n - |pushes|) == Pushes(s, i, n)
    {
      pushes := pushes + [s[j]];
      j := j - 1;
    }
  }

  /** `find_sites` for one object: where the pushes to rewrite are. */
  method FindSites(dec: Decoder, buf: seq<byte>) returns (sites: set<nat>)
    requires Sound(dec)
    ensures forall x :: x in sites <==> IsSite(dec, buf, x)
  {
    hide Sound, Stream, Pushes, Among;
    var s := Sweep(dec, buf);
    sites := {};
    NoneYet(buf, s);
    for i := 0 to |s|
      invariant forall x :: x in sites <==> Among(buf, s, i, x)
    {
      ghost var was := sites;
      if s[i].mn == "VxDCall" && s[i].ops == Hex(PAGEALLOCATE) {
        var pushes := LastPushes(s, i, 8);
        if |pushes| >= 6 {
          var e := pushes[5];
          if e.ops.Hex? && e.ops.value > XT_MAX_PAGE && e.size == 5 {
            StreamRises(dec, buf, 0, i - 6);
            if buf[e.off] == 0x68 {
              sites := sites + {e.off};
            }
          }
        }
      }
      forall x
        ensures x in sites <==> Among(buf, s, i + 1, x)
      {
        OneMore(buf, s, i, i + 1, x);
      }
    }
  }

  /** One of the first `n` instructions is a call whose push at `x` needs rewriting. */
  ghost predicate SiteOf(buf: seq<byte>, s: seq<Entry>, j: nat, n: nat, x: nat) {
    j < n && j < |s| && NeedsLimit(buf, s, j) && s[j - 6].off == x
  }

  ghost predicate Among(buf: seq<byte>, s: seq<Entry>, n: nat, x: nat) {
    exists j: nat :: SiteOf(buf, s, j, n, x)
  }

  lemma NoneYet(buf: seq<byte>, s: seq<Entry>)
    ensures forall x :: !Among(buf, s, 0, x)
  {
  }

  lemma OneMore(buf: seq<byte>, s: seq<Entry>, i: nat, n: nat, x: nat)
    requires i < |s| && n == i + 1
    ensures Among(buf, s, n, x) <==> Among(buf, s, i, x) || (i >= 6 && NeedsLimit(buf, s, i) && s[i - 6].off == x)
  {
    if Among(buf, s, n, x) {
      var j: nat :| SiteOf(buf, s, j, n, x);
      assert j == i || SiteOf(buf, s, j, i, x);
    }
    if Among(buf, s, i, x) {
      var j: nat :| SiteOf(buf, s, j, i, x);
      assert SiteOf(buf, s, j, n, x);
    }
    if i >= 6 && NeedsLimit(buf, s, i) && s[i - 6].off == x {
      assert SiteOf(buf, s, i, n, x);
    }
  }

  ghost predicate IsSite(dec: Decoder, buf: seq<byte>, x: nat)
    requires Sound(dec)
  {
    Among(buf, Stream(dec, buf, 0), |Stream(dec, buf, 0)|, x)
  }

  // ---- the rewrite ----

  ghost predicate AllSites(dec: Decoder, buf: seq<byte>, sites: map<nat, Edit>)
    requires Sound(dec)
  {
    (forall x :: x in sites <==> IsSite(dec, buf, x)) && forall x :: x in sites ==> sites[x] == ToPush
  }

  /** A site is a five-byte push of the stream. */
  lemma SitePush(dec: Decoder, buf: seq<byte>, x: nat) returns (i: nat)
    requires Sound(dec) && IsSite(dec, buf, x)
    ensures var s := Stream(dec, buf, 0); i < |s| && s[i].off == x && s[i].size == 5 && s[i].mn == "push"
    ensures x < |buf| && buf[x] == 0x68
  {
    hide Sound, Stream;
    var s := Stream(dec, buf, 0);
    var j: nat :| SiteOf(buf, s, j, |s|, x);
    i := j - 6;
  }

  ghost predicate Writable(buf: seq<byte>, found: set<nat>) {
    && (forall y :: y in found ==> y + 5 <= |buf| && buf[y] == 0x68)
    && (forall y, z :: y in found && z in found && y < z ==> y + 5 <= z)
  }

  /** Writing the operand bytes of the pushes; their opcode is already there. */
  method WriteAll(buf: seq<byte>, found: set<nat>) returns (r: seq<byte>)
    requires Writable(buf, found)
    ensures |r| == |buf| && Edited(buf, r, map x | x in found :: ToPush)
  {
    hide Edited, Limited, Splice;
    r := buf;
    var left := found;
    while left != {}
      invariant left <= found && Partly(buf, r, found, left)
      decreases |left|
    {
      var x :| x in left;
      OneWritten(buf, r, found, left, x);
      r := Splice(r, x + 1, [0xFF, 0x00, 0x00, 0x00]);
      left := left - {x};
    }
    AllWritten(buf, r, found, map x | x in found :: ToPush);
  }

  /** The rewrite of one object. */
  method WriteLimits(dec: Decoder, buf: seq<byte>) returns (r: seq<byte>, sites: map<nat, Edit>)
    requires Sound(dec)
    ensures |r| == |buf| && AllSites(dec, buf, sites) && Edited(buf, r, sites)
  {
    hide Sound, Stream, IsSite, AllSites, OnStream, Edited;
    var found := FindSites(dec, buf);
    sites := map x | x in found :: ToPush;
    Gathered(dec, buf, found, sites);
    SitesFit(dec, buf, sites);
    AllFit(buf, found, sites);
    r := WriteAll(buf, found);
  }

  lemma AllFit(buf: seq<byte>, found: set<nat>, sites: map<nat, Edit>)
    requires sites == (map x | x in found :: ToPush)
    requires forall x :: x in sites ==> x + 5 <= |buf| && buf[x] == 0x68
    requires forall x, y :: x in sites && y in sites && x < y ==> x + 5 <= y
    ensures Writable(buf, found)
  {
    assert forall x :: x in found <==> x in sites;
  }

  lemma Gathered(dec: Decoder, buf: seq<byte>, found: set<nat>, sites: map<nat, Edit>)
    requires Sound(dec) && sites == (map x | x in found :: ToPush) && forall x :: x in found <==> IsSite(dec, buf, x)
    ensures AllSites(dec, buf, sites)
  {
  }

  /** The sites not in `left` are done, and nothing else is. */
  ghost predicate Partly(buf: seq<byte>, r: seq<byte>, found: set<nat>, left: set<nat>) {
    && |r| == |buf|
    && (forall i :: 0 <= i < |buf| && (forall x :: x in found ==> !(x < i < x + 5)) ==> r[i] == buf[i])
    && (forall x :: x in found && x !in left ==> Limited(r, x))
  }

  lemma OneWritten(buf: seq<byte>, r: seq<byte>, found: set<nat>, left: set<nat>, x: nat)
    requires Partly(buf, r, found, left) && x in left && left <= found
    requires forall y :: y in found ==> y + 5 <= |buf|
    requires forall y, z :: y in found && z in found && y < z ==> y + 5 <= z
    ensures Partly(buf, Splice(r, x + 1, [0xFF, 0x00, 0x00, 0x00]), found, left - {x})
  {
    var u := Splice(r, x + 1, [0xFF, 0x00, 0x00, 0x00]);
    forall y | y in found && y !in left - {x}
      ensures Limited(u, y)
    {
      assert y != x ==> Limited(r, y) && (x + 5 <= y || y + 5 <= x);
    }
  }

  lemma AllWritten(buf: seq<byte>, r: seq<byte>, found: set<nat>, sites: map<nat, Edit>)
    requires sites == (map x | x in found :: ToPush) && Partly(buf, r, found, {})
    requires forall x :: x in found ==> x + 5 <= |buf| && buf[x] == 0x68
    requires forall y, z :: y in found && z in found && y < z ==> y + 5 <= z
    ensures Edited(buf, r, sites)
  {
    forall x | x in sites
      ensures r[x..x + 5] == PUSH_FF
    {
      PushWritten(buf, r, found, x);
    }
    forall i | 0 <= i < |buf| && Untouched(sites, i)
      ensures r[i] == buf[i]
    {
      forall x | x in found
        ensures !(x < i < x + 5)
      {
        assert x in sites;
      }
    }
  }

  lemma PushWritten(buf: seq<byte>, r: seq<byte>, found: set<nat>, x: nat)
    requires Partly(buf, r, found, {}) && x in found && x + 5 <= |buf| && buf[x] == 0x68
    requires forall y, z :: y in found && z in found && y < z ==> y + 5 <= z
    ensures |r| == |buf| && r[x..x + 5] == PUSH_FF
  {
    assert Limited(r, x);
    assert r[x] == buf[x];
  }

  /** `PUSH 0FFh` but for the opcode. */
  predicate Limited(r: seq<byte>, x: nat) {
    x + 5 <= |r| && r[x + 1] == 0xFF && r[x + 2] == 0 && r[x + 3] == 0 && r[x + 4] == 0
  }

  lemma SitesFit(dec: Decoder, buf: seq<byte>, sites: map<nat, Edit>)
    requires Sound(dec) && AllSites(dec, buf, sites)
    ensures forall x :: x in sites ==> x + 5 <= |buf| && buf[x] == 0x68
    ensures forall x, y :: x in sites && y in sites && x < y ==> x + 5 <= y
    ensures OnStream(Stream(dec, buf, 0), 0, sites)
  {
    hide Sound, Stream, IsSite;
    forall x | x in sites
      ensures x + 5 <= |buf| && buf[x] == 0x68 && SiteIn(Stream(dec, buf, 0), x, 5)
    {
      var i := SitePush(dec, buf, x);
      PushFits(dec, buf, 0, i);
    }
    forall x, y | x in sites && y in sites && x < y
      ensures x + 5 <= y
    {
      var i := SitePush(dec, buf, x);
      var j := SitePush(dec, buf, y);
      if i < j { StreamApart(dec, buf, i, j); } else if j < i { StreamApart(dec, buf, j, i); }
    }
  }

  lemma {:induction false} PushFits(dec: Decoder, buf: seq<byte>, pc: nat, i: nat)
    requires Sound(dec) && i < |Stream(dec, buf, pc)| && Stream(dec, buf, pc)[i].size < 6
    ensures Stream(dec, buf, pc)[i].off + Stream(dec, buf, pc)[i].size <= |buf|
    decreases |buf| - pc
  {
    hide Sound;
    var e := Step(dec, buf, pc);
    if e.None? {
      PushFits(dec, buf, pc + 1, i);
    } else {
      StepSize(dec, buf, pc);
      if i > 0 {
        PushFits(dec, buf, pc + e.value.size, i - 1);
      }
    }
  }

  lemma {:induction false} RewrittenAt(s: seq<Entry>, sites: map<nat, Edit>, n: nat, i: nat)
    requires i < |s| && forall x :: x in sites ==> sites[x] == ToPush
    ensures |Rewritten(s, sites, n)| == |s|
    ensures Rewritten(s, sites, n)[i] == if s[i].off in sites then Entry(s[i].off, 5, "push", Hex(0xFF)) else s[i]
    decreases |s|
  {
    if |s| > 1 {
      RewrittenAt(s[1..], sites, n, if i == 0 then 0 else i - 1);
    }
  }

  /** Same places, same sizes, same mnemonics: only operands differ, and only at sites. */
  lemma Skeleton(dec: Decoder, buf: seq<byte>, r: seq<byte>, sites: map<nat, Edit>)
    requires Sound(dec) && AllSites(dec, buf, sites) && Edited(buf, r, sites) && StillSkipped(dec, buf, r, 0)
    ensures var s, u := Stream(dec, buf, 0), Stream(dec, r, 0);
      |u| == |s| && forall i :: 0 <= i < |s| ==> Relimited(s[i], u[i], s[i].off in sites)
  {
    hide Sound, Stream, IsSite, Edited, StillSkipped, Rewritten;
    SitesFit(dec, buf, sites);
    PatchRewrites(dec, buf, r, sites);
    var s, u := Stream(dec, buf, 0), Stream(dec, r, 0);
    forall i | 0 <= i < |s|
      ensures |u| == |s| && Relimited(s[i], u[i], s[i].off in sites)
    {
      RewrittenAt(s, sites, |buf|, i);
      if s[i].off in sites {
        var j := SitePush(dec, buf, s[i].off);
        OffsUnique(dec, buf, i, j);
      }
    }
    if s == [] {
      NoneRewritten(sites, |buf|);
    } else {
      RewrittenAt(s, sites, |buf|, 0);
    }
  }

  lemma NoneRewritten(sites: map<nat, Edit>, n: nat)
    ensures Rewritten([], sites, n) == []
  {
  }

  predicate Relimited(e: Entry, u: Entry, site: bool) {
    && u.off == e.off && u.size == e.size && u.mn == e.mn
    && (if site then u.mn == "push" && u.ops == Hex(XT_MAX_PAGE) else u.ops == e.ops)
  }

  lemma {:induction false} PushesSame(s: seq<Entry>, u: seq<Entry>, i: nat, n: nat)
    requires |u| == |s| && i <= |s| && forall j :: 0 <= j < |s| ==> u[j].mn == s[j].mn
    ensures Pushes(u, i, n) == Pushes(s, i, n)
    decreases n
  {
    if n > 0 && i > 0 && s[i - 1].mn == "push" {
      PushesSame(s, u, i - 1, n - 1);
    }
  }

  /** The rewrite is complete: looking again finds nothing left to change. */
  lemma NothingLeft(dec: Decoder, buf: seq<byte>, r: seq<byte>, sites: map<nat, Edit>, x: nat)
    requires Sound(dec) && AllSites(dec, buf, sites) && Edited(buf, r, sites) && StillSkipped(dec, buf, r, 0)
    ensures !IsSite(dec, r, x)
  {
    hide Sound, Stream, StillSkipped, Pushes, AllSites, Edited;
    Skeleton(dec, buf, r, sites);
    var s, u := Stream(dec, buf, 0), Stream(dec, r, 0);
    if IsSite(dec, r, x) {
      var i: nat :| SiteOf(r, u, i, |u|, x);
      assert Relimited(s[i], u[i], s[i].off in sites);
      assert Relimited(s[i - 6], u[i - 6], s[i - 6].off in sites);
      PushesSame(s, u, i, 8);
      SameOpcode(dec, buf, r, sites, i - 6);
      assert SiteOf(buf, s, i, |s|, x);
      SiteKnown(dec, buf, sites, x);
    }
  }

  lemma SiteKnown(dec: Decoder, buf: seq<byte>, sites: map<nat, Edit>, x: nat)
    requires Sound(dec) && AllSites(dec, buf, sites) && IsSite(dec, buf, x)
    ensures x in sites
  {
  }

  lemma SameOpcode(dec: Decoder, buf: seq<byte>, r: seq<byte>, sites: map<nat, Edit>, i: nat)
    requires Sound(dec) && AllSites(dec, buf, sites) && Edited(buf, r, sites)
    requires i < |Stream(dec, buf, 0)| && Stream(dec, buf, 0)[i].off !in sites
    ensures Stream(dec, buf, 0)[i].off < |buf| && r[Stream(dec, buf, 0)[i].off] == buf[Stream(dec, buf, 0)[i].off]
  {
    hide Sound, Stream, IsSite;
    var x := Stream(dec, buf, 0)[i].off;
    StreamRises(dec, buf, 0, i);
    forall o | o in sites
      ensures !(o <= x < o + 5)
    {
      var j := SitePush(dec, buf, o);
      if i < j { StreamApart(dec, buf, i, j); } else if j < i { StreamApart(dec, buf, j, i); }
    }
    assert Untouched(sites, x);
  }
}
