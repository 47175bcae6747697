/** The page limit lowered in a whole driver file (`main` of vxd-patches/patch_vxd_dma_maxphys.py). */
module VxdMaxFile {
  import opened Bytes
  import opened VxdStream
  import opened VxdPatch
  import opened VxdMaxPhys
  import opened Wrappers

  /** At offset `x` of the file lies a push to rewrite, at offset `o` of object `k`. */
  ghost predicate PushAt(dec: Decoder, d: seq<byte>, k: nat, o: nat, x: nat)
    requires Sound(dec) && Loadable(d)
  {
    && k < |Maps(d)| && o < |Maps(d)[k]| && Maps(d)[k][o] == x
    && IsSite(dec, Text(d, k), o)
  }

  ghost function Text(d: seq<byte>, k: nat): seq<byte>
    requires Loadable(d) && k < |Maps(d)|
  {
    Contents(d, Maps(d)[k])
  }

  /** The five bytes of each push lie side by side in the file. */
  ghost predicate PushesStraight(dec: Decoder, d: seq<byte>)
    requires Sound(dec) && Loadable(d)
  {
    forall k: nat, o: nat, x: nat :: PushAt(dec, d, k, o, x) ==> Run(Maps(d)[k], o, 5)
  }

  /** The pushes of the first `n` objects. */
  ghost predicate Gathering(dec: Decoder, d: seq<byte>, n: nat, sites: set<nat>)
    requires Sound(dec) && Loadable(d)
  {
    forall x: nat :: x in sites <==> exists k: nat, o: nat :: k < n && PushAt(dec, d, k, o, x)
  }

  lemma GatherNext(dec: Decoder, d: seq<byte>, k: nat, sites: set<nat>, found: set<nat>, more: set<nat>)
    requires Sound(dec) && Loadable(d) && Gathering(dec, d, k, sites) && k < |Maps(d)|
    requires forall o :: o in found <==> IsSite(dec, Text(d, k), o)
    requires forall o :: o in found ==> o < |Maps(d)[k]|
    requires forall x :: x in more <==> exists o :: o in found && Maps(d)[k][o] == x
    ensures Gathering(dec, d, k + 1, sites + more)
  {
    hide Sound, Loadable, Maps, Text, IsSite;
    forall x: nat
      ensures x in sites + more <==> exists l: nat, o: nat :: l < k + 1 && PushAt(dec, d, l, o, x)
    {
      if x in more {
        var o :| o in found && Maps(d)[k][o] == x;
        assert PushAt(dec, d, k, o, x);
      }
      if x in sites {
        var l: nat, o: nat :| l < k && PushAt(dec, d, l, o, x);
        assert l < k + 1 && PushAt(dec, d, l, o, x);
      }
      if l: nat, o: nat :| l < k + 1 && PushAt(dec, d, l, o, x) {
        if l == k {
          assert o in found && Maps(d)[k][o] == x;
        } else {
          assert l < k && PushAt(dec, d, l, o, x);
        }
      }
    }
  }

  lemma SitesInside(dec: Decoder, buf: seq<byte>, found: set<nat>)
    requires Sound(dec) && forall x :: x in found <==> IsSite(dec, buf, x)
    ensures forall x :: x in found ==> x < |buf|
  {
    hide Sound, IsSite, Stream;
    forall x | x in found
      ensures x < |buf|
    {
      var i := SitePush(dec, buf, x);
    }
  }

  lemma NoPush(dec: Decoder, d: seq<byte>, k: nat, sites: set<nat>)
    requires Sound(dec) && Loadable(d) && Gathering(dec, d, k, sites) && k < |Maps(d)| && Maps(d)[k] == []
    ensures Gathering(dec, d, k + 1, sites)
  {
    hide Sound, Loadable, Maps, IsSite;
    forall x: nat
      ensures x in sites <==> exists l: nat, o: nat :: l < k + 1 && PushAt(dec, d, l, o, x)
    {
      if x in sites {
        var l: nat, o: nat :| l < k && PushAt(dec, d, l, o, x);
        assert l < k + 1 && PushAt(dec, d, l, o, x);
      }
    }
  }

  /** `find_sites` */
  method FindFileSites(dec: Decoder, d: seq<byte>) returns (sites: set<nat>)
    requires Sound(dec) && Loadable(d)
    ensures forall x: nat :: x in sites <==> exists k: nat, o: nat :: PushAt(dec, d, k, o, x)
  {
    hide Sound, Loadable, Maps, Contents, Placed, FileMap, HasHeader, LeObjects, Obj.Executable, Gathering, IsSite,
      Text;
    sites := {};
    ShapeOf(d);
    var le := LeObjects(d);
    NothingGathered(dec, d);
    for k := 0 to |le.objs|
      invariant Gathering(dec, d, k, sites)
    {
      if le.objs[k].Executable() {
        var buf, fmap := Load(d, le, le.objs[k]);
        TextIs(d, k, buf);
        var found := FindSites(dec, buf);
        SitesInside(dec, buf, found);
        var more := set o | o in found :: fmap[o];
        GatherNext(dec, d, k, sites, found, more);
        sites := sites + more;
      } else {
        NoPush(dec, d, k, sites);
      }
    }
    AllGathered(dec, d, sites);
  }

  lemma TextIs(d: seq<byte>, k: nat, buf: seq<byte>)
    requires Loadable(d) && k < |Maps(d)| && InFile(Maps(d), |d|) && buf == Contents(d, Maps(d)[k])
    ensures Text(d, k) == buf
  {
  }

  lemma NothingGathered(dec: Decoder, d: seq<byte>)
    requires Sound(dec) && Loadable(d)
    ensures Gathering(dec, d, 0, {})
  {
  }

  lemma AllGathered(dec: Decoder, d: seq<byte>, sites: set<nat>)
    requires Sound(dec) && Loadable(d) && Gathering(dec, d, |Maps(d)|, sites)
    ensures forall x: nat :: x in sites <==> exists k: nat, o: nat :: PushAt(dec, d, k, o, x)
  {
    hide Sound, Loadable, Maps, IsSite;
    forall x: nat, k: nat, o: nat | PushAt(dec, d, k, o, x)
      ensures k < |Maps(d)|
    {
    }
  }

  // ---- the rewrite ----

  function Limits(sites: set<nat>): (goods: map<nat, Edit>)
    ensures forall x :: x in goods <==> x in sites
    ensures forall x :: x in goods ==> goods[x] == ToPush
  {
    map x | x in sites :: ToPush
  }

  ghost predicate FileSites(dec: Decoder, d: seq<byte>, sites: set<nat>)
    requires Sound(dec) && Loadable(d)
  {
    forall x: nat :: x in sites <==> exists k: nat, o: nat :: PushAt(dec, d, k, o, x)
  }

  lemma PushPlace(dec: Decoder, d: seq<byte>, k: nat, o: nat, x: nat)
    requires Sound(dec) && Loadable(d) && PushAt(dec, d, k, o, x)
    ensures Fits(dec, d, x, 5) && x < |d| && d[x] == 0x68
  {
    hide Sound, Loadable, Maps, Stream, IsSite;
    ShapeOf(d);
    var i := SitePush(dec, Text(d, k), o);
    assert IsAt(dec, d, k, i, x) && ObjStream(dec, d, k)[i].size == 5;
  }

  lemma SamePush(dec: Decoder, d: seq<byte>, k: nat, o: nat, l: nat, p: nat, x: nat)
    requires Sound(dec) && Loadable(d) && Apart(Maps(d)) && PushAt(dec, d, k, o, x)
    requires l < |Maps(d)| && p < |Maps(d)[l]| && Maps(d)[l][p] == x
    ensures l == k && p == o
  {
    hide Sound, Loadable, Maps, IsSite;
  }

  /** The sites are whole instructions of the program, and their bytes lie side by side. */
  lemma SitesOnProgram(dec: Decoder, d: seq<byte>, sites: set<nat>)
    requires Sound(dec) && Loadable(d) && Apart(Maps(d)) && PushesStraight(dec, d) && FileSites(dec, d, sites)
    ensures OnProgram(dec, d, Limits(sites)) && Straight(Maps(d), Limits(sites)) && Writable(d, sites)
  {
    hide Sound, Loadable, Maps, Apart, PushAt, Fits, Run;
    var goods := Limits(sites);
    ShapeOf(d);
    forall x | x in goods
      ensures Fits(dec, d, x, |goods[x].Code()|) && x < |d| && d[x] == 0x68
    {
      var k: nat, o: nat :| PushAt(dec, d, k, o, x);
      PushPlace(dec, d, k, o, x);
    }
    forall k, i | 0 <= k < |Maps(d)| && 0 <= i < |Maps(d)[k]| && Maps(d)[k][i] in goods
      ensures Run(Maps(d)[k], i, |goods[Maps(d)[k][i]].Code()|)
    {
      var l: nat, o: nat :| PushAt(dec, d, l, o, Maps(d)[k][i]);
      SamePush(dec, d, l, o, k, i, Maps(d)[k][i]);
    }
    ProgramApart(dec, d, goods);
    forall x | x in sites
      ensures x + 5 <= |d|
    {
      var k: nat, o: nat :| PushAt(dec, d, k, o, x);
      RunFits(dec, d, k, o, x);
    }
    ApartSites(goods, sites);
  }

  lemma ApartSites(goods: map<nat, Edit>, sites: set<nat>)
    requires EditsApart(goods) && goods == Limits(sites)
    ensures forall y, z :: y in sites && z in sites && y < z ==> y + 5 <= z
  {
  }

  lemma RunFits(dec: Decoder, d: seq<byte>, k: nat, o: nat, x: nat)
    requires Sound(dec) && Loadable(d) && PushesStraight(dec, d) && PushAt(dec, d, k, o, x)
    ensures x + 5 <= |d|
  {
    hide Sound, Loadable, Maps, IsSite;
    ShapeOf(d);
    assert Run(Maps(d)[k], o, 5);
    assert Maps(d)[k][o + 4] == x + 4;
  }

  /** `main`; `None` where nothing needs changing. The check of what has changed cannot fail. */
  method LimitFile(dec: Decoder, d: seq<byte>) returns (r: Option<seq<byte>>, ok: bool, sites: set<nat>)
    requires Sound(dec) && Loadable(d) && Apart(Maps(d)) && PushesStraight(dec, d)
    ensures FileSites(dec, d, sites) && (r.None? <==> sites == {})
    ensures OnProgram(dec, d, Limits(sites)) && Straight(Maps(d), Limits(sites))
    ensures r.Some? ==> ok && Edited(d, r.value, Limits(sites))
  {
    hide Sound, Loadable, Maps, Apart, PushesStraight, PushAt, OnProgram, Straight, Edited, Writable, Changed;
    sites := FindFileSites(dec, d);
    SitesOnProgram(dec, d, sites);
    ok := false;
    if sites == {} {
      return None, ok, sites;
    }
    var data := WriteAll(d, sites);
    assert Limits(sites) == map x | x in sites :: ToPush;
    var changed := Changed(d, data);
    OnlyOperands(d, data, sites);
    ok := forall i :: i in changed ==> exists x :: x in sites && x + 1 <= i < x + 5;
    return Some(data), ok, sites;
  }

  lemma OnlyOperands(d: seq<byte>, r: seq<byte>, sites: set<nat>)
    requires Edited(d, r, Limits(sites)) && Writable(d, sites)
    ensures forall i :: i in Changed(d, r) ==> exists x :: x in sites && x + 1 <= i < x + 5
  {
    var goods := Limits(sites);
    forall i | i in Changed(d, r)
      ensures exists x :: x in sites && x + 1 <= i < x + 5
    {
      assert !Untouched(goods, i);
      var x :| x in goods && x <= i < x + |goods[x].Code()|;
      assert r[x..x + 5] == PUSH_FF && r[x] == r[x..x + 5][0] == 0x68;
    }
  }

  /** Looked at again, the file has the same skeleton of instructions and nothing left to change. */
  lemma FileDone(dec: Decoder, d: seq<byte>, r: seq<byte>, sites: set<nat>, n: nat, k: nat)
    requires Sound(dec) && Loadable(d) && Apart(Maps(d)) && FileSites(dec, d, sites)
    requires OnProgram(dec, d, Limits(sites)) && Straight(Maps(d), Limits(sites)) && Edited(d, r, Limits(sites))
    requires TablesBelow(d, n) && (forall x :: x in sites ==> x >= n) && k < |Maps(d)| && InFile(Maps(d), |d|)
    requires |r| == |d| && StillSkipped(dec, Text(d, k), Contents(r, Maps(d)[k]), 0)
    ensures Loadable(r) && Maps(r) == Maps(d)
    ensures var s, u := ObjStream(dec, d, k), ObjStream(dec, r, k);
      |u| == |s| && forall i :: 0 <= i < |s| ==> Relimited(s[i], u[i], s[i].off in SitesOf(Maps(d)[k], Limits(sites)))
    ensures forall o: nat, x: nat :: !PushAt(dec, r, k, o, x)
  {
    hide *;
    var fmap, goods := Maps(d)[k], Limits(sites);
    LimitsIn(sites);
    StartKept(d, r, goods, n);
    SameTables(d, r, n);
    StreamOf(dec, d, k, fmap);
    StreamOf(dec, r, k, fmap);
    TextEdited(dec, d, r, goods, k);
    TextIs(d, k, Contents(d, fmap));
    TextIs(r, k, Contents(r, fmap));
    SitesThere(dec, d, sites, k);
    Skeleton(dec, Contents(d, fmap), Contents(r, fmap), SitesOf(fmap, goods));
    forall o: nat, x: nat
      ensures !PushAt(dec, r, k, o, x)
    {
      NothingLeft(dec, Contents(d, fmap), Contents(r, fmap), SitesOf(fmap, goods), o);
      NoSiteNoPush(dec, r, k, o, x);
    }
  }

  /** The same under a condition on the stock file alone: no site near a byte that starts no instruction. */
  lemma FileDoneFar(dec: Decoder, d: seq<byte>, r: seq<byte>, sites: set<nat>, n: nat, k: nat)
    requires Sound(dec) && Loadable(d) && Apart(Maps(d)) && FileSites(dec, d, sites)
    requires OnProgram(dec, d, Limits(sites)) && Straight(Maps(d), Limits(sites)) && Edited(d, r, Limits(sites))
    requires TablesBelow(d, n) && (forall x :: x in sites ==> x >= n) && k < |Maps(d)|
      && FarIn(dec, d, Limits(sites), k)
    ensures Loadable(r) && Maps(r) == Maps(d)
    ensures var s, u := ObjStream(dec, d, k), ObjStream(dec, r, k);
      |u| == |s| && forall i :: 0 <= i < |s| ==> Relimited(s[i], u[i], s[i].off in SitesOf(Maps(d)[k], Limits(sites)))
    ensures forall o: nat, x: nat :: !PushAt(dec, r, k, o, x)
  {
    hide *;
    FarFile(dec, d, r, Limits(sites), k);
    StreamOf(dec, d, k, Maps(d)[k]);
    TextIs(d, k, Contents(d, Maps(d)[k]));
    FileDone(dec, d, r, sites, n, k);
  }

  lemma LimitsIn(sites: set<nat>)
    ensures forall x :: x in Limits(sites) <==> x in sites
  {
  }

  lemma NoSiteNoPush(dec: Decoder, d: seq<byte>, k: nat, o: nat, x: nat)
    requires Sound(dec) && Loadable(d) && k < |Maps(d)| && !IsSite(dec, Text(d, k), o)
    ensures !PushAt(dec, d, k, o, x)
  {
  }

  lemma SitesThere(dec: Decoder, d: seq<byte>, sites: set<nat>, k: nat)
    requires Sound(dec) && Loadable(d) && Apart(Maps(d)) && FileSites(dec, d, sites) && k < |Maps(d)|
    ensures AllSites(dec, Text(d, k), SitesOf(Maps(d)[k], Limits(sites)))
  {
    hide Sound, Loadable, Maps, Apart, IsSite, Text, FileSites, PushAt, SitesOf;
    var at := SitesOf(Maps(d)[k], Limits(sites));
    SitesIn(Maps(d)[k], sites);
    forall o: nat
      ensures o in at <==> IsSite(dec, Text(d, k), o)
    {
      if IsSite(dec, Text(d, k), o) { SiteInside(dec, d, k, o); }
      if o < |Maps(d)[k]| { SiteThere(dec, d, sites, k, o); }
    }
  }

  lemma SitesIn(fmap: seq<nat>, sites: set<nat>)
    ensures var at := SitesOf(fmap, Limits(sites));
      (forall o: nat :: o in at <==> o < |fmap| && fmap[o] in sites) && forall o :: o in at ==> at[o] == ToPush
  {
  }

  lemma SiteThere(dec: Decoder, d: seq<byte>, sites: set<nat>, k: nat, o: nat)
    requires Sound(dec) && Loadable(d) && Apart(Maps(d)) && FileSites(dec, d, sites) && k < |Maps(d)|
      && o < |Maps(d)[k]|
    ensures Maps(d)[k][o] in sites <==> IsSite(dec, Text(d, k), o)
  {
    hide Sound, Loadable, Maps, Apart, IsSite, Text;
    var x := Maps(d)[k][o];
    if x in sites {
      var l: nat, p: nat :| PushAt(dec, d, l, p, x);
      SamePush(dec, d, l, p, k, o, x);
    }
    if IsSite(dec, Text(d, k), o) {
      assert PushAt(dec, d, k, o, x);
    }
  }

  lemma SiteInside(dec: Decoder, d: seq<byte>, k: nat, o: nat)
    requires Sound(dec) && Loadable(d) && k < |Maps(d)| && IsSite(dec, Text(d, k), o)
    ensures o < |Maps(d)[k]|
  {
    hide Sound, Loadable, Maps, IsSite, Stream;
    var i := SitePush(dec, Text(d, k), o);
  }
}
