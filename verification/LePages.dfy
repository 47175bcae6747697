/** The report of tools/lefixups.py: each fixup of a linear executable, with the object and the place in it that it
    patches. */
module LePages {
  import opened Arith
  import opened Bytes
  import opened LeFixups
  import opened Wrappers

  const MZ: seq<byte> := [0x4D, 0x5A]

  /** What `main` takes from the header: where it is, the tables behind it, and how many pages and objects there are. */
  datatype Header = Header(le: nat, pages: nat, pageSize: nat, objTable: nat, objects: nat, pageTable: nat,
    records: nat)

  /** The pages of an object, counted from 1: the first one, and how many. */
  datatype Run = Run(first: nat, count: nat)

  /** `None` where the file is too short for the header. */
  function HeaderOf(d: seq<byte>): Option<Header> {
    var mz := |d| >= 2 && d[..2] == MZ;
    if mz && |d| < 0x40 then None
    else
      var le := if mz then U32(d, 0x3C) else 0;
      if le + 0x70 > |d| then None
      else
        Some(Header(le, U32(d, le + 0x14), U32(d, le + 0x28), U32(d, le + 0x40), U32(d, le + 0x44), U32(d, le + 0x68),
                    U32(d, le + 0x6C)))
  }

  function RowAt(h: Header, i: nat): nat {
    h.le + h.objTable + i * 24
  }

  /** The page runs of the first `n` objects. */
  function Runs(d: seq<byte>, h: Header, n: nat): (r: Option<seq<Run>>)
    ensures r.Some? ==> |r.value| == n
  {
    if n == 0 then Some([])
    else
      var init := Runs(d, h, n - 1);
      if init.None? || RowAt(h, n - 1) + 24 > |d| then None
      else Some(init.value + [Run(U32(d, RowAt(h, n - 1) + 12), U32(d, RowAt(h, n - 1) + 16))])
  }

  // ---- which object owns a page ----

  predicate Holding(r: Run, p: nat) {
    r.first <= p < r.first + r.count
  }

  /** Object, from 1 on, and the page's offset in it; no object is 0. */
  type Owner = (nat, nat)

  function OwnerOf(runs: seq<Run>, size: nat, p: nat): Owner {
    if runs == [] then (0, 0)
    else
      var i := |runs| - 1;
      if Holding(runs[i], p) then (i + 1, (p - runs[i].first) * size) else OwnerOf(runs[..i], size, p)
  }

  /** A page is the last object's that claims it, at its place there; it is nobody's exactly if none does. */
  lemma {:induction false} OwnerIs(runs: seq<Run>, size: nat, p: nat)
    ensures var o := OwnerOf(runs, size, p).0;
      if o == 0 then forall i :: 0 <= i < |runs| ==> !Holding(runs[i], p)
      else
        && o <= |runs| && Holding(runs[o - 1], p) && (forall i :: o <= i < |runs| ==> !Holding(runs[i], p))
        && OwnerOf(runs, size, p).1 == (p - runs[o - 1].first) * size
    decreases |runs|
  {
    hide Holding;
    if runs != [] {
      OwnerIs(runs[..|runs| - 1], size, p);
    }
  }

  /** In a file whose objects share no page, page `k` of each object is that object's, at offset `k` pages. */
  lemma OwnPage(runs: seq<Run>, size: nat, i: nat, k: nat)
    requires i < |runs| && k < runs[i].count
    requires forall j, p :: 0 <= j < |runs| && j != i && Holding(runs[i], p) ==> !Holding(runs[j], p)
    ensures OwnerOf(runs, size, runs[i].first + k) == (i + 1, k * size)
  {
    var p := runs[i].first + k;
    OwnerIs(runs, size, p);
    assert Holding(runs[i], p);
  }

  ghost predicate OwnerMap(owner: map<nat, Owner>, runs: seq<Run>, size: nat) {
    forall p :: (if p in owner then owner[p] else (0, 0)) == OwnerOf(runs, size, p)
  }

  /** The loops that fill `owner`; a page two objects claim is overwritten. */
  method Owners(d: seq<byte>, h: Header) returns (owner: Option<map<nat, Owner>>)
    ensures owner.None? <==> Runs(d, h, h.objects).None?
    ensures owner.Some? ==> OwnerMap(owner.value, Runs(d, h, h.objects).value, h.pageSize)
  {
    hide U32, RowAt;
    var m: map<nat, Owner> := map[];
    for i := 0 to h.objects
      invariant Runs(d, h, i).Some? && OwnerMap(m, Runs(d, h, i).value, h.pageSize)
    {
      var row := RowAt(h, i);
      if row + 24 > |d| {
        RunsEnd(d, h, i + 1, h.objects);
        return None;
      }
      var run := Run(U32(d, row + 12), U32(d, row + 16));
      ghost var was := m;
      for k := 0 to run.count
        invariant Filled(was, m, run, k, i, h.pageSize)
      {
        FillOne(was, m, run, k, i, h.pageSize);
        m := m[run.first + k := (i + 1, k * h.pageSize)];
      }
      RunFilled(was, m, run, Runs(d, h, i).value, h.pageSize);
    }
    return Some(m);
  }

  /** The first `k` pages of the run are the new object's, the rest is as it was. */
  ghost predicate Filled(was: map<nat, Owner>, m: map<nat, Owner>, run: Run, k: nat, i: nat, size: nat) {
    forall p ::
      if run.first <= p < run.first + k then p in m && m[p] == (i + 1, (p - run.first) * size)
      else (p in m <==> p in was) && (p in m ==> m[p] == was[p])
  }

  lemma FillOne(was: map<nat, Owner>, m: map<nat, Owner>, run: Run, k: nat, i: nat, size: nat)
    requires Filled(was, m, run, k, i, size)
    ensures Filled(was, m[run.first + k := (i + 1, k * size)], run, k + 1, i, size)
  {
  }

  lemma RunFilled(was: map<nat, Owner>, m: map<nat, Owner>, run: Run, runs: seq<Run>, size: nat)
    requires OwnerMap(was, runs, size) && Filled(was, m, run, run.count, |runs|, size)
    ensures OwnerMap(m, runs + [run], size)
  {
    var more := runs + [run];
    assert more[..|runs|] == runs;
    forall p
      ensures (if p in m then m[p] else (0, 0)) == OwnerOf(more, size, p)
    {
      assert (if p in was then was[p] else (0, 0)) == OwnerOf(runs, size, p);
    }
  }

  lemma {:induction false} RunsEnd(d: seq<byte>, h: Header, i: nat, n: nat)
    requires Runs(d, h, i).None? && i <= n
    ensures Runs(d, h, n).None?
    decreases n
  {
    if i < n {
      RunsEnd(d, h, i, n - 1);
    }
  }

  // ---- the lines of the report ----

  /** A patched place and what is put there. */
  datatype Line = Line(page: nat, obj: nat, pos: int, src: nat, target: Target, add: nat)

  /** A source offset is signed: a fixup may begin in the page before. */
  function Signed(w: nat): int {
    if w < 0x8000 then w else w - 0x1_0000
  }

  function LineOf(p: nat, own: Owner, f: Fixup, j: nat): Line
    requires j < |f.srcs|
  {
    Line(p, own.0, own.1 + Signed(f.srcs[j]), f.st % 16, TargetOf(f), f.add)
  }

  function FixupLines(p: nat, own: Owner, f: Fixup): (ls: seq<Line>)
    ensures |ls| == |f.srcs| && forall j :: 0 <= j < |ls| ==> ls[j] == LineOf(p, own, f, j)
  {
    seq(|f.srcs|, j requires 0 <= j < |f.srcs| => LineOf(p, own, f, j))
  }

  function RecordLines(p: nat, own: Owner, fs: seq<Fixup>): seq<Line> {
    if fs == [] then [] else RecordLines(p, own, fs[..|fs| - 1]) + FixupLines(p, own, fs[|fs| - 1])
  }

  /** The records of page `p`: the page table says where they begin and where the next page's do. */
  function PageRecords(d: seq<byte>, h: Header, p: nat): Option<seq<Fixup>>
    requires p >= 1
  {
    var t := h.le + h.pageTable + (p - 1) * 4;
    if t + 8 > |d| then None
    else
      var r := Decoded(d, h.le + h.records + U32(d, t), h.le + h.records + U32(d, t + 4));
      if r.None? then None else Some(r.value.0)
  }

  /** The lines of the pages up to `n`, or of page `only` if that is not 0. */
  function Lines(d: seq<byte>, h: Header, runs: seq<Run>, only: nat, n: nat): Option<seq<Line>> {
    if n == 0 then Some([])
    else
      var init := Lines(d, h, runs, only, n - 1);
      if init.None? || (only != 0 && n != only) then init
      else
        var fs := PageRecords(d, h, n);
        if fs.None? then None else Some(init.value + RecordLines(n, OwnerOf(runs, h.pageSize, n), fs.value))
  }

  predicate Asked(at: Option<(int, int)>, l: Line) {
    at.None? || (at.value.0 == l.obj && at.value.1 == l.pos)
  }

  /** The lines that `--at` lets through. */
  function Kept(ls: seq<Line>, at: Option<(int, int)>): seq<Line> {
    if ls == [] then []
    else Kept(ls[..|ls| - 1], at) + if Asked(at, ls[|ls| - 1]) then [ls[|ls| - 1]] else []
  }

  function Report(d: seq<byte>, only: nat, at: Option<(int, int)>): Option<seq<Line>> {
    var h := HeaderOf(d);
    if h.None? then None
    else
      var runs := Runs(d, h.value, h.value.objects);
      if runs.None? then None
      else
        var ls := Lines(d, h.value, runs.value, only, h.value.pages);
        if ls.None? then None else Some(Kept(ls.value, at))
  }

  /** Fixup `i` of page `p` has `l` for its source `j`. */
  ghost predicate Patches(d: seq<byte>, h: Header, runs: seq<Run>, p: nat, i: nat, j: nat, l: Line) {
    && p >= 1 && PageRecords(d, h, p).Some? && i < |PageRecords(d, h, p).value|
      && j < |PageRecords(d, h, p).value[i].srcs|
    && l == LineOf(p, OwnerOf(runs, h.pageSize, p), PageRecords(d, h, p).value[i], j)
  }

  /** Some fixup of the pages asked for has that line. */
  ghost predicate Patched(d: seq<byte>, h: Header, runs: seq<Run>, only: nat, n: nat, l: Line) {
    exists p: nat, i: nat, j: nat :: p <= n && (only == 0 || p == only) && Patches(d, h, runs, p, i, j, l)
  }

  lemma {:induction false} InRecords(p: nat, own: Owner, fs: seq<Fixup>, l: Line)
    ensures l in RecordLines(p, own, fs) <==>
      exists i: nat, j: nat :: i < |fs| && j < |fs[i].srcs| && l == LineOf(p, own, fs[i], j)
    decreases |fs|
  {
    hide LineOf;
    if fs != [] {
      var n := |fs| - 1;
      InRecords(p, own, fs[..n], l);
      assert forall i :: 0 <= i < n ==> fs[..n][i] == fs[i];
      if l in FixupLines(p, own, fs[n]) {
        var j :| 0 <= j < |fs[n].srcs| && FixupLines(p, own, fs[n])[j] == l;
        assert l == LineOf(p, own, fs[n], j);
      }
      forall j: nat | j < |fs[n].srcs| && l == LineOf(p, own, fs[n], j)
        ensures l in FixupLines(p, own, fs[n])
      {
        assert FixupLines(p, own, fs[n])[j] == l;
      }
    }
  }

  lemma {:induction false} InLines(d: seq<byte>, h: Header, runs: seq<Run>, only: nat, n: nat, l: Line)
    requires Lines(d, h, runs, only, n).Some?
    ensures l in Lines(d, h, runs, only, n).value <==> Patched(d, h, runs, only, n, l)
    decreases n
  {
    hide LineOf, OwnerOf, PageRecords, RecordLines;
    if n > 0 {
      InLines(d, h, runs, only, n - 1, l);
      if only == 0 || n == only {
        var own, fs := OwnerOf(runs, h.pageSize, n), PageRecords(d, h, n).value;
        InRecords(n, own, fs, l);
        if l in RecordLines(n, own, fs) {
          var i: nat, j: nat :| i < |fs| && j < |fs[i].srcs| && l == LineOf(n, own, fs[i], j);
          assert Patches(d, h, runs, n, i, j, l);
        }
      }
    }
  }

  lemma {:induction false} InKept(ls: seq<Line>, at: Option<(int, int)>, l: Line)
    ensures l in Kept(ls, at) <==> l in ls && Asked(at, l)
    decreases |ls|
  {
    hide Asked;
    if ls != [] {
      InKept(ls[..|ls| - 1], at, l);
      assert ls == ls[..|ls| - 1] + [ls[|ls| - 1]];
    }
  }

  /** `--at obj:off` lists exactly the fixups whose source is that place of that object. */
  lemma ReportedIff(d: seq<byte>, only: nat, at: Option<(int, int)>, l: Line)
    requires Report(d, only, at).Some?
    ensures var h := HeaderOf(d).value; var runs := Runs(d, h, h.objects).value;
      l in Report(d, only, at).value <==> Asked(at, l) && Patched(d, h, runs, only, h.pages, l)
  {
    hide HeaderOf, Runs, Lines, Kept, Asked, Patched;
    var h := HeaderOf(d).value;
    var runs := Runs(d, h, h.objects).value;
    InLines(d, h, runs, only, h.pages, l);
    InKept(Lines(d, h, runs, only, h.pages).value, at, l);
  }

  // ---- the tool ----

  /** The lines of one page's records; the owner comes out of the map, or is (0, 0). */
  method LinesOf(fs: seq<Fixup>, p: nat, own: Owner, at: Option<(int, int)>, before: seq<Line>, ghost all: seq<Line>)
    returns (out: seq<Line>)
    requires before == Kept(all, at)
    ensures out == Kept(all + RecordLines(p, own, fs), at)
  {
    hide Kept, Asked, RecordLines, LineOf, FixupLines;
    out := before;
    ghost var done := all;
    RecordsNone(p, own);
    assert all + [] == all && fs[..0] == [];
    for i := 0 to |fs|
      invariant done == all + RecordLines(p, own, fs[..i]) && out == Kept(done, at)
    {
      RecordsNext(p, own, fs, i, all);
      ghost var was := done;
      assert was + FixupLines(p, own, fs[i])[..0] == was;
      for j := 0 to |fs[i].srcs|
        invariant done == was + FixupLines(p, own, fs[i])[..j] && out == Kept(done, at)
      {
        var l := LineOf(p, own, fs[i], j);
        KeptNext(done, at, l);
        assert FixupLines(p, own, fs[i])[..j + 1] == FixupLines(p, own, fs[i])[..j] + [l];
        if Asked(at, l) {
          out := out + [l];
        }
        done := done + [l];
      }
      assert FixupLines(p, own, fs[i])[..|fs[i].srcs|] == FixupLines(p, own, fs[i]);
    }
    assert fs[..|fs|] == fs;
  }

  lemma RecordsNone(p: nat, own: Owner)
    ensures RecordLines(p, own, []) == []
  {
  }

  lemma RecordsNext(p: nat, own: Owner, fs: seq<Fixup>, i: nat, all: seq<Line>)
    requires i < |fs|
    ensures all + RecordLines(p, own, fs[..i]) + FixupLines(p, own, fs[i]) == all + RecordLines(p, own, fs[..i + 1])
  {
    hide FixupLines;
    assert fs[..i + 1][..i] == fs[..i];
  }

  lemma KeptNext(ls: seq<Line>, at: Option<(int, int)>, l: Line)
    ensures Kept(ls + [l], at) == Kept(ls, at) + if Asked(at, l) then [l] else []
  {
    assert (ls + [l])[..|ls|] == ls;
  }

  /** `main`; `None` where it stops on a file that is too short. */
  method PrintFixups(d: seq<byte>, only: nat, at: Option<(int, int)>) returns (r: Option<seq<Line>>)
    ensures r == Report(d, only, at)
  {
    hide U32, Runs, Kept, RecordLines, OwnerOf, Decoded;
    var header := HeaderOf(d);
    if header.None? {
      return None;
    }
    var h := header.value;
    var owner := Owners(d, h);
    if owner.None? {
      return None;
    }
    ghost var runs, all := Runs(d, h, h.objects).value, [];
    var out: seq<Line> := [];
    KeptNone(at);
    for p := 1 to h.pages + 1
      invariant Lines(d, h, runs, only, p - 1) == Some(all) && out == Kept(all, at)
    {
      if only == 0 || p == only {
        var t := h.le + h.pageTable + (p - 1) * 4;
        if t + 8 > |d| {
          LinesEnd(d, h, runs, only, p, h.pages);
          return None;
        }
        var fs, end := DecodePage(d, h.le + h.records + U32(d, t), h.le + h.records + U32(d, t + 4));
        if fs.None? {
          LinesEnd(d, h, runs, only, p, h.pages);
          return None;
        }
        var own := if p in owner.value then owner.value[p] else (0, 0);
        out := LinesOf(fs.value, p, own, at, out, all);
        all := all + RecordLines(p, own, fs.value);
      }
    }
    return Some(out);
  }

  lemma KeptNone(at: Option<(int, int)>)
    ensures Kept([], at) == []
  {
  }

  lemma {:induction false} LinesEnd(d: seq<byte>, h: Header, runs: seq<Run>, only: nat, i: nat, n: nat)
    requires Lines(d, h, runs, only, i).None? && i <= n
    ensures Lines(d, h, runs, only, n).None?
    decreases n
  {
    if i < n {
      LinesEnd(d, h, runs, only, i, n - 1);
    }
  }
}
