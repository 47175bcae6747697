/** Keeping three planar display pages equal to a linear screen by copying dirty boxes
    (vxd-patches/fastdoom_i_ibm.c). */
module Planar {
  import opened Arith
  import opened Bytes

  const WIDTH := 320
  const HEIGHT := 200
  const MININT := -0x8000_0000
  const MAXINT := 0x7FFF_FFFF

  /** Bytes of one plane that a page takes, with the two that a span at the right edge of the last row adds. */
  const PAGE := 16002

  datatype Box = Box(top: int, bottom: int, left: int, right: int) {
    predicate Empty() { top == MININT && bottom == MAXINT && left == MAXINT && right == MININT }
    predicate Good() { Empty() || Inside() }
    predicate Inside() { 0 <= left <= right < WIDTH && 0 <= bottom <= top < HEIGHT }

    /** Pixel `q` of the linear screen lies in the box. */
    predicate Has(q: nat) { left <= q % WIDTH <= right && bottom <= q / WIDTH <= top }
  }

  const NOTHING := Box(MININT, MAXINT, MAXINT, MININT)

  /** The stretch of a plane that row `j` of a span takes: it begins `first` bytes into the row and is `n` long. */
  predicate InRow(a: int, base: nat, j: nat, first: nat, n: nat) {
    base + 80 * j + first <= a < base + 80 * j + first + n
  }

  /** Address `a` lies in one of the rows `y` to `z - 1` of a span. */
  ghost predicate Covered(a: int, base: nat, y: nat, z: nat, first: nat, n: nat) {
    exists j :: y <= j < z && InRow(a, base, j, first, n)
  }

  lemma NextRow(base: nat, y: nat, z: nat, first: nat, n: nat)
    requires y <= z
    ensures forall a :: Covered(a, base, y, z + 1, first, n) <==>
                        Covered(a, base, y, z, first, n) || InRow(a, base, z, first, n)
  {
  }

  class Display {
    const screen0: array<byte>
    const planes: array2<byte>
    const pages: seq<nat>
    var page: nat
    var dirty: Box
    var old0: Box
    var old1: Box

    /** Room for three pages that do not overlap. */
    predicate Sized() {
      && screen0.Length >= WIDTH * HEIGHT + 8 && planes.Length0 == 4
      && |pages| == 3 && (forall k :: 0 <= k < 3 ==> pages[k] + PAGE <= planes.Length1)
      && (forall k, l :: 0 <= k < 3 && 0 <= l < 3 && k != l ==>
        pages[k] + PAGE <= pages[l] || pages[l] + PAGE <= pages[k])
    }

    predicate Valid()
      reads this
    {
      Sized() && page < 3 && dirty.Good() && old0.Good() && old1.Good()
    }

    /** `destscreen`: where in each plane the page being drawn starts. */
    function Dest(): nat
      requires Valid()
      reads this
    {
      pages[page]
    }

    /** Colour that page `k` shows at pixel `q`: every fourth pixel lies in the same plane. */
    function Shown(k: nat, q: nat): byte
      requires Sized() && k < 3 && q < WIDTH * HEIGHT
      reads planes
    {
      planes[q % 4, pages[k] + q / 4]
    }

    // ---- I_UpdateBox ----

    /** A 16-bit store to the plane that the map mask selects. */
    method Store16(i: nat, a: nat, v: nat)
      requires i < planes.Length0 && a + 2 <= planes.Length1 && v < 0x1_0000
      modifies planes
      ensures planes[i, a] == v % 0x100 && planes[i, a + 1] == v / 0x100
      ensures forall p, b :: 0 <= p < planes.Length0 && 0 <= b < planes.Length1 && !(p == i && a <= b < a + 2) ==>
                planes[p, b] == old(planes[p, b])
    {
      planes[i, a] := v % 0x100;
      planes[i, a + 1] := v / 0x100;
    }

    method Store32(i: nat, a: nat, v: nat)
      requires i < planes.Length0 && a + 4 <= planes.Length1 && v < 0x1_0000_0000
      modifies planes
      ensures planes[i, a] == v % 0x100 && planes[i, a + 1] == v / 0x100 % 0x100
      ensures planes[i, a + 2] == v / 0x1_0000 % 0x100 && planes[i, a + 3] == v / 0x100_0000
      ensures forall p, b :: 0 <= p < planes.Length0 && 0 <= b < planes.Length1 && !(p == i && a <= b < a + 4) ==>
                planes[p, b] == old(planes[p, b])
    {
      planes[i, a] := v % 0x100;
      planes[i, a + 1] := v / 0x100 % 0x100;
      planes[i, a + 2] := v / 0x1_0000 % 0x100;
      planes[i, a + 3] := v / 0x100_0000;
    }

    /** One row of a span, two bytes at a time. */
    method Row16(i: nat, base: nat, source: nat, dest: nat, count: nat) returns (s: nat, d: nat)
      requires i < 4 == planes.Length0 && base <= dest && source == 4 * (dest - base) + i
      requires dest + count <= planes.Length1 && 4 * (dest + count - base) <= screen0.Length && count % 2 == 0
      modifies planes
      ensures d == dest + count && s == 4 * (d - base) + i
      ensures forall a :: dest <= a < d ==> planes[i, a] == screen0[4 * (a - base) + i]
      ensures forall p, b :: 0 <= p < 4 && 0 <= b < planes.Length1 && !(p == i && dest <= b < d) ==>
                planes[p, b] == old(planes[p, b])
    {
      hide Half, Word;
      s, d := source, dest;
      var k := dest + count;
      while d < k
        invariant dest <= d <= k && (k - d) % 2 == 0 && s == 4 * (d - base) + i
        invariant forall a :: dest <= a < d ==> planes[i, a] == screen0[4 * (a - base) + i]
        invariant forall p, b :: 0 <= p < 4 && 0 <= b < planes.Length1 && !(p == i && dest <= b < d) ==>
                    planes[p, b] == old(planes[p, b])
      {
        Two(screen0[s], screen0[s + 4]);
        Store16(i, d, Half(screen0[s], screen0[s + 4]));
        assert 4 * (d - base) + i == s && 4 * (d + 1 - base) + i == s + 4;
        d, s := d + 2, s + 8;
      }
    }

    /** One row of a span, four bytes at a time. */
    method Row32(i: nat, base: nat, source: nat, dest: nat, count: nat) returns (s: nat, d: nat)
      requires i < 4 == planes.Length0 && base <= dest && source == 4 * (dest - base) + i
      requires dest + count <= planes.Length1 && 4 * (dest + count - base) <= screen0.Length && count % 4 == 0
      modifies planes
      ensures d == dest + count && s == 4 * (d - base) + i
      ensures forall a :: dest <= a < d ==> planes[i, a] == screen0[4 * (a - base) + i]
      ensures forall p, b :: 0 <= p < 4 && 0 <= b < planes.Length1 && !(p == i && dest <= b < d) ==>
                planes[p, b] == old(planes[p, b])
    {
      hide Half, Word;
      s, d := source, dest;
      var k := dest + count;
      while d < k
        invariant dest <= d <= k && (k - d) % 4 == 0 && s == 4 * (d - base) + i
        invariant forall a :: dest <= a < d ==> planes[i, a] == screen0[4 * (a - base) + i]
        invariant forall p, b :: 0 <= p < 4 && 0 <= b < planes.Length1 && !(p == i && dest <= b < d) ==>
                    planes[p, b] == old(planes[p, b])
      {
        Four(screen0[s], screen0[s + 4], screen0[s + 8], screen0[s + 12]);
        assert 4 * (d + 1 - base) + i == s + 4 && 4 * (d + 2 - base) + i == s + 8 && 4 * (d + 3 - base) + i == s + 12;
        Store32(i, d, Word(screen0[s], screen0[s + 4], screen0[s + 8], screen0[s + 12]));
        d, s := d + 4, s + 16;
      }
    }

    /** Byte `a` of plane `i` is the pixel that page `base` shows there. */
    predicate Same(i: nat, base: nat, a: nat)
      requires i < planes.Length0 && a < planes.Length1
      reads planes, screen0
    {
      base <= a && 4 * (a - base) + i < screen0.Length && planes[i, a] == screen0[4 * (a - base) + i]
    }

    /** The rows of one plane. The pointers move on by `step` and `pstep`, which are negative for a span of 41
        blocks. */
    method Plane(i: nat, base: nat, first: nat, y: nat, count: nat, h: nat, step: int, pstep: int, wide: bool)
      requires i < 4 == planes.Length0 && base + PAGE <= planes.Length1 && screen0.Length >= WIDTH * HEIGHT + 8
      requires first + count <= 82 && y + h <= HEIGHT && count > 0
      requires step == 4 * pstep && pstep == 80 - count && (if wide then count % 4 == 0 else count % 2 == 0)
      modifies planes
      ensures forall a :: 0 <= a < planes.Length1 && Covered(a, base, y, y + h, first, count) ==> Same(i, base, a)
      ensures forall p, a :: (
        0 <= p < 4 && 0 <= a < planes.Length1 && !(p == i && Covered(a, base, y, y + h, first, count)) ==>
          planes[p, a] == old(planes[p, a]))
    {
      hide Covered;
      var source: int := 4 * (80 * y + first) + i;
      var dest: int := base + 80 * y + first;
      NoRow(base, y, first, count);
      for n := 0 to h
        invariant dest == base + 80 * (y + n) + first && source == 4 * (dest - base) + i
        invariant forall a :: 0 <= a < planes.Length1 && Covered(a, base, y, y + n, first, count) ==> Same(i, base, a)
        invariant forall p, a :: (
          0 <= p < 4 && 0 <= a < planes.Length1 && !(p == i && Covered(a, base, y, y + n, first, count)) ==>
            planes[p, a] == old(planes[p, a]))
      {
        NextRow(base, y, y + n, first, count);
        label Before:
        if wide {
          source, dest := Row32(i, base, source, dest, count);
        } else {
          source, dest := Row16(i, base, source, dest, count);
        }
        forall a | 0 <= a < planes.Length1 && Covered(a, base, y, y + n + 1, first, count)
          ensures Same(i, base, a)
        {
          assert InRow(a, base, y + n, first, count)
            || (Covered(a, base, y, y + n, first, count) && old@Before(Same(i, base, a)));
        }
        forall p, a | 0 <= p < 4 && 0 <= a < planes.Length1 && !(p == i && Covered(a, base, y, y + n + 1, first, count))
          ensures planes[p, a] == old(planes[p, a])
        {
          assert p != i || !InRow(a, base, y + n, first, count);
          assert planes[p, a] == old@Before(planes[p, a]);
        }
        source := source + step;
        dest := dest + pstep;
      }
    }

    /** Copies the 8-aligned span around a box from the linear screen to the planes. */
    method UpdateBox(x: nat, y: nat, w: nat, h: nat)
      requires Valid() && w > 0 && x + w <= WIDTH && y + h <= HEIGHT
      modifies planes
      ensures forall p, a :: (0 <= p < 4 && 0 <= a < planes.Length1 && InSpan(a, Dest(), x, y, w, h) ==>
        Same(p, Dest(), a))
      ensures forall p, a :: (0 <= p < 4 && 0 <= a < planes.Length1 && !InSpan(a, Dest(), x, y, w, h) ==>
                planes[p, a] == old(planes[p, a]))
    {
      hide Covered;
      var sp1, sp2 := x / 8, (x + w) / 8;
      var count := sp2 - sp1 + 1;
      var step := WIDTH - count * 8;
      var offset := y * WIDTH + sp1 * 8;
      var poffset := offset / 4;
      var pstep := step / 4;
      assert poffset == 80 * y + 2 * sp1 && pstep == 80 - 2 * count;
      var wide := count % 2 == 0;
      for i := 0 to 4
        invariant forall p, a :: (0 <= p < i && 0 <= a < planes.Length1 && InSpan(a, Dest(), x, y, w, h) ==>
          Same(p, Dest(), a))
        invariant forall p, a :: (
          0 <= p < 4 && 0 <= a < planes.Length1 && (p >= i || !InSpan(a, Dest(), x, y, w, h)) ==>
            planes[p, a] == old(planes[p, a]))
      {
        label Before:
        Plane(i, Dest(), 2 * sp1, y, 2 * count, h, step, pstep, wide);
        forall p, a | 0 <= p < i + 1 && 0 <= a < planes.Length1 && InSpan(a, Dest(), x, y, w, h)
          ensures Same(p, Dest(), a)
        {
          assert p < i ==> old@Before(Same(p, Dest(), a));
        }
      }
    }

    // ---- I_UpdateNoBlit ----

    ghost predicate Shows(k: nat)
      requires Sized() && k < 3
      reads planes, screen0
    {
      forall q :: 0 <= q < WIDTH * HEIGHT ==> Shown(k, q) == screen0[q]
    }

    /** Page `k` differs from the screen only where one of the boxes is. */
    ghost predicate ShowsBut(k: nat, a: Box, b: Box, c: Box)
      requires Sized() && k < 3
      reads planes, screen0
    {
      forall q :: 0 <= q < WIDTH * HEIGHT && !a.Has(q) && !b.Has(q) && !c.Has(q) ==> Shown(k, q) == screen0[q]
    }

    /** What each page still lacks: the next to be drawn was last drawn three updates ago. */
    ghost predicate Current()
      requires Valid()
      reads this, planes, screen0
    {
      && ShowsBut(page, old0, old1, dirty)
      && ShowsBut((page + 1) % 3, NOTHING, old1, dirty)
      && ShowsBut((page + 2) % 3, NOTHING, NOTHING, dirty)
    }

    /** After `I_UpdateBox` the box shows the screen, and nothing else has come to differ from it. */
    method CopyBox(join: Box)
      requires Valid() && join.Inside()
      modifies planes
      ensures forall q :: 0 <= q < WIDTH * HEIGHT && join.Has(q) ==> Shown(page, q) == screen0[q]
      ensures forall q :: 0 <= q < WIDTH * HEIGHT ==>
        Shown(page, q) == old(Shown(page, q)) || Shown(page, q) == screen0[q]
      ensures forall k, q :: 0 <= k < 3 && k != page && 0 <= q < WIDTH * HEIGHT ==> Shown(k, q) == old(Shown(k, q))
    {
      hide InSpan;
      var x, w := join.left, join.right - join.left + 1;
      var y, h := join.bottom, join.top - join.bottom + 1;
      UpdateBox(x, y, w, h);
      forall q | 0 <= q < WIDTH * HEIGHT
        ensures Shown(page, q) == old(Shown(page, q)) || Shown(page, q) == screen0[q]
        ensures join.Has(q) ==> Shown(page, q) == screen0[q]
      {
        if join.Has(q) {
          SpanHas(join, Dest(), q);
        }
        if InSpan(Dest() + q / 4, Dest(), x, y, w, h) {
          assert Same(q % 4, Dest(), Dest() + q / 4);
        }
      }
      forall k, q | 0 <= k < 3 && k != page && 0 <= q < WIDTH * HEIGHT
        ensures Shown(k, q) == old(Shown(k, q))
      {
        if InSpan(pages[k] + q / 4, Dest(), x, y, w, h) {
          SpanOnPage(pages[k] + q / 4, Dest(), x, y, w, h);
          assert false;
        }
      }
    }

    /** The join of the boxes of this update and the two before. */
    method RealBox() returns (join: Box)
      requires dirty.Good() && old0.Good() && old1.Good()
      ensures if join.bottom <= join.top then join.Inside() else old0.Empty() && old1.Empty() && dirty.Empty()
      ensures forall q: nat :: old0.Has(q) || old1.Has(q) || dirty.Has(q) ==> join.Has(q)
    {
      var top := dirty.top;
      if top < old0.top { top := old0.top; }
      if top < old1.top { top := old1.top; }
      var right := dirty.right;
      if right < old0.right { right := old0.right; }
      if right < old1.right { right := old1.right; }
      var bottom := dirty.bottom;
      if bottom > old0.bottom { bottom := old0.bottom; }
      if bottom > old1.bottom { bottom := old1.bottom; }
      var left := dirty.left;
      if left > old0.left { left := old0.left; }
      if left > old1.left { left := old1.left; }
      return Box(top, bottom, left, right);
    }

    /** Where frames may start from: what the pages lack is known, or the whole screen is marked. */
    ghost predicate Startable()
      requires Valid()
      reads this, planes, screen0
    {
      Current() || dirty == Box(HEIGHT - 1, 0, 0, WIDTH - 1)
    }

    lemma WholeScreen()
      requires Valid() && dirty == Box(HEIGHT - 1, 0, 0, WIDTH - 1)
      ensures Current()
    {
      assert forall q: nat :: q < WIDTH * HEIGHT ==> dirty.Has(q);
    }

    method UpdateNoBlit()
      requires Valid() && Current()
      modifies this`dirty, this`old0, this`old1, planes
      ensures Valid() && dirty == NOTHING && old0 == old(old1) && old1 == old(dirty)
      ensures Shows(page)
      ensures ShowsBut((page + 1) % 3, old0, old1, NOTHING) && ShowsBut((page + 2) % 3, NOTHING, old1, NOTHING)
    {
      hide Shown, Box.Has;
      var join := RealBox();
      old0 := old1;
      old1 := dirty;
      if join.bottom <= join.top {
        CopyBox(join);
      } else {
        NothingThere();
      }
      dirty := NOTHING;
    }

    /** The next page becomes the one to draw. */
    method Flip()
      requires Valid() && dirty == NOTHING && Shows(page)
      requires ShowsBut((page + 1) % 3, old0, old1, NOTHING) && ShowsBut((page + 2) % 3, NOTHING, old1, NOTHING)
      modifies this`page
      ensures Valid() && Current() && page == (old(page) + 1) % 3 && Shows(old(page))
    {
      hide Shown, Box.Has;
      page := (page + 1) % 3;
    }

    /** `M_AddToBox` for the two corners of what is about to be drawn. */
    method Mark(box: Box)
      requires Valid() && Current() && box.Inside()
      modifies this`dirty
      ensures Valid() && Current() && dirty == Around(old(dirty), box)
    {
      dirty := Around(dirty, box);
    }

    /** Drawing a pixel inside the dirty box. */
    method Draw(q: nat, v: byte)
      requires Valid() && Current() && q < WIDTH * HEIGHT && dirty.Has(q)
      modifies screen0
      ensures Valid() && Current() && screen0[..] == old(screen0[..])[q := v]
    {
      screen0[q] := v;
    }

    /** Frames drawn, copied and shown one after the other. After each update the page on display is the screen,
        whatever the pages held at first if the whole screen was marked then. */
    method Run(frames: seq<seq<Op>>)
      requires Valid() && Startable()
        && (forall f :: 0 <= f < |frames| ==> Confined(frames[f], if f == 0 then dirty else NOTHING))
      modifies this`dirty, this`old0, this`old1, this`page, planes, screen0
      ensures Valid() && Current()
      ensures frames != [] ==> Shows((page + 2) % 3)
      ensures screen0[..] == Drawn(old(screen0[..]), frames)
    {
      if dirty == Box(HEIGHT - 1, 0, 0, WIDTH - 1) {
        WholeScreen();
      }
      for f := 0 to |frames|
        invariant Valid() && Current() && (f > 0 ==> dirty == NOTHING && Shows((page + 2) % 3))
        invariant f == 0 ==> dirty == old(dirty)
        invariant Drawn(screen0[..], frames[f..]) == Drawn(old(screen0[..]), frames)
      {
        assert frames[f..][0] == frames[f] && frames[f..][1..] == frames[f + 1..];
        Frame(frames[f]);
        UpdateNoBlit();
        Flip();
      }
    }

    method Frame(ops: seq<Op>)
      requires Valid() && Current() && Confined(ops, dirty)
      modifies this`dirty, screen0
      ensures Valid() && Current() && screen0[..] == Applied(old(screen0[..]), ops)
    {
      for i := 0 to |ops|
        invariant Valid() && Current() && Confined(ops[i..], dirty)
        invariant Applied(screen0[..], ops[i..]) == Applied(old(screen0[..]), ops)
      {
        assert ops[i..][0] == ops[i] && ops[i..][1..] == ops[i + 1..];
        match ops[i]
        case Area(box) => Mark(box);
        case Pixel(q, v) => Draw(q, v);
      }
    }
  }

  // ---- drawing ----

  datatype Op = Area(box: Box) | Pixel(q: nat, v: byte)

  function Around(a: Box, b: Box): (r: Box)
    ensures a.Good() && b.Inside() ==> r.Inside()
    ensures a.Good() && b.Inside() ==> forall q: nat :: a.Has(q) || b.Has(q) ==> r.Has(q)
  {
    Box(Max(a.top, b.top), Min(a.bottom, b.bottom), Min(a.left, b.left), Max(a.right, b.right))
  }

  /** Every pixel is drawn inside what has been marked by then. */
  predicate Confined(ops: seq<Op>, dirty: Box) {
    ops == [] ||
    match ops[0]
    case Area(box) => box.Inside() && Confined(ops[1..], Around(dirty, box))
    case Pixel(q, v) => q < WIDTH * HEIGHT && dirty.Has(q) && Confined(ops[1..], dirty)
  }

  function Applied(s: seq<byte>, ops: seq<Op>): (r: seq<byte>)
    ensures |r| == |s|
    decreases |ops|
  {
    if ops == [] then s
    else match ops[0]
      case Area(_) => Applied(s, ops[1..])
      case Pixel(q, v) => Applied(if q < |s| then s[q := v] else s, ops[1..])
  }

  function Drawn(s: seq<byte>, frames: seq<seq<Op>>): (r: seq<byte>)
    ensures |r| == |s|
    decreases |frames|
  {
    if frames == [] then s else Drawn(Applied(s, frames[0]), frames[1..])
  }

  lemma NothingThere()
    ensures forall q: nat :: !NOTHING.Has(q)
  {
  }

  lemma NoRow(base: nat, y: nat, first: nat, n: nat)
    ensures forall a :: !Covered(a, base, y, y, first, n)
  {
  }

  /** The bytes of each plane that the whole 8-pixel blocks around a box take. */
  ghost predicate InSpan(a: int, base: nat, x: nat, y: nat, w: nat, h: nat) {
    Covered(a, base, y, y + h, 2 * (x / 8), 2 * ((x + w) / 8 - x / 8 + 1))
  }

  function Half(a: byte, b: byte): (v: nat)
    ensures v < 0x1_0000
  {
    a as nat + 0x100 * b as nat
  }

  lemma Two(a: byte, b: byte)
    ensures Half(a, b) % 0x100 == a as nat && Half(a, b) / 0x100 == b as nat
  {
  }

  function Word(a: byte, b: byte, c: byte, d: byte): (v: nat)
    ensures v < 0x1_0000_0000
  {
    a as nat + 0x100 * b as nat + 0x1_0000 * c as nat + 0x100_0000 * d as nat
  }

  lemma Four(a: byte, b: byte, c: byte, d: byte)
    ensures var v := Word(a, b, c, d);
            && v % 0x100 == a as nat && v / 0x100 % 0x100 == b as nat
            && v / 0x1_0000 % 0x100 == c as nat && v / 0x100_0000 == d as nat
  {
    var v, w1: nat, w2: nat := Word(a, b, c, d), b as nat + 0x100 * (c as nat + 0x100 * d as nat),
      c as nat + 0x100 * d as nat;
    Parts(v, 0x100, w1, a as nat);
    Parts(w1, 0x100, w2, b as nat);
    Parts(v, 0x1_0000, w2, a as nat + 0x100 * b as nat);
    Parts(w2, 0x100, d as nat, c as nat);
    Parts(v, 0x100_0000, d as nat, a as nat + 0x100 * b as nat + 0x1_0000 * c as nat);
  }

  lemma SpanOnPage(a: int, base: nat, x: nat, y: nat, w: nat, h: nat)
    requires InSpan(a, base, x, y, w, h) && w > 0 && x + w <= WIDTH && y + h <= HEIGHT
    ensures base <= a < base + PAGE
  {
  }

  function Max(a: int, b: int): int { if a < b then b else a }
  function Min(a: int, b: int): int { if a > b then b else a }

  /** The span around a box takes the place of every pixel in the box. */
  lemma SpanHas(box: Box, base: nat, q: nat)
    requires box.Inside() && box.Has(q) && q < WIDTH * HEIGHT
    ensures InSpan(base + q / 4, base, box.left, box.bottom, box.right - box.left + 1, box.top - box.bottom + 1)
  {
    var j := q / WIDTH;
    assert InRow(base + q / 4, base, j, 2 * (box.left / 8), 2 * ((box.right + 1) / 8 - box.left / 8 + 1));
  }
}
