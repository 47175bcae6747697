/** Finding VPICD in the directory of an uncompressed monolith (vxd-patches/patch_vmm32_vpicd_irq2.py). */
module W3Directory {
  import opened Bytes
  import opened Irq2Patch
  import opened Wrappers

  const VPICD: seq<byte> := [0x56, 0x50, 0x49, 0x43, 0x44]
  const W3: seq<byte> := [0x57, 0x33]
  const LE_MAGIC: seq<byte> := [0x4C, 0x45]

  /** `rstrip(b" \0")` */
  function Stripped(s: seq<byte>): seq<byte> {
    if s != [] && (s[|s| - 1] == 0x20 || s[|s| - 1] == 0) then Stripped(s[..|s| - 1]) else s
  }

  predicate Blanks(s: seq<byte>) {
    forall i :: 0 <= i < |s| ==> s[i] == 0x20 || s[i] == 0
  }

  lemma {:induction false} StrippedBlanks(a: seq<byte>, b: seq<byte>)
    requires Blanks(b) && (a == [] || (a[|a| - 1] != 0x20 && a[|a| - 1] != 0))
    ensures Stripped(a + b) == a
    decreases |b|
  {
    if b == [] {
      assert a + b == a;
    } else {
      assert (a + b)[..|a + b| - 1] == a + b[..|b| - 1];
      StrippedBlanks(a, b[..|b| - 1]);
    }
  }

  lemma {:induction false} StrippedParts(s: seq<byte>)
    ensures |Stripped(s)| <= |s| && s[..|Stripped(s)|] == Stripped(s) && Blanks(s[|Stripped(s)|..])
  {
    if s != [] && (s[|s| - 1] == 0x20 || s[|s| - 1] == 0) {
      var init, n := s[..|s| - 1], |Stripped(s)|;
      StrippedParts(init);
      assert s[n..] == init[n..] + [s[|s| - 1]];
    }
  }

  /** The eight bytes are the name and nothing but spaces and zeros. */
  predicate Called(s: seq<byte>) {
    |s| == 8 && s[..5] == VPICD && Blanks(s[5..])
  }

  lemma CalledIs(s: seq<byte>)
    requires |s| == 8
    ensures Stripped(s) == VPICD <==> Called(s)
  {
    StrippedParts(s);
    if Called(s) {
      StrippedBlanks(VPICD, s[5..]);
      assert s == VPICD + s[5..];
    }
  }

  function Start(d: seq<byte>, i: nat): nat
    requires |d| >= 0x40
  {
    U32(d, 0x3C) + 16 + 16 * i
  }

  /** A W3 directory with at least `i` entries, the first `i` of them whole and none VPICD's. */
  ghost predicate Before(d: seq<byte>, i: nat) {
    && |d| >= 0x40 && U32(d, 0x3C) + 6 <= |d| && d[U32(d, 0x3C)..U32(d, 0x3C) + 2] == W3
    && i <= U16(d, U32(d, 0x3C) + 4)
    && forall j :: 0 <= j < i ==> Start(d, j) + 16 <= |d| && !Called(Cut(d, Start(d, j), 8))
  }

  /** Entry `i` is the first of VPICD and leads to `le`. */
  ghost predicate Leads(d: seq<byte>, i: nat, le: nat) {
    && Before(d, i) && i < U16(d, U32(d, 0x3C) + 4)
    && Start(d, i) + 16 <= |d| && Called(Cut(d, Start(d, i), 8)) && le == U32(d, Start(d, i) + 8)
  }

  /** `vpicd_entry`; `None` is each of its refusals, a directory cut short included. */
  method VpicdEntry(d: seq<byte>) returns (r: Option<nat>)
    ensures forall le: nat :: r == Some(le) <==> exists i: nat :: Leads(d, i, le)
  {
    hide Called, Stripped;
    if |d| < 0x40 || U32(d, 0x3C) + 6 > |d| || d[U32(d, 0x3C)..U32(d, 0x3C) + 2] != W3 {
      return None;
    }
    var e := U32(d, 0x3C);
    var count := U16(d, e + 4);
    for i := 0 to count
      invariant Before(d, i)
    {
      var p := e + 16 + 16 * i;
      assert p == Start(d, i);
      if p + 16 > |d| {
        return None;
      }
      CalledIs(Cut(d, p, 8));
      if Stripped(d[p..p + 8]) == VPICD {
        assert Leads(d, i, U32(d, p + 8));
        return Some(U32(d, p + 8));
      }
    }
    return None;
  }

  /** Where header and pages of VPICD lie, by the directory and by the header itself. */
  ghost predicate Located(d: seq<byte>, le: nat, pages: nat) {
    && (exists i: nat :: Leads(d, i, le))
    && le + 0x84 <= |d| && d[le..le + 2] == LE_MAGIC && pages == U32(d, le + 0x80)
  }

  ghost predicate PatchedThere(d: seq<byte>, at: Place, w: seq<byte>) {
    && SameSizes(Mapped(BYTES, at)) && Apart(Mapped(BYTES, at))
    && PatchedTo(d, Mapped(BYTES, at), at.Map(FIX_BLOCK), w)
  }

  /** `main`, for a standalone image of `size` bytes: the file is patched exactly when the directory leads to VPICD and
      every original byte and the fixup block match there. */
  method PatchVmm32(d: seq<byte>, size: nat) returns (r: Option<seq<byte>>)
    requires size >= 0x7518 && forall le: nat, pages: nat :: Located(d, le, pages) ==> Place(le, pages, size).Fits(|d|)
    ensures forall w :: r == Some(w) <==>
      exists le: nat, pages: nat :: Located(d, le, pages) && PatchedThere(d, Place(le, pages, size), w)
  {
    hide Leads, Place.Fits, PatchedTo, Mapped;
    var le := VpicdEntry(d);
    if le.None? || le.value + 0x84 > |d| || d[le.value..le.value + 2] != LE_MAGIC {
      forall l: nat, pages: nat
        ensures !Located(d, l, pages)
      {
        assert Located(d, l, pages) ==> le == Some(l);
      }
      return None;
    }
    var pages := U32(d, le.value + 0x80);
    assert Located(d, le.value, pages);
    r := PatchMonolith(d, Place(le.value, pages, size));
    assert forall l: nat, q: nat :: Located(d, l, q) ==> le == Some(l) && q == pages;
  }
}
