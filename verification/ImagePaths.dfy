/** Saving image paths relative to the user's or the program's directory and loading them back
    (86box_full/src/config.c). */
module ImagePaths {
  import opened Wrappers

  function Fold(c: char): char {
    if 'A' <= c <= 'Z' then (c as int + 32) as char else c
  }

  /** Equal but for letter case. */
  predicate Alike(a: string, b: string) {
    |a| == |b| && forall i :: 0 <= i < |a| ==> Fold(a[i]) == Fold(b[i])
  }

  /** `!strnicmp(s, p, strlen(p))` */
  predicate Under(s: string, p: string) {
    |p| <= |s| && forall i :: 0 <= i < |p| ==> Fold(s[i]) == Fold(p[i])
  }

  /** The last slash at or before `k`. */
  function LastSlash(s: string, k: int): (r: int)
    requires -1 <= k < |s|
    ensures -1 <= r <= k && (r >= 0 ==> s[r] == '/') && forall i :: r < i <= k ==> s[i] != '/'
    decreases k
  {
    if k < 0 || s[k] == '/' then k else LastSlash(s, k - 1)
  }

  /** `memrmem` for a slash: backwards from `src`, at most to the start. */
  method Memrmem(s: string, src: int) returns (r: int)
    requires 0 <= src < |s|
    ensures r == LastSlash(s, src)
  {
    r := src;
    while s[r] != '/'
      invariant 0 <= r <= src && LastSlash(s, r) == LastSlash(s, src)
      decreases r
    {
      r := r - 1;
      if r < 0 {
        return;
      }
    }
  }

  /** The directory above one that ends with a slash, if there is one. */
  function Above(path: string): (r: Option<string>)
    ensures r.Some? ==>
      0 < |r.value| < |path| && r.value == path[..|r.value|] && r.value[|r.value| - 1] == '/'
  {
    if |path| < 2 then None
    else
      var k := LastSlash(path, |path| - 2);
      if k < 0 then None else Some(path[..k + 1])
  }

  method FindAbove(path: string) returns (r: Option<string>)
    ensures r == Above(path)
  {
    if |path| < 2 {
      return None;
    }
    var k := Memrmem(path, |path| - 2);
    return if k < 0 then None else Some(path[..k + 1]);
  }

  /** The user's directory, the program's, and which paths are absolute. */
  datatype Dirs = Dirs(usr: string, exe: string, abs: string -> bool) {
    predicate Valid() {
      |usr| > 0 && usr[|usr| - 1] == '/' && |exe| > 0 && exe[|exe| - 1] == '/'
    }

    function Up1(): Option<string> { Above(usr) }
    function Up2(): Option<string> { if Up1().None? then None else Above(Up1().value) }
    function Up3(): Option<string> { if Up2().None? then None else Above(Up2().value) }
  }

  const EXE := "<exe_path>/"

  /** The buffer of `save_image_file` is half as long as a path may be. */
  const SAVED_MAX := 2047

  function CutOff(s: string): string {
    if |s| <= SAVED_MAX then s else s[..SAVED_MAX]
  }

  /** `save_image_file` behind a "wp://" prefix. */
  function SavedPath(d: Dirs, src: string): string {
    if Under(src, d.usr) then src[|d.usr|..]
    else if d.Up2().Some? && d.Up3().Some? && Under(src, d.Up2().value) then "../../" + src[|d.Up2().value|..]
    else if d.Up1().Some? && d.Up2().Some? && Under(src, d.Up1().value) then "../" + src[|d.Up1().value|..]
    else if Under(src, d.exe) then EXE + src[|d.exe|..]
    else src
  }

  /** The path that a saved one stands for. */
  function LoadedPath(d: Dirs, p: string): string {
    if Begins(p, EXE) then d.exe + p[|EXE|..]
    else if Begins(p, "../../") then (if d.Up2().None? then d.usr else d.Up2().value) + p[6..]
    else if Begins(p, "../") then (if d.Up1().None? then d.usr else d.Up1().value) + p[3..]
    else if d.abs(p) then p
    else d.usr + p
  }

  predicate Special(p: string) {
    Begins(p, "../") || Begins(p, "wp://") || Begins(p, "ioctl://")
  }

  /** An absolute path with no "//" and no ".." in it: no stretch behind a slash is absolute or starts specially. */
  ghost predicate Normal(d: Dirs, path: string) {
    && d.abs(path) && !Special(path) && !Begins(path, EXE)
    && forall k :: 0 < k <= |path| && path[k - 1] == '/' ==> !Special(path[k..]) && !d.abs(path[k..])
  }

  function SavedText(d: Dirs, body: string, wp: bool): string {
    CutOff(if Begins(body, "ioctl://") then body else (if wp then "wp://" else "") + SavedPath(d, body))
  }

  method SaveImage(d: Dirs, src: string) returns (r: string)
    requires d.Valid()
    ensures var wp := Begins(src, "wp://"); r == SavedText(d, if wp then src[5..] else src, wp)
  {
    var above, above2, above3: Option<string> := None, None, None;
    above := FindAbove(d.usr);
    if above.Some? {
      above2 := FindAbove(above.value);
      if above2.Some? {
        above3 := FindAbove(above2.value);
      }
    }
    var s, prefix := src, "";
    if Begins(s, "wp://") {
      s := s[5..];
      prefix := "wp://";
    }
    if Begins(s, "ioctl://") {
      r := s;
    } else if Under(s, d.usr) {
      r := prefix + s[|d.usr|..];
    } else if above2.Some? && above3.Some? && Under(s, above2.value) {
      r := prefix + ("../../" + s[|above2.value|..]);
    } else if above.Some? && above2.Some? && Under(s, above.value) {
      r := prefix + ("../" + s[|above.value|..]);
    } else if Under(s, d.exe) {
      r := prefix + (EXE + s[|d.exe|..]);
    } else {
      r := prefix + s;
    }
    r := CutOff(r);
  }

  /** `path_get_slash`: what a directory lacks to be followed by a name. */
  function GetSlash(path: string): string {
    if path != "" && path[|path| - 1] == '/' then "" else "/"
  }

  /** What a saved text loads as; `wp` is whether it ends up write-protected. */
  function LoadedText(d: Dirs, body: string, wp: bool): string {
    if Begins(body, "ioctl://") then body else (if wp then "wp://" else "") + LoadedPath(d, body)
  }

  /** A base directory and what follows it; the length is checked before they are joined. */
  method Join(prefix: string, use: string, rest: string, max: nat) returns (r: Option<string>)
    requires |use| > 0 && use[|use| - 1] == '/'
    ensures r == if |prefix + (use + rest)| > max then None else Some(prefix + (use + rest))
  {
    assert use + "" + rest == use + rest;
    if |prefix| + |use| + |GetSlash(use)| + |rest| > max {
      return None;
    }
    return Some(prefix + (use + GetSlash(use) + rest));
  }

  /** `load_image_file`; `None` is the refusal of a path that is too long for `max`. */
  method LoadImage(d: Dirs, p: string, wp: bool, max: nat) returns (r: Option<string>, now: bool)
    requires d.Valid()
    ensures var has := Begins(p, "wp://"); var body := if has then p[5..] else p;
      && now == (wp || has)
      && r == (if |LoadedText(d, body, now)| > max then None else Some(LoadedText(d, body, now)))
  {
    hide Begins, Above, LoadedPath;
    var above, above2: Option<string> := None, None;
    above := FindAbove(d.usr);
    if above.Some? {
      above2 := FindAbove(above.value);
    }
    Prefixes(p);
    var s := p;
    now := wp;
    if Begins(s, "wp://") {
      s := s[5..];
      now := true;
    }
    if Begins(s, "ioctl://") {
      return if |s| > max then None else Some(s), now;
    }
    r := Place(d, above, above2, if now then "wp://" else "", s, max);
  }

  /** The part of `load_image_file` behind the prefixes: from where the path counts. */
  method Place(d: Dirs, above: Option<string>, above2: Option<string>, prefix: string, s: string, max: nat)
    returns (r: Option<string>)
    requires d.Valid() && above == d.Up1() && above2 == d.Up2()
    ensures r == if |prefix + LoadedPath(d, s)| > max then None else Some(prefix + LoadedPath(d, s))
  {
    hide Begins, Above;
    Prefixes(s);
    if Begins(s, EXE) {
      r := Join(prefix, d.exe, s[|EXE|..], max);
    } else if Begins(s, "../../") {
      r := Join(prefix, if above2.None? then d.usr else above2.value, s[6..], max);
    } else if Begins(s, "../") {
      r := Join(prefix, if above.None? then d.usr else above.value, s[3..], max);
    } else if d.abs(s) {
      r := if |prefix| + |s| > max then None else Some(prefix + s);
    } else {
      r := Join(prefix, d.usr, s, max);
    }
  }

  lemma Prefixes(s: string)
    ensures Begins(s, "wp://") ==> |s| >= 5
    ensures Begins(s, EXE) ==> |s| >= |EXE|
    ensures Begins(s, "../../") ==> |s| >= 6
    ensures Begins(s, "../") ==> |s| >= 3
  {
  }

  // ---- there and back ----

  lemma FoldSlash(c: char)
    ensures Fold(c) == '/' <==> c == '/'
  {
  }

  /** A base directory in other letters, with the same rest, is the same path but for letter case. */
  lemma Rebased(src: string, base: string)
    requires Under(src, base)
    ensures Alike(base + src[|base|..], src)
  {
    var a := base + src[|base|..];
    forall i | 0 <= i < |a|
      ensures Fold(a[i]) == Fold(src[i])
    {
    }
  }

  lemma BehindSlash(d: Dirs, src: string, base: string)
    requires Normal(d, src) && Under(src, base) && |base| > 0 && base[|base| - 1] == '/'
    ensures !Special(src[|base|..]) && !d.abs(src[|base|..])
  {
    FoldSlash(src[|base| - 1]);
  }

  /** The one path that is not found again: under the user's directory, in one called like the program's placeholder. */
  predicate Masked(d: Dirs, src: string) {
    Under(src, d.usr) && Begins(src[|d.usr|..], EXE)
  }

  lemma MaskedPath(d: Dirs, src: string)
    requires d.Valid() && Masked(d, src)
    ensures SavedPath(d, src) == src[|d.usr|..]
    ensures LoadedPath(d, SavedPath(d, src)) == d.exe + src[|d.usr| + |EXE|..]
    ensures Alike(LoadedPath(d, SavedPath(d, src)), src) <==> Under(src, d.usr + EXE) && Alike(d.exe, d.usr + EXE)
  {
    var rest, tail, full := src[|d.usr|..], src[|d.usr| + |EXE|..], d.usr + EXE;
    assert rest[|EXE|..] == tail && |src| == |full| + |tail|;
    forall i | 0 <= i < |full|
      ensures Fold(src[i]) == Fold(full[i])
    {
      if i >= |d.usr| {
        assert rest[i - |d.usr|] == src[i];
      }
    }
    var back := d.exe + tail;
    if Alike(back, src) {
      forall i | 0 <= i < |full|
        ensures Fold(d.exe[i]) == Fold(full[i])
      {
        assert back[i] == d.exe[i];
      }
    }
    if Alike(d.exe, full) {
      forall i | 0 <= i < |src|
        ensures Fold(back[i]) == Fold(src[i])
      {
        if i < |full| { assert back[i] == d.exe[i]; }
          else { assert back[i] == tail[i - |full|] && src[i] == tail[i - |full|]; }
      }
    }
  }

  /** A saved path loads as the path it was, but for letter case, unless it is masked; a masked one does only if the
      program's directory is that very directory. */
  lemma SaveThenLoad(d: Dirs, src: string)
    requires d.Valid() && Normal(d, src)
    ensures Alike(LoadedPath(d, SavedPath(d, src)), src) <==> !Masked(d, src) || Alike(d.exe, d.usr + EXE)
    ensures !Special(SavedPath(d, src)) || Begins(SavedPath(d, src), "../")
  {
    hide Normal, Alike, Above, Special;
    if Masked(d, src) {
      MaskedPath(d, src);
      Rest(d, src, d.usr);
    } else if Under(src, d.usr) {
      Rest(d, src, d.usr);
      Rebased(src, d.usr);
    } else if d.Up2().Some? && d.Up3().Some? && Under(src, d.Up2().value) {
      Rebased(src, d.Up2().value);
      Dotted("../../", src[|d.Up2().value|..]);
    } else if d.Up1().Some? && d.Up2().Some? && Under(src, d.Up1().value) {
      EndsWithSlash(d.usr);
      Rest(d, src, d.Up1().value);
      Rebased(src, d.Up1().value);
      Dotted("../", src[|d.Up1().value|..]);
    } else if Under(src, d.exe) {
      Rebased(src, d.exe);
      assert (EXE + src[|d.exe|..])[|EXE|..] == src[|d.exe|..];
      Placeholder(src[|d.exe|..]);
    } else {
      Absolute(d, src);
    }
  }

  lemma Rest(d: Dirs, src: string, base: string)
    requires Normal(d, src) && Under(src, base) && |base| > 0 && base[|base| - 1] == '/'
    ensures !Special(src[|base|..]) && !d.abs(src[|base|..]) && !Begins(src[|base|..], "../")
    ensures !Begins(src[|base|..], "../../")
  {
    BehindSlash(d, src, base);
  }

  lemma EndsWithSlash(path: string)
    ensures Above(path).Some? ==> |Above(path).value| > 0 && Above(path).value[|Above(path).value| - 1] == '/'
  {
  }

  lemma Dotted(p: string, r: string)
    requires p == "../" || p == "../../"
    ensures Begins(p + r, p) && (p + r)[|p|..] == r && !Begins(p + r, EXE) && Begins(p + r, "../")
    ensures p == "../" && !Begins(r, "../") ==> !Begins(p + r, "../../")
  {
    var s := p + r;
    assert s[0] == '.' && EXE[0] == '<';
    if p == "../" && Begins(s, "../../") {
      assert r[0] == s[3] && r[1] == s[4] && r[2] == s[5];
    }
  }

  lemma Placeholder(r: string)
    ensures Begins(EXE + r, EXE) && !Special(EXE + r)
  {
    assert (EXE + r)[0] == '<';
  }

  lemma Absolute(d: Dirs, src: string)
    requires Normal(d, src)
    ensures LoadedPath(d, src) == src && !Special(src) && Alike(src, src)
  {
  }

  function Prefix(wp: bool): string {
    if wp then "wp://" else ""
  }

  /** What is left of the saved path behind the prefix. */
  function Kept(d: Dirs, path: string, wp: bool): string {
    var room := SAVED_MAX - |Prefix(wp)|;
    if |SavedPath(d, path)| <= room then SavedPath(d, path) else SavedPath(d, path)[..room]
  }

  lemma BeginsCut(s: string, p: string, m: nat)
    requires |p| <= m <= |s|
    ensures Begins(s[..m], p) <==> Begins(s, p)
  {
    assert s[..m][..|p|] == s[..|p|];
  }

  /** A saved path that is cut loads as another one: its end is missing. */
  lemma CutIsLost(d: Dirs, src: string, m: nat)
    requires d.Valid() && Normal(d, src) && !Masked(d, src) && |EXE| <= m < |SavedPath(d, src)|
    ensures !Alike(LoadedPath(d, SavedPath(d, src)[..m]), src)
  {
    hide Normal, Above, Special;
    var s := SavedPath(d, src);
    var cut := s[..m];
    BeginsCut(s, EXE, m);
    BeginsCut(s, "../../", m);
    BeginsCut(s, "../", m);
    if Under(src, d.usr) {
      Rest(d, src, d.usr);
    } else if d.Up2().Some? && d.Up3().Some? && Under(src, d.Up2().value) {
      Dotted("../../", src[|d.Up2().value|..]);
    } else if d.Up1().Some? && d.Up2().Some? && Under(src, d.Up1().value) {
      EndsWithSlash(d.usr);
      Rest(d, src, d.Up1().value);
      Dotted("../", src[|d.Up1().value|..]);
    } else if Under(src, d.exe) {
      Placeholder(src[|d.exe|..]);
    } else {
      Unspecial(d, src);
      NotUnder(src, d.usr, cut);
    }
  }

  lemma NotUnder(s: string, base: string, rest: string)
    requires !Under(s, base)
    ensures !Alike(base + rest, s)
  {
    forall i | 0 <= i < |base|
      ensures (base + rest)[i] == base[i]
    {
    }
  }

  lemma Unspecial(d: Dirs, src: string)
    requires Normal(d, src)
    ensures !Special(src) && !Begins(src, EXE) && !Begins(src, "../") && !Begins(src, "../../")
  {
    Absolute(d, src);
  }

  /** Saving an image's path and loading it gives the path and its write protection back, unless the path is masked or
      too long for the buffer it is saved from. */
  method SaveAndLoad(d: Dirs, path: string, wp: bool, max: nat) returns (r: Option<string>, now: bool)
    requires d.Valid() && Normal(d, path)
    ensures now == wp
    ensures r.None? <==> |Prefix(wp) + LoadedPath(d, Kept(d, path, wp))| > max
    ensures r.Some? && !Masked(d, path) ==>
      (Alike(r.value, Prefix(wp) + path) <==> |Prefix(wp) + SavedPath(d, path)| <= SAVED_MAX)
    ensures r.Some? && |Prefix(wp) + SavedPath(d, path)| <= SAVED_MAX ==>
      (Alike(r.value, Prefix(wp) + path) <==> !Masked(d, path) || Alike(d.exe, d.usr + EXE))
  {
    hide Normal, Alike, Masked, SavedPath, LoadedPath, Special;
    var src := Prefix(wp) + path;
    SaveThenLoad(d, path);
    Unprefixed(d, path, wp);
    var saved := SaveImage(d, src);
    r, now := LoadImage(d, saved, false, max);
    Prefixed(Prefix(wp), LoadedPath(d, Kept(d, path, wp)), path);
    if !Masked(d, path) && |Prefix(wp) + SavedPath(d, path)| > SAVED_MAX {
      CutIsLost(d, path, SAVED_MAX - |Prefix(wp)|);
    }
  }

  lemma Unprefixed(d: Dirs, path: string, wp: bool)
    requires Normal(d, path) && (!Special(SavedPath(d, path)) || Begins(SavedPath(d, path), "../"))
    ensures var src := Prefix(wp) + path;
      (Begins(src, "wp://") <==> wp) && (wp ==> src[5..] == path) && (!wp ==> src == path) && !Begins(path, "ioctl://")
    ensures SavedText(d, path, wp) == Prefix(wp) + Kept(d, path, wp)
    ensures var saved := Prefix(wp) + Kept(d, path, wp);
      (Begins(saved, "wp://") <==> wp) && (wp ==> saved[5..] == Kept(d, path, wp))
        && (!wp ==> saved == Kept(d, path, wp))
      && !Begins(Kept(d, path, wp), "ioctl://")
  {
    hide SavedPath;
    var s := SavedPath(d, path);
    assert "../"[0] == '.' && "wp://"[0] == 'w' && "ioctl://"[0] == 'i';
    var k := Kept(d, path, wp);
    assert k == s || k == s[..SAVED_MAX - |Prefix(wp)|];
    BeginsKept(s, k);
    if !wp {
      assert "" + path == path && "" + k == k;
    }
  }

  lemma BeginsKept(s: string, k: string)
    requires k == s || (8 <= |k| <= |s| && k == s[..|k|])
    ensures Begins(k, "ioctl://") <==> Begins(s, "ioctl://")
    ensures Begins(k, "wp://") <==> Begins(s, "wp://")
  {
    if k != s {
      BeginsCut(s, "ioctl://", |k|);
      BeginsCut(s, "wp://", |k|);
    }
  }

  // ---- a path that is too long ----

  const HOME := Dirs("/u/", "/e/", p => p != "" && p[0] == '/')

  /** One character too many: a path of 2048, half of what the program allows, is saved without its last. */
  lemma LongPath(path: string, max: nat)
    requires |path| == SAVED_MAX + 1 && path[0] == '/' && (forall i :: 1 <= i < |path| ==> path[i] == 'x')
    requires max >= SAVED_MAX
    ensures Normal(HOME, path) && !Masked(HOME, path) && SavedText(HOME, path, false) == path[..SAVED_MAX]
    ensures LoadedText(HOME, path[..SAVED_MAX], false) == path[..SAVED_MAX]
  {
    hide Above;
    XStart(path);
    assert !Under(path, HOME.usr) by { assert HOME.usr[1] == 'u'; }
    assert !Under(path, HOME.exe) by { assert HOME.exe[1] == 'e'; }
    XStart(path[..SAVED_MAX]);
    OneLevel();
  }

  lemma XStart(path: string)
    requires |path| > 1 && path[0] == '/' && (forall i :: 1 <= i < |path| ==> path[i] == 'x')
    ensures !Special(path) && !Special(path[1..]) && !Begins(path, EXE) && Fold(path[1]) == 'x'
    ensures !Begins(path, "../../") && !Begins(path, "../") && !Begins(path, "wp://") && !Begins(path, "ioctl://")
  {
    assert path[1..][0] == 'x' && "../"[0] == '.' && EXE[0] == '<' && "wp://"[0] == 'w' && "ioctl://"[0] == 'i';
  }

  lemma OneLevel()
    ensures HOME.Up2().None?
  {
    assert LastSlash("/u/", 1) == 0;
  }

  lemma Prefixed(prefix: string, a: string, b: string)
    ensures Alike(prefix + a, prefix + b) <==> Alike(a, b)
  {
    var x, y := prefix + a, prefix + b;
    if Alike(a, b) {
      assert forall i :: |prefix| <= i < |x| ==> x[i] == a[i - |prefix|] && y[i] == b[i - |prefix|];
    }
    if Alike(x, y) {
      forall i | 0 <= i < |a|
        ensures Fold(a[i]) == Fold(b[i])
      {
        assert x[|prefix| + i] == a[i] && y[|prefix| + i] == b[i];
      }
    }
  }
}
