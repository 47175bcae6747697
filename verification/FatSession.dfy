/** Any run of the commands of tools/fatcp.py on one image. */
module FatSession {
  import opened Bytes
  import opened Chains
  import opened Geometry
  import opened Volume
  import opened VolumeFiles
  import opened Directory
  import opened FatImage
  import opened FatVolume
  import opened FatCopy
  import opened FatMakeDir
  import opened FatRead
  import opened FatTool
  import opened Wrappers

  datatype Command =
    | Put(parts: seq<seq<byte>>, leaf: seq<byte>, data: seq<byte>, attr: byte, given: bool, tm: nat, dt: nat)
    | Remove(parts: seq<seq<byte>>, leaf: seq<byte>)
    | MkDir(parts: seq<seq<byte>>, leaf: seq<byte>, tm: nat, dt: nat)
  {
    /** What the command line, the host's file and the clock can supply. */
    predicate Given() {
      && Typed(leaf)
      && (Put? ==> PlainAttr(attr) && |data| < 0x1_0000_0000)
      && (!Remove? ==> tm < 0x1_0000 && dt < 0x1_0000)
    }
  }

  /** Nothing but the name itself is at stake: no directory with something in it is put over or removed, none is put
      over without its attributes being given, and none is made beside a file of its name. */
  ghost predicate Fits(v: Vol, end: nat, csize: nat, cmd: Command, d: nat, name: tag)
    requires VolOK(v, end, csize) && d in v.dirs
  {
    match cmd
    case Put(_, _, _, _, given, _, _) => Puttable(v, end, csize, d, name, given)
    case Remove(_, _) => Replaceable(v, end, csize, d, name)
    case MkDir(_, _, _, _) => !LookUp(v, end, csize, d, name).File?
  }

  ghost predicate Harmless(up: Upper, v: Vol, end: nat, csize: nat, cmd: Command)
    requires VolOK(v, end, csize)
  {
    var d, name := Walk(up, v, 0, cmd.parts), Name83(cmd.leaf);
    d.Some? && name.Some? ==> Fits(v, end, csize, cmd, d.value, name.value)
  }

  /** What a command answers in a directory. */
  ghost function AnswerIn(v: Vol, end: nat, csize: nat, cmd: Command, d: nat, name: tag): Outcome
    requires VolOK(v, end, csize) && d in v.dirs && csize > 0
  {
    match cmd
    case Put(_, _, data, _, _, _, _) => PutAnswer(v, csize, d, name, |data|)
    case Remove(_, _) => if LookUp(v, end, csize, d, name) == Missing then NotFound else Done
    case MkDir(_, _, _, _) => MakeAnswer(v, end, csize, d, name)
  }

  ghost function Answer(up: Upper, v: Vol, end: nat, csize: nat, cmd: Command): Outcome
    requires VolOK(v, end, csize) && csize > 0
  {
    var d, name := Walk(up, v, 0, cmd.parts), Name83(cmd.leaf);
    if d.None? then NoDirectory else if name.None? then BadName else AnswerIn(v, end, csize, cmd, d.value, name.value)
  }

  /** What a command that is done does to the names of a directory, and that no cluster is lost. */
  ghost predicate Does(v: Vol, w: Vol, end: nat, csize: nat, cmd: Command, d: nat, name: tag)
    requires VolOK(v, end, csize) && VolOK(w, end, csize) && d in v.dirs
  {
    match cmd
    case Put(_, _, data, _, _, _, _) => Becomes(v, w, end, csize, d, name, File(data))
    case Remove(_, _) => Becomes(v, w, end, csize, d, name, Missing)
    case MkDir(_, _, _, _) => exists c :: Makes(v, w, end, csize, d, name, c)
  }

  /** The image is a volume that comes of `v` by the command. */
  ghost predicate DoesOn(g: Geometry, s: seq<byte>, L: Layout, v: Vol, cmd: Command, d: nat, name: tag)
    requires VolOK(v, g.End(), g.ClusterSize()) && d in v.dirs
  {
    && ImageOK(g, s, L) && VolOK(ImageVol(g, s, L), g.End(), g.ClusterSize())
    && Does(v, ImageVol(g, s, L), g.End(), g.ClusterSize(), cmd, d, name)
  }

  /** What the image shows after a command was carried out, harmless or not. */
  ghost predicate Leaves(g: Geometry, s: seq<byte>, M: Layout, v: Vol, cmd: Command, d: nat, name: tag) {
    match cmd
    case Put(_, _, data, attr, given, tm, dt) =>
      exists k, v1, w, e, got :: PutShown(g, s, M, v, d, name, data, attr, given, tm, dt, k, v1, w, e, got)
    case Remove(_, _) => exists k, v1 :: RemovedShown(g, s, M, v, d, name, k, v1)
    case MkDir(_, _, tm, dt) => exists k, w, e, c, slots :: MadeShown(g, s, M, v, d, name, tm, dt, k, w, e, c, slots)
  }

  /** What a command does to a volume: its answer, the change to the names, and nothing at all when it refuses. */
  ghost predicate Effect(up: Upper, v: Vol, w: Vol, end: nat, csize: nat, cmd: Command, out: Outcome)
    requires VolOK(v, end, csize) && VolOK(w, end, csize) && csize > 0
  {
    var d, name := Walk(up, v, 0, cmd.parts), Name83(cmd.leaf);
    && out == Answer(up, v, end, csize, cmd)
    && Lost(w.t, w.chains) == Lost(v.t, v.chains)
    && if out == Done then Does(v, w, end, csize, cmd, d.value, name.value) else w == v
  }

  /** Reads off the image whether a name fits a command. */
  method FitsHere(img: array<byte>, g: Geometry, ghost L: Layout, cmd: Command, d: nat, name: tag) returns (b: bool)
    requires ImageOK(g, img[..], L) && d in L.dirs && Nameable(name)
    ensures VolOK(ImageVol(g, img[..], L), g.End(), g.ClusterSize()) && d in ImageVol(g, img[..], L).dirs
    ensures b <==> Fits(ImageVol(g, img[..], L), g.End(), g.ClusterSize(), cmd, d, name)
  {
    hide ViewOf, VolOK, Open, LookUp, ImageOK, ImageVol, FatRW.Ready, Bpb.Sane, Bpb.Clusters, Bpb.ClusterSize,
      Bpb.Fat12, Bpb.End, Inside, OffsetsOf, EndMarked, TagsDistinct, Nameable, IsDir, EmptyDir, Find, Live, Full;
    ghost var v := ImageVol(g, img[..], L);
    var fs, offs, raws := Start(img, g, d, L);
    var slot, free := FindSlot(raws, name);
    UseFound(v, g.End(), g.ClusterSize(), d, name);
    if slot.None? {
      return true;
    }
    var e := raws[slot.value];
    if cmd.MkDir? || !IsDir(e) {
      return cmd.MkDir? ==> IsDir(e);
    }
    DirLeads(v, g.End(), g.ClusterSize(), d, slot.value);
    Rooted(g, img[..], L);
    var sub, subOffs, es := Start(img, g, Clus(e), L);
    b := EmptyDir(es) && (cmd.Put? ==> cmd.given);
  }

  lemma UseFound(v: Vol, end: nat, csize: nat, d: nat, name: tag)
    requires VolOK(v, end, csize) && d in v.dirs
    ensures var k := Find(v.dirs[d], name, 0); var m := LookUp(v, end, csize, d, name);
      && (m == Missing <==> k == |v.dirs[d]|)
      && (m.File? <==> k < |v.dirs[d]| && !IsDir(v.dirs[d][k]))
      && (m.Directory? <==> k < |v.dirs[d]| && IsDir(v.dirs[d][k]))
      && (m.Directory? ==> m.clus == Clus(v.dirs[d][k]))
  {
    hide VolOK, Find, IsDir, FileBytes;
  }

  /** The command, once its directory is found. */
  method Apply(img: array<byte>, g: Geometry, ghost L: Layout, cmd: Command, d: nat, name: tag)
    returns (r: Outcome, ghost M: Layout)
    requires ImageOK(g, img[..], L) && d in L.dirs && cmd.Given() && Nameable(name)
    modifies img
    ensures VolOK(ImageVol(g, old(img[..]), L), g.End(), g.ClusterSize()) && d in ImageVol(g, old(img[..]), L).dirs
      && g.ClusterSize() > 0
    ensures r == AnswerIn(ImageVol(g, old(img[..]), L), g.End(), g.ClusterSize(), cmd, d, name)
    ensures r != Done ==> img[..] == old(img[..]) && M == L
    ensures r == Done ==>
      var v := ImageVol(g, old(img[..]), L);
      && (Fits(v, g.End(), g.ClusterSize(), cmd, d, name) <==> exists N :: DoesOn(g, img[..], N, v, cmd, d, name))
      && (Fits(v, g.End(), g.ClusterSize(), cmd, d, name) ==> DoesOn(g, img[..], M, v, cmd, d, name))
      && Leaves(g, img[..], M, v, cmd, d, name)
  {
    hide ImageOK, ImageVol, VolOK, LookUp, Becomes, Makes, OneFile, Nameable, Bpb.Sane, ViewOf, PlainAttr, Bpb.End,
      Bpb.ClusterSize, Puttable, Replaceable, Full, HeldBy, FreeFrom, Typed, PutShown, RemovedShown, MadeShown;
    ghost var v := ImageVol(g, img[..], L);
    SaneFat(g, img[..], L);
    SaneSizes(g, img.Length);
    match cmd {
      case Put(_, _, data, attr, given, tm, dt) =>
        r, M := PutFile(img, g, L, d, name, data, attr, given, tm, dt);
        if r == Done { BecomesDoes(g, img[..], M, v, cmd, d, name, File(data)); }
      case Remove(_, _) =>
        r, M := RemoveFile(img, g, L, d, name);
        if r == Done { BecomesDoes(g, img[..], M, v, cmd, d, name, Missing); }
      case MkDir(_, _, tm, dt) =>
        ghost var c;
        r, M, c := MakeDir(img, g, L, d, name, tm, dt);
        if r == Done { MakesDoes(g, img[..], M, v, cmd, d, name, c); }
    }
  }

  lemma BecomesDoes(g: Geometry, s: seq<byte>, M: Layout, v: Vol, cmd: Command, d: nat, name: tag, to: Lookup)
    requires VolOK(v, g.End(), g.ClusterSize()) && d in v.dirs && to == (if cmd.Put? then File(cmd.data) else Missing)
      && !cmd.MkDir?
    ensures (exists N :: BecomesOn(g, s, N, v, d, name, to)) <==> exists N :: DoesOn(g, s, N, v, cmd, d, name)
    ensures BecomesOn(g, s, M, v, d, name, to) <==> DoesOn(g, s, M, v, cmd, d, name)
  {
    hide ImageOK, ImageVol, VolOK, Becomes, Makes, Bpb.End, Bpb.ClusterSize;
    forall N
      ensures BecomesOn(g, s, N, v, d, name, to) <==> DoesOn(g, s, N, v, cmd, d, name)
    {
    }
  }

  lemma MakesDoes(g: Geometry, s: seq<byte>, M: Layout, v: Vol, cmd: Command, d: nat, name: tag, c: nat)
    requires VolOK(v, g.End(), g.ClusterSize()) && d in v.dirs && cmd.MkDir?
    ensures (exists N, x :: MakesOn(g, s, N, v, d, name, x)) <==> exists N :: DoesOn(g, s, N, v, cmd, d, name)
    ensures MakesOn(g, s, M, v, d, name, c) ==> DoesOn(g, s, M, v, cmd, d, name)
  {
    hide ImageOK, ImageVol, VolOK, Becomes, Makes, Bpb.End, Bpb.ClusterSize;
    forall N, x | MakesOn(g, s, N, v, d, name, x)
      ensures DoesOn(g, s, N, v, cmd, d, name)
    {
    }
    forall N | DoesOn(g, s, N, v, cmd, d, name)
      ensures exists x :: MakesOn(g, s, N, v, d, name, x)
    {
      var x :| Makes(v, ImageVol(g, s, N), g.End(), g.ClusterSize(), d, name, x);
      assert MakesOn(g, s, N, v, d, name, x);
    }
  }

  /** One command as the tool carries it out, whatever it names: where it is harmless its effect is what it promises,
      and where it is not, no volume that the image could hold has that effect. */
  method Step(img: array<byte>, g: Geometry, ghost L: Layout, up: Upper, cmd: Command)
    returns (out: Outcome, ghost M: Layout)
    requires ImageOK(g, img[..], L) && cmd.Given()
    modifies img
    ensures VolOK(ImageVol(g, old(img[..]), L), g.End(), g.ClusterSize()) && g.ClusterSize() > 0
    ensures out == Answer(up, ImageVol(g, old(img[..]), L), g.End(), g.ClusterSize(), cmd)
    ensures out != Done ==> img[..] == old(img[..]) && M == L
    ensures out == Done ==>
      var v := ImageVol(g, old(img[..]), L); var d, name := Walk(up, v, 0, cmd.parts), Name83(cmd.leaf);
      && (Harmless(up, v, g.End(), g.ClusterSize(), cmd) <==>
        exists N :: DoesOn(g, img[..], N, v, cmd, d.value, name.value))
      && (Harmless(up, v, g.End(), g.ClusterSize(), cmd) ==> DoesOn(g, img[..], M, v, cmd, d.value, name.value))
      && Leaves(g, img[..], M, v, cmd, d.value, name.value)
  {
    hide ImageOK, ImageVol, VolOK, Walk, Name83, LookUp, DoesOn, Leaves, Fits, Nameable, FatRW.Ready, Bpb.Sane, ViewOf,
      PlainAttr, Bpb.End, Bpb.ClusterSize, AnswerIn, Typed;
    Rooted(g, img[..], L);
    SaneFat(g, img[..], L);
    SaneSizes(g, img.Length);
    var fs := new FatRW(img, g);
    var dclus := ResolveDir(fs, up, cmd.parts, L);
    var name := Name83(cmd.leaf);
    if dclus.None? {
      return NoDirectory, L;
    }
    if name.None? {
      return BadName, L;
    }
    TypedName(cmd.leaf);
    out, M := Apply(img, g, L, cmd, dclus.value, name.value);
  }

  /** Reads off the image whether a command is harmless. */
  method Check(img: array<byte>, g: Geometry, ghost L: Layout, up: Upper, cmd: Command) returns (b: bool)
    requires ImageOK(g, img[..], L) && cmd.Given()
    ensures VolOK(ImageVol(g, img[..], L), g.End(), g.ClusterSize())
    ensures b <==> Harmless(up, ImageVol(g, img[..], L), g.End(), g.ClusterSize(), cmd)
  {
    hide ImageOK, ImageVol, VolOK, Walk, Name83, Fits, Nameable, FatRW.Ready, Bpb.Sane, ViewOf, PlainAttr, Bpb.End,
      Bpb.ClusterSize, Typed;
    Rooted(g, img[..], L);
    SaneFat(g, img[..], L);
    var fs := new FatRW(img, g);
    var dclus := ResolveDir(fs, up, cmd.parts, L);
    var name := Name83(cmd.leaf);
    if dclus.None? || name.None? {
      return true;
    }
    TypedName(cmd.leaf);
    b := FitsHere(img, g, L, cmd, dclus.value, name.value);
  }

  lemma EffectThere(up: Upper, g: Geometry, s: seq<byte>, M: Layout, v: Vol, cmd: Command, out: Outcome)
    requires VolOK(v, g.End(), g.ClusterSize()) && g.ClusterSize() > 0 && ImageOK(g, s, M)
    requires out == Answer(up, v, g.End(), g.ClusterSize(), cmd)
    requires out == Done ==> DoesOn(g, s, M, v, cmd, Walk(up, v, 0, cmd.parts).value, Name83(cmd.leaf).value)
    requires out != Done ==> ImageVol(g, s, M) == v
    ensures VolOK(ImageVol(g, s, M), g.End(), g.ClusterSize())
    ensures Effect(up, v, ImageVol(g, s, M), g.End(), g.ClusterSize(), cmd, out)
  {
    hide ImageOK, ImageVol, VolOK, LookUp, OnlyEmptyGone, Lost, Walk, Name83, AnswerIn, Bpb.End, Bpb.ClusterSize;
  }

  /** The volumes that a run goes through, each from the one before by the effect of its command. */
  ghost predicate Traced(up: Upper, vols: seq<Vol>, end: nat, csize: nat, cmds: seq<Command>, outs: seq<Outcome>) {
    && csize > 0 && |vols| == |outs| + 1 && |outs| <= |cmds|
    && (forall i :: 0 <= i < |vols| ==> VolOK(vols[i], end, csize))
    && (forall i :: 0 <= i < |outs| ==> Effect(up, vols[i], vols[i + 1], end, csize, cmds[i], outs[i]))
  }

  lemma {:induction false} NoneLost(up: Upper, vols: seq<Vol>, end: nat, csize: nat, cmds: seq<Command>,
        outs: seq<Outcome>, i: nat)
    requires Traced(up, vols, end, csize, cmds, outs) && i < |vols|
    ensures Lost(vols[i].t, vols[i].chains) == Lost(vols[0].t, vols[0].chains)
  {
    hide VolOK, Lost, Does, Walk, Name83, Answer;
    if i > 0 {
      NoneLost(up, vols, end, csize, cmds, outs, i - 1);
      assert Effect(up, vols[i - 1], vols[i], end, csize, cmds[i - 1], outs[i - 1]);
    }
  }

  lemma NextTraced(up: Upper, vols: seq<Vol>, end: nat, csize: nat, cmds: seq<Command>, outs: seq<Outcome>, w: Vol,
        out: Outcome)
    requires Traced(up, vols, end, csize, cmds, outs) && |outs| < |cmds| && VolOK(w, end, csize)
    requires Effect(up, vols[|outs|], w, end, csize, cmds[|outs|], out)
    ensures Traced(up, vols + [w], end, csize, cmds, outs + [out])
  {
    hide VolOK, Effect;
    var more, all := vols + [w], outs + [out];
    forall i | 0 <= i < |all|
      ensures Effect(up, more[i], more[i + 1], end, csize, cmds[i], all[i])
    {
      assert i < |outs| ==> more[i] == vols[i] && more[i + 1] == vols[i + 1];
    }
  }

  /** The end of a run that could not go on: the command was carried out and is not harmless. No volume that the image
      could hold is the one before it with the command's effect, and the image shows what the command wrote. */
  ghost predicate Broken(up: Upper, g: Geometry, s: seq<byte>, M: Layout, v: Vol, cmd: Command)
    requires VolOK(v, g.End(), g.ClusterSize()) && g.ClusterSize() > 0
  {
    && !Harmless(up, v, g.End(), g.ClusterSize(), cmd) && Answer(up, v, g.End(), g.ClusterSize(), cmd) == Done
    && var d, name := Walk(up, v, 0, cmd.parts).value, Name83(cmd.leaf).value;
    && Leaves(g, s, M, v, cmd, d, name) && forall N :: !DoesOn(g, s, N, v, cmd, d, name)
  }

  lemma BrokenHere(up: Upper, g: Geometry, s: seq<byte>, M: Layout, v: Vol, cmd: Command)
    requires VolOK(v, g.End(), g.ClusterSize()) && g.ClusterSize() > 0
    requires !Harmless(up, v, g.End(), g.ClusterSize(), cmd) && Answer(up, v, g.End(), g.ClusterSize(), cmd) == Done
    requires var d, name := Walk(up, v, 0, cmd.parts), Name83(cmd.leaf);
      && Leaves(g, s, M, v, cmd, d.value, name.value)
      && (Harmless(up, v, g.End(), g.ClusterSize(), cmd) <==> exists N :: DoesOn(g, s, N, v, cmd, d.value, name.value))
    ensures Broken(up, g, s, M, v, cmd)
  {
    hide ImageOK, ImageVol, VolOK, Harmless, Walk, Name83, AnswerIn, Leaves, DoesOn, Bpb.End, Bpb.ClusterSize;
  }

  /** A run of commands, whatever they name, up to the first that is carried out and not harmless. Until then the image
      is a volume, each command answers and changes the names as it should and no other, and no cluster is lost; a
      command that is not harmless but refused changes nothing. `broken` is whether such a command ended the run. */
  method Session(img: array<byte>, g: Geometry, ghost L: Layout, up: Upper, cmds: seq<Command>)
    returns (outs: seq<Outcome>, broken: bool, ghost M: Layout, ghost vols: seq<Vol>)
    requires ImageOK(g, img[..], L) && forall i :: 0 <= i < |cmds| ==> cmds[i].Given()
    modifies img
    ensures Traced(up, vols, g.End(), g.ClusterSize(), cmds, outs) && vols[0] == ImageVol(g, old(img[..]), L)
    ensures Lost(vols[|outs|].t, vols[|outs|].chains) == Lost(vols[0].t, vols[0].chains)
    ensures !broken ==> |outs| == |cmds| && ImageOK(g, img[..], M) && vols[|outs|] == ImageVol(g, img[..], M)
    ensures broken ==> |outs| < |cmds| && Broken(up, g, img[..], M, vols[|outs|], cmds[|outs|])
  {
    hide ImageOK, ImageVol, VolOK, Effect, Harmless, Lost, Bpb.Sane, Bpb.End, Bpb.ClusterSize, Command.Given, Traced,
      Answer, Walk, Name83, DoesOn, Leaves, Broken;
    Rooted(g, img[..], L);
    SaneFat(g, img[..], L);
    SaneSizes(g, img.Length);
    outs, broken, M, vols := [], false, L, [ImageVol(g, img[..], L)];
    Begun(up, ImageVol(g, img[..], L), g.End(), g.ClusterSize(), cmds);
    while |outs| < |cmds|
      invariant ImageOK(g, img[..], M) && Traced(up, vols, g.End(), g.ClusterSize(), cmds, outs)
      invariant |vols| == |outs| + 1 && |outs| <= |cmds| && !broken
      invariant vols[0] == ImageVol(g, old(img[..]), L) && vols[|outs|] == ImageVol(g, img[..], M)
      decreases |cmds| - |outs|
    {
      var harmless := Check(img, g, M, up, cmds[|outs|]);
      ghost var v, s := vols[|outs|], img[..];
      var out;
      out, M := Step(img, g, M, up, cmds[|outs|]);
      if out == Done && !harmless {
        broken := true;
        BrokenHere(up, g, img[..], M, v, cmds[|outs|]);
        NoneLost(up, vols, g.End(), g.ClusterSize(), cmds, outs, |outs|);
        return;
      }
      StillVolume(up, g, img[..], M, v, cmds[|outs|], out, s);
      EffectThere(up, g, img[..], M, v, cmds[|outs|], out);
      NextTraced(up, vols, g.End(), g.ClusterSize(), cmds, outs, ImageVol(g, img[..], M), out);
      outs, vols := outs + [out], vols + [ImageVol(g, img[..], M)];
    }
    NoneLost(up, vols, g.End(), g.ClusterSize(), cmds, outs, |outs|);
  }

  lemma StillVolume(up: Upper, g: Geometry, s: seq<byte>, M: Layout, v: Vol, cmd: Command, out: Outcome, was: seq<byte>)
    requires VolOK(v, g.End(), g.ClusterSize()) && g.ClusterSize() > 0
    requires out == Answer(up, v, g.End(), g.ClusterSize(), cmd)
    requires out == Done ==> DoesOn(g, s, M, v, cmd, Walk(up, v, 0, cmd.parts).value, Name83(cmd.leaf).value)
    requires out != Done ==> s == was && ImageOK(g, was, M)
    ensures ImageOK(g, s, M)
  {
    hide ImageOK, ImageVol, VolOK, Does, Walk, Name83, AnswerIn, Bpb.End, Bpb.ClusterSize;
  }

  lemma Begun(up: Upper, v: Vol, end: nat, csize: nat, cmds: seq<Command>)
    requires VolOK(v, end, csize) && csize > 0
    ensures Traced(up, [v], end, csize, cmds, [])
  {
  }
}
