/** Folding repeated log messages (86box_full/src/86box.c) and unfolding them again (tools/m8_fallback_tally.py). */
module LogFold {
  import opened Wrappers

  // ---- the text of a repeat count ----

  predicate IsDigit(c: char) { '0' <= c <= '9' }

  function Digit(n: nat): char
    requires n < 10
  {
    ('0' as int + n) as char
  }

  /** `%d` of a count. */
  function Dec(n: nat): (s: string)
    ensures |s| > 0 && forall i :: 0 <= i < |s| ==> IsDigit(s[i])
  {
    if n < 10 then [Digit(n)] else Dec(n / 10) + [Digit(n % 10)]
  }

  function DigitValue(c: char): nat
    requires IsDigit(c)
  {
    c as int - '0' as int
  }

  function Value(s: string): nat
    requires forall i :: 0 <= i < |s| ==> IsDigit(s[i])
  {
    if s == [] then 0 else 10 * Value(s[..|s| - 1]) + DigitValue(s[|s| - 1])
  }

  lemma {:induction false} ValueDec(n: nat)
    ensures Value(Dec(n)) == n
  {
    if n >= 10 {
      ValueDec(n / 10);
      assert Dec(n)[..|Dec(n)| - 1] == Dec(n / 10);
    }
  }

  function RepeatText(n: nat): string {
    "*** " + Dec(n) + " repeats ***"
  }

  /** How many digits stand at the start. */
  function Run(s: string): (k: nat)
    ensures k <= |s| && (forall i :: 0 <= i < k ==> IsDigit(s[i])) && (k < |s| ==> !IsDigit(s[k]))
  {
    if s == [] || !IsDigit(s[0]) then 0 else 1 + Run(s[1..])
  }

  /** The match of `\*\*\* (\d+) repeats \*\*\*` at the start of a line. */
  function ParseRepeat(s: string): Option<nat> {
    if !Begins(s, "*** ") then None
    else
      var rest := s[4..];
      var k := Run(rest);
      if k == 0 || !Begins(rest[k..], " repeats ***") then None else Some(Value(rest[..k]))
  }

  lemma RunIs(s: string, k: nat)
    requires k <= |s| && (forall i :: 0 <= i < k ==> IsDigit(s[i])) && (k < |s| ==> !IsDigit(s[k]))
    ensures Run(s) == k
  {
  }

  lemma ParseText(n: nat)
    ensures ParseRepeat(RepeatText(n)) == Some(n)
  {
    hide Dec, Value, Run;
    var d, s := Dec(n), RepeatText(n);
    var rest := s[4..];
    assert rest == d + " repeats ***";
    RunIs(rest, |d|);
    assert rest[..|d|] == d && rest[|d|..] == " repeats ***";
    ValueDec(n);
  }

  /** What `strip` strips, among ASCII characters. */
  predicate IsSpace(c: char) { c == ' ' || '\t' <= c <= '\r' || 0x1C <= c as int <= 0x1F }

  function LeftStripped(s: string): string {
    if s != [] && IsSpace(s[0]) then LeftStripped(s[1..]) else s
  }

  function RightStripped(s: string): string {
    if s != [] && IsSpace(s[|s| - 1]) then RightStripped(s[..|s| - 1]) else s
  }

  /** `strip` */
  function Stripped(s: string): string {
    RightStripped(LeftStripped(s))
  }

  lemma StrippedText(n: nat)
    ensures Stripped(RepeatText(n) + "\n") == RepeatText(n)
  {
    hide Dec;
    var s := RepeatText(n) + "\n";
    assert s[0] == '*' && s[|s| - 1] == '\n' && s[..|s| - 1] == RepeatText(n);
    assert RepeatText(n)[|RepeatText(n)| - 1] == '*';
    assert LeftStripped(s) == s;
    assert RightStripped(s) == RightStripped(s[..|s| - 1]);
  }

  // ---- lines ----

  /** One line of ASCII text: a newline at the end and nowhere else. */
  predicate OneLine(m: string) {
    && |m| > 0 && m[|m| - 1] == '\n' && (forall i :: 0 <= i < |m| - 1 ==> m[i] != '\n' && m[i] != '\r')
    && forall i :: 0 <= i < |m| ==> m[i] as int < 0x80
  }

  function LineEnd(s: string): (k: nat)
    ensures k <= |s| && (k < |s| ==> s[k] == '\n') && forall i :: 0 <= i < k ==> s[i] != '\n'
  {
    if s == [] || s[0] == '\n' then 0 else 1 + LineEnd(s[1..])
  }

  /** Iterating over a file: the lines with their newlines. */
  function LinesOf(s: string): seq<string> {
    if s == [] then []
    else
      var k := LineEnd(s);
      if k == |s| then [s] else [s[..k + 1]] + LinesOf(s[k + 1..])
  }

  predicate Complete(s: string) { s == [] || s[|s| - 1] == '\n' }

  lemma EndIs(s: string, k: nat)
    requires k < |s| && s[k] == '\n' && forall i :: 0 <= i < k ==> s[i] != '\n'
    ensures LineEnd(s) == k
  {
  }

  /** A line written behind complete lines is read as the next line. */
  lemma {:induction false} LinesAppend(s: string, m: string)
    requires Complete(s) && OneLine(m)
    ensures LinesOf(s + m) == LinesOf(s) + [m] && Complete(s + m)
    decreases |s|
  {
    hide LineEnd, LinesOf;
    if s == [] {
      EndIs(m, |m| - 1);
      LinesHead(m);
      assert s + m == m && m[..|m|] == m && m[|m|..] == [];
      NoLines();
    } else {
      var k := LineEnd(s);
      assert s[|s| - 1] == '\n';
      EndIs(s + m, k);
      LinesHead(s);
      LinesHead(s + m);
      var rest := s[k + 1..];
      assert (s + m)[..k + 1] == s[..k + 1] && (s + m)[k + 1..] == rest + m;
      assert rest != [] ==> rest[|rest| - 1] == s[|s| - 1];
      LinesAppend(rest, m);
    }
  }

  lemma {:induction false} LinesHead(s: string)
    requires LineEnd(s) < |s|
    ensures LinesOf(s) == [s[..LineEnd(s) + 1]] + LinesOf(s[LineEnd(s) + 1..])
  {
  }

  lemma NoLines()
    ensures LinesOf("") == []
  {
  }

  // ---- unfolding ----

  predicate IsM8(m: string) { Begins(m, "M8W ") }

  function Times(n: nat, m: string): (r: seq<string>)
    ensures |r| == n && forall i :: 0 <= i < n ==> r[i] == m
  {
    seq(n, _ => m)
  }

  /** The last engine line, if the line before was one, and what has been yielded. */
  datatype State = State(prev: Option<string>, out: seq<string>)

  function StepLine(st: State, raw: string): State {
    var m := ParseRepeat(Stripped(raw));
    if m.Some? then State(st.prev, if st.prev.Some? then st.out + Times(m.value, st.prev.value) else st.out)
    else if IsM8(raw) then State(Some(raw), st.out + [raw])
    else State(None, st.out)
  }

  function Unfolded(ls: seq<string>): State {
    if ls == [] then State(None, []) else StepLine(Unfolded(ls[..|ls| - 1]), ls[|ls| - 1])
  }

  lemma UnfoldedNext(ls: seq<string>, l: string)
    ensures Unfolded(ls + [l]) == StepLine(Unfolded(ls), l)
  {
    assert (ls + [l])[..|ls|] == ls;
  }

  /** `lines` of the tally. */
  method Lines(file: string) returns (out: seq<string>)
    ensures out == Unfolded(LinesOf(file)).out
  {
    hide ParseRepeat, Stripped, IsM8, LinesOf;
    out := [];
    var prev: Option<string> := None;
    var ls := LinesOf(file);
    for i := 0 to |ls|
      invariant State(prev, out) == Unfolded(ls[..i])
    {
      assert ls[..i + 1] == ls[..i] + [ls[i]];
      UnfoldedNext(ls[..i], ls[i]);
      var raw := ls[i];
      var m := ParseRepeat(Stripped(raw));
      if m.Some? {
        if prev.Some? {
          out := out + Times(m.value, prev.value);
        }
      } else if IsM8(raw) {
        prev := Some(raw);
        out := out + [raw];
      } else {
        prev := None;
      }
    }
    assert ls[..|ls|] == ls;
  }

  // ---- folding ----

  /** The engine messages among all messages, in order. */
  function M8Of(msgs: seq<string>): seq<string> {
    if msgs == [] then []
    else M8Of(msgs[..|msgs| - 1]) + if IsM8(msgs[|msgs| - 1]) then [msgs[|msgs| - 1]] else []
  }

  /** The number a message reads as if it reads like a repeat count. */
  function LookAlike(m: string): Option<nat> {
    ParseRepeat(Stripped(m))
  }

  function StepCount(st: State, n: nat): State {
    State(st.prev, if st.prev.Some? then st.out + Times(n, st.prev.value) else st.out)
  }

  /** The last message, how often it has come again, and what the file unfolds to. */
  datatype Tracked = Tracked(buff: string, seen: nat, st: State)

  function TrackStep(t: Tracked, m: string): Tracked {
    if t.buff == m then t.(seen := t.seen + 1)
    else Tracked(m, 0, StepLine(if t.seen > 0 then StepCount(t.st, t.seen) else t.st, m))
  }

  /** The writer and the tally of its file, message by message. */
  function Tracking(msgs: seq<string>): Tracked {
    if msgs == [] then Tracked("", 0, State(None, []))
    else TrackStep(Tracking(msgs[..|msgs| - 1]), msgs[|msgs| - 1])
  }

  class Log {
    var buff: string
    var seen: nat
    var file: string
    ghost var msgs: seq<string>

    ghost predicate Valid()
      reads this
    {
      Complete(file) && Tracked(buff, seen, Unfolded(LinesOf(file))) == Tracking(msgs)
    }

    constructor ()
      ensures Valid() && msgs == [] && seen == 0
    {
      buff, seen, file, msgs := "", 0, "", [];
    }

    /** `pclog_ex` with suppression on. */
    method Write(msg: string)
      requires Valid() && OneLine(msg)
      modifies this
      ensures Valid() && msgs == old(msgs) + [msg]
    {
      hide OneLine, RepeatText, LinesOf, Unfolded, StepLine, StepCount, Tracking, Complete;
      Appended(msgs, msg);
      if buff == msg {
        seen := seen + 1;
      } else {
        if seen != 0 {
          CountLine(file, seen);
          file := file + (RepeatText(seen) + "\n");
        }
        seen := 0;
        MessageLine(file, msg);
        buff := msg;
        file := file + msg;
      }
      msgs := msgs + [msg];
    }
  }

  lemma Appended(msgs: seq<string>, msg: string)
    ensures Tracking(msgs + [msg]) == TrackStep(Tracking(msgs), msg)
    ensures M8Of(msgs + [msg]) == M8Of(msgs) + if IsM8(msg) then [msg] else []
  {
    assert (msgs + [msg])[..|msgs|] == msgs;
  }

  /** Writing the count yields as many of the engine line before it. */
  lemma CountLine(file: string, seen: nat)
    requires Complete(file)
    ensures var f := file + (RepeatText(seen) + "\n");
      Complete(f) && Unfolded(LinesOf(f)) == StepCount(Unfolded(LinesOf(file)), seen)
  {
    hide ParseRepeat, Stripped, IsM8, LinesOf, Complete, Unfolded, RepeatText, OneLine;
    var l := RepeatText(seen) + "\n";
    TextLine(seen);
    LinesAppend(file, l);
    UnfoldedNext(LinesOf(file), l);
    StrippedText(seen);
    ParseText(seen);
  }

  lemma TextLine(n: nat)
    ensures OneLine(RepeatText(n) + "\n")
  {
    hide Dec;
    var s := RepeatText(n) + "\n";
    assert forall i :: 0 <= i < |Dec(n)| ==> s[4 + i] == Dec(n)[i];
    var tail := " repeats ***\n";
    assert s == "*** " + Dec(n) + tail;
  }

  lemma MessageLine(file: string, msg: string)
    requires Complete(file) && OneLine(msg)
    ensures Complete(file + msg) && Unfolded(LinesOf(file + msg)) == StepLine(Unfolded(LinesOf(file)), msg)
  {
    hide LinesOf, Complete, Unfolded, OneLine, StepLine;
    LinesAppend(file, msg);
    UnfoldedNext(LinesOf(file), msg);
  }

  // ---- what the tally yields too much ----

  /** The engine line that a count behind these messages is taken to repeat. */
  function Engine(msgs: seq<string>): Option<string> {
    if msgs == [] then None
    else
      var m := msgs[|msgs| - 1];
      if LookAlike(m).Some? then Engine(msgs[..|msgs| - 1]) else if IsM8(m) then Some(m) else None
  }

  /** How often the last message has come again. */
  function Again(msgs: seq<string>): nat {
    if |msgs| < 2 || msgs[|msgs| - 1] != msgs[|msgs| - 2] then 0 else Again(msgs[..|msgs| - 1]) + 1
  }

  /** Behind an engine line, a message that reads like a count yields that line as often as it says, and as often again
      as it is itself repeated before another message. */
  function Spurious(msgs: seq<string>): nat {
    if msgs == [] then 0
    else
      var init, m := msgs[..|msgs| - 1], msgs[|msgs| - 1];
      if init != [] && init[|init| - 1] == m then Spurious(init)
      else if Engine(init).None? then Spurious(init)
      else
        Spurious(init) + (if LookAlike(init[|init| - 1]).Some? then Again(init) else 0)
        + if LookAlike(m).Some? then LookAlike(m).value else 0
  }

  function Last(msgs: seq<string>): string {
    if msgs == [] then "" else msgs[|msgs| - 1]
  }

  /** What the last run has not yet written. */
  function Pending(t: Tracked): seq<string> {
    if IsM8(t.buff) then Times(t.seen, t.buff) else []
  }

  lemma {:induction false} RightIsPrefix(s: string)
    ensures |RightStripped(s)| <= |s| && RightStripped(s) == s[..|RightStripped(s)|]
  {
    if s != [] && IsSpace(s[|s| - 1]) {
      RightIsPrefix(s[..|s| - 1]);
    }
  }

  lemma StarFirst(s: string)
    ensures Begins(s, "*** ") ==> |s| > 0 && s[0] == '*'
  {
  }

  /** No engine message reads like a count. */
  lemma EngineIsNone(m: string)
    requires IsM8(m)
    ensures LookAlike(m).None?
  {
    hide Run, Value, RightStripped;
    assert m[0] == 'M' && LeftStripped(m) == m;
    RightIsPrefix(m);
    StarFirst(Stripped(m));
  }

  lemma {:induction false} TrackedShape(msgs: seq<string>)
    requires forall i :: 0 <= i < |msgs| ==> msgs[i] != ""
    ensures var t := Tracking(msgs); t.buff == Last(msgs) && t.seen == Again(msgs) && t.st.prev == Engine(msgs)
    decreases |msgs|
  {
    hide LookAlike, IsM8;
    if msgs != [] {
      var init, m := msgs[..|msgs| - 1], Last(msgs);
      TrackedShape(init);
      StepPrev(Tracking(init).st, m);
      StepPrev(StepCount(Tracking(init).st, Tracking(init).seen), m);
      if init != [] && Last(init) == m {
        EngineAgain(init);
      }
    }
  }

  lemma StepPrev(st: State, m: string)
    ensures StepLine(st, m).prev == if LookAlike(m).Some? then st.prev else if IsM8(m) then Some(m) else None
  {
  }

  lemma EngineAgain(msgs: seq<string>)
    requires msgs != []
    ensures Engine(msgs + [Last(msgs)]) == Engine(msgs)
  {
    hide LookAlike, IsM8;
    assert (msgs + [Last(msgs)])[..|msgs|] == msgs;
  }

  /** Out and pending against the engine messages: lengths, and contents while nothing is yielded too much. */
  ghost predicate Tallies(msgs: seq<string>) {
    var t := Tracking(msgs);
    && |t.st.out| + |Pending(t)| == |M8Of(msgs)| + Spurious(msgs)
    && (Spurious(msgs) == 0 ==> t.st.out + Pending(t) == M8Of(msgs))
  }

  lemma TalliesNext(init: seq<string>, m: string)
    requires Tallies(init) && m != "" && (forall i :: 0 <= i < |init| ==> init[i] != "")
    ensures Tallies(init + [m])
  {
    hide LookAlike, IsM8, Tracking, M8Of, Engine, Again, StepLine, StepCount, Spurious;
    TrackedShape(init);
    Appended(init, m);
    SpuriousNext(init, m);
    var t := Tracking(init);
    if init != [] && Last(init) == m {
      Repeated(t, M8Of(init));
    } else {
      Fresh(init, t, m);
    }
  }

  lemma SpuriousNext(init: seq<string>, m: string)
    ensures Spurious(init + [m]) ==
      if (init != [] && Last(init) == m) || Engine(init).None? then Spurious(init)
      else
        Spurious(init) + (if LookAlike(Last(init)).Some? then Again(init) else 0) +
        (if LookAlike(m).Some? then LookAlike(m).value else 0)
  {
    hide LookAlike, Again;
    assert (init + [m])[..|init|] == init;
  }

  lemma Repeated(t: Tracked, all: seq<string>)
    ensures var u := t.(seen := t.seen + 1);
      && |Pending(u)| == |Pending(t)| + (if IsM8(t.buff) then 1 else 0)
      && (t.st.out + Pending(t) == all ==> u.st.out + Pending(u) == all + if IsM8(t.buff) then [t.buff] else [])
  {
    hide IsM8;
    assert Times(t.seen, t.buff) + [t.buff] == Times(t.seen + 1, t.buff);
    assert IsM8(t.buff) ==>
      t.st.out + Times(t.seen, t.buff) + [t.buff] == t.st.out + (Times(t.seen, t.buff) + [t.buff]);
  }

  /** The state after the count of the last run, if it has one, is written. */
  function Counted(t: Tracked): State {
    if t.seen > 0 then StepCount(t.st, t.seen) else t.st
  }

  /** A written count yields the pending lines of an engine message, and a look-alike's repeats too much. */
  lemma CountYields(init: seq<string>, t: Tracked)
    requires t == Tracking(init) && t.buff == Last(init) && t.st.prev == Engine(init)
    ensures var n := if LookAlike(Last(init)).Some? && Engine(init).Some? then t.seen else 0;
      && |Counted(t).out| == |t.st.out| + |Pending(t)| + n
      && (n == 0 ==> Counted(t).out == t.st.out + Pending(t))
    ensures Counted(t).prev == t.st.prev
  {
    hide LookAlike, IsM8, Tracking;
    if IsM8(t.buff) {
      EngineIsNone(t.buff);
      assert init != [] by { NotEngineEmpty(); }
      assert Engine(init) == Some(t.buff);
    }
    assert Times(0, t.buff) == [];
    assert t.st.out + [] == t.st.out;
  }

  lemma NotEngineEmpty()
    ensures !IsM8("")
  {
  }

  lemma Fresh(init: seq<string>, t: Tracked, m: string)
    requires t == Tracking(init) && t.buff == Last(init) && t.seen == Again(init) && t.st.prev == Engine(init)
      && m != "" && t.buff != m
    ensures var u := TrackStep(t, m);
      var more := if Engine(init).None? then 0
        else
          (if LookAlike(Last(init)).Some? then t.seen else 0) +
          (if LookAlike(m).Some? then LookAlike(m).value else 0);
      && |u.st.out| + |Pending(u)| == |t.st.out| + |Pending(t)| + more + (if IsM8(m) then 1 else 0)
      && (more == 0 ==> u.st.out + Pending(u) == t.st.out + Pending(t) + if IsM8(m) then [m] else [])
  {
    hide IsM8, Tracking, ParseRepeat, Stripped, Engine, Again, StepCount;
    CountYields(init, t);
    var c, u := Counted(t), TrackStep(t, m);
    assert u.st == StepLine(c, m);
    assert Pending(u) == [] by { assert Times(0, m) == []; }
    assert u.st.out + [] == u.st.out;
    if IsM8(m) {
      EngineIsNone(m);
    }
    if LookAlike(m).Some? && Engine(init).Some? && LookAlike(m).value == 0 {
      assert c.out + Times(0, Engine(init).value) == c.out;
    }
    assert t.st.out + Pending(t) + [] == t.st.out + Pending(t);
  }

  lemma {:induction false} AllTally(msgs: seq<string>)
    requires forall i :: 0 <= i < |msgs| ==> msgs[i] != ""
    ensures Tallies(msgs)
    decreases |msgs|
  {
    hide Tallies;
    if msgs == [] {
      NoMessages();
    } else {
      var init := msgs[..|msgs| - 1];
      AllTally(init);
      TalliesNext(init, Last(msgs));
      assert init + [Last(msgs)] == msgs;
    }
  }

  lemma NoMessages()
    ensures Tallies([])
  {
    assert Times(0, "") == [];
  }

  /** Logging messages and tallying the file gives the engine messages in order, short only of the last run's unwritten
      repeats, exactly when nothing is spurious; in any case the number of lines too many is known. */
  method LogAndTally(msgs: seq<string>) returns (out: seq<string>, last: string, pending: nat)
    requires forall i :: 0 <= i < |msgs| ==> OneLine(msgs[i])
    ensures last == Last(msgs) && pending == Again(msgs)
    ensures msgs != [] ==> pending < |msgs| && forall i :: |msgs| - 1 - pending <= i < |msgs| ==> msgs[i] == last
    ensures pending + 1 < |msgs| ==> msgs[|msgs| - 2 - pending] != last
    ensures var rest := if IsM8(last) then Times(pending, last) else [];
      && |out + rest| == |M8Of(msgs)| + Spurious(msgs)
      && (out + rest == M8Of(msgs) <==> Spurious(msgs) == 0)
  {
    hide IsM8, LinesOf, Complete, Unfolded, StepLine, M8Of, RepeatText, Again, Spurious, Tracking, OneLine;
    var log := new Log();
    for i := 0 to |msgs|
      invariant fresh(log) && log.Valid() && log.msgs == msgs[..i]
    {
      log.Write(msgs[i]);
      assert msgs[..i + 1] == msgs[..i] + [msgs[i]];
    }
    assert msgs[..|msgs|] == msgs;
    AgainRun(msgs);
    NoneEmpty(msgs);
    TrackedShape(msgs);
    AllTally(msgs);
    out := Lines(log.file);
    last, pending := log.buff, log.seen;
  }

  lemma NoneEmpty(msgs: seq<string>)
    requires forall i :: 0 <= i < |msgs| ==> OneLine(msgs[i])
    ensures forall i :: 0 <= i < |msgs| ==> msgs[i] != ""
  {
  }

  // ---- which messages are harmless ----

  /** Message `i` reads like a count and stands behind an engine line. */
  ghost predicate Taken(msgs: seq<string>, i: nat) {
    i < |msgs| && LookAlike(msgs[i]).Some? && Engine(msgs[..i]).Some?
  }

  /** Every such message counts nothing and is not repeated before another message. */
  ghost predicate Harmless(msgs: seq<string>) {
    forall i: nat :: Taken(msgs, i) ==> LookAlike(msgs[i]).value == 0 && !Closed(msgs, i)
  }

  /** Message `i` repeats the one before it, and another one follows later. */
  ghost predicate Closed(msgs: seq<string>, i: nat)
    requires i < |msgs|
  {
    i > 0 && msgs[i - 1] == msgs[i] && exists j :: i < j < |msgs| && msgs[j] != msgs[i]
  }

  /** Nothing is spurious exactly when every message that reads like a count is harmless where it stands. */
  lemma {:induction false} SpuriousIff(msgs: seq<string>)
    ensures Spurious(msgs) == 0 <==> Harmless(msgs)
    decreases |msgs|
  {
    hide LookAlike, Engine, Again, Spurious;
    NoneSpurious();
    if msgs != [] {
      var init, m := msgs[..|msgs| - 1], Last(msgs);
      assert init + [m] == msgs;
      SpuriousIff(init);
      SpuriousNext(init, m);
      HarmlessNext(init, m);
      if init != [] && Last(init) == m {
        RepeatIsHarmless(init);
      }
    }
  }

  /** A repeated message adds nothing of its own. */
  lemma RepeatIsHarmless(init: seq<string>)
    requires init != []
    ensures Harmless(init) ==> HarmlessEnd(init, Last(init))
  {
    hide LookAlike, Engine, Again;
    var i := |init| - 1;
    if LookAlike(init[i]).Some? && Engine(init).Some? {
      EngineBack(init, i);
      assert Taken(init, i);
    }
  }

  lemma NoneSpurious()
    ensures Spurious([]) == 0 && Engine([]).None?
  {
  }

  lemma {:induction false} AgainRun(msgs: seq<string>)
    ensures Again(msgs) < |msgs| || msgs == []
    ensures forall i :: |msgs| - 1 - Again(msgs) <= i < |msgs| && i >= 0 ==> msgs[i] == Last(msgs)
    ensures Again(msgs) + 1 < |msgs| ==> msgs[|msgs| - 2 - Again(msgs)] != Last(msgs)
    decreases |msgs|
  {
    if |msgs| >= 2 && msgs[|msgs| - 1] == msgs[|msgs| - 2] {
      AgainRun(msgs[..|msgs| - 1]);
    }
  }

  /** Look-alikes at the end leave the engine line behind which they stand. */
  lemma {:induction false} EngineBack(msgs: seq<string>, i: nat)
    requires i <= |msgs| && forall j :: i <= j < |msgs| ==> LookAlike(msgs[j]).Some?
    ensures Engine(msgs[..i]) == Engine(msgs)
    decreases |msgs|
  {
    hide LookAlike, IsM8;
    if i == |msgs| {
      assert msgs[..i] == msgs;
    } else {
      var init := msgs[..|msgs| - 1];
      EngineBack(init, i);
      assert init[..i] == msgs[..i];
    }
  }

  lemma HarmlessNext(init: seq<string>, m: string)
    ensures Harmless(init + [m]) <==> Harmless(init) && HarmlessEnd(init, m)
  {
    hide LookAlike, Engine, Again;
    var msgs := init + [m];
    forall i: nat
      ensures Taken(msgs, i) <==>
        if i < |init| then Taken(init, i) else i == |init| && LookAlike(m).Some? && Engine(init).Some?
    {
      assert i <= |init| ==> msgs[..i] == init[..i];
      assert init[..|init|] == init;
    }
    forall i: nat | i < |init|
      ensures Closed(msgs, i) <==> Closed(init, i) || (i > 0 && init[i - 1] == init[i] && init[i] != m)
    {
      if i > 0 && init[i - 1] == init[i] && init[i] != m {
        assert msgs[|init|] == m;
      }
      if Closed(init, i) {
        var j :| i < j < |init| && init[j] != init[i];
        assert msgs[j] != msgs[i];
      }
    }
    assert !Closed(msgs, |init|);
    TrailingEnd(init, m);
  }

  /** What one more message adds: its own number, and the run it closes. */
  ghost predicate HarmlessEnd(init: seq<string>, m: string) {
    && (LookAlike(m).Some? && Engine(init).Some? ==> LookAlike(m).value == 0)
    && (init != [] && Last(init) != m && LookAlike(Last(init)).Some? && Engine(init).Some? ==> Again(init) == 0)
  }

  /** Of the runs in `init`, only the last one can become closed. */
  lemma TrailingEnd(init: seq<string>, m: string)
    ensures (forall i: nat :: i < |init| && Taken(init, i) && i > 0 && init[i - 1] == init[i] ==>
      init[i] == m || Closed(init, i)) <==>
      (init != [] && Last(init) != m && LookAlike(Last(init)).Some? && Engine(init).Some? ==> Again(init) == 0)
  {
    hide LookAlike, Engine, Again, Taken, Closed;
    if init != [] && Last(init) != m && LookAlike(Last(init)).Some? && Engine(init).Some? && Again(init) > 0 {
      RunTaken(init);
    }
    if init != [] && Last(init) != m && LookAlike(Last(init)).Some? && Engine(init).Some? ==> Again(init) == 0 {
      forall i: nat | i < |init| && Taken(init, i) && i > 0 && init[i - 1] == init[i] && init[i] != m
        ensures Closed(init, i)
      {
        if !Closed(init, i) {
          OpenRun(init, i);
        }
      }
    }
  }

  lemma RunTaken(init: seq<string>)
    requires init != [] && LookAlike(Last(init)).Some? && Engine(init).Some? && Again(init) > 0
    ensures var i := |init| - 1; i > 0 && Taken(init, i) && init[i - 1] == init[i] && !Closed(init, i)
  {
    hide LookAlike, Engine;
    EngineBack(init, |init| - 1);
  }

  /** A repeated look-alike that no other message follows is in the last run. */
  lemma OpenRun(init: seq<string>, i: nat)
    requires Taken(init, i) && i > 0 && init[i - 1] == init[i] && !Closed(init, i)
    ensures Last(init) == init[i] && LookAlike(Last(init)).Some? && Engine(init).Some? && Again(init) > 0
  {
    hide LookAlike, Engine;
    assert forall j :: i <= j < |init| ==> init[j] == init[i];
    EngineBack(init, i);
  }

  /** The least harmful case already shows it: behind one engine message, a message with the text of a count. */
  lemma CountLookAlike(a: string, n: nat)
    requires OneLine(a) && IsM8(a)
    ensures OneLine(RepeatText(n) + "\n") && LookAlike(RepeatText(n) + "\n") == Some(n)
    ensures var both := [a, RepeatText(n) + "\n"];
      M8Of(both) == [a] && Tracking(both).st.out == [a] + Times(n, a) && Spurious(both) == n
  {
    hide ParseRepeat, Stripped, RepeatText, OneLine, IsM8;
    var t := RepeatText(n) + "\n";
    TextLine(n);
    StrippedText(n);
    ParseText(n);
    EngineIsNone(a);
    if IsM8(t) {
      EngineIsNone(t);
    }
    NotEngineEmpty();
    var both := [a, t];
    assert both[..1] == [a] && [a][..0] == [];
    Appended([], a);
    Appended([a], t);
    SpuriousNext([], a);
    SpuriousNext([a], t);
    assert [] + [a] == [a] && [a] + [t] == both;
    assert Engine([a]) == Some(a);
  }
}
