/** What becomes of a letter with a line that is a single dot, since neither side stuffs dots. */
module DotLetters {
  import opened Text
  import opened ServerBuffer
  import opened EndToEnd
  import C = Connection
  import S = ServerSession

  /** A letter to proper addresses; its text may hold lines of a single dot. */
  predicate Addressed(l: C.Letter) { GoodAddress(l.from) && GoodAddress(l.to) && NUL !in l.content }

  // -------------------------------------------------------- what is saved at most

  /** Every copy saved from position `from` on has a body of at most `bound` characters. */
  predicate Short(saved: seq<S.Copy>, from: nat, bound: int) {
    forall k | from <= k < |saved| :: |saved[k].body| <= bound
  }

  function Held(s: S.Session): nat { if s.textMode then |s.body| else 0 }

  lemma UnlinesFirst(lines: seq<string>)
    requires lines != []
    ensures |Unlines(lines, "\n")| == |lines[0]| + 1 + |Unlines(lines[1..], "\n")|
  {
  }

  lemma CommandSaves(s: S.Session, line: string, e: S.LineInput)
    requires !s.textMode
    ensures var s' := S.Line(s, line, e); s'.saved == s.saved && (s'.textMode ==> s'.body == "")
  {
  }

  lemma TextSaves(s: S.Session, line: string, e: S.LineInput)
    requires s.textMode
    ensures var s' := S.Line(s, line, e);
            && s.saved <= s'.saved
            && (line == "." ==> Short(s'.saved, |s.saved|, |s.body|) && !s'.textMode)
            && (line != "." ==> s'.saved == s.saved && s'.textMode && |s'.body| == |s.body| + |line| + 1)
  {
  }

  /** No body that is saved is longer than what was held and the lines read, less the dot line that saves it. */
  lemma {:induction false} BodiesBounded(env: nat -> S.LineInput, s: S.Session, lines: seq<string>, n: nat)
    ensures var t := Fold(S.Server(env), s, lines, n).state;
            s.saved <= t.saved && Short(t.saved, |s.saved|, Held(s) + |Unlines(lines, "\n")| - 2)
    decreases |lines|
  {
    if lines != [] {
      var (line, rest) := (lines[0], lines[1..]);
      var s1 := S.Line(s, line, env(n));
      UnlinesFirst(lines);
      if s.textMode {
        TextSaves(s, line, env(n));
      } else {
        CommandSaves(s, line, env(n));
      }
      if !S.Quits(s, line) {
        BodiesBounded(env, s1, rest, n + 1);
        var t := Fold(S.Server(env), s1, rest, n + 1).state;
        assert forall k | |s.saved| <= k < |s1.saved| :: t.saved[k] == s1.saved[k];
      }
    }
  }

  // ----------------------------------------------------------- the first dot

  /** The lines of a letter up to its first dot line make the one copy its reader gets of it, none if there are none;
      the session then reads the rest of the letter as commands. */
  lemma FirstDotEnds(s: S.Session, l: C.Letter, before: seq<string>, n: nat)
    requires Envelope(s, l) && Addressed(l) && "." !in before
    ensures var f := Fold(S.Server(CALM), s, before + ["."], n);
            && !f.quit && f.state.phase == S.WAIT && !f.state.textMode && f.state.to == []
            && f.state.saved == s.saved + if before == [] then [] else [S.Copy(l.from, l.to, Unlines(before, "\n"))]
  {
    var m := S.Server(CALM);
    var quiet := TextFold(s, before, n);
    var s1 := Fold(m, s, before, n).state;
    assert s1.body == Unlines(before, "\n") by { assert "" + Unlines(before, "\n") == Unlines(before, "\n"); }
    FoldSplit(m, s, before, ["."], n);
    if before == [] {
      EmptyDot(s1, n);
      assert before + ["."] == ["."];
    } else {
      assert s1.body != "" by { assert |s1.body| > 0; }
      DotHandled(s1, l, n + |before|);
    }
  }

  lemma EmptyDot(s: S.Session, n: nat)
    requires s.textMode && s.body == ""
    ensures var f := Fold(S.Server(CALM), s, ["."], n);
            !f.quit && f.state.phase == S.WAIT && !f.state.textMode && f.state.to == [] && f.state.saved == s.saved
  {
    var m := S.Server(CALM);
    var s1 := S.HandleText(s, ".", CALM(n));
    assert m.step(s, ".", n) == s1;
    assert s.saved + [] == s.saved;
    assert Fold(m, s1, [], n + 1) == Folded(s1, false);
  }

  function FirstDot(lines: seq<string>): (k: nat)
    requires "." in lines
    ensures k < |lines| && lines[k] == "." && "." !in lines[..k]
  {
    if lines[0] == "." then 0
    else
      var k := FirstDot(lines[1..]);
      assert lines[..k + 1] == [lines[0]] + lines[1..][..k];
      k + 1
  }

  lemma {:induction false} UnlinesLonger(a: seq<string>, b: seq<string>)
    ensures |Unlines(a + b, "\n")| == |Unlines(a, "\n")| + |Unlines(b, "\n")|
  {
    UnlinesSplit(a, b, "\n");
  }

  lemma NotTheLetter(old': seq<S.Copy>, middle: seq<S.Copy>, saved: seq<S.Copy>, bound: int, whole: S.Copy)
    requires old' <= middle <= saved && Short(middle, |old'|, bound) && Short(saved, |middle|, bound)
    requires bound < |whole.body|
    ensures saved != old' + [whole]
  {
    if |middle| > |old'| {
      assert saved[|old'|] == middle[|old'|];
    }
    assert (old' + [whole])[|old'|] == whole;
  }

  lemma AroundDot(s: S.Session, l: C.Letter, before: seq<string>, after: seq<string>, n: nat)
    requires Envelope(s, l) && Addressed(l) && "." !in before
    requires |Unlines(before, "\n")| < |CopyOf(l).body| && |Unlines(after, "\n")| - 2 < |CopyOf(l).body|
    ensures Fold(S.Server(CALM), s, before + ["."] + after, n).state.saved != s.saved + [CopyOf(l)]
  {
    var m := S.Server(CALM);
    FirstDotEnds(s, l, before, n);
    FoldSplit(m, s, before + ["."], after, n);
    var s1 := Fold(m, s, before + ["."], n).state;
    BodiesBounded(CALM, s1, after, n + |before + ["."]|);
    NotTheLetter(s.saved, s1.saved, Fold(m, s, before + ["."] + after, n).state.saved, |CopyOf(l).body| - 1, CopyOf(l));
  }

  /** With a dot line, what is saved while the letter's lines are read is not the letter. */
  lemma DotLoses(s: S.Session, l: C.Letter, n: nat)
    requires Envelope(s, l) && Addressed(l) && "." in Lines(l.content + CRLF)
    ensures Fold(S.Server(CALM), s, Lines(StreamOf(l)), n).state.saved != s.saved + [CopyOf(l)]
  {
    var ls := Lines(l.content + CRLF);
    var k := FirstDot(ls);
    var (before, rest) := (ls[..k], ls[k + 1..]);
    assert ls == before + ["."] + rest;
    Lengths(before, rest, ls);
    LinesAsLf(l.content);
    AroundDot(s, l, before, rest + ["."], n);
    StreamLines(l);
    Assoc(before + ["."], rest, ["."]);
  }

  /** What stands before and after the dot line is shorter than the letter. */
  lemma Lengths(before: seq<string>, rest: seq<string>, ls: seq<string>)
    requires ls == before + ["."] + rest
    ensures |Unlines(before, "\n")| < |Unlines(ls, "\n")|
    ensures |Unlines(rest + ["."], "\n")| - 2 < |Unlines(ls, "\n")|
  {
    UnlinesLonger(before + ["."], rest);
    UnlinesLonger(before, ["."]);
    UnlinesLonger(rest, ["."]);
    UnlinesFirst(["."]);
  }

  /** Reading a letter's lines saves exactly the letter if and only if no line of it is a single dot. */
  lemma SavedExactly(s: S.Session, l: C.Letter, n: nat)
    requires Envelope(s, l) && Addressed(l)
    requires |C.Wire(C.Mail(l.from))| <= 512 && |C.Wire(C.Rcpt(l.to))| <= 512
    ensures Fold(S.Server(CALM), s, Lines(StreamOf(l)), n).state.saved == s.saved + [CopyOf(l)]
            <==> "." !in Lines(l.content + CRLF)
  {
    if "." in Lines(l.content + CRLF) {
      DotLoses(s, l, n);
    } else {
      StreamLines(l);
      var more := LetterFolded(s, l, n);
    }
  }
}
