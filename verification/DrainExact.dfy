/** Exactly when the in-place drain loop handles the lines of the buffered text and no others. */
module DrainExact {
  import opened Text
  import opened ServerBuffer

  /** The lines the in-place loop hands to the machine. */
  function Handled<S>(m: Machine<S>, s: S, buf: string, n: nat): seq<string>
    requires Terminated(buf)
    decreases |CString(buf)|
  {
    match FirstEol(CString(buf))
    case None => []
    case Some(i) =>
      ShiftShortens(buf, i, m.textMode(s));
      [buf[..i]] +
      if m.quits(s, buf[..i]) then []
      else Handled(m, m.step(s, buf[..i], n), Shift(Poked(buf, i, m.textMode(s)), i + 2), n + 1)
  }

  /** The lines a plain reading hands to the machine: all of them, up to a quit. */
  function Read<S>(m: Machine<S>, s: S, lines: seq<string>, n: nat): seq<string>
    decreases |lines|
  {
    if lines == [] then []
    else [lines[0]] + if m.quits(s, lines[0]) then [] else Read(m, m.step(s, lines[0], n), lines[1..], n + 1)
  }

  /** The write at index 4 can take no line away: every command line read has at least three characters, unless no line
      follows it, or it is empty and only one more line is read, also empty. */
  predicate Safe<S>(m: Machine<S>, s: S, lines: seq<string>, n: nat)
    decreases |lines|
  {
    lines != [] && !m.quits(s, lines[0]) ==>
      var s1 := m.step(s, lines[0], n);
      && Harmless(m.textMode(s), lines[0], lines[1..], Read(m, s1, lines[1..], n + 1))
      && Safe(m, s1, lines[1..], n + 1)
  }

  predicate Harmless(textMode: bool, line: string, rest: seq<string>, read: seq<string>) {
    textMode || |line| >= 3 || rest == [] || (line == "" && read == [""])
  }

  lemma HandledUnfolds<S>(m: Machine<S>, s: S, buf: string, i: nat, n: nat)
    requires Terminated(buf) && FirstEol(CString(buf)) == Some(i)
    ensures i + 2 <= |CString(buf)| && buf[..i] == CString(buf)[..i]
    ensures Terminated(Shift(Poked(buf, i, m.textMode(s)), i + 2))
    ensures |CString(Shift(Poked(buf, i, m.textMode(s)), i + 2))| < |CString(buf)|
    ensures Handled(m, s, buf, n) == [buf[..i]] +
            if m.quits(s, buf[..i]) then []
            else Handled(m, m.step(s, buf[..i], n), Shift(Poked(buf, i, m.textMode(s)), i + 2), n + 1)
  {
    ShiftShortens(buf, i, m.textMode(s));
  }

  /** Whatever is lost, the loop folds the machine over the lines it hands to it. */
  lemma {:induction false} DrainFoldsHandled<S>(m: Machine<S>, s: S, buf: string, n: nat)
    requires Terminated(buf)
    ensures var r := Drain(m, s, buf, n); Folded(r.state, r.quit) == Fold(m, s, Handled(m, s, buf, n), n)
    decreases |CString(buf)|
  {
    match FirstEol(CString(buf))
    case None =>
    case Some(i) =>
      HandledUnfolds(m, s, buf, i, n);
      DrainUnfolds(m, s, buf, i, n);
      if !m.quits(s, buf[..i]) {
        var next := Shift(Poked(buf, i, m.textMode(s)), i + 2);
        var s1 := m.step(s, buf[..i], n);
        DrainFoldsHandled(m, s1, next, n + 1);
        FoldOne(m, s, buf[..i], Handled(m, s1, next, n + 1), n);
      }
  }

  lemma FoldOne<S>(m: Machine<S>, s: S, line: string, rest: seq<string>, n: nat)
    requires !m.quits(s, line)
    ensures Fold(m, s, [line] + rest, n) == Fold(m, m.step(s, line, n), rest, n + 1)
  {
    assert ([line] + rest)[1..] == rest;
  }

  lemma ReadOne<S>(m: Machine<S>, s: S, line: string, rest: seq<string>, n: nat)
    ensures Read(m, s, [line] + rest, n)
            == [line] + if m.quits(s, line) then [] else Read(m, m.step(s, line, n), rest, n + 1)
    ensures Safe(m, s, [line] + rest, n) <==>
            m.quits(s, line) ||
            (&& Harmless(m.textMode(s), line, rest, Read(m, m.step(s, line, n), rest, n + 1))
             && Safe(m, m.step(s, line, n), rest, n + 1))
  {
    assert ([line] + rest)[0] == line && ([line] + rest)[1..] == rest;
  }

  lemma LinesFirst(text: string, i: nat)
    requires FirstEol(text) == Some(i)
    ensures i + 2 <= |text| && Lines(text) == [text[..i]] + Lines(text[i + 2..])
  {
  }

  /** At most two characters hold a line only if they are CRLF. */
  lemma LinesOfTwo(t: string)
    requires |t| <= 2
    ensures Lines(t) == if t == CRLF then [""] else []
  {
    if t == CRLF {
      FirstEolIs(t, 0);
      LinesFirst(t, 0);
      assert t[2..] == "" && FirstEol("").None?;
    } else {
      assert forall j: nat :: !Eol(t, j) by {
        assert Eol(t, 0) ==> t == CRLF;
      }
    }
  }

  /** A text that starts with CRLF starts with an empty line, and only such a text does. */
  lemma EmptyFirst(t: string)
    ensures Lines(t) != [] && Lines(t)[0] == "" <==> CRLF <= t
    ensures CRLF <= t ==> Lines(t) == [""] + Lines(t[2..])
  {
    if CRLF <= t {
      FirstEolIs(t, 0);
      LinesFirst(t, 0);
    }
  }

  /** What the following lines become once the write at index 4 has cut the text. */
  lemma CutLines<S>(m: Machine<S>, s: S, text: string, i: nat, n: nat)
    requires FirstEol(text) == Some(i) && i < 3 && |text| > 4
    ensures var (rest, kept) := (Lines(text[i + 2..]), Lines(text[i + 2..4]));
            && Safe(m, s, kept, n)
            && (Read(m, s, kept, n) == Read(m, s, rest, n) <==>
                Harmless(false, text[..i], rest, Read(m, s, rest, n)) && Safe(m, s, rest, n))
  {
    var (after, cut) := (text[i + 2..], text[i + 2..4]);
    LinesOfTwo(cut);
    assert cut == after[..2 - i];
    EmptyFirst(after);
    if Lines(after) == [] {
      assert cut != CRLF;
    } else if i == 0 && CRLF <= after {
      assert cut == CRLF;
      ReadOne(m, s, "", Lines(after[2..]), n);
      ReadOne(m, s, "", [], n);
      EmptyPair(m, s, Lines(after[2..]), n);
    } else {
      assert cut != CRLF;
      ReadOne(m, s, Lines(after)[0], Lines(after)[1..], n);
      assert Lines(after) == [Lines(after)[0]] + Lines(after)[1..];
      assert Read(m, s, Lines(after), n)[0] == Lines(after)[0];
      assert text[..i] == "" ==> i == 0;
    }
  }

  /** Reading an empty line and nothing else means ending there, and that is safe. */
  lemma EmptyPair<S>(m: Machine<S>, s: S, rest: seq<string>, n: nat)
    ensures Safe(m, s, [""], n) && Read(m, s, [""], n) == [""]
    ensures Read(m, s, [""] + rest, n) == [""] ==> Safe(m, s, [""] + rest, n)
  {
    ReadOne(m, s, "", [], n);
    ReadOne(m, s, "", rest, n);
    assert [""] + [] == [""];
  }

  /** One pass: what the buffer then holds is read like the rest of the text if and only if the line is harmless. */
  lemma PassExactly<S>(m: Machine<S>, s1: S, buf: string, i: nat, textMode: bool, n: nat, h: seq<string>)
    requires Terminated(buf) && FirstEol(CString(buf)) == Some(i) && i + 2 <= |CString(buf)|
    requires var kept := Lines(Rest(CString(buf), i, textMode)); h == Read(m, s1, kept, n) <==> Safe(m, s1, kept, n)
    ensures var (text, rest) := (CString(buf), Lines(CString(buf)[i + 2..]));
            h == Read(m, s1, rest, n) <==>
            Harmless(textMode, text[..i], rest, Read(m, s1, rest, n)) && Safe(m, s1, rest, n)
  {
    var text := CString(buf);
    if textMode || i >= 3 {
      assert |text[..i]| == i;
    } else if |text| <= 4 {
      LinesOfTwo(text[i + 2..]);
      EmptyPair(m, s1, [], n);
      assert [""] + [] == [""];
      assert text[i + 2..] == CRLF ==> text[..i] == "";
    } else {
      CutLines(m, s1, text, i, n);
    }
  }

  lemma SameTail<T>(a: T, x: seq<T>, y: seq<T>)
    ensures [a] + x == [a] + y <==> x == y
  {
    assert ([a] + x)[1..] == x && ([a] + y)[1..] == y;
  }

  /** The in-place loop hands over exactly the lines of the buffered text, up to a quit, if and only if the text is safe
      from the write at index 4. */
  lemma {:induction false} DrainExactly<S>(m: Machine<S>, s: S, buf: string, n: nat)
    requires Terminated(buf)
    ensures var lines := Lines(CString(buf));
            Handled(m, s, buf, n) == Read(m, s, lines, n) <==> Safe(m, s, lines, n)
    decreases |CString(buf)|
  {
    match FirstEol(CString(buf))
    case None =>
    case Some(i) =>
      HandledUnfolds(m, s, buf, i, n);
      LinesFirst(CString(buf), i);
      var (line, rest) := (buf[..i], Lines(CString(buf)[i + 2..]));
      ReadOne(m, s, line, rest, n);
      if !m.quits(s, line) {
        var (s1, next) := (m.step(s, line, n), Shift(Poked(buf, i, m.textMode(s)), i + 2));
        DrainExactly(m, s1, next, n + 1);
        PassLeaves(buf, i, m.textMode(s));
        var h := Handled(m, s1, next, n + 1);
        PassExactly(m, s1, buf, i, m.textMode(s), n + 1, h);
        SameTail(line, h, Read(m, s1, rest, n + 1));
      }
  }

  // ------------------------------------------------------------ one pass, told by the bytes

  /** The memory after the line of length `i` is moved out: what follows it comes first, the last bytes stay. */
  predicate MovedUp(cut: string, next: string, i: nat) {
    && |next| == |cut| == 1024 && i + 2 <= 1024
    && (forall j | 0 <= j < 1024 - (i + 2) :: next[j] == cut[j + i + 2])
    && (forall j | 1024 - (i + 2) <= j < 1024 :: next[j] == cut[j])
  }

  /** One pass of the drain loop: the line up to the first CRLF is cut off with a NUL, in command mode with another at
      index 4; the line is handed over; and the rest moves up, unless the line ends the handling: then nothing moves.
      Without a CRLF before the first NUL nothing happens at all. */
  lemma DrainPasses<S>(m: Machine<S>, s: S, buf: string, i: nat, n: nat)
    requires Terminated(buf)
    requires Eol(CString(buf), i) && forall j: nat | j < i :: !Eol(CString(buf), j)
    ensures i < |buf| && 4 < |buf|
    ensures var cut := if m.textMode(s) then buf[i := NUL] else buf[i := NUL][4 := NUL];
            var s1 := m.step(s, buf[..i], n);
            if m.quits(s, buf[..i]) then Drain(m, s, buf, n) == Drained(s1, cut, true, n + 1)
            else exists next | Terminated(next) && MovedUp(cut, next, i) ::
                   Drain(m, s, buf, n) == Drain(m, s1, next, n + 1)
  {
    FirstEolIs(CString(buf), i);
    DrainUnfolds(m, s, buf, i, n);
    if !m.quits(s, buf[..i]) {
      var cut := if m.textMode(s) then buf[i := NUL] else buf[i := NUL][4 := NUL];
      var next := Shift(Poked(buf, i, m.textMode(s)), i + 2);
      assert MovedUp(cut, next, i) && Terminated(next);
    }
  }

  lemma DrainRests<S>(m: Machine<S>, s: S, buf: string, n: nat)
    requires Terminated(buf) && forall j: nat :: !Eol(CString(buf), j)
    ensures Drain(m, s, buf, n) == Drained(s, buf, false, n)
  {
  }
}
