/**
 The server's receive buffer: 1024 characters from which complete lines are drained in place. The
 drained buffer is described character by character and then shown to be the plain reading of its lines.
 */
module ServerBuffer {
  import opened Text

  const BUFFER_SIZE := 1024

  /** Whatever handles the lines: its step on the n-th line, whether a line ends the handling, and whether it is
      reading text rather than commands. */
  datatype Machine<!S> = Machine(step: (S, string, nat) -> S, quits: (S, string) -> bool, textMode: S -> bool)

  datatype Folded<S> = Folded(state: S, quit: bool)

  /** The plain reading of a batch of lines: one after the other, up to a quit. */
  function Fold<S>(m: Machine<S>, s: S, lines: seq<string>, n: nat): Folded<S>
    decreases |lines|
  {
    if lines == [] then Folded(s, false)
    else
      var s1 := m.step(s, lines[0], n);
      if m.quits(s, lines[0]) then Folded(s1, true) else Fold(m, s1, lines[1..], n + 1)
  }

  lemma {:induction false} FoldSplit<S>(m: Machine<S>, s: S, a: seq<string>, b: seq<string>, n: nat)
    ensures var r := Fold(m, s, a, n);
            Fold(m, s, a + b, n) == if r.quit then r else Fold(m, r.state, b, n + |a|)
    decreases |a|
  {
    if a == [] {
      assert a + b == b;
    } else {
      assert (a + b)[0] == a[0] && (a + b)[1..] == a[1..] + b;
      if !m.quits(s, a[0]) {
        FoldSplit(m, m.step(s, a[0], n), a[1..], b, n + 1);
      }
    }
  }

  /** A full-size buffer whose last character is NUL; receiving never writes there. */
  predicate Terminated(buf: string) {
    |buf| == BUFFER_SIZE && buf[BUFFER_SIZE - 1] == NUL
  }

  function Zeros(n: nat): (z: string)
    ensures |z| == n && forall k | 0 <= k < n :: z[k] == NUL
  {
    seq(n, _ => NUL)
  }

  /** `memmove(buffer, buffer + k, 1024 - k)`: the last `k` characters stay where they were. */
  function Shift(buf: string, k: nat): (r: string)
    requires k <= |buf|
    ensures |r| == |buf|
    ensures forall j | 0 <= j < |buf| - k :: r[j] == buf[j + k]
    ensures forall j | |buf| - k <= j < |buf| :: r[j] == buf[j]
  {
    buf[k..] + buf[|buf| - k..]
  }

  /** The buffer while the line ending at `i` is handled: the line is cut off, and in command mode also at index 4. */
  function Poked(buf: string, i: nat, textMode: bool): string
    requires i < |buf| && 4 < |buf|
  {
    var cut := buf[i := NUL];
    if textMode then cut else cut[4 := NUL]
  }

  /** The state, the buffer, whether the handling was ended, and the number of the next line. */
  datatype Drained<S> = Drained(state: S, buffer: string, quit: bool, next: nat)

  /** One pass of the drain loop leaves a shorter C string behind. */
  lemma ShiftShortens(buf: string, i: nat, textMode: bool)
    requires Terminated(buf) && FirstEol(CString(buf)) == Some(i)
    ensures i + 2 <= |CString(buf)| < BUFFER_SIZE
    ensures var next := Shift(Poked(buf, i, textMode), i + 2);
            && Terminated(next)
            && |CString(next)| <= |CString(buf)| - (i + 2)
  {
    var z := |CString(buf)|;
    var next := Shift(Poked(buf, i, textMode), i + 2);
    assert next[z - (i + 2)] == NUL;
  }

  /** The drain loop, character by character. */
  function Drain<S>(m: Machine<S>, s: S, buf: string, n: nat): (r: Drained<S>)
    requires Terminated(buf)
    ensures Terminated(r.buffer)
    decreases |CString(buf)|
  {
    match FirstEol(CString(buf))
    case None => Drained(s, buf, false, n)
    case Some(i) =>
      ShiftShortens(buf, i, m.textMode(s));
      var s1 := m.step(s, buf[..i], n);
      var poked := Poked(buf, i, m.textMode(s));
      if m.quits(s, buf[..i]) then Drained(s1, poked, true, n + 1)
      else Drain(m, s1, Shift(poked, i + 2), n + 1)
  }

  // ------------------------------------------------------ what one pass leaves

  /** The text left after the line ending at `i`: cut at index 4 when a short command line let the write reach it. */
  function Rest(text: string, i: nat, textMode: bool): string
    requires i + 2 <= |text|
  {
    if textMode || i >= 3 || |text| <= 4 then text[i + 2..] else text[i + 2..4]
  }

  lemma PassLeaves(buf: string, i: nat, textMode: bool)
    requires Terminated(buf) && FirstEol(CString(buf)) == Some(i)
    ensures CString(Shift(Poked(buf, i, textMode), i + 2)) == Rest(CString(buf), i, textMode)
  {
    ShiftShortens(buf, i, textMode);
    var text := CString(buf);
    var next := Shift(Poked(buf, i, textMode), i + 2);
    var rest := Rest(text, i, textMode);
    assert next[..|rest|] == rest;
    assert next[|rest|] == NUL;
    CStringIs(next, |rest|);
  }

  /** The write at index 4 leaves the following text intact exactly when the line is text, has at least three
      characters, or nothing of the text reaches beyond index 4. */
  lemma IntactExactly(buf: string, i: nat, textMode: bool)
    requires Terminated(buf) && FirstEol(CString(buf)) == Some(i)
    ensures var text := CString(buf);
            CString(Shift(Poked(buf, i, textMode), i + 2)) == text[i + 2..]
            <==> textMode || i >= 3 || |text| <= 4
  {
    PassLeaves(buf, i, textMode);
    var text := CString(buf);
    assert |Rest(text, i, textMode)| == |text[i + 2..]| <==> textMode || i >= 3 || |text| <= 4;
  }

  /** Every line handled in command mode, up to a QUIT, has at least three characters. */
  predicate LongCommands<S>(m: Machine<S>, s: S, lines: seq<string>, n: nat)
    decreases |lines|
  {
    lines != [] ==>
      && (m.textMode(s) || |lines[0]| >= 3)
      && (!m.quits(s, lines[0]) ==> LongCommands(m, m.step(s, lines[0], n), lines[1..], n + 1))
  }

  /** The in-place loop handles exactly the CRLF-separated lines of the buffered C string, in order, up to a QUIT. */
  lemma {:induction false} DrainRefinesFold<S>(m: Machine<S>, s: S, buf: string, n: nat)
    requires Terminated(buf)
    requires LongCommands(m, s, Lines(CString(buf)), n)
    ensures var r := Drain(m, s, buf, n);
            Folded(r.state, r.quit) == Fold(m, s, Lines(CString(buf)), n)
    decreases |CString(buf)|
  {
    var text := CString(buf);
    match FirstEol(text)
    case None =>
    case Some(i) =>
      assert text[..i] == buf[..i];
      if !m.quits(s, text[..i]) {
        PassLeaves(buf, i, m.textMode(s));
        ShiftShortens(buf, i, m.textMode(s));
        DrainRefinesFold(m, m.step(s, buf[..i], n), Shift(Poked(buf, i, m.textMode(s)), i + 2), n + 1);
      }
  }

  /** Without that condition lines are lost: after the two-character line "NO" the write cuts off "HELO x". */
  lemma ShortCommandLosesLine()
    ensures var text := "NO\r\nHELO x\r\n";
            var buf := text + Zeros(BUFFER_SIZE - |text|);
            && Terminated(buf) && CString(buf) == text
            && Rest(text, 2, false) == ""
            && CString(Shift(Poked(buf, 2, false), 4)) == ""
  {
    var text := "NO\r\nHELO x\r\n";
    var buf := text + Zeros(BUFFER_SIZE - |text|);
    assert NUL !in text;
    CStringIs(buf, |text|);
    assert buf[..|text|] == text;
    assert Eol(text, 2) && !Eol(text, 0) && !Eol(text, 1);
    FirstEolIs(text, 2);
    PassLeaves(buf, 2, false);
  }

  // ------------------------------------------------------------ buffer hygiene

  /** A received chunk: whole lines in at most 512 bytes. */
  predicate WholeLines(t: string) {
    |t| <= 512 && NUL !in t && EndsWithCRLF(t)
  }

  function Padded(t: string): string
    requires |t| <= BUFFER_SIZE
  {
    t + Zeros(BUFFER_SIZE - |t|)
  }

  lemma PaddedText(t: string)
    requires |t| < BUFFER_SIZE && NUL !in t
    ensures Terminated(Padded(t)) && CString(Padded(t)) == t
  {
    CStringIs(Padded(t), |t|);
  }

  lemma PaddedPass(t: string, i: nat, textMode: bool)
    requires WholeLines(t) && FirstEol(t) == Some(i)
    requires textMode || i >= 3
    ensures Padded(t)[..i] == t[..i]
    ensures Shift(Poked(Padded(t), i, textMode), i + 2) == Padded(t[i + 2..])
  {
  }

  lemma DrainUnfolds<S>(m: Machine<S>, s: S, buf: string, i: nat, n: nat)
    requires Terminated(buf) && FirstEol(CString(buf)) == Some(i)
    ensures i + 2 <= |buf| && Terminated(Shift(Poked(buf, i, m.textMode(s)), i + 2))
    ensures var s1 := m.step(s, buf[..i], n);
            var poked := Poked(buf, i, m.textMode(s));
            Drain(m, s, buf, n) ==
              if m.quits(s, buf[..i]) then Drained(s1, poked, true, n + 1)
              else Drain(m, s1, Shift(poked, i + 2), n + 1)
  {
    ShiftShortens(buf, i, m.textMode(s));
  }

  lemma DrainPass<S>(m: Machine<S>, s: S, t: string, i: nat, n: nat)
    requires WholeLines(t) && FirstEol(t) == Some(i)
    requires m.textMode(s) || i >= 3
    ensures Terminated(Padded(t)) && Terminated(Padded(t[i + 2..]))
    ensures var s1 := m.step(s, t[..i], n);
            var r := Drain(m, s, Padded(t), n);
            if m.quits(s, t[..i]) then r.state == s1 && r.quit
            else r == Drain(m, s1, Padded(t[i + 2..]), n + 1)
  {
    PaddedText(t);
    PaddedPass(t, i, m.textMode(s));
    DrainUnfolds(m, s, Padded(t), i, n);
  }

  lemma DrainNothing<S>(m: Machine<S>, s: S, n: nat)
    ensures Padded("") == Zeros(BUFFER_SIZE) && Terminated(Padded(""))
    ensures Drain(m, s, Padded(""), n) == Drained(s, Padded(""), false, n)
    ensures Lines("") == []
  {
    PaddedText("");
    assert FirstEol("").None?;
  }

  /** Draining whole lines out of an otherwise zero buffer handles exactly those lines and leaves 1024 zeros. */
  lemma {:induction false} DrainLeavesZeros<S>(m: Machine<S>, s: S, t: string, n: nat)
    requires t == "" || WholeLines(t)
    requires LongCommands(m, s, Lines(t), n)
    ensures Terminated(Padded(t))
    ensures var r := Drain(m, s, Padded(t), n);
            && Folded(r.state, r.quit) == Fold(m, s, Lines(t), n)
            && (!r.quit ==> r.buffer == Zeros(BUFFER_SIZE) && r.next == n + |Lines(t)|)
    decreases |t|
  {
    if t == "" {
      DrainNothing(m, s, n);
    } else {
      var i := FirstLineOf(t);
      DrainPass(m, s, t, i, n);
      if !m.quits(s, t[..i]) {
        DrainLeavesZeros(m, m.step(s, t[..i], n), t[i + 2..], n + 1);
      }
    }
  }

  /** What a receive of `chunk` makes of the buffer. */
  function Received(buf: string, chunk: string): string
    requires |chunk| < |buf|
  {
    chunk + buf[|chunk|..]
  }

  /** NULs sent after a command, as the client does after DATA, make no difference to a zero buffer. */
  lemma TrailingNuls(t: string, k: nat)
    requires |t| + k < BUFFER_SIZE
    ensures Received(Zeros(BUFFER_SIZE), t + Zeros(k)) == Padded(t)
  {
  }

  predicate AllWholeLines(chunks: seq<string>) {
    chunks != [] ==> WholeLines(chunks[0]) && AllWholeLines(chunks[1..])
  }

  /** Receiving and draining one chunk; after a quit nothing more is read. */
  function Feed<S>(m: Machine<S>, d: Drained<S>, chunk: string): (r: Drained<S>)
    requires Terminated(d.buffer) && |chunk| < BUFFER_SIZE
    ensures Terminated(r.buffer)
  {
    if d.quit then d else Drain(m, d.state, Received(d.buffer, chunk), d.next)
  }

  function FeedAll<S>(m: Machine<S>, d: Drained<S>, chunks: seq<string>): Drained<S>
    requires Terminated(d.buffer) && AllWholeLines(chunks)
    decreases |chunks|
  {
    if chunks == [] then d else FeedAll(m, Feed(m, d, chunks[0]), chunks[1..])
  }

  function AllLines(chunks: seq<string>): seq<string> {
    if chunks == [] then [] else Lines(chunks[0]) + AllLines(chunks[1..])
  }

  /** The lines of the chunks are the lines of the stream they were cut from. */
  lemma {:induction false} AllLinesOfStream(chunks: seq<string>)
    requires AllWholeLines(chunks)
    ensures AllLines(chunks) == Lines(Concat(chunks))
  {
    if chunks == [] {
      assert FirstEol("").None?;
    } else {
      AllLinesOfStream(chunks[1..]);
      LinesSplit(chunks[0], Concat(chunks[1..]));
    }
  }

  lemma {:induction false} LongCommandsSplit<S>(m: Machine<S>, s: S, a: seq<string>, b: seq<string>, n: nat)
    requires LongCommands(m, s, a + b, n)
    ensures LongCommands(m, s, a, n)
    ensures var r := Fold(m, s, a, n); !r.quit ==> LongCommands(m, r.state, b, n + |a|)
    decreases |a|
  {
    if a == [] {
      assert a + b == b;
    } else {
      assert (a + b)[0] == a[0] && (a + b)[1..] == a[1..] + b;
      if !m.quits(s, a[0]) {
        LongCommandsSplit(m, m.step(s, a[0], n), a[1..], b, n + 1);
      }
    }
  }

  /** Between chunks: the handling has ended, or the buffer is all zero. */
  predicate Clean<S>(d: Drained<S>) {
    Terminated(d.buffer) && (!d.quit ==> d.buffer == Zeros(BUFFER_SIZE))
  }

  lemma FeedOne<S>(m: Machine<S>, d: Drained<S>, t: string)
    requires Clean(d) && !d.quit && WholeLines(t) && LongCommands(m, d.state, Lines(t), d.next)
    ensures var r := Feed(m, d, t);
            && Folded(r.state, r.quit) == Fold(m, d.state, Lines(t), d.next)
            && Clean(r) && (!r.quit ==> r.next == d.next + |Lines(t)|)
  {
    TrailingNuls(t, 0);
    assert t + Zeros(0) == t;
    DrainLeavesZeros(m, d.state, t, d.next);
  }

  lemma {:induction false} FeedAfterQuit<S>(m: Machine<S>, d: Drained<S>, chunks: seq<string>)
    requires Terminated(d.buffer) && d.quit && AllWholeLines(chunks)
    ensures FeedAll(m, d, chunks) == d
  {
    if chunks != [] {
      FeedAfterQuit(m, d, chunks[1..]);
    }
  }

  lemma FeedAllUnfolds<S>(m: Machine<S>, d: Drained<S>, chunks: seq<string>)
    requires Terminated(d.buffer) && AllWholeLines(chunks) && chunks != []
    ensures FeedAll(m, d, chunks) == FeedAll(m, Feed(m, d, chunks[0]), chunks[1..])
  {
  }

  lemma FoldFirst<S>(m: Machine<S>, s: S, first: seq<string>, rest: seq<string>, n: nat)
    requires LongCommands(m, s, first + rest, n)
    ensures var f := Fold(m, s, first, n);
            && LongCommands(m, s, first, n)
            && (f.quit ==> Fold(m, s, first + rest, n) == f)
            && (!f.quit ==> Fold(m, s, first + rest, n) == Fold(m, f.state, rest, n + |first|))
            && (!f.quit ==> LongCommands(m, f.state, rest, n + |first|))
  {
    LongCommandsSplit(m, s, first, rest, n);
    FoldSplit(m, s, first, rest, n);
  }

  lemma FeedFirst<S>(m: Machine<S>, d: Drained<S>, t: string, rest: seq<string>)
    requires Clean(d) && !d.quit && WholeLines(t)
    requires LongCommands(m, d.state, Lines(t) + rest, d.next)
    ensures var r := Feed(m, d, t);
            && Clean(r)
            && Fold(m, d.state, Lines(t) + rest, d.next)
               == (if r.quit then Folded(r.state, true) else Fold(m, r.state, rest, r.next))
            && (!r.quit ==> LongCommands(m, r.state, rest, r.next))
  {
    assert LongCommands(m, d.state, Lines(t), d.next) by {
      FoldFirst(m, d.state, Lines(t), rest, d.next);
    }
    FeedOne(m, d, t);
    FedFirst(m, d, Feed(m, d, t), Lines(t), rest);
  }

  lemma FedFirst<S>(m: Machine<S>, d: Drained<S>, r: Drained<S>, first: seq<string>, rest: seq<string>)
    requires LongCommands(m, d.state, first + rest, d.next)
    requires Folded(r.state, r.quit) == Fold(m, d.state, first, d.next) && (!r.quit ==> r.next == d.next + |first|)
    ensures Fold(m, d.state, first + rest, d.next)
            == (if r.quit then Folded(r.state, true) else Fold(m, r.state, rest, r.next))
    ensures !r.quit ==> LongCommands(m, r.state, rest, r.next)
  {
    FoldFirst(m, d.state, first, rest, d.next);
  }

  lemma {:induction false} FeedingFoldsLines<S>(m: Machine<S>, d: Drained<S>, chunks: seq<string>)
    requires Clean(d) && !d.quit && AllWholeLines(chunks)
    requires LongCommands(m, d.state, AllLines(chunks), d.next)
    ensures var r := FeedAll(m, d, chunks);
            Folded(r.state, r.quit) == Fold(m, d.state, AllLines(chunks), d.next) && Clean(r)
    decreases |chunks|
  {
    if chunks != [] {
      FeedFirst(m, d, chunks[0], AllLines(chunks[1..]));
      FeedAllUnfolds(m, d, chunks);
      var r := Feed(m, d, chunks[0]);
      if r.quit {
        FeedAfterQuit(m, r, chunks[1..]);
      } else {
        FeedingFoldsLines(m, r, chunks[1..]);
      }
    }
  }

  /** Chunk boundaries do not matter: any sequence of whole-line chunks gives the state that one reading of the lines of
      the whole stream gives, and, unless the client quits, a zero buffer again. */
  lemma FeedingIsFolding<S>(m: Machine<S>, s: S, chunks: seq<string>, n: nat)
    requires AllWholeLines(chunks)
    requires LongCommands(m, s, Lines(Concat(chunks)), n)
    ensures var r := FeedAll(m, Drained(s, Zeros(BUFFER_SIZE), false, n), chunks);
            && Folded(r.state, r.quit) == Fold(m, s, Lines(Concat(chunks)), n)
            && (!r.quit ==> r.buffer == Zeros(BUFFER_SIZE))
  {
    AllLinesOfStream(chunks);
    FeedingFoldsLines(m, Drained(s, Zeros(BUFFER_SIZE), false, n), chunks);
  }

  /** A single command line arriving in one piece. */
  lemma FeedLine<S>(m: Machine<S>, d: Drained<S>, line: string)
    requires Clean(d) && !d.quit
    requires 3 <= |line| <= 510 && NUL !in line && FirstEol(line + "\r").None?
    ensures var r := Feed(m, d, line + CRLF);
            && r.state == m.step(d.state, line, d.next) && r.quit == m.quits(d.state, line)
            && Clean(r)
  {
    var t := line + CRLF;
    FirstLine(line, "");
    assert t + "" == t && Lines("") == [];
    assert Lines(t) == [line];
    var s1 := m.step(d.state, line, d.next);
    assert LongCommands(m, s1, [], d.next + 1);
    assert Fold(m, s1, [], d.next + 1) == Folded(s1, false);
    FeedOne(m, d, t);
  }

  /** NULs sent along with a command change nothing. */
  lemma FeedNuls<S>(m: Machine<S>, d: Drained<S>, t: string, k: nat)
    requires Clean(d) && !d.quit && |t| + k < BUFFER_SIZE
    ensures Feed(m, d, t + Zeros(k)) == Feed(m, d, t)
  {
    TrailingNuls(t, k);
    TrailingNuls(t, 0);
    assert t + Zeros(0) == t;
  }
}
