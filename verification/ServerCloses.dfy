/** Exactly when a server session is closed, and what its handler does with what it receives. */
module ServerCloses {
  import opened Text
  import opened Outcomes
  import opened ServerBuffer
  import opened DrainExact
  import opened ServerSession
  import opened ServerSocket
  import opened ServerLaws
  import opened HandedLines

  // ------------------------------------------------------------------ one line

  /** A QUIT whose reply does not block. */
  predicate Parts(s: Session, line: string, e: LineInput) {
    !s.textMode && "QUIT" <= line && e.io != WouldBlock
  }

  /** The dot that ends a text; a session that was closed inside the text is open again after it. */
  predicate Reopens(s: Session, line: string, e: LineInput) { s.textMode && line == "." }

  lemma CommandCloses(s: Session, line: string, e: LineInput)
    requires !s.textMode && !("QUIT" <= line)
    ensures Line(s, line, e).phase == 13 <==> s.phase == 13
  {
    CommandIs(line);
  }

  lemma LineCloses(s: Session, line: string, e: LineInput)
    ensures Line(s, line, e).phase == 13 <==> Parts(s, line, e) || (s.phase == 13 && !Reopens(s, line, e))
  {
    if s.textMode {
    } else if "QUIT" <= line {
      OnQuit(s, line, e);
    } else {
      CommandCloses(s, line, e);
    }
  }

  /** What ends the handling of buffered lines: QUIT, sent or not, and the null pointer of HELO. */
  lemma QuitsExactly(s: Session, line: string)
    ensures Quits(s, line) <==>
            !s.textMode && ("QUIT" <= line || (s.phase == 7 && "HELO" <= line && ' ' !in line))
  {
    CommandIs(line);
  }

  lemma {:induction false} FoldCloses(env: nat -> LineInput, s: Session, lines: seq<string>, n: nat)
    ensures Fold(Server(env), s, lines, n).state.phase == 13 <==>
            Meets(Parts, env, s, lines, n) || (s.phase == 13 && !Meets(Reopens, env, s, lines, n))
    decreases |lines|
  {
    if lines == [] {
      MeetsNone(Parts, env, s, n);
      MeetsNone(Reopens, env, s, n);
    } else {
      MeetsLater(Parts, env, s, lines, n);
      MeetsLater(Reopens, env, s, lines, n);
      FoldNext(env, s, lines, n);
      LineCloses(s, lines[0], env(n));
      QuitsExactly(s, lines[0]);
      if !Quits(s, lines[0]) {
        FoldCloses(env, Line(s, lines[0], env(n)), lines[1..], n + 1);
      }
    }
  }

  // ------------------------------------------------------------------ one call

  /** The call loses the connection, cannot send the greeting, or hands over a QUIT whose reply does not block. */
  ghost predicate CallCloses(k: Socket, c: Call)
    requires Terminated(k.buffer)
  {
    Possible(c.reading) && !k.session.faulted &&
    if k.session.phase == 6 then c.io == Broken
    else if !c.flag then c.reading == HungUp || c.reading == Failed
    else Hands(Parts, k, c)
  }

  lemma CallClosing(k: Socket, c: Call)
    requires Terminated(k.buffer) && Possible(c.reading)
    ensures CallStep(k.(flag := c.flag), c.io, c.reading, c.env, c.n).session.phase == 13 <==>
            CallCloses(k, c) || (k.session.phase == 13 && !Hands(Reopens, k, c))
  {
    var s := k.session;
    if !s.faulted && s.phase != 6 && c.flag {
      DrainFoldsHandled(Server(c.env), s, k.buffer, c.n);
      FoldCloses(c.env, s, Handled(Server(c.env), s, k.buffer, c.n), c.n);
    }
  }

  // ------------------------------------------------------------------ every call

  /** Whether a call closed the session, and whether it handed over the dot of a text. */
  datatype Mark = Mark(closes: bool, reopens: bool)

  ghost function MarkOf(before: seq<Call>, c: Call): Mark {
    Mark(CallCloses(RunCalls(before), c), Hands(Reopens, RunCalls(before), c))
  }

  ghost function Marks(calls: seq<Call>): seq<Mark> {
    seq(|calls|, j requires 0 <= j < |calls| => MarkOf(calls[..j], calls[j]))
  }

  lemma MarksNext(calls: seq<Call>)
    requires calls != []
    ensures var n := |calls| - 1; Marks(calls) == Marks(calls[..n]) + [MarkOf(calls[..n], calls[n])]
  {
    var n := |calls| - 1;
    forall j | 0 <= j < n ensures Marks(calls)[j] == Marks(calls[..n])[j] {
      assert calls[..n][..j] == calls[..j] && calls[..n][j] == calls[j];
    }
  }

  /** Call `j` closed the session and no later call reopened it. */
  predicate ClosedSince(marks: seq<Mark>, j: nat) {
    j < |marks| && marks[j].closes && forall i | j < i < |marks| :: !marks[i].reopens
  }

  ghost predicate ClosedByNow(marks: seq<Mark>) { exists j: nat :: ClosedSince(marks, j) }

  lemma ClosedNext(marks: seq<Mark>, m: Mark)
    ensures ClosedByNow(marks + [m]) <==> m.closes || (ClosedByNow(marks) && !m.reopens)
  {
    var all := marks + [m];
    if m.closes {
      assert ClosedSince(all, |marks|);
    }
    if ClosedByNow(all) {
      var j: nat :| ClosedSince(all, j);
      if j < |marks| {
        assert !all[|marks|].reopens;
        assert forall i | j < i < |marks| :: all[i] == marks[i];
        assert all[j] == marks[j];
        assert ClosedSince(marks, j);
      }
    }
    if ClosedByNow(marks) && !m.reopens {
      var j: nat :| ClosedSince(marks, j);
      assert ClosedSince(all, j);
    }
  }

  /** After any calls of its handler a session is closed exactly when one of them lost the connection while reading,
      could not send the greeting, or handed over a QUIT whose reply did not block, and no later one handed over the dot
      of an unfinished text. */
  lemma {:induction false} ClosedExactly(calls: seq<Call>)
    ensures RunCalls(calls).session.phase == 13 <==> ClosedByNow(Marks(calls))
  {
    if calls == [] {
      NotClosedYet();
    } else {
      var (n, init) := (|calls| - 1, calls[..|calls| - 1]);
      ClosedExactly(init);
      MarksNext(calls);
      ClosedNext(Marks(init), MarkOf(init, calls[n]));
      RunClosing(calls);
    }
  }

  lemma NotClosedYet()
    ensures Marks([]) == [] && !ClosedByNow([]) && RunCalls([]).session.phase == 6
  {
  }

  lemma RunClosing(calls: seq<Call>)
    requires calls != []
    ensures var n := |calls| - 1;
            var m := MarkOf(calls[..n], calls[n]);
            RunCalls(calls).session.phase == 13
            <==> m.closes || (RunCalls(calls[..n]).session.phase == 13 && !m.reopens)
  {
    var c := calls[|calls| - 1];
    if Possible(c.reading) {
      CallClosing(RunCalls(calls[..|calls| - 1]), c);
    }
  }

  // ------------------------------------------------------------ closed for good

  predicate ForGood(s: Session) { s.phase == 13 && !s.textMode }

  lemma LineForGood(s: Session, line: string, e: LineInput)
    requires ForGood(s)
    ensures ForGood(Line(s, line, e))
  {
    LineCloses(s, line, e);
    CommandIs(line);
  }

  lemma {:induction false} FoldForGood(env: nat -> LineInput, s: Session, lines: seq<string>, n: nat)
    requires ForGood(s)
    ensures ForGood(Fold(Server(env), s, lines, n).state)
    decreases |lines|
  {
    if lines != [] {
      FoldNext(env, s, lines, n);
      LineForGood(s, lines[0], env(n));
      if !Quits(s, lines[0]) {
        FoldForGood(env, Line(s, lines[0], env(n)), lines[1..], n + 1);
      }
    }
  }

  lemma CallForGood(k: Socket, c: Call)
    requires Terminated(k.buffer) && Possible(c.reading) && ForGood(k.session)
    ensures ForGood(CallStep(k.(flag := c.flag), c.io, c.reading, c.env, c.n).session)
  {
    DrainFoldsHandled(Server(c.env), k.session, k.buffer, c.n);
    FoldForGood(c.env, k.session, Handled(Server(c.env), k.session, k.buffer, c.n), c.n);
  }

  lemma OneMoreForGood(calls: seq<Call>, c: Call)
    requires ForGood(RunCalls(calls).session)
    ensures ForGood(RunCalls(calls + [c]).session)
  {
    assert (calls + [c])[..|calls|] == calls;
    if Possible(c.reading) {
      CallForGood(RunCalls(calls), c);
    }
  }

  /** A session closed outside a text, as by QUIT, stays closed, whatever calls follow. */
  lemma {:induction false} ClosedForGood(calls: seq<Call>, more: seq<Call>)
    requires ForGood(RunCalls(calls).session)
    ensures ForGood(RunCalls(calls + more).session)
  {
    if more == [] {
      assert calls + more == calls;
    } else {
      var (n, c) := (|more| - 1, more[|more| - 1]);
      ClosedForGood(calls, more[..n]);
      assert calls + more == calls + more[..n] + [c];
      OneMoreForGood(calls + more[..n], c);
    }
  }

  // ------------------------------------------------------------ what is received

  /** One reading: bytes go to the front of the buffer and leave the session alone; nothing to read changes nothing; a
      connection hung up or broken closes the session. */
  lemma ReadingLeaves(k: Socket, io: IO, r: Reading, env: nat -> LineInput, n: nat)
    requires Terminated(k.buffer) && Possible(r) && !k.session.faulted && k.session.phase != 6 && !k.flag
    ensures var d := CallStep(k, io, r, env, n);
            && (r == Blocked ==> d == k)
            && (r == HungUp || r == Failed ==> d == k.(session := k.session.(phase := 13)))
            && (r.Bytes? ==>
                  && d.session == k.session && d.buffer == r.chunk + k.buffer[|r.chunk|..]
                  && (d.flag <==> exists i: nat :: Eol(CString(d.buffer), i)))
  {
  }

  /** The greeting is one send; a session that followed a null pointer does nothing more. */
  lemma GreetingLeaves(k: Socket, io: IO, r: Reading, env: nat -> LineInput, n: nat)
    requires Terminated(k.buffer) && Possible(r)
    ensures var (d, s) := (CallStep(k, io, r, env, n), k.session);
            && (s.faulted ==> d == k)
            && (!s.faulted && s.phase == 6 ==>
                  d == Socket(s.(phase := if io == Done then 7 else if io == WouldBlock then 6 else 13), k.buffer,
                              if io == Done then false else k.flag))
  {
  }

  /** Two calls, one that reads a chunk and one that drains the buffer. */
  function Served(k: Socket, chunk: string, env: nat -> LineInput, n: nat): (d: Socket)
    requires Terminated(k.buffer) && 0 < |chunk| < BUFFER_SIZE
    ensures Terminated(d.buffer)
  {
    var read := CallStep(k.(flag := false), Done, Bytes(chunk), env, n);
    CallStep(read.(flag := true), Done, Reading.Blocked, env, n)
  }

  /** They do what feeding the chunk does, which the results about streams and letters are proved of. */
  lemma ServedIsFed(k: Socket, chunk: string, env: nat -> LineInput, n: nat)
    requires Terminated(k.buffer) && 0 < |chunk| < BUFFER_SIZE && !k.session.faulted && k.session.phase != 6
    ensures var r := Feed(Server(env), Drained(k.session, k.buffer, false, n), chunk);
            Served(k, chunk, env, n) == Socket(r.state, r.buffer, r.quit)
  {
  }

  function ServedAll(k: Socket, chunks: seq<string>, env: nat -> LineInput, n: nat): Socket
    requires Terminated(k.buffer) && AllWholeLines(chunks)
    decreases |chunks|
  {
    if chunks == [] then k
    else
      var next := Feed(Server(env), Drained(k.session, k.buffer, false, n), chunks[0]).next;
      ServedAll(Served(k, chunks[0], env, n), chunks[1..], env, next)
  }

  lemma LineStays(s: Session, line: string, e: LineInput)
    requires s.phase != 6 && !s.faulted
    ensures Line(s, line, e).phase != 6 && (Line(s, line, e).faulted ==> Quits(s, line))
  {
  }

  lemma {:induction false} FoldStays(env: nat -> LineInput, s: Session, lines: seq<string>, n: nat)
    requires s.phase != 6 && !s.faulted
    ensures var r := Fold(Server(env), s, lines, n); r.state.phase != 6 && (!r.quit ==> !r.state.faulted)
    decreases |lines|
  {
    if lines != [] {
      FoldNext(env, s, lines, n);
      LineStays(s, lines[0], env(n));
      if !Quits(s, lines[0]) {
        FoldStays(env, Line(s, lines[0], env(n)), lines[1..], n + 1);
      }
    }
  }

  /** Handler calls that read and drain chunk after chunk are the feeding of the chunks, as long as none of them
      quits. */
  lemma {:induction false} CallsFeed(k: Socket, chunks: seq<string>, env: nat -> LineInput, n: nat)
    requires Terminated(k.buffer) && AllWholeLines(chunks) && !k.session.faulted && k.session.phase != 6
    requires !FeedAll(Server(env), Drained(k.session, k.buffer, false, n), chunks).quit
    ensures var d := ServedAll(k, chunks, env, n);
            var r := FeedAll(Server(env), Drained(k.session, k.buffer, false, n), chunks);
            d.session == r.state && d.buffer == r.buffer
    decreases |chunks|
  {
    if chunks != [] {
      var d := Drained(k.session, k.buffer, false, n);
      var r := Feed(Server(env), d, chunks[0]);
      FeedAllUnfolds(Server(env), d, chunks);
      ServedIsFed(k, chunks[0], env, n);
      if r.quit {
        FeedAfterQuit(Server(env), r, chunks[1..]);
      }
      DrainFoldsHandled(Server(env), k.session, Received(k.buffer, chunks[0]), n);
      FoldStays(env, k.session, Handled(Server(env), k.session, Received(k.buffer, chunks[0]), n), n);
      CallsFeed(Served(k, chunks[0], env, n), chunks[1..], env, r.next);
    }
  }

  /** A session whose connection is lost inside a text is closed; if the dot is still read after that, it is open
      again. */
  lemma DotReopens(k: Socket, env: nat -> LineInput, n: nat)
    requires k.buffer == Zeros(BUFFER_SIZE) && k.session.textMode && k.session.phase == 11 && !k.session.faulted
    ensures var lost := CallStep(k.(flag := false), Done, HungUp, env, n);
            && Terminated(lost.buffer)
            && lost.session.phase == 13 && Served(lost, ".\r\n", env, n).session.phase == 8
  {
    var lost := CallStep(k.(flag := false), Done, HungUp, env, n);
    var (m, t) := (Server(env), ".\r\n");
    FirstLine(".", "");
    assert "." + CRLF + "" == t && Lines("") == [];
    assert Lines(t) == ["."];
    assert WholeLines(t);
    ServedIsFed(lost, t, env, n);
    var s1 := Line(lost.session, ".", env(n));
    OnDot(lost.session, env(n));
    assert LongCommands(m, s1, [], n + 1) && Fold(m, s1, [], n + 1) == Folded(s1, false);
    FeedOne(m, Drained(lost.session, lost.buffer, false, n), t);
    FoldNext(env, lost.session, ["."], n);
  }
}
