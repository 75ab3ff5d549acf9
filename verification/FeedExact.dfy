/** Exactly when chunk after chunk of whole lines is handled line by line, whatever their lengths. */
module FeedExact {
  import opened Text
  import opened ServerBuffer
  import opened DrainExact

  // --------------------------------------------------------------- one chunk

  /** A short command line is harmless in a zero-padded buffer when nothing reaches beyond index 4. */
  lemma ShortPass(t: string, i: nat)
    requires WholeLines(t) && FirstEol(t) == Some(i) && i < 3 && |t| <= 4
    ensures Terminated(Padded(t)) && Padded(t)[..i] == t[..i]
    ensures Shift(Poked(Padded(t), i, false), i + 2) == Padded(t[i + 2..])
  {
  }

  lemma PassSafe(t: string, i: nat, textMode: bool)
    requires WholeLines(t) && FirstEol(t) == Some(i) && (textMode || i >= 3 || |t| <= 4)
    ensures Terminated(Padded(t)) && CString(Padded(t)) == t && Padded(t)[..i] == t[..i]
    ensures Shift(Poked(Padded(t), i, textMode), i + 2) == Padded(t[i + 2..])
  {
    PaddedText(t);
    if textMode || i >= 3 {
      PaddedPass(t, i, textMode);
    } else {
      ShortPass(t, i);
    }
  }

  lemma SomeLines(t: string)
    requires t == "" || EndsWithCRLF(t)
    ensures Lines(t) == [] <==> t == ""
  {
    if t != "" {
      var i := FirstLineOf(t);
      LinesFirst(t, i);
    } else {
      assert FirstEol("").None?;
    }
  }

  /** The rest of a chunk after its first line. */
  lemma RestWhole(t: string, i: nat)
    requires WholeLines(t) && FirstEol(t) == Some(i)
    ensures i + 2 <= |t| && (t[i + 2..] == "" || WholeLines(t[i + 2..]))
    ensures Lines(t) == [t[..i]] + Lines(t[i + 2..])
    ensures Lines(t[i + 2..]) == [] <==> t[i + 2..] == ""
  {
    LinesFirst(t, i);
    var j := FirstLineOf(t);
    SomeLines(t[i + 2..]);
  }

  /** After an empty command line the write at index 4 leaves just CRLF of a longer rest that starts with it. */
  lemma EmptyPairLeft(t: string)
    requires WholeLines(t) && FirstEol(t) == Some(0) && |t| > 4 && CRLF <= t[2..]
    ensures var next := Shift(Poked(Padded(t), 0, false), 2);
            Terminated(next) && CString(next) == CRLF && FirstEol(CString(next)) == Some(0) && next[..0] == ""
  {
    PaddedText(t);
    PassLeaves(Padded(t), 0, false);
    ShiftShortens(Padded(t), 0, false);
    assert t[2..4] == CRLF;
    FirstEolIs(CRLF, 0);
  }

  lemma DrainQuits<S>(m: Machine<S>, s: S, buf: string, lines: seq<string>, n: nat)
    requires Terminated(buf) && CString(buf) == CRLF && FirstEol(CRLF) == Some(0) && m.quits(s, "")
    requires lines != [] && lines[0] == ""
    ensures var r := Drain(m, s, buf, n); r.quit && Folded(r.state, r.quit) == Fold(m, s, lines, n)
  {
    assert buf[..0] == "";
    DrainUnfolds(m, s, buf, 0, n);
  }

  lemma FoldsOn<S>(m: Machine<S>, s: S, line: string, rest: seq<string>, n: nat)
    ensures var s1 := m.step(s, line, n);
            Fold(m, s, [line] + rest, n) == if m.quits(s, line) then Folded(s1, true) else Fold(m, s1, rest, n + 1)
  {
    assert ([line] + rest)[0] == line && ([line] + rest)[1..] == rest;
  }

  /** A single empty line read of a longer rest that starts with it means a quit. */
  lemma OnlyEmptyRead<S>(m: Machine<S>, s: S, rest: string, n: nat)
    requires WholeLines(rest) && |rest| > 2 && Read(m, s, Lines(rest), n) == [""]
    ensures CRLF <= rest && m.quits(s, "") && Lines(rest) != [] && Lines(rest)[0] == ""
  {
    SomeLines(rest);
    var lines := Lines(rest);
    assert Read(m, s, lines, n)[0] == lines[0];
    EmptyFirst(rest);
    if !m.quits(s, "") {
      FirstEolIs(rest, 0);
      RestWhole(rest, 0);
      ReadOne(m, s, "", Lines(rest[2..]), n);
      ReadSome(m, m.step(s, "", n), Lines(rest[2..]), n + 1);
    }
  }

  lemma ReadSome<S>(m: Machine<S>, s: S, lines: seq<string>, n: nat)
    requires lines != []
    ensures Read(m, s, lines, n) != []
  {
  }

  /** An empty line, and then an empty line that quits. */
  lemma DrainEmptyPair<S>(m: Machine<S>, s: S, t: string, n: nat)
    requires WholeLines(t) && FirstEol(t) == Some(0) && |t| > 4 && !m.textMode(s) && !m.quits(s, "")
    requires Read(m, m.step(s, "", n), Lines(t[2..]), n + 1) == [""]
    ensures Terminated(Padded(t))
    ensures var r := Drain(m, s, Padded(t), n);
            r.quit && Folded(r.state, r.quit) == Fold(m, m.step(s, "", n), Lines(t[2..]), n + 1)
  {
    var (s1, rest) := (m.step(s, "", n), t[2..]);
    RestWhole(t, 0);
    OnlyEmptyRead(m, s1, rest, n + 1);
    EmptyPairLeft(t);
    PaddedText(t);
    DrainUnfolds(m, s, Padded(t), 0, n);
    assert Padded(t)[..0] == "";
    DrainQuits(m, s1, Shift(Poked(Padded(t), 0, false), 2), Lines(rest), n + 1);
  }

  lemma DrainSafePass<S>(m: Machine<S>, s: S, t: string, i: nat, n: nat)
    requires WholeLines(t) && FirstEol(t) == Some(i) && (m.textMode(s) || i >= 3 || |t| <= 4)
    ensures i + 2 <= |t| && Terminated(Padded(t)) && Terminated(Padded(t[i + 2..]))
    ensures var s1 := m.step(s, t[..i], n);
            var r := Drain(m, s, Padded(t), n);
            if m.quits(s, t[..i]) then r.state == s1 && r.quit
            else r == Drain(m, s1, Padded(t[i + 2..]), n + 1)
  {
    RestWhole(t, i);
    PassSafe(t, i, m.textMode(s));
    DrainUnfolds(m, s, Padded(t), i, n);
  }

  /** What a drain of a chunk must come to. */
  ghost predicate Drains<S>(m: Machine<S>, s: S, t: string, n: nat)
    requires |t| < BUFFER_SIZE
  {
    Terminated(Padded(t)) &&
    var r := Drain(m, s, Padded(t), n);
    && Folded(r.state, r.quit) == Fold(m, s, Lines(t), n)
    && (!r.quit ==> r.buffer == Zeros(BUFFER_SIZE) && r.next == n + |Lines(t)|)
  }

  /** A short command line that is not the last, with an empty line after it. */
  lemma DrainSafeShort<S>(m: Machine<S>, s: S, t: string, i: nat, n: nat)
    requires WholeLines(t) && FirstEol(t) == Some(i) && !m.textMode(s) && i < 3 && |t| > 4
    requires Safe(m, s, Lines(t), n)
    ensures Drains(m, s, t, n)
  {
    RestWhole(t, i);
    var (line, rest) := (t[..i], Lines(t[i + 2..]));
    FoldsOn(m, s, line, rest, n);
    ReadOne(m, s, line, rest, n);
    PaddedText(t);
    if m.quits(s, line) {
      assert Padded(t)[..i] == line;
      DrainUnfolds(m, s, Padded(t), i, n);
    } else {
      DrainEmptyPair(m, s, t, n);
    }
  }

  lemma DrainSafeOn<S>(m: Machine<S>, s: S, t: string, i: nat, n: nat)
    requires WholeLines(t) && FirstEol(t) == Some(i) && (m.textMode(s) || i >= 3 || |t| <= 4)
    requires i + 2 <= |t| && !m.quits(s, t[..i]) ==> Drains(m, m.step(s, t[..i], n), t[i + 2..], n + 1)
    ensures Drains(m, s, t, n)
  {
    RestWhole(t, i);
    FoldsOn(m, s, t[..i], Lines(t[i + 2..]), n);
    DrainSafePass(m, s, t, i, n);
  }

  /** Draining a safe chunk of whole lines out of an otherwise zero buffer handles exactly its lines and leaves 1024
      zeros. */
  lemma {:induction false} DrainSafe<S>(m: Machine<S>, s: S, t: string, n: nat)
    requires t == "" || WholeLines(t)
    requires Safe(m, s, Lines(t), n)
    ensures Drains(m, s, t, n)
    decreases |t|
  {
    if t == "" {
      DrainNothing(m, s, n);
    } else {
      var i := FirstLineOf(t);
      if m.textMode(s) || i >= 3 || |t| <= 4 {
        RestWhole(t, i);
        ReadOne(m, s, t[..i], Lines(t[i + 2..]), n);
        if !m.quits(s, t[..i]) {
          DrainSafe(m, m.step(s, t[..i], n), t[i + 2..], n + 1);
        }
        DrainSafeOn(m, s, t, i, n);
      } else {
        DrainSafeShort(m, s, t, i, n);
      }
    }
  }

  // -------------------------------------------------------------- all chunks

  /** The lines handed over, chunk by chunk. */
  function HandedEach<S>(m: Machine<S>, d: Drained<S>, chunks: seq<string>): seq<seq<string>>
    requires Terminated(d.buffer) && AllWholeLines(chunks)
    decreases |chunks|
  {
    if chunks == [] || d.quit then []
    else
      [Handled(m, d.state, Received(d.buffer, chunks[0]), d.next)]
      + HandedEach(m, Feed(m, d, chunks[0]), chunks[1..])
  }

  /** The lines of each chunk. */
  function Batches(chunks: seq<string>): seq<seq<string>> {
    seq(|chunks|, k requires 0 <= k < |chunks| => Lines(chunks[k]))
  }

  lemma BatchesRest(chunks: seq<string>)
    requires chunks != []
    ensures Batches(chunks)[0] == Lines(chunks[0]) && Batches(chunks)[1..] == Batches(chunks[1..])
  {
  }

  /** The lines a plain reading hands over, batch by batch. */
  function ReadEach<S>(m: Machine<S>, s: S, batches: seq<seq<string>>, n: nat): seq<seq<string>>
    decreases |batches|
  {
    if batches == [] then []
    else
      [Read(m, s, batches[0], n)] +
      var f := Fold(m, s, batches[0], n);
      if f.quit then [] else ReadEach(m, f.state, batches[1..], n + |batches[0]|)
  }

  /** No batch, up to a quit, has a line from which the write at index 4 takes another. */
  predicate SafeEach<S>(m: Machine<S>, s: S, batches: seq<seq<string>>, n: nat)
    decreases |batches|
  {
    batches != [] ==>
      && Safe(m, s, batches[0], n)
      && var f := Fold(m, s, batches[0], n);
         !f.quit ==> SafeEach(m, f.state, batches[1..], n + |batches[0]|)
  }

  lemma FeedSafe<S>(m: Machine<S>, d: Drained<S>, t: string)
    requires Clean(d) && !d.quit && WholeLines(t)
    ensures Received(d.buffer, t) == Padded(t) && Terminated(Padded(t))
    ensures Handled(m, d.state, Padded(t), d.next) == Read(m, d.state, Lines(t), d.next)
            <==> Safe(m, d.state, Lines(t), d.next)
    ensures Safe(m, d.state, Lines(t), d.next) ==>
              var r := Feed(m, d, t);
              && Folded(r.state, r.quit) == Fold(m, d.state, Lines(t), d.next)
              && Clean(r) && (!r.quit ==> r.next == d.next + |Lines(t)|)
  {
    TrailingNuls(t, 0);
    assert t + Zeros(0) == t;
    PaddedText(t);
    DrainExactly(m, d.state, Padded(t), d.next);
    if Safe(m, d.state, Lines(t), d.next) {
      DrainSafe(m, d.state, t, d.next);
    }
  }

  lemma HandedFirst<S>(m: Machine<S>, d: Drained<S>, chunks: seq<string>, r: Drained<S>, h: seq<string>)
    requires Terminated(d.buffer) && !d.quit && AllWholeLines(chunks) && chunks != []
    requires h == Handled(m, d.state, Received(d.buffer, chunks[0]), d.next) && r == Feed(m, d, chunks[0])
    ensures HandedEach(m, d, chunks) == [h] + if r.quit then [] else HandedEach(m, r, chunks[1..])
  {
  }

  lemma ReadFirst<S>(m: Machine<S>, s: S, bs: seq<seq<string>>, n: nat, f: Folded<S>)
    requires bs != [] && f == Fold(m, s, bs[0], n)
    ensures ReadEach(m, s, bs, n)
            == [Read(m, s, bs[0], n)] + if f.quit then [] else ReadEach(m, f.state, bs[1..], n + |bs[0]|)
  {
  }

  lemma SafeFirst<S>(m: Machine<S>, s: S, bs: seq<seq<string>>, n: nat, f: Folded<S>)
    requires bs != [] && f == Fold(m, s, bs[0], n)
    ensures SafeEach(m, s, bs, n)
            <==> Safe(m, s, bs[0], n) && (!f.quit ==> SafeEach(m, f.state, bs[1..], n + |bs[0]|))
  {
  }

  /** One chunk further: what is handed over of it. */
  lemma HandsOne<S>(m: Machine<S>, d: Drained<S>, chunks: seq<string>) returns (r: Drained<S>, h: seq<string>)
    requires Clean(d) && !d.quit && AllWholeLines(chunks) && chunks != []
    ensures Terminated(r.buffer)
    ensures HandedEach(m, d, chunks) == [h] + if r.quit then [] else HandedEach(m, r, chunks[1..])
    ensures FeedAll(m, d, chunks) == FeedAll(m, r, chunks[1..])
    ensures Fed(m, d, Lines(chunks[0]), r, h)
  {
    var t := chunks[0];
    FeedSafe(m, d, t);
    r, h := Feed(m, d, t), Handled(m, d.state, Padded(t), d.next);
    HandedFirst(m, d, chunks, r, h);
    FeedAllUnfolds(m, d, chunks);
  }

  /** What a fed chunk has to do with its lines. */
  ghost predicate Fed<S>(m: Machine<S>, d: Drained<S>, lines: seq<string>, r: Drained<S>, h: seq<string>) {
    && (h == Read(m, d.state, lines, d.next) <==> Safe(m, d.state, lines, d.next))
    && (Safe(m, d.state, lines, d.next) ==>
          && Folded(r.state, r.quit) == Fold(m, d.state, lines, d.next)
          && Clean(r) && (!r.quit ==> r.next == d.next + |lines|))
  }

  /** One batch further: what is read of it. */
  lemma ReadsOne<S>(m: Machine<S>, d: Drained<S>, bs: seq<seq<string>>, r: Drained<S>, h: seq<string>)
    returns (h': seq<string>, y: seq<seq<string>>)
    requires bs != [] && Fed(m, d, bs[0], r, h)
    ensures ReadEach(m, d.state, bs, d.next) == [h'] + y
    ensures h == h' <==> Safe(m, d.state, bs[0], d.next)
    ensures h == h' ==> Clean(r) && y == if r.quit then [] else ReadEach(m, r.state, bs[1..], r.next)
  {
    var f := Fold(m, d.state, bs[0], d.next);
    h' := Read(m, d.state, bs[0], d.next);
    y := if f.quit then [] else ReadEach(m, f.state, bs[1..], d.next + |bs[0]|);
    ReadFirst(m, d.state, bs, d.next, f);
  }

  /** And whether it is safe. */
  lemma SafeOne<S>(m: Machine<S>, d: Drained<S>, bs: seq<seq<string>>, r: Drained<S>, h: seq<string>)
    requires bs != [] && Fed(m, d, bs[0], r, h)
    ensures SafeEach(m, d.state, bs, d.next)
            <==> Safe(m, d.state, bs[0], d.next) && (!r.quit ==> SafeEach(m, r.state, bs[1..], r.next))
  {
    SafeFirst(m, d.state, bs, d.next, Fold(m, d.state, bs[0], d.next));
  }

  lemma SameEach<T>(a: T, b: T, x: seq<T>, y: seq<T>)
    ensures [a] + x == [b] + y <==> a == b && x == y
  {
    assert ([a] + x)[0] == a && ([b] + y)[0] == b;
    assert ([a] + x)[1..] == x && ([b] + y)[1..] == y;
  }

  /** Every chunk hands over exactly its lines, up to a quit, if and only if every chunk is safe. */
  lemma {:induction false} HandsExactly<S>(m: Machine<S>, d: Drained<S>, chunks: seq<string>)
    requires Clean(d) && !d.quit && AllWholeLines(chunks)
    ensures var bs := Batches(chunks);
            HandedEach(m, d, chunks) == ReadEach(m, d.state, bs, d.next) <==> SafeEach(m, d.state, bs, d.next)
    decreases |chunks|
  {
    if chunks != [] {
      var r, h := HandsOne(m, d, chunks);
      BatchesRest(chunks);
      var h', y := ReadsOne(m, d, Batches(chunks), r, h);
      SafeOne(m, d, Batches(chunks), r, h);
      SameEach(h, h', if r.quit then [] else HandedEach(m, r, chunks[1..]), y);
      if h == h' && !r.quit {
        HandsExactly(m, r, chunks[1..]);
      }
    }
  }

  lemma FoldsOver<S>(m: Machine<S>, d: Drained<S>, t: string, r: Drained<S>, h: seq<string>, more: seq<string>)
    requires Fed(m, d, Lines(t), r, h) && Safe(m, d.state, Lines(t), d.next)
    ensures Fold(m, d.state, Lines(t) + more, d.next)
            == (if r.quit then Folded(r.state, true) else Fold(m, r.state, more, r.next))
  {
    FoldSplit(m, d.state, Lines(t), more, d.next);
  }

  /** When every chunk is safe the result is that of one reading of all the lines. */
  lemma {:induction false} SafeFeedsFold<S>(m: Machine<S>, d: Drained<S>, chunks: seq<string>)
    requires Clean(d) && !d.quit && AllWholeLines(chunks)
    requires SafeEach(m, d.state, Batches(chunks), d.next)
    ensures var r := FeedAll(m, d, chunks);
            Clean(r) && Folded(r.state, r.quit) == Fold(m, d.state, AllLines(chunks), d.next)
    decreases |chunks|
  {
    if chunks != [] {
      var r, h := HandsOne(m, d, chunks);
      BatchesRest(chunks);
      SafeOne(m, d, Batches(chunks), r, h);
      FoldsOver(m, d, chunks[0], r, h, AllLines(chunks[1..]));
      if r.quit {
        FeedAfterQuit(m, r, chunks[1..]);
      } else {
        SafeFeedsFold(m, r, chunks[1..]);
      }
    }
  }

  /** Of a stream that a zero buffer receives in whole-line chunks every chunk hands over exactly its lines, up to a
      quit, if and only if every chunk is safe; and then all of them together are read like the lines of the stream.
      */
  lemma FeedingExactly<S>(m: Machine<S>, s: S, chunks: seq<string>, n: nat)
    requires AllWholeLines(chunks)
    ensures var d := Drained(s, Zeros(BUFFER_SIZE), false, n);
            && (HandedEach(m, d, chunks) == ReadEach(m, s, Batches(chunks), n) <==> SafeEach(m, s, Batches(chunks), n))
            && (SafeEach(m, s, Batches(chunks), n) ==>
                  var r := FeedAll(m, d, chunks);
                  && Folded(r.state, r.quit) == Fold(m, s, Lines(Concat(chunks)), n)
                  && (!r.quit ==> r.buffer == Zeros(BUFFER_SIZE)))
  {
    AllLinesOfStream(chunks);
    var d := Drained(s, Zeros(BUFFER_SIZE), false, n);
    HandsExactly(m, d, chunks);
    if SafeEach(m, s, Batches(chunks), n) {
      SafeFeedsFold(m, d, chunks);
    }
  }
}
