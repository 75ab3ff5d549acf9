/** What holds over every run of one client connection, whatever the server answers and the network does. */
module ConnectionRuns {
  import opened Text
  import opened Outcomes
  import opened Connection

  // --------------------------------------------------- reachable control states

  /** The (current, previous) state pairs a run can be in. */
  predicate InTable(cur: State, prev: State) {
    if cur == SEND_QUIT then prev == RECEIVE_LETTER_RESPONSE || prev == RECEIVE_RSET_RESPONSE
    else if cur == DISPOSING_SOCKET then Follows(DISPOSING_SOCKET, prev) || prev == SEND_EHLO
    else if cur == NULL_POINTER then prev == DISPOSING_SOCKET
    else if cur == SMTP_ERROR then
      || (SMTP_ERROR <= prev <= SEND_QUIT && prev != RECEIVE_EHLO_RESPONSE)
      || prev == SEND_RSET || prev == RECEIVE_RSET_RESPONSE
    else Follows(cur, prev)
  }

  predicate InTransaction(s: State) {
    SEND_MAIL_FROM <= s <= RECEIVE_LETTER_RESPONSE
  }

  /** Greeting and EHLO, or a failure there: `attempt` is not yet set. */
  predicate Early(c: Conn) {
    c.cur == RECEIVE_SMTP_GREETING || c.cur == SEND_EHLO || c.cur == RECEIVE_EHLO_RESPONSE
    || ((c.cur == SMTP_ERROR || c.cur == DISPOSING_SOCKET)
        && (c.prev == PREPARE_SOCKET_CONNECTION || c.prev == RECEIVE_SMTP_GREETING || c.prev == SEND_EHLO))
  }

  predicate Disposed(c: Conn) { c.cur == NULL_POINTER }

  /** From SEND_MAIL_FROM on `attempt` is 0 or 1, and 1 from the first failure until a letter is filed and another
      left. */
  predicate AttemptSound(c: Conn) {
    && (!Early(c) && !Disposed(c) && c.cur != DISPOSING_SOCKET ==> c.attempt == 0 || c.attempt == 1)
    && (c.cur == SEND_MAIL_FROM ==> (c.attempt == 1 || c.prev != RECEIVE_RSET_RESPONSE))
    && (c.cur == SEND_MAIL_FROM && c.prev != RECEIVE_RSET_RESPONSE ==> c.attempt == 0)
    && (c.cur == SEND_RSET || c.cur == RECEIVE_RSET_RESPONSE || c.prev == RECEIVE_RSET_RESPONSE
        || (c.cur == SMTP_ERROR && c.prev == SMTP_ERROR)
        ==> c.attempt == 1)
  }

  /** Where the pool still holds a letter and where it is known to be empty. */
  predicate PoolSound(c: Conn) {
    && (InTransaction(c.cur) || Early(c) ==> c.pool != [])
    && (c.cur == SMTP_ERROR && SEND_MAIL_FROM <= c.prev <= SEND_LETTER ==> c.pool != [])
    && (c.cur == SEND_QUIT || c.cur == RECEIVE_QUIT_RESPONSE
        || (c.cur == SMTP_ERROR
            && (c.prev == RECEIVE_LETTER_RESPONSE || c.prev == SEND_QUIT || c.prev == RECEIVE_RSET_RESPONSE))
        ==> c.pool == [])
    && (c.cur == DISPOSING_SOCKET && (c.prev == RECEIVE_QUIT_RESPONSE || c.prev == SMTP_ERROR) ==> c.pool == [])
  }

  /** The first reply was a 421 greeting and nothing else happened. */
  predicate TurnedAway(c: Conn) {
    |c.log| == 1 && c.log[0].Got? && StatusCode(c.log[0].text) == 421
  }

  predicate EndSound(c: Conn) {
    && (c.cur == DISPOSING_SOCKET && c.prev == PREPARE_SOCKET_CONNECTION ==> TurnedAway(c))
    && (Disposed(c) ==> c.pool == [] || TurnedAway(c))
    && (c.cur == RECEIVE_SMTP_GREETING ==> c.log == [])
    && (c.crashed ==> c.cur == SMTP_ERROR && c.prev == RECEIVE_LETTER_RESPONSE && c.pool == [] && c.attempt == 1)
  }

  predicate ControlSound(c: Conn) {
    InTable(c.cur, c.prev) && AttemptSound(c) && PoolSound(c) && EndSound(c)
  }

  // ---------------------------------------------------------------- the log

  /** The letters a log moved, in order. */
  function Handed(log: seq<Action>): seq<Letter> {
    if log == [] then []
    else
      var last := log[|log| - 1];
      var before := Handed(log[..|log| - 1]);
      if last.Moved? then before + [last.letter] else before
  }

  lemma HandedOne(log: seq<Action>, a: Action)
    ensures Handed(log + [a]) == if a.Moved? then Handed(log) + [a.letter] else Handed(log)
  {
    assert (log + [a])[..|log|] == log;
  }

  lemma TriedLast(log: seq<Action>, ts: seq<Try>)
    requires ts != []
    ensures var n := |ts| - 1; log + Tried(ts) == log + Tried(ts[..n]) + [Tried(ts)[n]]
  {
  }

  lemma {:induction false} HandedSent(log: seq<Action>, ts: seq<Try>)
    ensures Handed(log + Tried(ts)) == Handed(log)
  {
    if ts == [] {
      assert log + Tried(ts) == log;
    } else {
      var n := |ts| - 1;
      HandedSent(log, ts[..n]);
      TriedLast(log, ts);
      HandedOne(log + Tried(ts[..n]), Tried(ts)[n]);
    }
  }

  lemma ReturnLast(log: seq<Action>, pool: seq<Letter>)
    requires pool != []
    ensures var n := |pool| - 1; log + ReturnAll(pool) == log + ReturnAll(pool[..n]) + [Moved(pool[n], New)]
  {
  }

  lemma {:induction false} HandedReturned(log: seq<Action>, pool: seq<Letter>)
    ensures Handed(log + ReturnAll(pool)) == Handed(log) + pool
  {
    if pool == [] {
      assert log + ReturnAll(pool) == log;
    } else {
      var n := |pool| - 1;
      HandedReturned(log, pool[..n]);
      ReturnLast(log, pool);
      HandedOne(log + ReturnAll(pool[..n]), Moved(pool[n], New));
      assert Handed(log) + pool[..n] + [pool[n]] == Handed(log) + pool;
    }
  }

  // ------------------------------------------------------- sending a letter

  /** The chunks in which `fgets` reads `content` from `pos` on. */
  function Pieces(content: string, pos: nat): seq<string>
    requires pos <= |content|
    decreases |content| - pos
  {
    if pos == |content| then []
    else
      var e := ChunkEnd(content, pos);
      [CString(content[pos..e])] + Pieces(content, e)
  }

  function TextsOf(ts: seq<Try>): seq<string> { seq(|ts|, k requires 0 <= k < |ts| => ts[k].text) }

  /** The texts whose sends succeeded. */
  function SentOf(ts: seq<Try>): seq<string> {
    if ts == [] then []
    else if ts[|ts| - 1].sent then SentOf(ts[..|ts| - 1]) + [ts[|ts| - 1].text]
    else SentOf(ts[..|ts| - 1])
  }

  /** One call of the sending loop reads on where the file stands and skips nothing it reads. */
  lemma {:induction false} SpeakReads(content: string, pos: nat, chunks: nat -> IO, k: nat)
    requires pos <= |content|
    ensures var r := Speak(content, pos, chunks, k); TextsOf(r.tries) + Pieces(content, r.at) == Pieces(content, pos)
    decreases |content| - pos
  {
    var r := Speak(content, pos, chunks, k);
    if pos < |content| {
      var e := ChunkEnd(content, pos);
      var text := CString(content[pos..e]);
      if chunks(k) == Done {
        SpeakReads(content, e, chunks, k + 1);
        var rest := Speak(content, e, chunks, k + 1);
        assert TextsOf([Try(text, true)] + rest.tries) == [text] + TextsOf(rest.tries);
        Assoc([text], TextsOf(rest.tries), Pieces(content, r.at));
      } else {
        assert TextsOf([Try(text, false)]) == [text];
      }
    } else {
      assert TextsOf([]) + Pieces(content, pos) == Pieces(content, pos);
    }
  }

  /** The sends of all chunks from `pos` on succeed; nothing is said of the terminator's. */
  predicate AllGo(content: string, pos: nat, chunks: nat -> IO, k: nat)
    requires pos <= |content|
  {
    forall j | k <= j < k + |Pieces(content, pos)| :: chunks(j) == Done
  }

  lemma AllGoNext(content: string, pos: nat, chunks: nat -> IO, k: nat)
    requires pos < |content|
    ensures AllGo(content, pos, chunks, k)
            <==> chunks(k) == Done && AllGo(content, ChunkEnd(content, pos), chunks, k + 1)
  {
  }

  lemma SpeakNext(content: string, pos: nat, chunks: nat -> IO, k: nat)
    requires pos < |content|
    ensures var (e, r) := (ChunkEnd(content, pos), Speak(content, pos, chunks, k));
            var text := CString(content[pos..e]);
            && Pieces(content, pos) == [text] + Pieces(content, e)
            && (chunks(k) != Done ==> r.tries == [Try(text, false)] && r.at == e && r.outcome != Done)
            && (chunks(k) == Done ==>
                  && r.tries == [Try(text, true)] + Speak(content, e, chunks, k + 1).tries
                  && r.at == Speak(content, e, chunks, k + 1).at
                  && r.outcome == Speak(content, e, chunks, k + 1).outcome)
  {
  }

  /** A call loses a chunk exactly when the send of a chunk, not that of the terminator, is the first to fail; and then
      it loses just that one. */
  lemma {:induction false} SpeakLoses(content: string, pos: nat, chunks: nat -> IO, k: nat)
    requires pos <= |content|
    ensures var (r, go) := (Speak(content, pos, chunks, k), AllGo(content, pos, chunks, k));
            && (SentOf(r.tries) + Pieces(content, r.at) == Pieces(content, pos) <==> go)
            && (go ==> r.at == |content| && r.outcome == chunks(k + |Pieces(content, pos)|))
            && (r.outcome == Done ==> go)
            && |SentOf(r.tries)| == |r.tries| - if go then 0 else 1
    decreases |content| - pos
  {
    if pos == |content| {
      assert SentOf([]) + Pieces(content, pos) == Pieces(content, pos);
    } else {
      var e := ChunkEnd(content, pos);
      var text := CString(content[pos..e]);
      SpeakNext(content, pos, chunks, k);
      AllGoNext(content, pos, chunks, k);
      if chunks(k) == Done {
        SpeakLoses(content, e, chunks, k + 1);
        var rest := Speak(content, e, chunks, k + 1);
        SentFirst(text, rest.tries);
        Regrouped(text, SentOf(rest.tries), Pieces(content, rest.at), Pieces(content, e));
      } else {
        OneLost(text, Pieces(content, e));
      }
    }
  }

  lemma OneLost(text: string, rest: seq<string>)
    ensures SentOf([Try(text, false)]) == [] && SentOf([Try(text, false)]) + rest != [text] + rest
  {
    assert [Try(text, false)][..0] == [];
    assert |[] + rest| < |[text] + rest|;
  }

  lemma {:induction false} SentFirst(text: string, ts: seq<Try>)
    ensures SentOf([Try(text, true)] + ts) == [text] + SentOf(ts)
    decreases |ts|
  {
    var all := [Try(text, true)] + ts;
    if ts == [] {
      assert all[..0] == [] && all == [Try(text, true)];
    } else {
      var n := |ts| - 1;
      SentFirst(text, ts[..n]);
      assert all[..|all| - 1] == [Try(text, true)] + ts[..n];
      Assoc([text], SentOf(ts[..n]), [ts[n].text]);
    }
  }

  lemma Regrouped(text: string, a: seq<string>, b: seq<string>, c: seq<string>)
    ensures [text] + a + b == [text] + c <==> a + b == c
  {
    assert ([text] + a + b)[1..] == a + b && ([text] + c)[1..] == c;
    Assoc([text], a, b);
  }

  /** The pieces of a NUL-free text are the text. */
  lemma {:induction false} PiecesWhole(content: string, pos: nat)
    requires pos <= |content| && NUL !in content
    ensures Concat(Pieces(content, pos)) == content[pos..]
    decreases |content| - pos
  {
    if pos < |content| {
      var e := ChunkEnd(content, pos);
      var t := content[pos..e];
      CStringIs(t, |t|);
      assert t[..|t|] == t;
      PiecesWhole(content, e);
      assert Pieces(content, pos)[1..] == Pieces(content, e);
      assert content[pos..] == t + content[e..];
    }
  }

  /** Tries in which one failed sent fewer texts than they read. */
  lemma {:induction false} SentAll(ts: seq<Try>)
    ensures |SentOf(ts)| <= |ts|
    ensures |SentOf(ts)| == |ts| <==> forall k | 0 <= k < |ts| :: ts[k].sent
    ensures (forall k | 0 <= k < |ts| :: ts[k].sent) ==> SentOf(ts) == TextsOf(ts)
  {
    if ts != [] {
      var n := |ts| - 1;
      SentAll(ts[..n]);
      assert TextsOf(ts) == TextsOf(ts[..n]) + [ts[n].text];
      assert ts == ts[..n] + [ts[n]];
    }
  }

  // ------------------------------------------------------ the mail transaction

  /** The `n`-th exchange of a transaction for `l`. */
  predicate Turn(l: Letter, n: nat, a: Action) {
    match n
    case 1 => a == Sent(Mail(l.from))
    case 2 => a.Got? && StatusCode(a.text) == 250 && OkLine(a.text)
    case 3 => a == Sent(Rcpt(l.to))
    case 4 => a.Got? && StatusCode(a.text) == 250 && OkLine(a.text)
    case 5 => a == Sent(Data)
    case 6 => a.Got? && StatusCode(a.text) == 354
    case _ => false
  }

  /** `seg` is exactly the first `n` exchanges of a transaction for `l`. */
  predicate Opening(l: Letter, n: nat, seg: seq<Action>) {
    if n == 0 then seg == []
    else seg != [] && Opening(l, n - 1, seg[..|seg| - 1]) && Turn(l, n, seg[|seg| - 1])
  }

  /** The end of a log, taken apart: exchanges up to the 354 reply, then the chunks of the letter tried so far. */
  datatype Txn = Txn(before: seq<Action>, seg: seq<Action>, tries: seq<Try>)

  function LogOf(x: Txn): seq<Action> { x.before + x.seg + Tried(x.tries) }

  /** The letter was read in order, from its first chunk up to `upto`. */
  predicate LetterRead(l: Letter, x: Txn, upto: nat) {
    && upto <= |l.content| && Opening(l, 6, x.seg)
    && TextsOf(x.tries) + Pieces(l.content, upto) == Pieces(l.content, 0)
  }

  function ReadPosition(c: Conn): nat {
    if c.file.Some? then c.file.value else 0
  }

  /** How far the transaction of the pool's first letter has got. */
  predicate Dialogue(c: Conn, x: Txn) {
    c.pool != [] &&
    var l := c.pool[0];
    if SEND_MAIL_FROM < c.cur < SEND_LETTER then
      c.log == LogOf(x) && x.tries == [] && Opening(l, c.cur - SEND_MAIL_FROM, x.seg)
    else if c.cur == SEND_LETTER then
      c.log == LogOf(x) && LetterRead(l, x, ReadPosition(c))
    else
      c.log == LogOf(x) + [Sent(EndOfLetter)] && LetterRead(l, x, |l.content|)
  }

  /** The transaction of the pool's first letter occupies the end of the log. */
  ghost predicate TranscriptSound(c: Conn) {
    && (SEND_MAIL_FROM < c.cur <= RECEIVE_LETTER_RESPONSE ==> exists x :: Dialogue(c, x))
    && (c.cur == SEND_RCPT_TO || c.cur == RECEIVE_MAIL_FROM_RESPONSE ==>
          c.pool != [] && c.meta == Some(Meta(c.pool[0].from, c.pool[0].to)))
    && (c.file.Some? ==> c.cur == SEND_LETTER || (c.cur == SMTP_ERROR && c.prev == RECEIVE_DATA_RESPONSE))
  }

  /** The log ends with an unbroken transaction for `l` that the server acknowledged with `reply`. */
  predicate Acknowledged(l: Letter, log: seq<Action>, x: Txn, reply: string) {
    && log == LogOf(x) + [Sent(EndOfLetter)] + [Got(reply)]
    && LetterRead(l, x, |l.content|)
    && StatusCode(reply) == 250 && OkWord(reply)
  }

  ghost predicate EndsAcknowledged(l: Letter, log: seq<Action>) {
    exists x, reply :: Acknowledged(l, log, x, reply)
  }

  /** The chunks at the very end of a log whose sends succeeded, and how many there did not. */
  function SentText(log: seq<Action>): seq<string> {
    if log == [] then []
    else
      var (before, a) := (log[..|log| - 1], log[|log| - 1]);
      if a.Sent? && a.command.Chunk? then SentText(before) + [a.command.text]
      else if a.Missed? then SentText(before)
      else []
  }

  function LostText(log: seq<Action>): nat {
    if log == [] then 0
    else
      var (before, a) := (log[..|log| - 1], log[|log| - 1]);
      if a.Missed? then LostText(before) + 1
      else if a.Sent? && a.command.Chunk? then LostText(before)
      else 0
  }

  lemma {:induction false} TextAtEnd(base: seq<Action>, ts: seq<Try>)
    requires base != [] && base[|base| - 1].Got?
    ensures SentText(base + Tried(ts)) == SentOf(ts) && LostText(base + Tried(ts)) == |ts| - |SentOf(ts)|
  {
    if ts == [] {
      assert base + Tried(ts) == base;
    } else {
      var n := |ts| - 1;
      TextAtEnd(base, ts[..n]);
      TriedLast(base, ts);
      var before := base + Tried(ts[..n]);
      assert (before + [Tried(ts)[n]])[..|before|] == before;
    }
  }

  /** An acknowledged letter was read whole, chunk by chunk, and what arrived of it is all of it exactly when no chunk
      was lost. */
  lemma AcknowledgedText(l: Letter, log: seq<Action>, x: Txn, reply: string)
    requires Acknowledged(l, log, x, reply)
    ensures |log| >= 2 && log[|log| - 2] == Sent(EndOfLetter) && log[|log| - 1] == Got(reply)
    ensures var body := log[..|log| - 2];
            && |SentText(body)| + LostText(body) == |Pieces(l.content, 0)|
            && (SentText(body) == Pieces(l.content, 0) <==> LostText(body) == 0)
  {
    var base := x.before + x.seg;
    assert log[..|log| - 2] == base + Tried(x.tries);
    assert base[|base| - 1] == x.seg[|x.seg| - 1] && Turn(l, 6, x.seg[|x.seg| - 1]);
    TextAtEnd(base, x.tries);
    SentAll(x.tries);
    assert TextsOf(x.tries) + Pieces(l.content, |l.content|) == TextsOf(x.tries);
  }

  predicate Files(a: Action) { a.Moved? && a.folder == Current }

  /** Every letter filed as sent was acknowledged immediately before. */
  ghost predicate FiledSound(log: seq<Action>) {
    if log == [] then true
    else
      var n := |log| - 1;
      FiledSound(log[..n]) && (Files(log[n]) ==> EndsAcknowledged(log[n].letter, log[..n]))
  }

  lemma FiledOne(log: seq<Action>, a: Action)
    ensures FiledSound(log + [a]) <==> FiledSound(log) && (Files(a) ==> EndsAcknowledged(a.letter, log))
  {
    assert (log + [a])[..|log|] == log;
  }

  lemma {:induction false} FiledKept(log: seq<Action>, more: seq<Action>)
    requires FiledSound(log)
    requires forall j | 0 <= j < |more| :: !Files(more[j])
    ensures FiledSound(log + more)
  {
    if more == [] {
      assert log + more == log;
    } else {
      var n := |more| - 1;
      FiledKept(log, more[..n]);
      assert log + more == log + more[..n] + [more[n]];
      FiledOne(log + more[..n], more[n]);
    }
  }

  // ------------------------------------------------------- one step at a time

  lemma ControlKeptLetter(c: Conn, i: Input)
    requires ControlSound(c) && !c.crashed && c.cur == SEND_LETTER
    ensures ControlSound(LetterStep(c, i).0)
  {
  }

  lemma ControlKeptMail(c: Conn, i: Input)
    requires ControlSound(c) && !c.crashed && c.cur == SEND_MAIL_FROM
    ensures ControlSound(MailStep(c, i).0)
  {
  }

  lemma ControlKeptCommand(c: Conn, i: Input, m: Command)
    requires ControlSound(c) && !c.crashed && Sends(c.cur)
    requires c.cur != SEND_LETTER && c.cur != SEND_MAIL_FROM
    ensures Follows(c.cur, c.prev) ==> ControlSound(CommandStep(c, i, m).0)
    ensures !Follows(c.cur, c.prev) ==> ControlSound(Refuse(c, -1).0)
  {
  }

  lemma ControlKeptSending(c: Conn, i: Input)
    requires ControlSound(c) && !c.crashed && Sends(c.cur)
    ensures ControlSound(SendStep(c, i).0)
  {
    if c.cur == SEND_LETTER {
      ControlKeptLetter(c, i);
    } else if c.cur == SEND_MAIL_FROM {
      ControlKeptMail(c, i);
    } else {
      ControlKeptCommand(c, i, CommandOf(c));
    }
  }

  lemma ControlKeptReplying(c: Conn, reply: string, hangsUp: bool, verdict: int)
    requires ControlSound(c) && !c.crashed && Receives(c.cur)
    requires hangsUp == HangsUp(c.cur, reply)
    ensures ControlSound(ReplyStep(c, reply, hangsUp, verdict).0)
  {
  }

  lemma ControlKeptReceiving(c: Conn, i: Input)
    requires ControlSound(c) && !c.crashed && Receives(c.cur)
    ensures ControlSound(ReceiveStep(c, i).0)
  {
    if i.io == Done {
      var hangsUp, verdict := HangsUp(c.cur, i.reply), Verdict(c.cur, i.reply, c.domain);
      ControlKeptReplying(c, i.reply, hangsUp, verdict);
      assert ReceiveStep(c, i) == ReplyStep(c, i.reply, hangsUp, verdict);
    }
  }

  /** One control step stays inside the table, whatever its input. */
  lemma ControlKept(c: Conn, i: Input)
    requires ControlSound(c)
    ensures ControlSound(Step(c, i).0)
  {
    if c.crashed || c.cur == SMTP_ERROR || c.cur == DISPOSING_SOCKET {
    } else if Sends(c.cur) {
      ControlKeptSending(c, i);
      assert Step(c, i) == SendStep(c, i);
    } else if Receives(c.cur) {
      ControlKeptReceiving(c, i);
      assert Step(c, i) == ReceiveStep(c, i);
    }
  }

  function SpeechOf(c: Conn, i: Input): Speech
    requires c.pool != []
  {
    var content := c.pool[0].content;
    Speak(content, if c.file.Some? && c.file.value <= |content| then c.file.value else 0, i.chunks, 0)
  }

  lemma HandedKeptLetter(c: Conn, i: Input)
    requires c.cur == SEND_LETTER && c.prev == RECEIVE_DATA_RESPONSE && c.pool != []
    ensures var c' := LetterStep(c, i).0; Handed(c'.log) == Handed(c.log) && c'.pool == c.pool
  {
    var ts := SpeechOf(c, i).tries;
    HandedSent(c.log, ts);
    HandedOne(c.log + Tried(ts), Sent(EndOfLetter));
  }

  lemma HandedKeptCommand(c: Conn, i: Input, m: Command)
    requires Sends(c.cur)
    ensures var c' := CommandStep(c, i, m).0; Handed(c'.log) == Handed(c.log) && c'.pool == c.pool
  {
    HandedOne(c.log, Sent(m));
  }

  lemma HandedKeptMail(c: Conn, i: Input)
    requires c.cur == SEND_MAIL_FROM
    ensures var c' := MailStep(c, i).0; Handed(c'.log) == Handed(c.log) && c'.pool == c.pool
  {
    if c.pool != [] {
      HandedOne(c.log, Sent(Mail(c.pool[0].from)));
    }
  }

  lemma HandedKeptSending(c: Conn, i: Input)
    requires Sends(c.cur)
    ensures var c' := SendStep(c, i).0; Handed(c'.log) == Handed(c.log) && c'.pool == c.pool
  {
    if c.cur == SEND_LETTER {
      if c.prev == RECEIVE_DATA_RESPONSE && c.pool != [] {
        HandedKeptLetter(c, i);
      }
    } else if c.cur == SEND_MAIL_FROM {
      HandedKeptMail(c, i);
    } else {
      HandedKeptCommand(c, i, CommandOf(c));
    }
  }

  lemma HandedKeptFiling(c: Conn)
    requires c.pool != []
    ensures var c' := Note(c, Moved(c.pool[0], Current)).(pool := c.pool[1..]);
            && Handed(c'.log) + c'.pool == Handed(c.log) + c.pool
            && Handed(Note(c', Forgot(c.domain)).log) == Handed(c'.log)
  {
    HandedOne(c.log, Moved(c.pool[0], Current));
    HandedOne(c.log + [Moved(c.pool[0], Current)], Forgot(c.domain));
    assert Handed(c.log) + [c.pool[0]] + c.pool[1..] == Handed(c.log) + c.pool;
  }

  lemma HandedKeptAccepting(c: Conn)
    requires Receives(c.cur)
    ensures var c' := AcceptStep(c).0; Handed(c'.log) + c'.pool == Handed(c.log) + c.pool
  {
    if c.cur == RECEIVE_LETTER_RESPONSE && c.pool != [] {
      HandedKeptFiling(c);
    } else {
      assert AcceptStep(c).0.log == c.log && AcceptStep(c).0.pool == c.pool;
    }
  }

  lemma HandedKeptReplying(c: Conn, reply: string, hangsUp: bool, verdict: int)
    requires Receives(c.cur)
    ensures var c' := ReplyStep(c, reply, hangsUp, verdict).0; Handed(c'.log) + c'.pool == Handed(c.log) + c.pool
  {
    HandedOne(c.log, Got(reply));
    HandedKeptAccepting(Note(c, Got(reply)));
  }

  lemma HandedKeptReceiving(c: Conn, i: Input)
    requires Receives(c.cur)
    ensures var c' := ReceiveStep(c, i).0; Handed(c'.log) + c'.pool == Handed(c.log) + c.pool
  {
    if i.io == Done && Follows(c.cur, c.prev) {
      var hangsUp, verdict := HangsUp(c.cur, i.reply), Verdict(c.cur, i.reply, c.domain);
      HandedKeptReplying(c, i.reply, hangsUp, verdict);
      assert ReceiveStep(c, i) == ReplyStep(c, i.reply, hangsUp, verdict);
    }
  }

  lemma HandedKeptRecovering(c: Conn)
    ensures var c' := RecoverStep(c).0; Handed(c'.log) + c'.pool == Handed(c.log) + c.pool
  {
    if Unsolvable(c.prev) {
      HandedOne(c.log, Forgot(c.domain));
      HandedReturned(c.log + [Forgot(c.domain)], c.pool);
    } else if c.pool != [] {
      HandedOne(c.log, Moved(c.pool[0], New));
      assert Handed(c.log) + [c.pool[0]] + c.pool[1..] == Handed(c.log) + c.pool;
    }
  }

  /** What has been moved, followed by what is left, stays the same sequence. */
  lemma HandedKept(c: Conn, i: Input)
    ensures var c' := Step(c, i).0; Handed(c'.log) + c'.pool == Handed(c.log) + c.pool
  {
    if c.crashed {
    } else if c.cur == SMTP_ERROR {
      HandedKeptRecovering(c);
    } else if Sends(c.cur) {
      HandedKeptSending(c, i);
      assert Step(c, i) == SendStep(c, i);
    } else if Receives(c.cur) {
      HandedKeptReceiving(c, i);
      assert Step(c, i) == ReceiveStep(c, i);
    }
  }

  // ------------------------------------------------------ filed means acknowledged

  lemma OpeningGrows(l: Letter, n: nat, x: Txn, a: Action)
    requires Opening(l, n, x.seg) && Turn(l, n + 1, a) && x.tries == []
    ensures Opening(l, n + 1, x.seg + [a])
    ensures LogOf(x.(seg := x.seg + [a])) == LogOf(x) + [a]
  {
    assert (x.seg + [a])[..|x.seg|] == x.seg;
  }

  lemma TranscriptMail(c: Conn, i: Input)
    requires c.cur == SEND_MAIL_FROM && TranscriptSound(c)
    ensures TranscriptSound(MailStep(c, i).0)
  {
    var c' := MailStep(c, i).0;
    if c'.cur == RECEIVE_MAIL_FROM_RESPONSE {
      var a := Sent(Mail(c.pool[0].from));
      var x := Txn(c.log, [], []);
      OpeningGrows(c.pool[0], 0, x, a);
      assert Dialogue(c', x.(seg := x.seg + [a]));
    }
  }

  lemma FiledLetter(c: Conn, i: Input)
    requires c.cur == SEND_LETTER && c.prev == RECEIVE_DATA_RESPONSE && c.pool != [] && FiledSound(c.log)
    ensures FiledSound(LetterStep(c, i).0.log)
  {
    var ts := SpeechOf(c, i).tries;
    FiledKept(c.log, Tried(ts));
    FiledOne(c.log + Tried(ts), Sent(EndOfLetter));
  }

  lemma LogGrows(x: Txn, ts: seq<Try>)
    ensures LogOf(x.(tries := x.tries + ts)) == LogOf(x) + Tried(ts)
  {
    assert Tried(x.tries + ts) == Tried(x.tries) + Tried(ts);
    Assoc(x.before + x.seg, Tried(x.tries), Tried(ts));
  }

  lemma TextsJoin(a: seq<Try>, b: seq<Try>, rest: seq<string>)
    ensures TextsOf(a + b) + rest == TextsOf(a) + (TextsOf(b) + rest)
  {
    assert TextsOf(a + b) == TextsOf(a) + TextsOf(b);
    Assoc(TextsOf(a), TextsOf(b), rest);
  }

  /** The transaction after one more call of the sending loop. */
  lemma SpokenTxn(c: Conn, i: Input, x: Txn) returns (x': Txn)
    requires c.cur == SEND_LETTER && Dialogue(c, x)
    ensures LogOf(x') == c.log + Tried(SpeechOf(c, i).tries)
    ensures LetterRead(c.pool[0], x', SpeechOf(c, i).at)
  {
    var r := SpeechOf(c, i);
    var content := c.pool[0].content;
    SpeakReads(content, ReadPosition(c), i.chunks, 0);
    x' := x.(tries := x.tries + r.tries);
    TextsJoin(x.tries, r.tries, Pieces(content, r.at));
    LogGrows(x, r.tries);
  }

  lemma TranscriptLetter(c: Conn, i: Input)
    requires c.cur == SEND_LETTER && c.prev == RECEIVE_DATA_RESPONSE && c.pool != []
    requires c.file.Some? || i.fileOpens
    requires TranscriptSound(c)
    ensures TranscriptSound(LetterStep(c, i).0)
  {
    var c' := LetterStep(c, i).0;
    var x :| Dialogue(c, x);
    var x' := SpokenTxn(c, i, x);
    if c'.cur != SMTP_ERROR {
      assert Dialogue(c', x');
    }
  }

  lemma TranscriptCommand(c: Conn, m: Command)
    requires c.cur == SEND_RCPT_TO || c.cur == SEND_DATA
    requires TranscriptSound(c) && c.pool != []
    requires m == if c.cur == SEND_DATA then Data else Rcpt(c.pool[0].to)
    ensures TranscriptSound(Advance(Note(c, Sent(m)), AfterSend(c.cur)).0)
  {
    var c' := Advance(Note(c, Sent(m)), AfterSend(c.cur)).0;
    var x :| Dialogue(c, x);
    OpeningGrows(c.pool[0], c.cur - SEND_MAIL_FROM, x, Sent(m));
    assert Dialogue(c', x.(seg := x.seg + [Sent(m)]));
  }

  lemma FiledCommand(c: Conn, i: Input, m: Command)
    requires Sends(c.cur) && FiledSound(c.log)
    ensures FiledSound(CommandStep(c, i, m).0.log)
  {
    FiledOne(c.log, Sent(m));
  }

  lemma FiledMail(c: Conn, i: Input)
    requires c.cur == SEND_MAIL_FROM && FiledSound(c.log)
    ensures FiledSound(MailStep(c, i).0.log)
  {
    if c.pool != [] {
      FiledOne(c.log, Sent(Mail(c.pool[0].from)));
    }
  }

  lemma FiledSending(c: Conn, i: Input)
    requires InTable(c.cur, c.prev) && !c.crashed && Sends(c.cur) && FiledSound(c.log)
    ensures FiledSound(SendStep(c, i).0.log)
  {
    if c.cur == SEND_LETTER {
      if c.pool != [] {
        FiledLetter(c, i);
      }
    } else if c.cur == SEND_MAIL_FROM {
      FiledMail(c, i);
    } else {
      FiledCommand(c, i, CommandOf(c));
    }
  }

  lemma TranscriptSending(c: Conn, i: Input)
    requires InTable(c.cur, c.prev) && !c.crashed && Sends(c.cur) && TranscriptSound(c)
    ensures TranscriptSound(SendStep(c, i).0)
  {
    if c.cur == SEND_MAIL_FROM {
      TranscriptMail(c, i);
    } else if c.cur == SEND_LETTER {
      if c.file.Some? || i.fileOpens {
        TranscriptLetter(c, i);
      }
    } else if c.cur == SEND_DATA {
      TranscriptCommand(c, Data);
    } else if c.cur == SEND_RCPT_TO {
      TranscriptCommand(c, Rcpt(c.meta.value.to));
    }
  }

  lemma TranscriptFiling(c: Conn, reply: string)
    requires c.cur == RECEIVE_LETTER_RESPONSE && c.pool != [] && TranscriptSound(c) && FiledSound(c.log)
    requires Verdict(c.cur, reply, c.domain) == 0
    ensures FiledSound(c.log + [Got(reply)] + [Moved(c.pool[0], Current)])
  {
    var x :| Dialogue(c, x);
    TakenReply(reply, c.domain);
    assert Acknowledged(c.pool[0], c.log + [Got(reply)], x, reply);
    FiledAfter(c.log, reply, c.pool[0]);
  }

  lemma TakenReply(reply: string, domain: string)
    requires Verdict(RECEIVE_LETTER_RESPONSE, reply, domain) == 0
    ensures StatusCode(reply) == 250 && OkWord(reply)
  {
  }

  lemma FiledAfter(log: seq<Action>, reply: string, l: Letter)
    requires FiledSound(log) && EndsAcknowledged(l, log + [Got(reply)])
    ensures FiledSound(log + [Got(reply)] + [Moved(l, Current)])
  {
    FiledOne(log, Got(reply));
    FiledOne(log + [Got(reply)], Moved(l, Current));
  }

  lemma TranscriptAnswered(c: Conn, reply: string)
    requires c.cur in {RECEIVE_MAIL_FROM_RESPONSE, RECEIVE_RCPT_TO_RESPONSE, RECEIVE_DATA_RESPONSE}
    requires TranscriptSound(c) && Verdict(c.cur, reply, c.domain) == 0
    ensures TranscriptSound(AcceptStep(Note(c, Got(reply))).0)
  {
    var c' := AcceptStep(Note(c, Got(reply))).0;
    var x :| Dialogue(c, x);
    OpeningGrows(c.pool[0], c.cur - SEND_MAIL_FROM, x, Got(reply));
    var x' := x.(seg := x.seg + [Got(reply)]);
    if c.cur == RECEIVE_DATA_RESPONSE {
      assert LetterRead(c.pool[0], x', 0);
    }
    assert Dialogue(c', x');
  }

  lemma TranscriptReplying(c: Conn, reply: string, hangsUp: bool, verdict: int)
    requires InTable(c.cur, c.prev) && !c.crashed && Receives(c.cur) && TranscriptSound(c) && FiledSound(c.log)
    requires verdict == Verdict(c.cur, reply, c.domain) && hangsUp == HangsUp(c.cur, reply)
    ensures var c' := ReplyStep(c, reply, hangsUp, verdict).0; TranscriptSound(c') && FiledSound(c'.log)
  {
    FiledOne(c.log, Got(reply));
    if verdict == 0 {
      if c.cur == RECEIVE_LETTER_RESPONSE {
        TranscriptFiling(c, reply);
      } else if SEND_MAIL_FROM < c.cur < SEND_LETTER {
        TranscriptAnswered(c, reply);
      }
    }
  }

  lemma FiledRecovering(c: Conn)
    requires FiledSound(c.log)
    ensures FiledSound(RecoverStep(c).0.log)
  {
    FiledOne(c.log, Forgot(c.domain));
    FiledKept(c.log + [Forgot(c.domain)], ReturnAll(c.pool));
    if c.pool != [] {
      FiledOne(c.log, Moved(c.pool[0], New));
    }
  }

  lemma TranscriptReceiving(c: Conn, i: Input)
    requires InTable(c.cur, c.prev) && !c.crashed && Receives(c.cur) && TranscriptSound(c) && FiledSound(c.log)
    ensures var c' := ReceiveStep(c, i).0; TranscriptSound(c') && FiledSound(c'.log)
  {
    if i.io == Done {
      var hangsUp, verdict := HangsUp(c.cur, i.reply), Verdict(c.cur, i.reply, c.domain);
      TranscriptReplying(c, i.reply, hangsUp, verdict);
      assert ReceiveStep(c, i) == ReplyStep(c, i.reply, hangsUp, verdict);
    }
  }

  lemma TranscriptKept(c: Conn, i: Input)
    requires InTable(c.cur, c.prev) && TranscriptSound(c) && FiledSound(c.log)
    ensures TranscriptSound(Step(c, i).0)
    ensures FiledSound(Step(c, i).0.log)
  {
    if c.crashed {
    } else if c.cur == SMTP_ERROR {
      FiledRecovering(c);
    } else if c.cur == DISPOSING_SOCKET {
    } else if Sends(c.cur) {
      TranscriptSending(c, i);
      FiledSending(c, i);
      assert Step(c, i) == SendStep(c, i);
    } else if Receives(c.cur) {
      TranscriptReceiving(c, i);
      assert Step(c, i) == ReceiveStep(c, i);
    }
  }
}
