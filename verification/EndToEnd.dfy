/**
 Client and server joined by a lossless transport: what one step of the client sends reaches the server's
 buffer, and what the server answers reaches the client. Commands arrive in one piece; a letter arrives cut into
 any chunks of whole lines of at most 512 bytes.
 */
module EndToEnd {
  import opened Text
  import opened Outcomes
  import C = Connection
  import opened B = ServerBuffer
  import S = ServerSession

  const CALM: nat -> S.LineInput := n => S.LineInput(Done, Done, true)

  datatype System = System(
    client: C.Conn,
    server: Drained<S.Session>,
    wire: seq<string>,            // replies on their way to the client
    cuts: seq<seq<string>>)       // how the letters still to be sent will be cut into chunks

  /** The client's input when nothing blocks or fails and the next reply is `reply`. */
  function Heard(reply: string): C.Input {
    C.Input(Done, reply, _ => Done, true, true, C.Connected)
  }

  /** The bytes a stretch of the client's log put on the wire. */
  function BytesOf(log: seq<C.Action>): string {
    if log == [] then ""
    else (if log[0].Sent? then C.Wire(log[0].command) else "") + BytesOf(log[1..])
  }

  /** The replies a stretch of the server's log put on the wire. */
  function RepliesOf(log: seq<S.Event>): seq<string> {
    if log == [] then []
    else Said(log[0].answers) + RepliesOf(log[1..])
  }

  function Said(answers: seq<S.Answer>): seq<string> {
    if answers == [] then []
    else (if answers[0].io == Done then [S.ReplyText(answers[0].reply)] else []) + Said(answers[1..])
  }

  predicate Deliverable(d: Drained<S.Session>, chunks: seq<string>) {
    Terminated(d.buffer) && AllWholeLines(chunks)
  }

  /** The server after the client's step put `bytes` on the wire. */
  function Delivered(y: System, bytes: string): Drained<S.Session> {
    if y.client.cur == C.SEND_LETTER then
      if y.cuts != [] && Deliverable(y.server, y.cuts[0]) && Concat(y.cuts[0]) == bytes
      then FeedAll(S.Server(CALM), y.server, y.cuts[0]) else y.server
    else if bytes != "" && |bytes| < BUFFER_SIZE && Terminated(y.server.buffer)
    then Feed(S.Server(CALM), y.server, bytes)
    else y.server
  }

  /** One step of the client together with everything it causes. */
  function Joint(y: System): System {
    if C.Receives(y.client.cur) then
      if y.wire == [] then y
      else y.(client := C.Step(y.client, Heard(y.wire[0])).0, wire := y.wire[1..])
    else
      var client := C.Step(y.client, Heard("")).0;
      var n := |y.client.log|;
      var server := Delivered(y, if |client.log| >= n then BytesOf(client.log[n..]) else "");
      var m := |y.server.state.log|;
      System(client, server,
             y.wire + (if |server.state.log| >= m then RepliesOf(server.state.log[m..]) else []),
             if y.client.cur == C.SEND_LETTER && y.cuts != [] then y.cuts[1..] else y.cuts)
  }

  function Iterate<T>(f: T -> T, x: T, k: nat): T {
    if k == 0 then x else Iterate(f, f(x), k - 1)
  }

  lemma {:induction false} IterateSplit<T>(f: T -> T, x: T, a: nat, b: nat)
    ensures Iterate(f, x, a + b) == Iterate(f, Iterate(f, x, a), b)
  {
    if a > 0 {
      IterateSplit(f, f(x), a - 1, b);
    }
  }

  function RunJoint(y: System, k: nat): System { Iterate(Joint, y, k) }

  // ------------------------------------------------------------------ letters

  predicate GoodAddress(a: string) {
    a != "" && '>' !in a && NUL !in a && FirstEol(a).None?
  }

  predicate Mailable(l: C.Letter) {
    && GoodAddress(l.from) && |C.Wire(C.Mail(l.from))| <= 512
    && GoodAddress(l.to) && |C.Wire(C.Rcpt(l.to))| <= 512
    && NUL !in l.content
    && "." !in Lines(l.content + CRLF)
  }

  /** The bytes of a letter: its content and the terminator. */
  function StreamOf(l: C.Letter): string { l.content + "\r\n.\r\n" }

  predicate CutsOf(cuts: seq<seq<string>>, letters: seq<C.Letter>) {
    && |cuts| == |letters|
    && forall k | 0 <= k < |cuts| :: AllWholeLines(cuts[k]) && Concat(cuts[k]) == StreamOf(letters[k])
  }

  /** The copy the server must end up with. */
  function CopyOf(l: C.Letter): S.Copy {
    S.Copy(l.from, l.to, CrlfToLf(l.content) + "\n")
  }

  function CopiesOf(letters: seq<C.Letter>): seq<S.Copy> {
    seq(|letters|, k requires 0 <= k < |letters| => CopyOf(letters[k]))
  }

  function MovedTo(log: seq<C.Action>, folder: C.Folder): seq<C.Letter> {
    if log == [] then []
    else
      var (before, a) := (MovedTo(log[..|log| - 1], folder), log[|log| - 1]);
      if a.Moved? && a.folder == folder then before + [a.letter] else before
  }

  lemma MovedOne(log: seq<C.Action>, a: C.Action, folder: C.Folder)
    ensures MovedTo(log + [a], folder)
            == if a.Moved? && a.folder == folder then MovedTo(log, folder) + [a.letter] else MovedTo(log, folder)
  {
    assert (log + [a])[..|log|] == log;
  }

  // ----------------------------------------------------------- reply codes

  lemma GreetingCode()
    ensures StatusCode(S.ReplyText(S.Greeting220)) == 220
  {
    CodeOf(S.ReplyText(S.Greeting220));
  }

  lemma OkCode()
    ensures StatusCode(S.ReplyText(S.Ok250)) == 250 && C.OkLine(S.ReplyText(S.Ok250))
  {
    CodeOf(S.ReplyText(S.Ok250));
  }

  lemma StartCode()
    ensures StatusCode(S.ReplyText(S.Start354)) == 354
  {
    var t := S.ReplyText(S.Start354);
    assert t[0] == '3' && t[1] == '5' && t[2] == '4';
    CodeOf(t);
  }

  lemma ResetCode()
    ensures StatusCode(S.ReplyText(S.Reset250)) == 250 && C.OkWord(S.ReplyText(S.Reset250))
  {
    CodeOf(S.ReplyText(S.Reset250));
  }

  lemma ByeCode()
    ensures StatusCode(S.ReplyText(S.Bye221)) == 221
  {
    CodeOf(S.ReplyText(S.Bye221));
  }

  lemma EhloCode()
    ensures var t := S.ReplyText(S.Named250(C.MY_DOMAIN));
            StatusCode(t) == 250 && C.EhloNamesMe(t) && C.EhloWellFormed(t)
  {
    var t := S.ReplyText(S.Named250(C.MY_DOMAIN));
    CodeOf(t);
    CStringIs(t, |t|);
    assert t[..|t|] == t;
    assert At(t, C.MY_DOMAIN, 5);
    forall j: nat | j < 5 ensures !At(t, C.MY_DOMAIN, j) {
      assert t[j..j + |C.MY_DOMAIN|][0] == t[j] != C.MY_DOMAIN[0];
    }
    FindIs(t, C.MY_DOMAIN, 5);
  }

  // ------------------------------------------------- the server's side of a command

  function MailLine(from: string): string { "MAIL FROM:<" + from + ">" }

  function RcptLine(to: string): string { "RCPT To: <" + to + ">" }

  function EhloLine(): string { "EHLO " + C.MY_DOMAIN }

  /** A line is free of line ends if its parts are and none is split across a joint. */
  lemma NoEolAround(head: string, a: string)
    requires GoodAddress(a) && '\r' !in head
    ensures FirstEol(head + a + ">" + "\r").None?
    ensures NUL !in head ==> NUL !in head + a + ">"
  {
    var t := head + a + ">" + "\r";
    forall j: nat | j < |t| ensures !Eol(t, j) {
      if j < |head| {
        assert t[j] == head[j];
      } else if j < |head| + |a| {
        assert t[j] == a[j - |head|];
        assert !Eol(a, j - |head|);
      }
    }
  }

  lemma AddressBetween(head: string, a: string)
    requires GoodAddress(a) && |head| > 0 && head[|head| - 1] == '<' && '<' !in head[..|head| - 1]
    ensures S.MailAddress(head + a + ">") == Some(a)
  {
    var t := head + a + ">";
    var k := |head| - 1;
    assert forall j | 0 <= j < k :: t[j] == head[..k][j];
    IndexIs(t, '<', 0, k);
    IndexIs(t, '>', k + 1, |head| + |a|);
    assert t[k + 1..|head| + |a|] == a;
  }

  lemma MailLineRead(a: string)
    requires GoodAddress(a)
    ensures S.VerbOf(MailLine(a)) == S.MAIL && S.MailAddress(MailLine(a)) == Some(a)
    ensures NUL !in MailLine(a) && FirstEol(MailLine(a) + "\r").None? && |MailLine(a)| >= 3
    ensures C.Wire(C.Mail(a)) == MailLine(a) + CRLF
  {
    AddressBetween("MAIL FROM:<", a);
    NoEolAround("MAIL FROM:<", a);
    assert S.Word(MailLine(a)) == "MAIL";
  }

  lemma RcptLineRead(a: string)
    requires GoodAddress(a)
    ensures S.VerbOf(RcptLine(a)) == S.RCPT && S.MailAddress(RcptLine(a)) == Some(a)
    ensures NUL !in RcptLine(a) && FirstEol(RcptLine(a) + "\r").None? && |RcptLine(a)| >= 3
    ensures C.Wire(C.Rcpt(a)) == RcptLine(a) + CRLF
  {
    AddressBetween("RCPT To: <", a);
    NoEolAround("RCPT To: <", a);
    assert S.Word(RcptLine(a)) == "RCPT";
  }

  lemma EhloLineRead()
    ensures S.VerbOf(EhloLine()) == S.EHLO && S.HostOf(EhloLine()) == C.MY_DOMAIN
    ensures NUL !in EhloLine() && FirstEol(EhloLine() + "\r").None? && 3 <= |EhloLine()| <= 510
    ensures C.Wire(C.Ehlo) == EhloLine() + CRLF
  {
    assert S.Word(EhloLine()) == "EHLO";
    IndexIs(EhloLine(), ' ', 0, 4);
    assert EhloLine()[5..] == C.MY_DOMAIN;
    var t := EhloLine() + "\r";
    assert forall j | 0 <= j < |t| - 1 :: t[j] == EhloLine()[j] != '\r';
    assert forall j: nat | j < |t| :: !Eol(t, j);
  }

  lemma DataLineRead()
    ensures S.VerbOf("DATA") == S.DATA && NUL !in "DATA" && FirstEol("DATA\r").None?
    ensures C.Wire(C.Data) == "DATA" + CRLF + Zeros(1)
  {
    assert S.Word("DATA") == "DATA";
    assert forall j: nat | j < 5 :: !Eol("DATA\r", j);
  }

  lemma QuitLineRead()
    ensures S.VerbOf("QUIT") == S.QUIT && NUL !in "QUIT" && FirstEol("QUIT\r").None?
    ensures C.Wire(C.Quit) == "QUIT" + CRLF
  {
    assert S.Word("QUIT") == "QUIT";
    assert forall j: nat | j < 5 :: !Eol("QUIT\r", j);
  }

  // ----------------------------------------------------------- one joint step

  lemma OneSent(log: seq<C.Action>, m: C.Command)
    ensures BytesOf((log + [C.Sent(m)])[|log|..]) == C.Wire(m)
  {
    assert (log + [C.Sent(m)])[|log|..] == [C.Sent(m)];
    assert BytesOf([C.Sent(m)]) == C.Wire(m) + BytesOf([]);
  }

  lemma OneReply(log: seq<S.Event>, line: string, r: S.Reply)
    ensures RepliesOf((log + [S.Event(line, [S.Answer(r, Done)])])[|log|..]) == [S.ReplyText(r)]
  {
    var e := S.Event(line, [S.Answer(r, Done)]);
    assert (log + [e])[|log|..] == [e];
    assert Said(e.answers) == [S.ReplyText(r)] + Said([]);
    assert RepliesOf([e]) == Said(e.answers) + RepliesOf([]);
  }

  /** One command line, with or without a NUL after it, read from a clean buffer. */
  lemma LineDelivered(d: Drained<S.Session>, line: string, k: nat)
    requires Clean(d) && !d.quit && k <= 1
    requires 3 <= |line| <= 510 && NUL !in line && FirstEol(line + "\r").None?
    ensures var (bytes, m) := (line + CRLF + Zeros(k), S.Server(CALM));
            && bytes != "" && |bytes| < BUFFER_SIZE
            && var r := Feed(m, d, bytes);
               r.state == m.step(d.state, line, d.next) && Clean(r) && r.quit == m.quits(d.state, line)
  {
    FeedLine(S.Server(CALM), d, line);
    FeedNuls(S.Server(CALM), d, line + CRLF, k);
    assert line + CRLF + Zeros(0) == line + CRLF;
  }

  /** The client sends one command; it reaches the server as one line, which the server answers with one reply. */
  lemma CommandJoint(y: System, m: C.Command, line: string, k: nat, client: C.Conn, s: S.Session, r: S.Reply)
    requires !C.Receives(y.client.cur) && y.client.cur != C.SEND_LETTER
    requires C.Step(y.client, Heard("")).0 == client && client.log == y.client.log + [C.Sent(m)]
    requires C.Wire(m) == line + CRLF + Zeros(k) && k <= 1
    requires Clean(y.server) && !y.server.quit
    requires 3 <= |line| <= 510 && NUL !in line && FirstEol(line + "\r").None?
    requires S.Server(CALM).step(y.server.state, line, y.server.next) == s
    requires s.log == y.server.state.log + [S.Event(line, [S.Answer(r, Done)])]
    ensures var z := Joint(y);
            && z.client == client && z.wire == y.wire + [S.ReplyText(r)] && z.cuts == y.cuts
            && z.server.state == s && Clean(z.server)
            && z.server.quit == S.Server(CALM).quits(y.server.state, line)
  {
    OneSent(y.client.log, m);
    OneReply(y.server.state.log, line, r);
    LineDelivered(y.server, line, k);
  }

  /** The client hears the one reply under way. */
  lemma ReplyJoint(y: System, reply: string)
    requires C.Receives(y.client.cur) && y.wire == [reply]
    ensures Joint(y) == y.(client := C.Step(y.client, Heard(reply)).0, wire := [])
  {
  }

  // ---------------------------------------------------------------- the letter

  lemma SentFirst(text: string, rest: seq<C.Try>)
    requires NUL !in text
    ensures BytesOf(C.Tried([C.Try(text, true)] + rest)) == text + BytesOf(C.Tried(rest))
  {
    CStringIs(text, |text|);
    assert text[..|text|] == text;
    assert C.Tried([C.Try(text, true)] + rest)[1..] == C.Tried(rest);
  }

  lemma SuffixSplit(s: string, pos: nat, e: nat)
    requires pos <= e <= |s|
    ensures s[pos..] == s[pos..e] + s[e..]
  {
  }

  lemma SpeakNext(content: string, pos: nat, chunks: nat -> IO, k: nat)
    requires pos < |content| && NUL !in content && chunks(k) == Done
    ensures var (e, r) := (C.ChunkEnd(content, pos), C.Speak(content, pos, chunks, k));
            var rest := C.Speak(content, e, chunks, k + 1);
            && BytesOf(C.Tried(r.tries)) == content[pos..e] + BytesOf(C.Tried(rest.tries))
            && r.outcome == rest.outcome
  {
    var e := C.ChunkEnd(content, pos);
    var t := content[pos..e];
    CStringIs(t, |t|);
    assert t[..|t|] == t;
    SentFirst(t, C.Speak(content, e, chunks, k + 1).tries);
  }

  /** When every send goes through, the sending loop sends exactly the text of a NUL-free letter. */
  lemma {:induction false} SpeakAll(content: string, pos: nat, chunks: nat -> IO, k: nat)
    requires pos <= |content| && NUL !in content
    requires forall n :: chunks(n) == Done
    ensures var r := C.Speak(content, pos, chunks, k);
            r.outcome == Done && BytesOf(C.Tried(r.tries)) == content[pos..]
    decreases |content| - pos
  {
    if pos < |content| {
      var e := C.ChunkEnd(content, pos);
      SpeakAll(content, e, chunks, k + 1);
      SpeakNext(content, pos, chunks, k);
      SuffixSplit(content, pos, e);
    }
  }

  lemma {:induction false} BytesSplit(a: seq<C.Action>, b: seq<C.Action>)
    ensures BytesOf(a + b) == BytesOf(a) + BytesOf(b)
  {
    if a == [] {
      assert a + b == b;
    } else {
      BytesSplit(a[1..], b);
      assert (a + b)[1..] == a[1..] + b;
      Assoc(if a[0].Sent? then C.Wire(a[0].command) else "", BytesOf(a[1..]), BytesOf(b));
    }
  }

  lemma {:induction false} RepliesSplit(a: seq<S.Event>, b: seq<S.Event>)
    ensures RepliesOf(a + b) == RepliesOf(a) + RepliesOf(b)
  {
    if a == [] {
      assert a + b == b;
    } else {
      RepliesSplit(a[1..], b);
      assert (a + b)[1..] == a[1..] + b;
      Assoc(Said(a[0].answers), RepliesOf(a[1..]), RepliesOf(b));
    }
  }

  /** Text lines other than the final dot only grow the body, silently. */
  lemma {:induction false} TextFold(s: S.Session, ls: seq<string>, n: nat) returns (quiet: seq<S.Event>)
    requires s.textMode && "." !in ls
    ensures RepliesOf(quiet) == []
    ensures var r := Fold(S.Server(CALM), s, ls, n);
            && !r.quit && r.state.textMode
            && r.state == s.(body := s.body + Unlines(ls, "\n"), capacity := r.state.capacity, log := s.log + quiet)
    ensures forall rest :: LongCommands(S.Server(CALM), Fold(S.Server(CALM), s, ls, n).state, rest, n + |ls|)
                           ==> LongCommands(S.Server(CALM), s, ls + rest, n)
    decreases |ls|
  {
    if ls == [] {
      quiet := [];
      assert s.log + [] == s.log;
      assert forall rest: seq<string> :: [] + rest == rest;
    } else {
      var l := ls[0];
      var s1 := S.Line(s, l, CALM(n));
      var more := TextFold(s1, ls[1..], n + 1);
      quiet := [S.Event(l, [])] + more;
      assert Said([]) == [];
      Assoc(s.body, l + "\n", Unlines(ls[1..], "\n"));
      Assoc(s.body, l, "\n");
      Assoc(s.log, [S.Event(l, [])], more);
      forall rest | LongCommands(S.Server(CALM), Fold(S.Server(CALM), s, ls, n).state, rest, n + |ls|)
        ensures LongCommands(S.Server(CALM), s, ls + rest, n)
      {
        assert (ls + rest)[0] == l && (ls + rest)[1..] == ls[1..] + rest;
      }
    }
  }

  lemma StreamLines(l: C.Letter)
    ensures Lines(StreamOf(l)) == Lines(l.content + CRLF) + ["."]
  {
    assert StreamOf(l) == l.content + CRLF + ".\r\n";
    LinesSplit(l.content + CRLF, ".\r\n");
    assert !Eol(".\r", 0) && !Eol(".\r", 1);
    FirstLine(".", "");
    assert "." + CRLF + "" == ".\r\n" && Lines("") == [];
  }

  predicate Envelope(s: S.Session, l: C.Letter) {
    s.textMode && s.phase == S.WRITING_DATA && s.from == Some(l.from) && s.to == [l.to] && s.body == ""
  }

  /** The final dot: one copy for the one recipient, and a reset. */
  lemma DotHandled(s: S.Session, l: C.Letter, n: nat)
    requires s.textMode && s.from == Some(l.from) && s.to == [l.to] && s.body != ""
    requires GoodAddress(l.from) && GoodAddress(l.to)
    ensures var f := Fold(S.Server(CALM), s, ["."], n);
            && !f.quit && f.state.phase == S.WAIT && !f.state.textMode && f.state.to == []
            && f.state.saved == s.saved + [S.Copy(l.from, l.to, s.body)]
            && f.state.log == s.log + [S.Event(".", [S.Answer(S.Reset250, Done)])]
  {
    var m := S.Server(CALM);
    var s1 := S.HandleText(s, ".", CALM(n));
    assert m.step(s, ".", n) == s1;
    assert S.Copies(s.from, s.to, s.body) == [S.Copy(l.from, l.to, s.body)];
    assert Fold(m, s1, [], n + 1) == Folded(s1, false);
  }

  /** What the server makes of the lines of a letter: no reply until the dot, then one copy and a reset. */
  lemma LetterFolded(s: S.Session, l: C.Letter, n: nat) returns (more: seq<S.Event>)
    requires Envelope(s, l) && Mailable(l)
    ensures var f := Fold(S.Server(CALM), s, Lines(l.content + CRLF) + ["."], n);
            && !f.quit && f.state.phase == S.WAIT && !f.state.textMode && f.state.to == []
            && f.state.saved == s.saved + [CopyOf(l)]
            && f.state.log == s.log + more
    ensures RepliesOf(more) == [S.ReplyText(S.Reset250)]
    ensures LongCommands(S.Server(CALM), s, Lines(l.content + CRLF) + ["."], n)
  {
    var m, ls := S.Server(CALM), Lines(l.content + CRLF);
    var quiet := TextFold(s, ls, n);
    var s1 := Fold(m, s, ls, n).state;
    LinesAsLf(l.content);
    assert s1.body == CopyOf(l).body by { assert "" + Unlines(ls, "\n") == Unlines(ls, "\n"); }
    assert s1.body != "" by { assert |s1.body| > 0; }
    DotHandled(s1, l, n + |ls|);
    FoldSplit(m, s, ls, ["."], n);
    LongDot(s1, n + |ls|);
    var dot := S.Event(".", [S.Answer(S.Reset250, Done)]);
    more := quiet + [dot];
    Assoc(s.log, quiet, [dot]);
    RepliesSplit(quiet, [dot]);
    OneReply(s1.log, ".", S.Reset250);
    assert (s1.log + [dot])[|s1.log|..] == [dot];
  }

  lemma LongDot(s: S.Session, n: nat)
    requires s.textMode
    ensures LongCommands(S.Server(CALM), s, ["."], n)
  {
    assert LongCommands(S.Server(CALM), S.Server(CALM).step(s, ".", n), [], n + 1);
  }

  /** The server reads a whole letter, however it is cut into chunks: one reply, one copy. */
  lemma LetterFed(d: Drained<S.Session>, l: C.Letter, chunks: seq<string>)
    requires Clean(d) && !d.quit && Envelope(d.state, l)
    requires Mailable(l) && AllWholeLines(chunks) && Concat(chunks) == StreamOf(l)
    ensures var r := FeedAll(S.Server(CALM), d, chunks);
            && Clean(r) && !r.quit
            && |d.state.log| <= |r.state.log|
            && RepliesOf(r.state.log[|d.state.log|..]) == [S.ReplyText(S.Reset250)]
            && r.state.phase == S.WAIT && !r.state.textMode && r.state.to == []
            && r.state.saved == d.state.saved + [CopyOf(l)]
  {
    StreamLines(l);
    AllLinesOfStream(chunks);
    var more := LetterFolded(d.state, l, d.next);
    FeedingFoldsLines(S.Server(CALM), d, chunks);
    assert (d.state.log + more)[|d.state.log|..] == more;
  }

  lemma LetterStepped(c: C.Conn, l: C.Letter)
    requires c.cur == C.SEND_LETTER && c.prev == C.RECEIVE_DATA_RESPONSE && !c.crashed && c.file == None
    requires c.pool != [] && c.pool[0] == l && NUL !in l.content
    ensures var r := C.Speak(l.content, 0, Heard("").chunks, 0);
            var more := C.Tried(r.tries) + [C.Sent(C.EndOfLetter)];
            C.Step(c, Heard("")).0 == c.(log := c.log + more, prev := C.SEND_LETTER, cur := C.RECEIVE_LETTER_RESPONSE)
  {
    var r := C.Speak(l.content, 0, Heard("").chunks, 0);
    SpeakAll(l.content, 0, Heard("").chunks, 0);
    Assoc(c.log, C.Tried(r.tries), [C.Sent(C.EndOfLetter)]);
  }

  lemma LetterBytes(l: C.Letter)
    requires NUL !in l.content
    ensures var r := C.Speak(l.content, 0, Heard("").chunks, 0);
            BytesOf(C.Tried(r.tries) + [C.Sent(C.EndOfLetter)]) == StreamOf(l)
  {
    var r := C.Speak(l.content, 0, Heard("").chunks, 0);
    SpeakAll(l.content, 0, Heard("").chunks, 0);
    var end := [C.Sent(C.EndOfLetter)];
    BytesSplit(C.Tried(r.tries), end);
    assert BytesOf(end) == C.Wire(C.EndOfLetter) + BytesOf([]);
    assert l.content[0..] == l.content;
  }

  // ------------------------------------------------------------- one transaction

  /** What holds throughout: `rest` is still to be sent, `done` is filed as sent. */
  predicate Common(y: System, rest: seq<C.Letter>, done: seq<C.Letter>) {
    && !y.client.crashed && y.client.pool == rest && y.client.file == None
    && Clean(y.server) && !y.server.quit
    && (forall k | 0 <= k < |rest| :: Mailable(rest[k]))
    && MovedTo(y.client.log, C.Current) == done && MovedTo(y.client.log, C.New) == []
  }

  /** Where a transaction for the first letter of `rest` stands on both sides. */
  predicate Stage(y: System, cur: C.State, rest: seq<C.Letter>, done: seq<C.Letter>) {
    && Common(y, rest, done) && rest != []
    && y.client.cur == cur && C.SEND_MAIL_FROM <= cur <= C.RECEIVE_LETTER_RESPONSE && C.Follows(cur, y.client.prev)
    && var (l, s) := (rest[0], y.server.state);
    && (cur == C.RECEIVE_MAIL_FROM_RESPONSE || cur == C.SEND_RCPT_TO ==> y.client.meta == Some(C.Meta(l.from, l.to)))
    && CutsOf(y.cuts, if cur == C.RECEIVE_LETTER_RESPONSE then rest[1..] else rest)
    && s.saved == CopiesOf(if cur == C.RECEIVE_LETTER_RESPONSE then done + [l] else done)
    && (s.textMode <==> cur == C.RECEIVE_DATA_RESPONSE || cur == C.SEND_LETTER)
    && y.wire == Expected(cur)
    && (if cur == C.SEND_MAIL_FROM || cur == C.RECEIVE_LETTER_RESPONSE then s.phase == S.WAIT && s.to == []
        else if cur <= C.SEND_RCPT_TO then s.phase == S.MAIL_CREATED && s.from == Some(l.from) && s.to == []
        else if cur <= C.SEND_DATA then s.phase == S.RECIPIENTS_SET && s.from == Some(l.from) && s.to == [l.to]
        else Envelope(s, l))
  }

  /** The reply under way when the client is in state `cur`. */
  function Expected(cur: C.State): seq<string> {
    if cur == C.RECEIVE_MAIL_FROM_RESPONSE || cur == C.RECEIVE_RCPT_TO_RESPONSE then [S.ReplyText(S.Ok250)]
    else if cur == C.RECEIVE_DATA_RESPONSE then [S.ReplyText(S.Start354)]
    else if cur == C.RECEIVE_LETTER_RESPONSE then [S.ReplyText(S.Reset250)]
    else []
  }

  /** Sending or hearing something moves no letter. */
  lemma NotMoved(log: seq<C.Action>, a: C.Action)
    requires !a.Moved?
    ensures MovedTo(log + [a], C.Current) == MovedTo(log, C.Current)
    ensures MovedTo(log + [a], C.New) == MovedTo(log, C.New)
  {
    MovedOne(log, a, C.Current);
    MovedOne(log, a, C.New);
  }

  lemma Calmly(s: S.Session, line: string, n: nat)
    requires !s.textMode
    ensures CALM(n).io == Done
    ensures S.Server(CALM).step(s, line, n) == S.HandleCommand(s, line, CALM(n))
  {
    assert CALM(n) == S.LineInput(Done, Done, true);
    assert S.Server(CALM).step(s, line, n) == S.Line(s, line, CALM(n));
  }

  lemma ServerMail(s: S.Session, a: string, n: nat)
    requires s.phase == S.WAIT && !s.textMode && GoodAddress(a)
    ensures S.Server(CALM).step(s, MailLine(a), n)
            == s.(from := Some(a), phase := S.MAIL_CREATED,
                  log := s.log + [S.Event(MailLine(a), [S.Answer(S.Ok250, Done)])])
    ensures !S.Server(CALM).quits(s, MailLine(a))
  {
    MailLineRead(a);
    Calmly(s, MailLine(a), n);
  }

  lemma ServerRcpt(s: S.Session, a: string, n: nat)
    requires s.phase == S.MAIL_CREATED && s.to == [] && !s.textMode && GoodAddress(a)
    ensures S.Server(CALM).step(s, RcptLine(a), n)
            == s.(to := [a], phase := S.RECIPIENTS_SET,
                  log := s.log + [S.Event(RcptLine(a), [S.Answer(S.Ok250, Done)])])
    ensures !S.Server(CALM).quits(s, RcptLine(a))
  {
    RcptLineRead(a);
    assert [] + [a] == [a];
    Calmly(s, RcptLine(a), n);
  }

  lemma ServerData(s: S.Session, n: nat)
    requires s.phase == S.RECIPIENTS_SET && !s.textMode
    ensures S.Server(CALM).step(s, "DATA", n)
            == s.(body := "", capacity := 0, textMode := true, phase := S.WRITING_DATA,
                  log := s.log + [S.Event("DATA", [S.Answer(S.Start354, Done)])])
    ensures !S.Server(CALM).quits(s, "DATA")
  {
    DataLineRead();
    Calmly(s, "DATA", n);
  }

  lemma ClientMail(c: C.Conn)
    requires c.cur == C.SEND_MAIL_FROM && C.Follows(c.cur, c.prev) && !c.crashed && c.pool != []
    ensures C.Step(c, Heard("")).0
            == c.(meta := Some(C.Meta(c.pool[0].from, c.pool[0].to)), log := c.log + [C.Sent(C.Mail(c.pool[0].from))],
                  prev := C.SEND_MAIL_FROM, cur := C.RECEIVE_MAIL_FROM_RESPONSE)
  {
  }

  lemma ClientCommand(c: C.Conn)
    requires C.Sends(c.cur) && c.cur != C.SEND_MAIL_FROM && c.cur != C.SEND_LETTER
    requires C.Follows(c.cur, c.prev) && !c.crashed
    ensures C.Step(c, Heard("")).0 == c.(log := c.log + [C.Sent(C.CommandOf(c))], prev := c.cur, cur := c.cur + 1)
  {
  }

  /** What the two sides are left with once a command of the transaction is sent and read. */
  lemma CommandDone(y: System, z: System, rest: seq<C.Letter>, done: seq<C.Letter>, m: C.Command)
    requires var cur := y.client.cur; cur == C.SEND_MAIL_FROM || cur == C.SEND_RCPT_TO || cur == C.SEND_DATA
    requires Stage(y, y.client.cur, rest, done)
    requires z.client == y.client.(meta := z.client.meta, log := y.client.log + [C.Sent(m)],
                                   prev := y.client.cur, cur := y.client.cur + 1)
    requires y.client.cur == C.SEND_MAIL_FROM ==> z.client.meta == Some(C.Meta(rest[0].from, rest[0].to))
    requires Clean(z.server) && !z.server.quit && z.cuts == y.cuts && z.wire == Expected(y.client.cur + 1)
    requires var (s, s') := (y.server.state, z.server.state);
             s' == if y.client.cur == C.SEND_MAIL_FROM
                   then s.(from := Some(rest[0].from), phase := S.MAIL_CREATED, log := s'.log)
                   else if y.client.cur == C.SEND_RCPT_TO
                   then s.(to := [rest[0].to], phase := S.RECIPIENTS_SET, log := s'.log)
                   else s.(body := "", capacity := 0, textMode := true, phase := S.WRITING_DATA, log := s'.log)
    ensures Stage(z, y.client.cur + 1, rest, done)
  {
    NotMoved(y.client.log, C.Sent(m));
    if y.client.cur == C.SEND_DATA {
      assert Envelope(z.server.state, rest[0]);
    }
  }

  lemma MailStage(y: System, rest: seq<C.Letter>, done: seq<C.Letter>)
    requires Stage(y, C.SEND_MAIL_FROM, rest, done)
    ensures Stage(Joint(y), C.RECEIVE_MAIL_FROM_RESPONSE, rest, done)
  {
    var (c, a) := (y.client, rest[0].from);
    ClientMail(c);
    ServerMail(y.server.state, a, y.server.next);
    MailLineRead(a);
    assert MailLine(a) + CRLF + Zeros(0) == MailLine(a) + CRLF;
    CommandJoint(y, C.Mail(a), MailLine(a), 0, C.Step(c, Heard("")).0,
                 S.Server(CALM).step(y.server.state, MailLine(a), y.server.next), S.Ok250);
    CommandDone(y, Joint(y), rest, done, C.Mail(a));
  }

  lemma RcptStage(y: System, rest: seq<C.Letter>, done: seq<C.Letter>)
    requires Stage(y, C.SEND_RCPT_TO, rest, done)
    ensures Stage(Joint(y), C.RECEIVE_RCPT_TO_RESPONSE, rest, done)
  {
    var (c, a) := (y.client, rest[0].to);
    ClientCommand(c);
    ServerRcpt(y.server.state, a, y.server.next);
    RcptLineRead(a);
    assert RcptLine(a) + CRLF + Zeros(0) == RcptLine(a) + CRLF;
    CommandJoint(y, C.Rcpt(a), RcptLine(a), 0, C.Step(c, Heard("")).0,
                 S.Server(CALM).step(y.server.state, RcptLine(a), y.server.next), S.Ok250);
    CommandDone(y, Joint(y), rest, done, C.Rcpt(a));
  }

  lemma DataStage(y: System, rest: seq<C.Letter>, done: seq<C.Letter>)
    requires Stage(y, C.SEND_DATA, rest, done)
    ensures Stage(Joint(y), C.RECEIVE_DATA_RESPONSE, rest, done)
  {
    var c := y.client;
    var s' := S.Server(CALM).step(y.server.state, "DATA", y.server.next);
    ClientCommand(c);
    ServerData(y.server.state, y.server.next);
    DataJoint(y, s');
    CommandDone(y, Joint(y), rest, done, C.Data);
  }

  lemma DataJoint(y: System, s: S.Session)
    requires y.client.cur == C.SEND_DATA && C.Follows(y.client.cur, y.client.prev) && !y.client.crashed
    requires Clean(y.server) && !y.server.quit
    requires s == S.Server(CALM).step(y.server.state, "DATA", y.server.next)
    requires !S.Server(CALM).quits(y.server.state, "DATA")
    requires s.log == y.server.state.log + [S.Event("DATA", [S.Answer(S.Start354, Done)])]
    ensures var z := Joint(y);
            && z.client == C.Step(y.client, Heard("")).0
            && z.wire == y.wire + [S.ReplyText(S.Start354)] && z.cuts == y.cuts
            && z.server.state == s && Clean(z.server) && !z.server.quit
  {
    ClientCommand(y.client);
    DataLineRead();
    CommandJoint(y, C.Data, "DATA", 1, C.Step(y.client, Heard("")).0, s, S.Start354);
  }

  lemma {:induction false} NoMoves(log: seq<C.Action>, ts: seq<C.Try>, folder: C.Folder)
    ensures MovedTo(log + C.Tried(ts), folder) == MovedTo(log, folder)
  {
    if ts == [] {
      assert log + C.Tried(ts) == log;
    } else {
      var n := |ts| - 1;
      NoMoves(log, ts[..n], folder);
      assert log + C.Tried(ts) == log + C.Tried(ts[..n]) + [C.Tried(ts)[n]];
      MovedOne(log + C.Tried(ts[..n]), C.Tried(ts)[n], folder);
    }
  }

  lemma LetterMoves(log: seq<C.Action>, ts: seq<C.Try>, folder: C.Folder)
    ensures MovedTo(log + (C.Tried(ts) + [C.Sent(C.EndOfLetter)]), folder) == MovedTo(log, folder)
  {
    NoMoves(log, ts, folder);
    Assoc(log, C.Tried(ts), [C.Sent(C.EndOfLetter)]);
    MovedOne(log + C.Tried(ts), C.Sent(C.EndOfLetter), folder);
  }

  /** The client sends the letter; cut into chunks it reaches the server, which answers once. */
  lemma LetterJoint(y: System, l: C.Letter)
    requires y.client.cur == C.SEND_LETTER && y.client.prev == C.RECEIVE_DATA_RESPONSE
    requires !y.client.crashed && y.client.file == None && y.client.pool != [] && y.client.pool[0] == l
    requires Clean(y.server) && !y.server.quit && Envelope(y.server.state, l) && Mailable(l)
    requires y.cuts != [] && AllWholeLines(y.cuts[0]) && Concat(y.cuts[0]) == StreamOf(l)
    ensures var z := Joint(y);
            var more := C.Tried(C.Speak(l.content, 0, Heard("").chunks, 0).tries) + [C.Sent(C.EndOfLetter)];
            && z.client
               == y.client.(log := y.client.log + more, prev := C.SEND_LETTER, cur := C.RECEIVE_LETTER_RESPONSE)
            && z.server == FeedAll(S.Server(CALM), y.server, y.cuts[0])
            && z.wire == y.wire + [S.ReplyText(S.Reset250)]
            && z.cuts == y.cuts[1..]
  {
    var c := y.client;
    var more := C.Tried(C.Speak(l.content, 0, Heard("").chunks, 0).tries) + [C.Sent(C.EndOfLetter)];
    LetterStepped(c, l);
    LetterBytes(l);
    assert (c.log + more)[|c.log|..] == more;
    LetterFed(y.server, l, y.cuts[0]);
  }

  lemma CutsTail(cuts: seq<seq<string>>, letters: seq<C.Letter>)
    requires CutsOf(cuts, letters) && letters != []
    ensures CutsOf(cuts[1..], letters[1..])
    ensures AllWholeLines(cuts[0]) && Concat(cuts[0]) == StreamOf(letters[0])
  {
  }

  lemma LetterStage(y: System, rest: seq<C.Letter>, done: seq<C.Letter>)
    requires Stage(y, C.SEND_LETTER, rest, done)
    ensures Stage(Joint(y), C.RECEIVE_LETTER_RESPONSE, rest, done)
  {
    var (c, l) := (y.client, rest[0]);
    var ts := C.Speak(l.content, 0, Heard("").chunks, 0).tries;
    CutsTail(y.cuts, rest);
    LetterJoint(y, l);
    LetterFed(y.server, l, y.cuts[0]);
    LetterMoves(c.log, ts, C.Current);
    LetterMoves(c.log, ts, C.New);
    LetterDone(y, Joint(y), rest, done, C.Tried(ts) + [C.Sent(C.EndOfLetter)]);
  }

  /** What the two sides are left with once the letter is sent and read. */
  lemma LetterDone(y: System, z: System, rest: seq<C.Letter>, done: seq<C.Letter>, more: seq<C.Action>)
    requires Stage(y, C.SEND_LETTER, rest, done)
    requires z.client == y.client.(log := y.client.log + more, prev := C.SEND_LETTER, cur := C.RECEIVE_LETTER_RESPONSE)
    requires MovedTo(z.client.log, C.Current) == MovedTo(y.client.log, C.Current)
    requires MovedTo(z.client.log, C.New) == MovedTo(y.client.log, C.New)
    requires Clean(z.server) && !z.server.quit
    requires z.server.state.phase == S.WAIT && !z.server.state.textMode && z.server.state.to == []
    requires z.server.state.saved == y.server.state.saved + [CopyOf(rest[0])]
    requires z.wire == y.wire + [S.ReplyText(S.Reset250)] && z.cuts == y.cuts[1..]
    ensures Stage(z, C.RECEIVE_LETTER_RESPONSE, rest, done)
  {
    CutsTail(y.cuts, rest);
    MoreCopies(done, rest[0]);
    assert Common(z, rest, done);
  }

  lemma MoreCopies(done: seq<C.Letter>, l: C.Letter)
    ensures CopiesOf(done + [l]) == CopiesOf(done) + [CopyOf(l)]
  {
  }

  /** A reply inside a transaction that the client accepts. */
  lemma ClientHears(c: C.Conn, reply: string)
    requires C.SEND_MAIL_FROM < c.cur < C.RECEIVE_LETTER_RESPONSE && C.Receives(c.cur) && C.Follows(c.cur, c.prev)
    requires !c.crashed && C.Verdict(c.cur, reply, c.domain) == 0
    ensures C.Step(c, Heard(reply)).0 == c.(log := c.log + [C.Got(reply)], prev := c.cur, cur := c.cur + 1)
  {
  }

  lemma ExpectedAccepted(cur: C.State, domain: string)
    requires cur == C.RECEIVE_MAIL_FROM_RESPONSE || cur == C.RECEIVE_RCPT_TO_RESPONSE || cur == C.RECEIVE_DATA_RESPONSE
    ensures |Expected(cur)| == 1 && C.Verdict(cur, Expected(cur)[0], domain) == 0
  {
    OkCode();
    StartCode();
  }

  /** The 250 and 354 replies inside a transaction. */
  lemma HeardStage(y: System, cur: C.State, rest: seq<C.Letter>, done: seq<C.Letter>)
    requires Stage(y, cur, rest, done)
    requires cur == C.RECEIVE_MAIL_FROM_RESPONSE || cur == C.RECEIVE_RCPT_TO_RESPONSE || cur == C.RECEIVE_DATA_RESPONSE
    ensures Stage(Joint(y), cur + 1, rest, done)
  {
    ExpectedAccepted(cur, y.client.domain);
    var reply := Expected(cur)[0];
    ReplyJoint(y, reply);
    ClientHears(y.client, reply);
    HeardDone(y, Joint(y), cur, rest, done, reply);
  }

  lemma HeardDone(y: System, z: System, cur: C.State, rest: seq<C.Letter>, done: seq<C.Letter>, reply: string)
    requires Stage(y, cur, rest, done)
    requires cur == C.RECEIVE_MAIL_FROM_RESPONSE || cur == C.RECEIVE_RCPT_TO_RESPONSE || cur == C.RECEIVE_DATA_RESPONSE
    requires z == y.(client := y.client.(log := y.client.log + [C.Got(reply)], prev := cur, cur := cur + 1), wire := [])
    ensures Stage(z, cur + 1, rest, done)
  {
    NotMoved(y.client.log, C.Got(reply));
  }

  /** The client has sent everything and is about to quit. */
  predicate AtQuit(y: System, done: seq<C.Letter>) {
    && Common(y, [], done)
    && y.client.cur == C.SEND_QUIT && y.client.prev == C.RECEIVE_LETTER_RESPONSE
    && y.wire == [] && !y.server.state.textMode && y.server.state.saved == CopiesOf(done)
  }

  lemma ClientFiles(c: C.Conn, reply: string)
    requires c.cur == C.RECEIVE_LETTER_RESPONSE && C.Follows(c.cur, c.prev) && !c.crashed && c.pool != []
    requires StatusCode(reply) == 250 && C.OkWord(reply)
    ensures var d := C.Step(c, Heard(reply)).0;
            && d.pool == c.pool[1..] && d.prev == C.RECEIVE_LETTER_RESPONSE && !d.crashed && d.file == c.file
            && d.cur == (if |c.pool| > 1 then C.SEND_MAIL_FROM else C.SEND_QUIT)
            && MovedTo(d.log, C.Current) == MovedTo(c.log, C.Current) + [c.pool[0]]
            && MovedTo(d.log, C.New) == MovedTo(c.log, C.New)
  {
    NotMoved(c.log, C.Got(reply));
    MovedOne(c.log + [C.Got(reply)], C.Moved(c.pool[0], C.Current), C.Current);
    MovedOne(c.log + [C.Got(reply)], C.Moved(c.pool[0], C.Current), C.New);
    NotMoved(c.log + [C.Got(reply)] + [C.Moved(c.pool[0], C.Current)], C.Forgot(c.domain));
  }

  /** The letter is acknowledged: it is filed, and the next one or QUIT is due. */
  lemma AcknowledgedStage(y: System, rest: seq<C.Letter>, done: seq<C.Letter>)
    requires Stage(y, C.RECEIVE_LETTER_RESPONSE, rest, done)
    ensures var z := Joint(y);
            if |rest| > 1 then Stage(z, C.SEND_MAIL_FROM, rest[1..], done + [rest[0]]) else AtQuit(z, done + [rest[0]])
  {
    var reply := S.ReplyText(S.Reset250);
    ReplyJoint(y, reply);
    ResetCode();
    ClientFiles(y.client, reply);
  }

  // --------------------------------------------------------------- the whole run

  lemma Three<T>(f: T -> T, x0: T, x1: T, x2: T, x3: T)
    requires x1 == f(x0) && x2 == f(x1) && x3 == f(x2)
    ensures Iterate(f, x0, 3) == x3
  {
    assert Iterate(f, x3, 0) == x3;
    assert Iterate(f, x2, 1) == x3;
    assert Iterate(f, x1, 2) == x3;
  }

  /** One letter: eight steps from MAIL to the next MAIL or QUIT. */
  lemma LetterRound(y: System, rest: seq<C.Letter>, done: seq<C.Letter>)
    requires Stage(y, C.SEND_MAIL_FROM, rest, done)
    ensures var z := RunJoint(y, 8);
            if |rest| > 1 then Stage(z, C.SEND_MAIL_FROM, rest[1..], done + [rest[0]]) else AtQuit(z, done + [rest[0]])
  {
    var y1 := Joint(y);
    MailStage(y, rest, done);
    var y2 := Joint(y1);
    HeardStage(y1, C.RECEIVE_MAIL_FROM_RESPONSE, rest, done);
    var y3 := Joint(y2);
    RcptStage(y2, rest, done);
    Three(Joint, y, y1, y2, y3);
    var y4 := Joint(y3);
    HeardStage(y3, C.RECEIVE_RCPT_TO_RESPONSE, rest, done);
    var y5 := Joint(y4);
    DataStage(y4, rest, done);
    var y6 := Joint(y5);
    HeardStage(y5, C.RECEIVE_DATA_RESPONSE, rest, done);
    Three(Joint, y3, y4, y5, y6);
    var y7 := Joint(y6);
    LetterStage(y6, rest, done);
    var y8 := Joint(y7);
    AcknowledgedStage(y7, rest, done);
    Two(Joint, y6, y7, y8);
    IterateSplit(Joint, y, 3, 3);
    IterateSplit(Joint, y, 6, 2);
  }

  lemma Two<T>(f: T -> T, x0: T, x1: T, x2: T)
    requires x1 == f(x0) && x2 == f(x1)
    ensures Iterate(f, x0, 2) == x2
  {
    assert Iterate(f, x2, 0) == x2;
    assert Iterate(f, x1, 1) == x2;
  }

  lemma Rounds<T>(f: T -> T, x: T, n: nat)
    requires n > 0
    ensures Iterate(f, x, 8 * n) == Iterate(f, Iterate(f, x, 8), 8 * (n - 1))
  {
    IterateSplit(f, x, 8, 8 * (n - 1));
  }

  lemma {:induction false} AllRounds(y: System, rest: seq<C.Letter>, done: seq<C.Letter>, whole: seq<C.Letter>)
    requires Stage(y, C.SEND_MAIL_FROM, rest, done) && whole == done + rest
    ensures AtQuit(RunJoint(y, 8 * |rest|), whole)
    decreases |rest|
  {
    LetterRound(y, rest, done);
    Regroup(whole, done, rest);
    Rounds(Joint, y, |rest|);
    if |rest| > 1 {
      AllRounds(RunJoint(y, 8), rest[1..], done + [rest[0]], whole);
    }
  }

  lemma Regroup(whole: seq<C.Letter>, done: seq<C.Letter>, rest: seq<C.Letter>)
    requires whole == done + rest && rest != []
    ensures whole == done + [rest[0]] + rest[1..]
    ensures |rest| == 1 ==> whole == done + [rest[0]]
  {
  }

  /** The run ended with QUIT: the connection is disposed, nothing is left, and the server has closed. */
  predicate Finished(y: System, letters: seq<C.Letter>) {
    && y.client.cur == C.NULL_POINTER && y.client.prev == C.DISPOSING_SOCKET && y.client.pool == []
    && C.Sent(C.Quit) in y.client.log
    && MovedTo(y.client.log, C.Current) == letters && MovedTo(y.client.log, C.New) == []
    && y.server.quit && y.server.state.phase == S.CLOSED
    && y.server.state.saved == CopiesOf(letters)
  }

  lemma ServerQuit(s: S.Session, n: nat)
    requires !s.textMode
    ensures S.Server(CALM).step(s, "QUIT", n)
            == s.(phase := S.CLOSED, log := s.log + [S.Event("QUIT", [S.Answer(S.Bye221, Done)])])
    ensures S.Server(CALM).quits(s, "QUIT")
  {
    QuitLineRead();
    Calmly(s, "QUIT", n);
  }

  lemma QuitJoint(y: System, done: seq<C.Letter>)
    requires AtQuit(y, done)
    ensures var z := Joint(y);
            && z.client == y.client.(log := y.client.log + [C.Sent(C.Quit)],
                                     prev := C.SEND_QUIT, cur := C.RECEIVE_QUIT_RESPONSE)
            && z.wire == [S.ReplyText(S.Bye221)]
            && z.server.quit && z.server.state.phase == S.CLOSED && z.server.state.saved == CopiesOf(done)
  {
    var s' := S.Server(CALM).step(y.server.state, "QUIT", y.server.next);
    ClientCommand(y.client);
    ServerQuit(y.server.state, y.server.next);
    QuitLineRead();
    assert "QUIT" + CRLF + Zeros(0) == "QUIT" + CRLF;
    CommandJoint(y, C.Quit, "QUIT", 0, C.Step(y.client, Heard("")).0, s', S.Bye221);
  }

  lemma ClientBye(c: C.Conn, reply: string)
    requires c.cur == C.RECEIVE_QUIT_RESPONSE && c.prev == C.SEND_QUIT && !c.crashed && StatusCode(reply) == 221
    ensures C.Step(c, Heard(reply)).0
            == c.(log := c.log + [C.Got(reply)], prev := C.RECEIVE_QUIT_RESPONSE, cur := C.DISPOSING_SOCKET)
  {
  }

  lemma DisposeJoint(y: System)
    requires y.client.cur == C.DISPOSING_SOCKET && y.client.prev == C.RECEIVE_QUIT_RESPONSE && !y.client.crashed
    ensures var z := Joint(y);
            && z.client == y.client.(meta := None, prev := C.DISPOSING_SOCKET, cur := C.NULL_POINTER)
            && z.server == y.server
  {
    assert y.client.log[|y.client.log|..] == [];
    assert BytesOf([]) == "";
  }

  lemma QuitRound(y: System, done: seq<C.Letter>)
    requires AtQuit(y, done)
    ensures Finished(RunJoint(y, 3), done)
  {
    var y1, reply := Joint(y), S.ReplyText(S.Bye221);
    QuitJoint(y, done);
    NotMoved(y.client.log, C.Sent(C.Quit));
    assert y1.client.log[|y.client.log|] == C.Sent(C.Quit);
    var y2 := Joint(y1);
    ReplyJoint(y1, reply);
    ByeCode();
    ClientBye(y1.client, reply);
    NotMoved(y1.client.log, C.Got(reply));
    assert y2.client.log[|y.client.log|] == C.Sent(C.Quit);
    var y3 := Joint(y2);
    DisposeJoint(y2);
    Three(Joint, y, y1, y2, y3);
  }

  /** A connection to the test server just opened on both sides, with the greeting under way. */
  predicate JustOpened(y: System) {
    && C.Fresh(y.client) && C.TEST_PREFIX <= y.client.domain
    && y.server == Drained(S.Greet(S.NEW_SESSION, Done), Zeros(BUFFER_SIZE), false, 0)
    && y.wire == [S.ReplyText(S.Greeting220)]
    && (forall k | 0 <= k < |y.client.pool| :: Mailable(y.client.pool[k]))
    && CutsOf(y.cuts, y.client.pool)
  }

  lemma ClientGreeted(c: C.Conn)
    requires C.Fresh(c) && C.TEST_PREFIX <= c.domain
    ensures var reply := S.ReplyText(S.Greeting220);
            C.Step(c, Heard(reply)).0
            == c.(log := c.log + [C.Got(reply)], prev := C.RECEIVE_SMTP_GREETING, cur := C.SEND_EHLO)
  {
    GreetingCode();
  }

  lemma ServerEhlo(s: S.Session, n: nat)
    requires s.phase == S.INIT && !s.textMode
    ensures S.Server(CALM).step(s, EhloLine(), n)
            == s.(phase := S.WAIT, log := s.log + [S.Event(EhloLine(), [S.Answer(S.Named250(C.MY_DOMAIN), Done)])])
    ensures !S.Server(CALM).quits(s, EhloLine())
  {
    EhloLineRead();
    Calmly(s, EhloLine(), n);
  }

  lemma ClientWelcomed(c: C.Conn)
    requires c.cur == C.RECEIVE_EHLO_RESPONSE && c.prev == C.SEND_EHLO && !c.crashed
    ensures var reply := S.ReplyText(S.Named250(C.MY_DOMAIN));
            C.Step(c, Heard(reply)).0
            == c.(log := c.log + [C.Got(reply)], attempt := 0, prev := C.RECEIVE_EHLO_RESPONSE, cur := C.SEND_MAIL_FROM)
  {
    EhloVerdict(c.domain);
    ClientTakesEhlo(c, S.ReplyText(S.Named250(C.MY_DOMAIN)));
  }

  lemma EhloVerdict(domain: string)
    ensures var reply := S.ReplyText(S.Named250(C.MY_DOMAIN));
            C.Verdict(C.RECEIVE_EHLO_RESPONSE, reply, domain) == 0 && !C.HangsUp(C.RECEIVE_EHLO_RESPONSE, reply)
  {
    EhloCode();
  }

  lemma ClientTakesEhlo(c: C.Conn, reply: string)
    requires c.cur == C.RECEIVE_EHLO_RESPONSE && c.prev == C.SEND_EHLO && !c.crashed
    requires C.Verdict(c.cur, reply, c.domain) == 0 && !C.HangsUp(c.cur, reply)
    ensures C.Step(c, Heard(reply)).0
            == c.(log := c.log + [C.Got(reply)], attempt := 0, prev := C.RECEIVE_EHLO_RESPONSE, cur := C.SEND_MAIL_FROM)
  {
  }

  /** Between the greeting and the first MAIL. */
  predicate Meeting(y: System, cur: C.State, letters: seq<C.Letter>) {
    && Common(y, letters, []) && letters != []
    && y.client.cur == cur && C.Follows(cur, y.client.prev)
    && !y.server.state.textMode && y.server.state.to == [] && y.server.state.saved == []
    && CutsOf(y.cuts, letters)
    && (cur == C.SEND_EHLO ==> y.server.state.phase == S.INIT && y.wire == [])
    && (cur == C.RECEIVE_EHLO_RESPONSE ==>
          y.server.state.phase == S.WAIT && y.wire == [S.ReplyText(S.Named250(C.MY_DOMAIN))])
  }

  lemma GreetingStage(y: System)
    requires JustOpened(y)
    ensures Meeting(Joint(y), C.SEND_EHLO, y.client.pool)
  {
    var reply := S.ReplyText(S.Greeting220);
    ReplyJoint(y, reply);
    ClientGreeted(y.client);
    NotMoved(y.client.log, C.Got(reply));
  }

  lemma EhloStage(y: System, letters: seq<C.Letter>)
    requires Meeting(y, C.SEND_EHLO, letters)
    ensures Meeting(Joint(y), C.RECEIVE_EHLO_RESPONSE, letters)
  {
    var (c, d) := (y.client, y.server);
    ClientCommand(c);
    ServerEhlo(d.state, d.next);
    EhloLineRead();
    assert EhloLine() + CRLF + Zeros(0) == EhloLine() + CRLF;
    CommandJoint(y, C.Ehlo, EhloLine(), 0, C.Step(c, Heard("")).0, S.Server(CALM).step(d.state, EhloLine(), d.next),
                 S.Named250(C.MY_DOMAIN));
    NotMoved(c.log, C.Sent(C.Ehlo));
  }

  lemma WelcomeStage(y: System, letters: seq<C.Letter>)
    requires Meeting(y, C.RECEIVE_EHLO_RESPONSE, letters)
    ensures Stage(Joint(y), C.SEND_MAIL_FROM, letters, [])
  {
    var answer := S.ReplyText(S.Named250(C.MY_DOMAIN));
    ReplyJoint(y, answer);
    ClientWelcomed(y.client);
    NotMoved(y.client.log, C.Got(answer));
  }

  lemma OpeningRound(y: System)
    requires JustOpened(y)
    ensures Stage(RunJoint(y, 3), C.SEND_MAIL_FROM, y.client.pool, [])
  {
    GreetingStage(y);
    EhloStage(Joint(y), y.client.pool);
    WelcomeStage(Joint(Joint(y)), y.client.pool);
    Three(Joint, y, Joint(y), Joint(Joint(y)), Joint(Joint(Joint(y))));
  }

  /** Every letter arrives: after 8n + 6 joint steps the run has ended by QUIT, every letter is filed as sent and none
      returned, and the server has saved exactly the letters, in order, with the client's addresses and with each CRLF
      of the content turned into LF plus one final LF. */
  lemma EveryLetterArrives(y: System)
    requires JustOpened(y)
    ensures Finished(RunJoint(y, 8 * |y.client.pool| + 6), y.client.pool)
  {
    ArrivesAfter(y, 8 * |y.client.pool| + 6);
  }

  lemma ArrivesAfter(y: System, k: nat)
    requires JustOpened(y) && k == 8 * |y.client.pool| + 6
    ensures Finished(RunJoint(y, k), y.client.pool)
  {
    AllDone(y);
    JoinedRun(y, 8 * |y.client.pool|, k, y.client.pool);
  }

  lemma JoinedRun(y: System, k: nat, whole: nat, letters: seq<C.Letter>)
    requires Finished(RunJoint(RunJoint(RunJoint(y, 3), k), 3), letters) && whole == k + 6
    ensures Finished(RunJoint(y, whole), letters)
  {
    Joined(Joint, y, k, letters);
  }

  lemma AllDone(y: System)
    requires JustOpened(y)
    ensures Finished(RunJoint(RunJoint(RunJoint(y, 3), 8 * |y.client.pool|), 3), y.client.pool)
  {
    AllSent(y);
    QuitRound(RunJoint(RunJoint(y, 3), 8 * |y.client.pool|), y.client.pool);
  }

  lemma AllSent(y: System)
    requires JustOpened(y)
    ensures AtQuit(RunJoint(RunJoint(y, 3), 8 * |y.client.pool|), y.client.pool)
  {
    OpeningRound(y);
    assert [] + y.client.pool == y.client.pool;
    AllRounds(RunJoint(y, 3), y.client.pool, [], y.client.pool);
  }

  lemma Joined(f: System -> System, y: System, k: nat, letters: seq<C.Letter>)
    requires Finished(Iterate(f, Iterate(f, Iterate(f, y, 3), k), 3), letters)
    ensures Finished(Iterate(f, y, k + 6), letters)
  {
    IterateSplit(f, y, 3, k);
    IterateSplit(f, y, 3 + k, 3);
  }
}
