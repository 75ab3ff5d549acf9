/**
 The client connection controller as a transition function on values: one `Step` is one call of
 `SMTP_Control`. Replies and send, receive and connect outcomes are inputs; what was sent, what was
 received and where letters were moved is kept in a log.
 */
module Connection {
  import opened Text
  import opened Outcomes

  /** Control states, numbered as in `states.h`. */
  type State = int

  const NULL_POINTER: State := -100
  const SMTP_ERROR: State := -1
  const PREPARE_SOCKET_CONNECTION: State := 0
  const RECEIVE_SMTP_GREETING: State := 1
  const SEND_EHLO: State := 2
  const RECEIVE_EHLO_RESPONSE: State := 3
  const SEND_MAIL_FROM: State := 4
  const RECEIVE_MAIL_FROM_RESPONSE: State := 5
  const SEND_RCPT_TO: State := 6
  const RECEIVE_RCPT_TO_RESPONSE: State := 7
  const SEND_DATA: State := 8
  const RECEIVE_DATA_RESPONSE: State := 9
  const SEND_LETTER: State := 10
  const RECEIVE_LETTER_RESPONSE: State := 11
  const SEND_QUIT: State := 12
  const RECEIVE_QUIT_RESPONSE: State := 13
  const DISPOSING_SOCKET: State := 14
  const SEND_RSET: State := 20
  const RECEIVE_RSET_RESPONSE: State := 21

  predicate Receives(s: State) {
    s == RECEIVE_SMTP_GREETING || s == RECEIVE_EHLO_RESPONSE || s == RECEIVE_MAIL_FROM_RESPONSE
    || s == RECEIVE_RCPT_TO_RESPONSE || s == RECEIVE_DATA_RESPONSE || s == RECEIVE_LETTER_RESPONSE
    || s == RECEIVE_QUIT_RESPONSE || s == RECEIVE_RSET_RESPONSE
  }

  predicate Sends(s: State) {
    s == SEND_EHLO || s == SEND_MAIL_FROM || s == SEND_RCPT_TO || s == SEND_DATA
    || s == SEND_LETTER || s == SEND_QUIT || s == SEND_RSET
  }

  /** A queued letter: its file, the domain it goes to, and what the file holds. */
  datatype Letter = Letter(path: string, domain: string, from: string, to: string, content: string)

  datatype Folder = New | Current

  datatype Command =
    | Ehlo | Mail(from: string) | Rcpt(to: string) | Data
    | Chunk(text: string) | EndOfLetter | Quit | Rset

  datatype Action =
    | Sent(command: Command)
    | Missed(chunk: string)               // read from the letter's file, but its send did not succeed
    | Got(text: string)
    | Moved(letter: Letter, folder: Folder)
    | Forgot(domain: string)              // the domain's record removed from the dictionary

  datatype Meta = Meta(from: string, to: string)

  datatype Connecting = Connected | InProgress | Unprepared(code: int)

  /** Everything the environment decides during one control step. */
  datatype Input = Input(
    io: IO,                 // the step's receive, or its only send
    reply: string,          // what a successful receive returns
    chunks: nat -> IO,      // the outcome of each send of a letter
    metaFound: bool,        // the letter's headers can be read
    fileOpens: bool,        // the letter can be opened
    connecting: Connecting)

  datatype Conn = Conn(
    id: int,
    domain: string,
    cur: State,
    prev: State,
    attempt: int,
    pool: seq<Letter>,
    meta: Option<Meta>,
    file: Option<nat>,      // read position in the letter being sent
    log: seq<Action>,
    crashed: bool)          // a null pointer was followed

  const MY_DOMAIN := "samsung-np530u4c"
  const TEST_PREFIX := "myserver.co"
  const CHUNK := 997

  /** The bytes a command puts on the wire. */
  function Wire(m: Command): string {
    match m
    case Ehlo => "EHLO " + MY_DOMAIN + CRLF
    case Mail(from) => "MAIL FROM:<" + from + ">\r\n"
    case Rcpt(to) => "RCPT To: <" + to + ">\r\n"
    case Data => "DATA\r\n\0"
    case Chunk(text) => text
    case EndOfLetter => "\r\n.\r\n"
    case Quit => "QUIT\r\n"
    case Rset => "RSET\r\n"
  }

  // ------------------------------------------------------------- small parts

  function Refuse(c: Conn, code: int): (Conn, int) { (c.(cur := SMTP_ERROR), code) }

  function Advance(c: Conn, next: State): (Conn, int) { (c.(prev := c.cur, cur := next), 0) }

  function Note(c: Conn, a: Action): Conn { c.(log := c.log + [a]) }

  function Crash(c: Conn): (Conn, int) { (c.(crashed := true), -1) }

  /** Whether the handler of `s` accepts `p` as its predecessor. */
  predicate Follows(s: State, p: State) {
    || (s == RECEIVE_SMTP_GREETING && p == PREPARE_SOCKET_CONNECTION)
    || (s == SEND_EHLO && p == RECEIVE_SMTP_GREETING)
    || (s == RECEIVE_EHLO_RESPONSE && p == SEND_EHLO)
    || (s == SEND_MAIL_FROM
        && (p == RECEIVE_EHLO_RESPONSE || p == RECEIVE_LETTER_RESPONSE || p == RECEIVE_RSET_RESPONSE))
    || (s == RECEIVE_MAIL_FROM_RESPONSE && p == SEND_MAIL_FROM)
    || (s == SEND_RCPT_TO && p == RECEIVE_MAIL_FROM_RESPONSE)
    || (s == RECEIVE_RCPT_TO_RESPONSE && p == SEND_RCPT_TO)
    || (s == SEND_DATA && p == RECEIVE_RCPT_TO_RESPONSE)
    || (s == RECEIVE_DATA_RESPONSE && p == SEND_DATA)
    || (s == SEND_LETTER && p == RECEIVE_DATA_RESPONSE)
    || (s == RECEIVE_LETTER_RESPONSE && p == SEND_LETTER)
    || (s == SEND_QUIT && p == RECEIVE_LETTER_RESPONSE)
    || (s == RECEIVE_QUIT_RESPONSE && p == SEND_QUIT)
    || (s == DISPOSING_SOCKET && (p == RECEIVE_QUIT_RESPONSE || p == SMTP_ERROR || p == PREPARE_SOCKET_CONNECTION))
    || (s == SEND_RSET && p == SMTP_ERROR)
    || (s == RECEIVE_RSET_RESPONSE && p == SEND_RSET)
  }

  /** The state after the command of `s` is sent: its reply is awaited. */
  function AfterSend(s: State): State
    requires Sends(s)
  {
    s + 1
  }

  // ---------------------------------------------------------------- replies

  function CharAt(s: string, i: int): char { if 0 <= i < |s| then s[i] else NUL }

  /** The greeting names the domain, or the connection goes to the test server. */
  predicate GreetingNames(reply: string, domain: string) {
    var named := domain <= CString(if |reply| < 4 then "" else reply[4..])
                 && CharAt(reply, 4 + |domain| + 1) == ' ';
    named || TEST_PREFIX <= domain
  }

  predicate EhloNamesMe(reply: string) {
    Find(CString(reply), MY_DOMAIN).Some?
  }

  predicate EhloWellFormed(reply: string)
    requires EhloNamesMe(reply)
  {
    var at := Find(CString(reply), MY_DOMAIN).value;
    && CharAt(reply, |reply| - 2) == '\r' && CharAt(reply, |reply| - 1) == '\n'
    && CharAt(reply, at + |MY_DOMAIN|) == '\r'
    && CharAt(reply, at - 1) in {' ', '-'}
  }

  predicate OkLine(reply: string) { "250 Ok\r\n" <= reply }

  predicate OkWord(reply: string) { "250 Ok" <= reply }

  /** 0 when the reply lets the dialogue go on, otherwise the handler's error code. */
  function Verdict(s: State, reply: string, domain: string): int
    requires Receives(s)
  {
    var status := StatusCode(reply);
    if s == RECEIVE_SMTP_GREETING then
      if status != 220 then -3 else if !GreetingNames(reply, domain) then -4 else 0
    else if s == RECEIVE_EHLO_RESPONSE then
      if status != 250 then -3 else if !EhloNamesMe(reply) then -4
      else if !EhloWellFormed(reply) then -5 else 0
    else if s == RECEIVE_MAIL_FROM_RESPONSE || s == RECEIVE_RCPT_TO_RESPONSE then
      if status != 250 then -3 else if !OkLine(reply) then -4 else 0
    else if s == RECEIVE_DATA_RESPONSE then
      if status != 354 then -3 else 0
    else if s == RECEIVE_LETTER_RESPONSE then
      if status != 250 then -3 else if !OkWord(reply) then -4 else 0
    else if s == RECEIVE_QUIT_RESPONSE then
      if status != 221 then -3 else 0
    else
      if status != 200 && status != 250 then -3 else 0
  }

  // ------------------------------------------------------------- the letter

  /** Where `fgets` stops when it reads `content` from `pos`. */
  function ChunkEnd(content: string, pos: nat): (e: nat)
    requires pos < |content|
    ensures pos < e <= |content|
  {
    var limit := if pos + CHUNK < |content| then pos + CHUNK else |content|;
    match IndexFrom(content[..limit], '\n', pos)
    case Some(k) => k + 1
    case None => limit
  }

  /** A chunk read from the file, and whether its send succeeded. */
  datatype Try = Try(text: string, sent: bool)

  /** What one call of the sending loop reads and sends, where it leaves the file, and how its last send went. */
  datatype Speech = Speech(tries: seq<Try>, at: nat, outcome: IO)

  /** The sending loop of `handleSendLetter` from file position `pos`; `k` counts the sends made so far. */
  function Speak(content: string, pos: nat, chunks: nat -> IO, k: nat): (r: Speech)
    requires pos <= |content|
    ensures pos <= r.at <= |content|
    ensures r.outcome == Done ==> r.at == |content|
    decreases |content| - pos
  {
    if pos == |content| then Speech([], pos, chunks(k))
    else
      var e := ChunkEnd(content, pos);
      var text := CString(content[pos..e]);
      if chunks(k) != Done then Speech([Try(text, false)], e, chunks(k))
      else
        var r := Speak(content, e, chunks, k + 1);
        r.(tries := [Try(text, true)] + r.tries)
  }

  function Tried(ts: seq<Try>): seq<Action> {
    seq(|ts|, k requires 0 <= k < |ts| => if ts[k].sent then Sent(Chunk(ts[k].text)) else Missed(ts[k].text))
  }

  // ------------------------------------------------------------------- steps

  function PrepareStep(c: Conn, i: Input): (Conn, int) {
    if c.prev != NULL_POINTER then (c, -1)
    else match i.connecting
      case Unprepared(code) => (c, if code < 0 then code else -2)
      case Connected => (c.(prev := PREPARE_SOCKET_CONNECTION, cur := RECEIVE_SMTP_GREETING), 0)
      case InProgress => (c.(prev := PREPARE_SOCKET_CONNECTION, cur := RECEIVE_SMTP_GREETING), 1)
  }

  /** EHLO, RCPT, DATA, QUIT and RSET: one send. */
  function CommandStep(c: Conn, i: Input, m: Command): (Conn, int)
    requires Sends(c.cur)
  {
    match i.io
    case WouldBlock => (c, 1)
    case Broken => Refuse(c, -2)
    case Done => Advance(Note(c, Sent(m)), AfterSend(c.cur))
  }

  function MailStep(c: Conn, i: Input): (Conn, int)
    requires c.cur == SEND_MAIL_FROM
  {
    if !Follows(SEND_MAIL_FROM, c.prev) then Refuse(c.(prev := c.cur), -1)
    else if c.pool == [] then Crash(c)
    else if !i.metaFound then Refuse(c.(prev := c.cur, meta := None), -2)
    else
      var c1 := c.(meta := Some(Meta(c.pool[0].from, c.pool[0].to)));
      match i.io
      case WouldBlock => (c1, 1)
      case Broken => Refuse(c1.(prev := c.cur), -2)
      case Done => Advance(Note(c1, Sent(Mail(c.pool[0].from))), RECEIVE_MAIL_FROM_RESPONSE)
  }

  function LetterStep(c: Conn, i: Input): (Conn, int)
    requires c.cur == SEND_LETTER
  {
    if !Follows(SEND_LETTER, c.prev) then Refuse(c, -1)
    else if c.pool == [] then Crash(c)
    else if c.file.None? && !i.fileOpens then Refuse(c, -2)
    else
      var content := c.pool[0].content;
      var pos := if c.file.Some? && c.file.value <= |content| then c.file.value else 0;
      var r := Speak(content, pos, i.chunks, 0);
      var c1 := c.(log := c.log + Tried(r.tries));
      match r.outcome
      case WouldBlock => (c1.(file := Some(r.at)), 1)
      case Broken => Refuse(c1.(file := Some(r.at)), -2)
      case Done => Advance(Note(c1.(file := None), Sent(EndOfLetter)), RECEIVE_LETTER_RESPONSE)
  }

  /** An accepted reply. */
  function AcceptStep(c: Conn): (Conn, int)
    requires Receives(c.cur)
  {
    if c.cur == RECEIVE_SMTP_GREETING then Advance(c, SEND_EHLO)
    else if c.cur == RECEIVE_EHLO_RESPONSE then Advance(c.(attempt := 0), SEND_MAIL_FROM)
    else if c.cur == RECEIVE_MAIL_FROM_RESPONSE then Advance(c, SEND_RCPT_TO)
    else if c.cur == RECEIVE_RCPT_TO_RESPONSE then Advance(c, SEND_DATA)
    else if c.cur == RECEIVE_DATA_RESPONSE then Advance(c, SEND_LETTER)
    else if c.cur == RECEIVE_LETTER_RESPONSE then
      if c.pool == [] then Crash(c)
      else
        var c1 := Note(c, Moved(c.pool[0], Current)).(pool := c.pool[1..]);
        if |c.pool| > 1 then Advance(c1.(attempt := 0), SEND_MAIL_FROM)
        else Advance(Note(c1, Forgot(c.domain)), SEND_QUIT)
    else if c.cur == RECEIVE_QUIT_RESPONSE then Advance(c, DISPOSING_SOCKET)
    else Advance(c, if c.pool != [] then SEND_MAIL_FROM else SEND_QUIT)
  }

  /** The connection is told to go away. */
  predicate HangsUp(s: State, reply: string) {
    (s == RECEIVE_SMTP_GREETING || s == RECEIVE_EHLO_RESPONSE) && StatusCode(reply) == 421
  }

  /** A reply and what the handler makes of it. */
  function ReplyStep(c: Conn, reply: string, hangsUp: bool, verdict: int): (Conn, int)
    requires Receives(c.cur)
  {
    var c1 := Note(c, Got(reply));
    if hangsUp then (c1.(cur := DISPOSING_SOCKET), 0)
    else if verdict < 0 then Refuse(c1, verdict)
    else AcceptStep(c1)
  }

  function ReceiveStep(c: Conn, i: Input): (Conn, int)
    requires Receives(c.cur)
  {
    if !Follows(c.cur, c.prev) then Refuse(c, -1)
    else match i.io
      case WouldBlock => (c, 1)
      case Broken => Refuse(c, -2)
      case Done => ReplyStep(c, i.reply, HangsUp(c.cur, i.reply), Verdict(c.cur, i.reply, c.domain))
  }

  function ReturnAll(pool: seq<Letter>): seq<Action> {
    seq(|pool|, k requires 0 <= k < |pool| => Moved(pool[k], New))
  }

  /** States whose failure closes the connection. */
  predicate Unsolvable(prev: State) {
    prev == PREPARE_SOCKET_CONNECTION || prev == RECEIVE_SMTP_GREETING
    || prev == SEND_EHLO || prev == RECEIVE_EHLO_RESPONSE
    || prev == SEND_QUIT || prev == RECEIVE_QUIT_RESPONSE || prev == SEND_RSET || prev == RECEIVE_RSET_RESPONSE
  }

  /** States whose failure is answered by RSET and another attempt. */
  predicate Solvable(prev: State) {
    prev == SEND_MAIL_FROM || prev == RECEIVE_MAIL_FROM_RESPONSE || prev == SEND_DATA || prev == RECEIVE_DATA_RESPONSE
    || prev == SEND_LETTER || prev == RECEIVE_LETTER_RESPONSE
  }

  function RecoverStep(c: Conn): (Conn, int) {
    if Unsolvable(c.prev) then
      var log := c.log + [Forgot(c.domain)] + ReturnAll(c.pool);
      (c.(log := log, pool := [], file := None, prev := SMTP_ERROR, cur := DISPOSING_SOCKET), 0)
    else if !Solvable(c.prev) then (c, 0)
    else if c.attempt == 0 then
      (c.(attempt := 1, meta := None, file := None, prev := SMTP_ERROR, cur := SEND_RSET), 0)
    else if c.pool == [] then Crash(c)
    else
      (Note(c, Moved(c.pool[0], New)).(pool := c.pool[1..], file := None, prev := SMTP_ERROR, cur := SEND_RSET), 0)
  }

  function DisposeStep(c: Conn): (Conn, int)
    requires c.cur == DISPOSING_SOCKET
  {
    if !Follows(DISPOSING_SOCKET, c.prev) then Refuse(c, -1)
    else (c.(meta := None, prev := DISPOSING_SOCKET, cur := NULL_POINTER), 0)
  }

  /** The command a sending state other than SEND_LETTER sends. */
  function CommandOf(c: Conn): Command {
    if c.cur == SEND_EHLO then Ehlo
    else if c.cur == SEND_RCPT_TO then Rcpt(if c.meta.Some? then c.meta.value.to else "(null)")
    else if c.cur == SEND_DATA then Data
    else if c.cur == SEND_QUIT then Quit
    else Rset
  }

  function SendStep(c: Conn, i: Input): (Conn, int)
    requires Sends(c.cur)
  {
    if c.cur == SEND_MAIL_FROM then MailStep(c, i)
    else if c.cur == SEND_LETTER then LetterStep(c, i)
    else if !Follows(c.cur, c.prev) then Refuse(c, -1)
    else CommandStep(c, i, CommandOf(c))
  }

  /** `SMTP_Control`: the new connection and the returned status (0 done, 1 would block, negative error). */
  function Step(c: Conn, i: Input): (Conn, int) {
    if c.crashed then (c, -1)
    else if c.cur == PREPARE_SOCKET_CONNECTION then PrepareStep(c, i)
    else if c.cur == SMTP_ERROR then RecoverStep(c)
    else if c.cur == DISPOSING_SOCKET then DisposeStep(c)
    else if Sends(c.cur) then SendStep(c, i)
    else if Receives(c.cur) then ReceiveStep(c, i)
    else (c, -1)
  }

  /** A whole run, one input per control step. */
  function Run(c: Conn, inputs: seq<Input>): Conn
  {
    if inputs == [] then c else Step(Run(c, inputs[..|inputs| - 1]), inputs[|inputs| - 1]).0
  }

  /** A connection whose socket is open and whose greeting is awaited; `attempt` is whatever memory held. */
  predicate Fresh(c: Conn) {
    && c.cur == RECEIVE_SMTP_GREETING && c.prev == PREPARE_SOCKET_CONNECTION
    && c.meta == None && c.file == None && c.log == [] && !c.crashed
    && c.pool != []
  }
}
