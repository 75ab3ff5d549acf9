/**
 The server side of a session as a function of the lines it receives: the command state machine, the
 envelope it builds, the growing body and the copies it delivers. Send outcomes and the reverse name
 lookup are inputs. Every handled line is kept in a log together with the replies given to it.
 */
module ServerSession {
  import opened Text
  import opened Outcomes
  import opened ServerBuffer

  /** Session states, numbered as in `socket.h`. */
  type Phase = int

  const SEND_GREETING: Phase := 6
  const INIT: Phase := 7
  const WAIT: Phase := 8
  const MAIL_CREATED: Phase := 9
  const RECIPIENTS_SET: Phase := 10
  const WRITING_DATA: Phase := 11
  const DELIVERING: Phase := 12
  const CLOSED: Phase := 13

  const MAX_RECIPIENTS := 10

  datatype Verb = HELO | EHLO | MAIL | RCPT | DATA | RSET | NOOP | QUIT | OTHER

  datatype Reply =
    | Greeting220 | Bye221 | Ok250 | Named250(host: string) | Host250(host: string) | Host252(host: string)
    | Noop250 | Reset250 | Start354 | Mailbox450 | Exceeded451 | NotAllowed451 | AllowedNow(phase: Phase)
    | Unknown502

  datatype Answer = Answer(reply: Reply, io: IO)

  datatype Event = Event(line: string, answers: seq<Answer>)

  /** One delivered copy. */
  datatype Copy = Copy(from: string, to: string, body: string)

  /** What the environment decides while one line is handled. */
  datatype LineInput = LineInput(io: IO, io2: IO, hostMatches: bool)

  datatype Session = Session(
    phase: Phase,
    textMode: bool,
    from: Option<string>,
    to: seq<string>,
    body: string,
    capacity: nat,
    saved: seq<Copy>,
    log: seq<Event>,
    faulted: bool)          // a null pointer was followed

  /** A session whose connection was just accepted. */
  const NEW_SESSION := Session(SEND_GREETING, false, None, [], "", 0, [], [], false)

  function ReplyText(r: Reply): string {
    match r
    case Greeting220 => "220  myserver.com SMTP CCSMTP\n"
    case Bye221 => "221 Ok\r\n"
    case Ok250 => "250 Ok\r\n"
    case Named250(host) => "250- " + host + CRLF
    case Host250(host) => "250 Ok\r\n " + host + CRLF
    case Host252(host) => "252 Ok\r\n " + host + CRLF
    case Noop250 => "250 Ok noop\r\n"
    case Reset250 => "250 Ok reset\r\n"
    case Start354 => "354 " + "Start mail input; end with <CRLF>.<CRLF>\r\n"
    case Mailbox450 => "450 " + "Requested mail action not taken: mailbox unavailable\r\n"
    case Exceeded451 => "451 Unable to complete command: number of recipients exceeded\r\n"
    case NotAllowed451 => "451 Unable to complete command: command not allowed\r\n"
    case AllowedNow(p) =>
      if p == INIT then "Allowed commands are: HELO, EHLO, NOOP, QUIT\n"
      else if p == WAIT then "Allowed commands are: RSET, MAIL, NOOP, QUIT\n"
      else if p == MAIL_CREATED then "Allowed commands are: RSET, RCPT, NOOP, QUIT\n"
      else if p == RECIPIENTS_SET then "Allowed commands are: RSET, RCPT, NOOP, DATA, QUIT\n"
      else if p == WRITING_DATA then "Allowed commands are: .\n"
      else ""
    case Unknown502 => "502 Command Not Implemented\r\n"
  }

  // ------------------------------------------------------------ reading a line

  /** The command word: the line cut off at its fifth character. */
  function Word(line: string): string {
    if |line| > 4 then line[..4] else line
  }

  function VerbNamed(word: string): Verb {
    if word == "HELO" then HELO
    else if word == "EHLO" then EHLO
    else if word == "MAIL" then MAIL
    else if word == "RCPT" then RCPT
    else if word == "DATA" then DATA
    else if word == "RSET" then RSET
    else if word == "NOOP" then NOOP
    else if word == "QUIT" then QUIT
    else OTHER
  }

  function VerbOf(line: string): Verb { VerbNamed(Word(line)) }

  /** The text between the first '<' and the first '>' after it. */
  function MailAddress(line: string): Option<string> {
    match IndexFrom(line, '<', 0)
    case None => None
    case Some(open) =>
      match IndexFrom(line, '>', open + 1)
      case None => None
      case Some(close) => Some(line[open + 1..close])
  }

  predicate Usable(address: Option<string>) {
    address.Some? && address.value != ""
  }

  /** The text after the first space; for a line without one, the text C prints for a null pointer. */
  function HostOf(line: string): string {
    match IndexFrom(line, ' ', 0)
    case None => "(null)"
    case Some(k) => line[k + 1..]
  }

  // ---------------------------------------------------------------- handlers

  function Note(s: Session, line: string, answers: seq<Answer>): Session {
    s.(log := s.log + [Event(line, answers)])
  }

  function Say(s: Session, line: string, r: Reply, e: LineInput): Session {
    Note(s, line, [Answer(r, e.io)])
  }

  function NotAllowed(s: Session, line: string, e: LineInput): Session {
    Note(s, line, [Answer(NotAllowed451, e.io), Answer(AllowedNow(s.phase), e.io2)])
  }

  function HandleHello(s: Session, line: string, r: Reply, e: LineInput): Session {
    if s.phase != INIT then NotAllowed(s, line, e)
    else Say(s, line, r, e).(phase := if e.io == WouldBlock then INIT else WAIT)
  }

  /** A first HELO without a space compares a null host with the peer's name. */
  predicate Faults(s: Session, line: string) {
    VerbOf(line) == HELO && s.phase == INIT && IndexFrom(line, ' ', 0).None?
  }

  function HandleHelo(s: Session, line: string, e: LineInput): Session {
    if s.phase == INIT && IndexFrom(line, ' ', 0).None? then s.(faulted := true)
    else HandleHello(s, line, if e.hostMatches then Host250(HostOf(line)) else Host252(HostOf(line)), e)
  }

  function HandleMail(s: Session, line: string, e: LineInput): Session {
    if s.phase != WAIT then NotAllowed(s, line, e)
    else
      var from := MailAddress(line);
      if Usable(from) then Say(s, line, Ok250, e).(from := from, phase := MAIL_CREATED)
      else Say(s, line, Mailbox450, e).(from := from)
  }

  function HandleRcpt(s: Session, line: string, e: LineInput): Session {
    if s.phase != MAIL_CREATED && s.phase != RECIPIENTS_SET then NotAllowed(s, line, e)
    else if |s.to| >= MAX_RECIPIENTS then Say(s, line, Exceeded451, e)
    else
      var to := MailAddress(line);
      if Usable(to) then Say(s, line, Ok250, e).(to := s.to + [to.value], phase := RECIPIENTS_SET)
      else Say(s, line, Mailbox450, e)
  }

  predicate Resettable(p: Phase) {
    p == WAIT || p == MAIL_CREATED || p == RECIPIENTS_SET || p == DELIVERING
  }

  function HandleRset(s: Session, line: string, e: LineInput): Session {
    if !Resettable(s.phase) then NotAllowed(s, line, e)
    else Say(s, line, Reset250, e).(from := None, to := [], phase := WAIT)
  }

  function HandleData(s: Session, line: string, e: LineInput): Session {
    if s.phase != RECIPIENTS_SET then NotAllowed(s, line, e)
    else
      var s1 := Say(s, line, Start354, e);
      if e.io != Done then s1
      else s1.(body := "", capacity := 0, textMode := true, phase := WRITING_DATA)
  }

  function HandleQuit(s: Session, line: string, e: LineInput): Session {
    Say(s, line, Bye221, e).(phase := if e.io == WouldBlock then s.phase else CLOSED)
  }

  function HandleCommand(s: Session, line: string, e: LineInput): Session {
    match VerbOf(line)
    case HELO => HandleHelo(s, line, e)
    case EHLO => HandleHello(s, line, Named250(HostOf(line)), e)
    case MAIL => HandleMail(s, line, e)
    case RCPT => HandleRcpt(s, line, e)
    case DATA => HandleData(s, line, e)
    case RSET => HandleRset(s, line, e)
    case NOOP => Say(s, line, Noop250, e)
    case QUIT => HandleQuit(s, line, e)
    case OTHER => Say(s, line, Unknown502, e)
  }

  /** The copies `save_message` writes: none for an incomplete envelope or an empty body, else one per recipient. */
  function Copies(from: Option<string>, to: seq<string>, body: string): seq<Copy> {
    if !Usable(from) || to == [] || to[0] == "" || body == "" then []
    else seq(|to|, k requires 0 <= k < |to| => Copy(from.value, to[k], body))
  }

  /** The capacity of the body buffer after room is made for a line. */
  function Grown(bodyLength: nat, lineLength: nat, capacity: nat): nat {
    if bodyLength + lineLength >= capacity then bodyLength + 2 * BUFFER_SIZE else capacity
  }

  function HandleText(s: Session, line: string, e: LineInput): Session {
    if line == "." then
      var saved := s.saved + Copies(s.from, s.to, s.body);
      HandleRset(s.(phase := DELIVERING, saved := saved, body := "", textMode := false), line, e)
    else
      Note(s, line, []).(body := s.body + line + "\n", capacity := Grown(|s.body|, |line|, s.capacity))
  }

  /** QUIT ends the handling of what is buffered, and so does following a null pointer. */
  predicate Quits(s: Session, line: string) {
    !s.textMode && (VerbOf(line) == QUIT || Faults(s, line))
  }

  /** One line. */
  function Line(s: Session, line: string, e: LineInput): Session {
    if s.textMode then HandleText(s, line, e) else HandleCommand(s, line, e)
  }

  /** The session as the handler of buffered lines; `env(n)` is what the environment decides on the n-th line. */
  function Server(env: nat -> LineInput): Machine<Session> {
    Machine((s: Session, line: string, n: nat) => Line(s, line, env(n)),
            (s: Session, line: string) => Quits(s, line),
            (s: Session) => s.textMode)
  }

  /** Sending the greeting. */
  function Greet(s: Session, io: IO): Session
    requires s.phase == SEND_GREETING
  {
    match io
    case Done => s.(phase := INIT)
    case WouldBlock => s
    case Broken => s.(phase := CLOSED)
  }

  // ------------------------------------------------------------- the envelope

  /** The sender accepted since the last reset, read off the dialogue alone. */
  function Sender(log: seq<Event>): Option<string> {
    if log == [] then None
    else
      var (before, e) := (log[..|log| - 1], log[|log| - 1]);
      if Replied(e, Reset250) then None
      else if Replied(e, Ok250) && VerbOf(e.line) == MAIL then MailAddress(e.line)
      else Sender(before)
  }

  /** The recipients accepted since the last reset, in order, read off the dialogue alone. */
  function Recipients(log: seq<Event>): seq<string> {
    if log == [] then []
    else
      var (before, e) := (log[..|log| - 1], log[|log| - 1]);
      if Replied(e, Reset250) then []
      else if Replied(e, Ok250) && VerbOf(e.line) == RCPT && MailAddress(e.line).Some? then
        Recipients(before) + [MailAddress(e.line).value]
      else Recipients(before)
  }

  /** The lines since the last 354 reply, each followed by LF. */
  function Body(log: seq<Event>): string {
    if log == [] then ""
    else
      var (before, e) := (log[..|log| - 1], log[|log| - 1]);
      if Replied(e, Start354) then ""
      else if e.answers == [] then Body(before) + e.line + "\n"
      else Body(before)
  }

  /** The copies a dialogue calls for: at each acknowledged final dot, one per recipient accepted since the last reset,
      in acceptance order, all from the sender accepted since then, unless no text line was received. */
  function Deliveries(log: seq<Event>): seq<Copy> {
    if log == [] then []
    else
      var (before, e) := (log[..|log| - 1], log[|log| - 1]);
      if Replied(e, Reset250) && e.line == "." && Sender(before).Some? && Body(before) != "" then
        var to := Recipients(before);
        Deliveries(before) + seq(|to|, k requires 0 <= k < |to| => Copy(Sender(before).value, to[k], Body(before)))
      else Deliveries(before)
  }

  predicate Replied(e: Event, r: Reply) {
    e.answers != [] && e.answers[0].reply == r
  }

  predicate AllUsable(to: seq<string>) {
    1 <= |to| <= MAX_RECIPIENTS && forall k | 0 <= k < |to| :: to[k] != ""
  }

  /** The invariant of a session at rest, and what ties it to its dialogue. */
  predicate Sound(s: Session) {
    && SEND_GREETING <= s.phase <= CLOSED && s.phase != DELIVERING
    && (s.phase == WRITING_DATA ==> s.textMode)
    && (s.textMode ==> s.phase == WRITING_DATA || s.phase == CLOSED)
    && (s.phase <= WAIT ==> s.to == [])
    && (MAIL_CREATED <= s.phase <= WRITING_DATA || s.textMode ==> Usable(s.from) && s.from == Sender(s.log))
    && (s.phase == MAIL_CREATED ==> s.to == [])
    && (s.phase == RECIPIENTS_SET || s.phase == WRITING_DATA || s.textMode ==> AllUsable(s.to))
    && s.to == Recipients(s.log)
    && (s.textMode ==> s.body == Body(s.log))
    && s.saved == Deliveries(s.log)
  }

  lemma LogOne(log: seq<Event>, e: Event)
    ensures (log + [e])[..|log|] == log
  {
  }

  /** A line whose first reply accepts nothing leaves the dialogue's reading of the envelope alone. */
  lemma Unremarkable(log: seq<Event>, e: Event)
    requires e.answers != []
    requires !Replied(e, Reset250) && !Replied(e, Ok250) && !Replied(e, Start354)
    ensures var log' := log + [e];
            && Sender(log') == Sender(log) && Recipients(log') == Recipients(log)
            && Body(log') == Body(log) && Deliveries(log') == Deliveries(log)
  {
    LogOne(log, e);
  }

  lemma HelloKeeps(s: Session, line: string, r: Reply, e: LineInput)
    requires Sound(s) && !s.textMode && r != Reset250 && r != Ok250 && r != Start354
    ensures Sound(HandleHello(s, line, r, e))
  {
    var s' := HandleHello(s, line, r, e);
    Unremarkable(s.log, s'.log[|s.log|]);
  }

  lemma SenderAccepted(log: seq<Event>, e: Event)
    requires Replied(e, Ok250) && VerbOf(e.line) == MAIL
    ensures var log' := log + [e];
            && Sender(log') == MailAddress(e.line) && Recipients(log') == Recipients(log)
            && Deliveries(log') == Deliveries(log)
  {
    LogOne(log, e);
  }

  lemma MailKeeps(s: Session, line: string, e: LineInput)
    requires Sound(s) && !s.textMode && VerbOf(line) == MAIL
    ensures Sound(HandleMail(s, line, e))
  {
    if s.phase != WAIT {
      Unremarkable(s.log, Event(line, [Answer(NotAllowed451, e.io), Answer(AllowedNow(s.phase), e.io2)]));
    } else if Usable(MailAddress(line)) {
      SenderAccepted(s.log, Event(line, [Answer(Ok250, e.io)]));
    } else {
      Unremarkable(s.log, Event(line, [Answer(Mailbox450, e.io)]));
    }
  }

  lemma RecipientAccepted(log: seq<Event>, e: Event)
    requires Replied(e, Ok250) && VerbOf(e.line) == RCPT && MailAddress(e.line).Some?
    ensures var log' := log + [e];
            && Sender(log') == Sender(log) && Recipients(log') == Recipients(log) + [MailAddress(e.line).value]
            && Deliveries(log') == Deliveries(log)
  {
    LogOne(log, e);
  }

  lemma RcptKeeps(s: Session, line: string, e: LineInput)
    requires Sound(s) && !s.textMode && VerbOf(line) == RCPT
    ensures Sound(HandleRcpt(s, line, e))
  {
    if s.phase != MAIL_CREATED && s.phase != RECIPIENTS_SET {
      Unremarkable(s.log, Event(line, [Answer(NotAllowed451, e.io), Answer(AllowedNow(s.phase), e.io2)]));
    } else if |s.to| >= MAX_RECIPIENTS {
      Unremarkable(s.log, Event(line, [Answer(Exceeded451, e.io)]));
    } else if Usable(MailAddress(line)) {
      RecipientAccepted(s.log, Event(line, [Answer(Ok250, e.io)]));
    } else {
      Unremarkable(s.log, Event(line, [Answer(Mailbox450, e.io)]));
    }
  }

  lemma RsetKeeps(s: Session, line: string, e: LineInput)
    requires Sound(s) && !s.textMode && line != "."
    ensures Sound(HandleRset(s, line, e))
  {
    var s' := HandleRset(s, line, e);
    var x := s'.log[|s.log|];
    if Replied(x, Reset250) {
      LogOne(s.log, x);
    } else {
      Unremarkable(s.log, x);
    }
  }

  lemma DataKeeps(s: Session, line: string, e: LineInput)
    requires Sound(s) && !s.textMode
    ensures Sound(HandleData(s, line, e))
  {
    var s' := HandleData(s, line, e);
    var x := s'.log[|s.log|];
    if Replied(x, Start354) {
      LogOne(s.log, x);
    } else {
      Unremarkable(s.log, x);
    }
  }

  lemma OtherKeeps(s: Session, line: string, r: Reply, e: LineInput)
    requires Sound(s) && !s.textMode && r != Reset250 && r != Ok250 && r != Start354
    ensures Sound(Say(s, line, r, e)) && Sound(Say(s, line, r, e).(phase := CLOSED))
  {
    Unremarkable(s.log, Event(line, [Answer(r, e.io)]));
  }

  lemma CommandKeeps(s: Session, line: string, e: LineInput)
    requires Sound(s) && !s.textMode
    ensures Sound(HandleCommand(s, line, e))
  {
    match VerbOf(line)
    case HELO =>
      if !Faults(s, line) {
        HelloKeeps(s, line, if e.hostMatches then Host250(HostOf(line)) else Host252(HostOf(line)), e);
      }
    case EHLO => HelloKeeps(s, line, Named250(HostOf(line)), e);
    case MAIL => MailKeeps(s, line, e);
    case RCPT => RcptKeeps(s, line, e);
    case DATA => DataKeeps(s, line, e);
    case RSET => RsetKeeps(s, line, e);
    case NOOP => OtherKeeps(s, line, Noop250, e);
    case QUIT => OtherKeeps(s, line, Bye221, e);
    case OTHER => OtherKeeps(s, line, Unknown502, e);
  }

  lemma TextKeeps(s: Session, line: string, e: LineInput)
    requires Sound(s) && s.textMode
    ensures Sound(HandleText(s, line, e))
  {
    var s' := HandleText(s, line, e);
    LogOne(s.log, s'.log[|s.log|]);
  }

  /** The reset inside a delivery is never refused. */
  lemma DeliveryResets(s: Session, e: LineInput)
    requires Sound(s) && s.textMode
    ensures var s' := HandleText(s, ".", e);
            && s'.log == s.log + [Event(".", [Answer(Reset250, e.io)])]
            && s'.phase == WAIT && !s'.textMode && s'.to == [] && s'.from == None
  {
  }

  /** Whatever lines arrive and however sends go, the session keeps its invariant, and what it has saved is what its
      dialogue calls for. */
  lemma {:induction false} FoldKeeps(s: Session, lines: seq<string>, env: nat -> LineInput, n: nat)
    requires Sound(s)
    ensures Sound(Fold(Server(env), s, lines, n).state)
    decreases |lines|
  {
    if lines != [] {
      if s.textMode {
        TextKeeps(s, lines[0], env(n));
      } else {
        CommandKeeps(s, lines[0], env(n));
      }
      FoldKeeps(Line(s, lines[0], env(n)), lines[1..], env, n + 1);
    }
  }

  /** A session that is greeted and then given lines, up to the first QUIT. */
  lemma SessionHistory(io: IO, lines: seq<string>, env: nat -> LineInput)
    ensures var s := Fold(Server(env), Greet(NEW_SESSION, io), lines, 0).state;
            Sound(s) && s.saved == Deliveries(s.log)
  {
    FoldKeeps(Greet(NEW_SESSION, io), lines, env, 0);
  }
}
