/**
 One accepted connection of the server as the object its handlers update, with its receive buffer drained in
 place.
 */
module ServerSocket {
  import opened Text
  import opened Outcomes
  import opened ServerBuffer
  import opened ServerSession
  import opened DrainExact

  /** The outcome of one `recv`. */
  datatype Reading = HungUp | Blocked | Failed | Bytes(chunk: string)

  datatype Socket = Socket(session: Session, buffer: string, flag: bool)

  /** One call of the connection handler when the greeting is due. */
  function GreetingStep(k: Socket, io: IO): Socket
    requires k.session.phase == SEND_GREETING
  {
    k.(session := Greet(k.session, io), flag := if io == Done then false else k.flag)
  }

  /** One call of the connection handler that reads. */
  function ReadStep(k: Socket, r: Reading): Socket
    requires r.Bytes? ==> 0 < |r.chunk| < |k.buffer|
  {
    match r
    case HungUp => k.(session := k.session.(phase := CLOSED))
    case Blocked => k
    case Failed => k.(session := k.session.(phase := CLOSED))
    case Bytes(chunk) =>
      var buffer := Received(k.buffer, chunk);
      k.(buffer := buffer, flag := k.flag || FirstEol(CString(buffer)).Some?)
  }

  predicate Possible(r: Reading) { r.Bytes? ==> 0 < |r.chunk| < BUFFER_SIZE }

  /** One call of the connection handler: the greeting, a read, or the handling of what was read; `n` numbers the
      lines. */
  function CallStep(k: Socket, io: IO, r: Reading, env: nat -> LineInput, n: nat): (k': Socket)
    requires Terminated(k.buffer) && Possible(r)
    ensures Terminated(k'.buffer)
  {
    if k.session.faulted then k
    else if k.session.phase == SEND_GREETING then GreetingStep(k, io)
    else if !k.flag then ReadStep(k, r)
    else
      var d := Drain(Server(env), k.session, k.buffer, n);
      Socket(d.state, d.buffer, d.quit)
  }

  /** The server's loop sets the flag before each call: to false for a socket to read from, to true for one to write
      to. */
  datatype Call = Call(flag: bool, io: IO, reading: Reading, env: nat -> LineInput, n: nat)

  /** A connection from its acceptance on, after any calls of its handler; an impossible reading is no call. */
  function RunCalls(calls: seq<Call>): (k: Socket)
    ensures Terminated(k.buffer)
  {
    if calls == [] then Socket(NEW_SESSION, Zeros(BUFFER_SIZE), true)
    else
      var (k, c) := (RunCalls(calls[..|calls| - 1]), calls[|calls| - 1]);
      if Possible(c.reading) then CallStep(k.(flag := c.flag), c.io, c.reading, c.env, c.n) else k
  }

  lemma DrainKeeps(s: Session, buf: string, env: nat -> LineInput, n: nat)
    requires Sound(s) && Terminated(buf)
    ensures Sound(Drain(Server(env), s, buf, n).state)
  {
    DrainFoldsHandled(Server(env), s, buf, n);
    FoldKeeps(s, Handled(Server(env), s, buf, n), env, n);
  }

  lemma CallKeeps(k: Socket, io: IO, r: Reading, env: nat -> LineInput, n: nat)
    requires Sound(k.session) && Terminated(k.buffer) && Possible(r)
    ensures Sound(CallStep(k, io, r, env, n).session)
  {
    if !k.session.faulted && k.session.phase != SEND_GREETING && k.flag {
      DrainKeeps(k.session, k.buffer, env, n);
    }
  }

  /** After any calls of its handler, with any readings, hang-ups, failures and blocked sends, a connection's session
      keeps its envelope invariant, and what it has saved is what its dialogue calls for. */
  lemma {:induction false} CallsHistory(calls: seq<Call>)
    ensures var s := RunCalls(calls).session; Sound(s) && s.saved == Deliveries(s.log)
  {
    if calls != [] {
      var (init, c) := (calls[..|calls| - 1], calls[|calls| - 1]);
      CallsHistory(init);
      if Possible(c.reading) {
        CallKeeps(RunCalls(init).(flag := c.flag), c.io, c.reading, c.env, c.n);
      }
    }
  }

  /** What the command comparison sees after the two NUL writes is the line's command word. */
  lemma WordInBuffer(buf: string, i: nat)
    requires Terminated(buf) && FirstEol(CString(buf)) == Some(i)
    ensures CString(buf[i := NUL]) == buf[..i]
    ensures CString(Poked(buf, i, false)) == Word(buf[..i])
  {
    CStringIs(buf[i := NUL], i);
    CStringIs(Poked(buf, i, false), if i > 4 then 4 else i);
  }

  class ClientSocket {
    const buffer: array<char>
    var state: Phase
    var flag: bool
    var input_message: bool
    var from: Option<string>
    var to: seq<string>
    var body: string
    var body_length: nat
    var faulted: bool
    ghost var saved: seq<Copy>
    ghost var log: seq<Event>

    ghost function View(): Session
      reads this
    {
      Session(state, input_message, from, to, body, body_length, saved, log, faulted)
    }

    ghost predicate Valid()
      reads this, buffer
    {
      buffer.Length == BUFFER_SIZE && buffer[BUFFER_SIZE - 1] == NUL
    }

    ghost function Whole(): Socket
      reads this, buffer
    {
      Socket(View(), buffer[..], flag)
    }

    constructor ()
      ensures Valid() && fresh(buffer)
      ensures Whole() == Socket(NEW_SESSION, Zeros(BUFFER_SIZE), true) && Sound(View())
    {
      var b := new char[BUFFER_SIZE](_ => NUL);
      buffer := b;
      state, flag, input_message := SEND_GREETING, true, false;
      from, to, body, body_length, saved, log, faulted := None, [], "", 0, [], [], false;
    }

    ghost method Reply(line: string, r: Reply, io: IO)
      modifies `log
      ensures log == old(log) + [Event(line, [Answer(r, io)])]
    {
      log := log + [Event(line, [Answer(r, io)])];
    }

    /** The handlers return -1 for a command that is not allowed now, and leave the session alone. */
    ghost predicate Refused(before: Session, err: int, allowed: bool)
      reads this
    {
      -1 <= err <= 1 && (err == -1 <==> !allowed) && (err == -1 ==> View() == before)
    }

    method HandleHelo(line: string, e: LineInput) returns (err: int)
      modifies this
      ensures Refused(old(View()), err, old(state) == INIT)
      ensures flag == old(flag)
      ensures err != -1 ==> View() == ServerSession.HandleHelo(old(View()), line, e)
    {
      if state != INIT {
        return -1;
      }
      if IndexFrom(line, ' ', 0).None? {
        faulted := true;
        return 1;
      }
      var host := HostOf(line);
      if e.hostMatches {
        Reply(line, Host250(host), e.io);
      } else {
        Reply(line, Host252(host), e.io);
      }
      if e.io == WouldBlock {
        return 1;
      }
      state := WAIT;
      return 0;
    }

    method HandleEhlo(line: string, e: LineInput) returns (err: int)
      modifies this
      ensures Refused(old(View()), err, old(state) == INIT)
      ensures flag == old(flag)
      ensures err != -1 ==> View() == HandleHello(old(View()), line, Named250(HostOf(line)), e)
    {
      if state != INIT {
        return -1;
      }
      var host := HostOf(line);
      Reply(line, Named250(host), e.io);
      if e.io == WouldBlock {
        return 1;
      }
      state := WAIT;
      return 0;
    }

    method HandleMail(line: string, e: LineInput) returns (err: int)
      modifies this
      ensures Refused(old(View()), err, old(state) == WAIT)
      ensures flag == old(flag)
      ensures err != -1 ==> View() == ServerSession.HandleMail(old(View()), line, e)
    {
      if state != WAIT {
        return -1;
      }
      from := MailAddress(line);
      if from != None && from.value != "" {
        Reply(line, Ok250, e.io);
        state := MAIL_CREATED;
      } else {
        Reply(line, Mailbox450, e.io);
      }
      return if e.io == WouldBlock then 1 else 0;
    }

    method HandleRcpt(line: string, e: LineInput) returns (err: int)
      modifies this
      ensures Refused(old(View()), err, old(state) == MAIL_CREATED || old(state) == RECIPIENTS_SET)
      ensures flag == old(flag)
      ensures err != -1 ==> View() == ServerSession.HandleRcpt(old(View()), line, e)
    {
      if state != MAIL_CREATED && state != RECIPIENTS_SET {
        return -1;
      }
      if |to| >= MAX_RECIPIENTS {
        Reply(line, Exceeded451, e.io);
      } else {
        var address := MailAddress(line);
        if address != None && address.value != "" {
          to := to + [address.value];
          Reply(line, Ok250, e.io);
          state := RECIPIENTS_SET;
        } else {
          Reply(line, Mailbox450, e.io);
        }
      }
      return if e.io == WouldBlock then 1 else 0;
    }

    method HandleRset(line: string, e: LineInput) returns (err: int)
      modifies this
      ensures Refused(old(View()), err, Resettable(old(state)))
      ensures flag == old(flag)
      ensures err != -1 ==> View() == ServerSession.HandleRset(old(View()), line, e)
    {
      if state != WAIT && state != MAIL_CREATED && state != RECIPIENTS_SET && state != DELIVERING {
        return -1;
      }
      from := None;
      to := [];
      state := WAIT;
      Reply(line, Reset250, e.io);
      return if e.io == WouldBlock then 1 else 0;
    }

    method HandleData(line: string, e: LineInput) returns (err: int)
      modifies this
      ensures Refused(old(View()), err, old(state) == RECIPIENTS_SET)
      ensures flag == old(flag)
      ensures err != -1 ==> View() == ServerSession.HandleData(old(View()), line, e)
    {
      if state != RECIPIENTS_SET {
        return -1;
      }
      Reply(line, Start354, e.io);
      if e.io == WouldBlock {
        return 1;
      }
      if e.io == Done {
        body := "";
        body_length := 0;
        input_message := true;
        state := WRITING_DATA;
      }
      return 0;
    }

    method HandleQuit(line: string, e: LineInput)
      modifies this
      ensures flag == old(flag)
      ensures View() == ServerSession.HandleQuit(old(View()), line, e)
    {
      Reply(line, Bye221, e.io);
      if e.io == WouldBlock {
        return;
      }
      state := CLOSED;
    }

    method HandleText(line: string, e: LineInput)
      modifies this
      ensures flag == old(flag)
      ensures View() == ServerSession.HandleText(old(View()), line, e)
    {
      if line == "." {
        state := DELIVERING;
        SaveMessage();
        body := "";
        input_message := false;
        var err := HandleRset(line, e);
      } else {
        if |body| + |line| >= body_length {
          body_length := |body| + 2 * BUFFER_SIZE;
        }
        body := body + line;
        body := body + "\n";
        log := log + [Event(line, [])];
      }
    }

    /** One copy per recipient, unless the envelope is incomplete or the body empty. */
    method SaveMessage()
      modifies `saved
      ensures saved == old(saved) + Copies(from, to, body)
    {
      if from == None || from.value == "" {
        return;
      }
      if to == [] || to[0] == "" {
        return;
      }
      if body == "" {
        return;
      }
      for i := 0 to |to|
        invariant saved == old(saved) + Copies(from, to, body)[..i]
      {
        saved := saved + [Copy(from.value, to[i], body)];
      }
    }

    /** Cuts the line ending at `i` out of the buffer and hands it to its handler. */
    method HandleBuffered(i: nat, e: LineInput) returns (quit: bool)
      requires Valid() && FirstEol(CString(buffer[..])) == Some(i)
      modifies this, buffer
      ensures Valid() && flag == old(flag)
      ensures View() == Line(old(View()), old(buffer[..i]), e)
      ensures buffer[..] == Poked(old(buffer[..]), i, old(input_message))
      ensures quit == Quits(old(View()), old(buffer[..i]))
    {
      ghost var before := buffer[..];
      WordInBuffer(before, i);
      buffer[i] := NUL;
      assert buffer[..] == before[i := NUL];
      var message := CString(buffer[..]);
      quit := false;
      if !input_message {
        buffer[4] := NUL;
        assert buffer[..] == Poked(before, i, false);
        quit := HandleWord(CString(buffer[..]), message, e);
      } else {
        HandleText(message, e);
      }
    }

    method HandleWord(word: string, message: string, e: LineInput) returns (quit: bool)
      requires word == Word(message) && !input_message
      modifies this
      ensures View() == HandleCommand(old(View()), message, e)
      ensures quit == Quits(old(View()), message) && flag == old(flag)
    {
      ghost var before := View();
      quit := false;
      var err := 0;
      if word == "HELO" {
        quit := state == INIT && IndexFrom(message, ' ', 0).None?;
        err := HandleHelo(message, e);
      } else if word == "EHLO" {
        err := HandleEhlo(message, e);
      } else if word == "MAIL" {
        err := HandleMail(message, e);
      } else if word == "RCPT" {
        err := HandleRcpt(message, e);
      } else if word == "DATA" {
        err := HandleData(message, e);
      } else if word == "RSET" {
        err := HandleRset(message, e);
      } else if word == "NOOP" {
        Reply(message, Noop250, e.io);
      } else if word == "QUIT" {
        HandleQuit(message, e);
        return true;
      } else {
        Reply(message, Unknown502, e.io);
      }
      if err < 0 {
        log := log + [Event(message, [Answer(NotAllowed451, e.io), Answer(AllowedNow(state), e.io2)])];
      }
    }

    /** `memmove` over a handled line. */
    method ShiftBuffer(k: nat)
      requires Valid() && 2 <= k <= buffer.Length
      modifies buffer
      ensures Valid() && buffer[..] == Shift(old(buffer[..]), k)
    {
      forall j | 0 <= j < buffer.Length - k {
        buffer[j] := buffer[j + k];
      }
    }

    /** One pass of the drain loop: unless the line ends the handling, the rest of the buffer moves to the front. */
    method DrainLine(i: nat, env: nat -> LineInput, n: nat) returns (quit: bool)
      requires Valid() && FirstEol(CString(buffer[..])) == Some(i)
      modifies this, buffer
      ensures Valid() && flag == old(flag)
      ensures |CString(buffer[..])| < |CString(old(buffer[..]))| || quit
      ensures Drain(Server(env), old(View()), old(buffer[..]), n) ==
              if quit then Drained(View(), buffer[..], true, n + 1)
              else Drain(Server(env), View(), buffer[..], n + 1)
    {
      ghost var (s, buf) := (View(), buffer[..]);
      ShiftShortens(buf, i, input_message);
      DrainUnfolds(Server(env), s, buf, i, n);
      assert buffer[..i] == buf[..i];
      quit := HandleBuffered(i, env(n));
      if !quit {
        ShiftBuffer(i + 2);
      }
    }

    /** The drain loop; `env` decides the sends made on the n-th line and after. */
    method DrainLines(env: nat -> LineInput, n: nat) returns (quit: bool, next: nat)
      requires Valid()
      modifies this, buffer
      ensures Valid() && flag == old(flag)
      ensures Drained(View(), buffer[..], quit, next) == Drain(Server(env), old(View()), old(buffer[..]), n)
    {
      quit, next := false, n;
      var eol := FirstEol(CString(buffer[..]));
      while eol.Some?
        invariant Valid() && flag == old(flag)
        invariant eol == FirstEol(CString(buffer[..])) && !quit
        invariant Drain(Server(env), View(), buffer[..], next) == Drain(Server(env), old(View()), old(buffer[..]), n)
        decreases |CString(buffer[..])|
      {
        quit := DrainLine(eol.value, env, next);
        next := next + 1;
        if quit {
          return;
        }
        eol := FirstEol(CString(buffer[..]));
      }
    }

    /** One call of the connection handler. */
    method Handle(io: IO, r: Reading, env: nat -> LineInput, n: nat) returns (next: nat)
      requires Valid() && Possible(r)
      modifies this, buffer
      ensures Valid()
      ensures Whole() == CallStep(old(Whole()), io, r, env, n)
      ensures next == if old(!faulted && state != SEND_GREETING && flag)
                      then Drain(Server(env), old(View()), old(buffer[..]), n).next else n
      ensures old(Sound(View())) ==> Sound(View())
    {
      ghost var k := Whole();
      if Sound(k.session) {
        CallKeeps(k, io, r, env, n);
      }
      next := n;
      if faulted {
        return;
      }
      if state == SEND_GREETING {
        if io == Done {
          state := INIT;
          flag := false;
        } else if io == Broken {
          state := CLOSED;
        }
        return;
      }
      if !flag {
        match r
        case HungUp => state := CLOSED;
        case Blocked =>
        case Failed => state := CLOSED;
        case Bytes(chunk) =>
          forall j | 0 <= j < |chunk| {
            buffer[j] := chunk[j];
          }
          assert buffer[..] == Received(old(buffer[..]), chunk);
          if FirstEol(CString(buffer[..])).Some? {
            flag := true;
          }
      } else {
        var quit;
        quit, next := DrainLines(env, n);
        if !quit {
          flag := false;
        }
      }
    }
  }
}
