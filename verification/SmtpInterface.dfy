/** One client connection as the object its handlers update; each handler is held to the transition function. */
module SmtpInterface {
  import opened Text
  import opened Outcomes
  import opened Connection

  lemma TriedMore(log: seq<Action>, tries: seq<Try>, t: Try, rest: seq<Try>)
    ensures log + Tried(tries + [t]) == log + Tried(tries) + [if t.sent then Sent(Chunk(t.text)) else Missed(t.text)]
    ensures tries + ([t] + rest) == tries + [t] + rest
  {
    assert Tried(tries + [t]) == Tried(tries) + [if t.sent then Sent(Chunk(t.text)) else Missed(t.text)];
  }

  class FileDesc {
    const id: int
    const domain: string
    var current_state: State
    var prev_state: State
    var attempt: int
    var task_pool: seq<Letter>
    var meta_data: Option<Meta>
    var file: Option<nat>
    ghost var log: seq<Action>
    var crashed: bool

    ghost function View(): Conn
      reads this
    {
      Conn(id, domain, current_state, prev_state, attempt, task_pool, meta_data, file, log, crashed)
    }

    /** A connection about to be prepared; `attempt` is whatever the allocated memory held. */
    constructor (id: int, domain: string, attempt: int)
      ensures View() == Conn(id, domain, PREPARE_SOCKET_CONNECTION, NULL_POINTER, attempt, [], None, None, [], false)
    {
      this.id, this.domain, this.attempt := id, domain, attempt;
      current_state, prev_state := PREPARE_SOCKET_CONNECTION, NULL_POINTER;
      task_pool, meta_data, file, log, crashed := [], None, None, [], false;
    }

    method SmtpControl(i: Input) returns (status: int)
      modifies this
      ensures (View(), status) == Step(old(View()), i)
    {
      if crashed {
        status := -1;
      } else if current_state == PREPARE_SOCKET_CONNECTION {
        status := HandlePrepareSocketConnection(i);
      } else if current_state == RECEIVE_SMTP_GREETING {
        status := HandleGreeting(i);
      } else if current_state == SEND_EHLO {
        status := HandleSendEhlo(i);
      } else if current_state == RECEIVE_EHLO_RESPONSE {
        status := HandleResponseOfEhlo(i);
      } else if current_state == SEND_MAIL_FROM {
        status := HandleSendMailFrom(i);
      } else if current_state == RECEIVE_MAIL_FROM_RESPONSE {
        status := HandleResponseOfMailFrom(i);
      } else if current_state == SEND_RCPT_TO {
        status := HandleSendRcptTo(i);
      } else if current_state == RECEIVE_RCPT_TO_RESPONSE {
        status := HandleResponseOfRcptTo(i);
      } else if current_state == SEND_DATA {
        status := HandleSendData(i);
      } else if current_state == RECEIVE_DATA_RESPONSE {
        status := HandleResponseOfData(i);
      } else if current_state == SEND_LETTER {
        status := HandleSendLetter(i);
      } else if current_state == RECEIVE_LETTER_RESPONSE {
        status := HandleResponseOfLetter(i);
      } else if current_state == SEND_QUIT {
        status := HandleSendQuit(i);
      } else if current_state == RECEIVE_QUIT_RESPONSE {
        status := HandleResponseOfQuit(i);
      } else if current_state == DISPOSING_SOCKET {
        status := HandleDisposing();
      } else if current_state == SMTP_ERROR {
        status := HandleSmtpError();
      } else if current_state == SEND_RSET {
        status := HandleSolvableMistake(i);
      } else if current_state == RECEIVE_RSET_RESPONSE {
        status := HandleResponseOfRset(i);
      } else {
        status := -1;
      }
    }

    method HandlePrepareSocketConnection(i: Input) returns (state: int)
      requires current_state == PREPARE_SOCKET_CONNECTION
      modifies this
      ensures (View(), state) == PrepareStep(old(View()), i)
    {
      if prev_state != NULL_POINTER {
        return -1;
      }
      match i.connecting
      case Unprepared(code) =>
        return if code < 0 then code else -2;
      case Connected =>
        current_state, prev_state := RECEIVE_SMTP_GREETING, PREPARE_SOCKET_CONNECTION;
        return 0;
      case InProgress =>
        current_state, prev_state := RECEIVE_SMTP_GREETING, PREPARE_SOCKET_CONNECTION;
        return 1;
    }

    method HandleGreeting(i: Input) returns (state: int)
      requires current_state == RECEIVE_SMTP_GREETING
      modifies this
      ensures (View(), state) == ReceiveStep(old(View()), i)
    {
      if prev_state != PREPARE_SOCKET_CONNECTION {
        current_state := SMTP_ERROR;
        return -1;
      }
      if i.io == WouldBlock {
        return 1;
      }
      if i.io == Broken {
        current_state := SMTP_ERROR;
        return -2;
      }
      log := log + [Got(i.reply)];
      var status := StatusCode(i.reply);
      if status != 220 && status != 421 {
        current_state := SMTP_ERROR;
        return -3;
      }
      if status == 421 {
        current_state := DISPOSING_SOCKET;
        return 0;
      }
      if !GreetingNames(i.reply, domain) {
        current_state := SMTP_ERROR;
        return -4;
      }
      prev_state := current_state;
      current_state := SEND_EHLO;
      return 0;
    }

    method HandleSendEhlo(i: Input) returns (state: int)
      requires current_state == SEND_EHLO
      modifies this
      ensures (View(), state) == SendStep(old(View()), i)
    {
      if prev_state != RECEIVE_SMTP_GREETING {
        current_state := SMTP_ERROR;
        return -1;
      }
      if i.io == WouldBlock {
        return 1;
      }
      if i.io == Broken {
        current_state := SMTP_ERROR;
        return -2;
      }
      log := log + [Sent(Ehlo)];
      prev_state := current_state;
      current_state := RECEIVE_EHLO_RESPONSE;
      return 0;
    }

    method HandleResponseOfEhlo(i: Input) returns (state: int)
      requires current_state == RECEIVE_EHLO_RESPONSE
      modifies this
      ensures (View(), state) == ReceiveStep(old(View()), i)
    {
      if prev_state != SEND_EHLO {
        current_state := SMTP_ERROR;
        return -1;
      }
      if i.io == WouldBlock {
        return 1;
      }
      if i.io == Broken {
        current_state := SMTP_ERROR;
        return -2;
      }
      log := log + [Got(i.reply)];
      var status := StatusCode(i.reply);
      if status != 250 && status != 421 {
        current_state := SMTP_ERROR;
        return -3;
      }
      if status == 421 {
        current_state := DISPOSING_SOCKET;
        return 0;
      }
      if !EhloNamesMe(i.reply) {
        current_state := SMTP_ERROR;
        return -4;
      }
      if !EhloWellFormed(i.reply) {
        current_state := SMTP_ERROR;
        return -5;
      }
      attempt := 0;
      prev_state := current_state;
      current_state := SEND_MAIL_FROM;
      return 0;
    }

    method HandleSendMailFrom(i: Input) returns (state: int)
      requires current_state == SEND_MAIL_FROM
      modifies this
      ensures (View(), state) == SendStep(old(View()), i)
    {
      var firstSending := prev_state == RECEIVE_EHLO_RESPONSE;
      var repeatedSending := prev_state == RECEIVE_LETTER_RESPONSE;
      var failSending := prev_state == RECEIVE_RSET_RESPONSE;
      if !firstSending && !repeatedSending && !failSending {
        prev_state := current_state;
        current_state := SMTP_ERROR;
        return -1;
      }
      if task_pool == [] {
        crashed := true;
        return -1;
      }
      if !i.metaFound {
        meta_data := None;
        prev_state := current_state;
        current_state := SMTP_ERROR;
        return -2;
      }
      meta_data := Some(Meta(task_pool[0].from, task_pool[0].to));
      if i.io == WouldBlock {
        return 1;
      }
      if i.io == Broken {
        prev_state := current_state;
        current_state := SMTP_ERROR;
        return -2;
      }
      log := log + [Sent(Mail(meta_data.value.from))];
      prev_state := current_state;
      current_state := RECEIVE_MAIL_FROM_RESPONSE;
      return 0;
    }

    method HandleResponseOfMailFrom(i: Input) returns (state: int)
      requires current_state == RECEIVE_MAIL_FROM_RESPONSE
      modifies this
      ensures (View(), state) == ReceiveStep(old(View()), i)
    {
      if prev_state != SEND_MAIL_FROM {
        current_state := SMTP_ERROR;
        return -1;
      }
      if i.io == WouldBlock {
        return 1;
      }
      if i.io == Broken {
        current_state := SMTP_ERROR;
        return -2;
      }
      log := log + [Got(i.reply)];
      if StatusCode(i.reply) != 250 {
        current_state := SMTP_ERROR;
        return -3;
      }
      if !OkLine(i.reply) {
        current_state := SMTP_ERROR;
        return -4;
      }
      prev_state := current_state;
      current_state := SEND_RCPT_TO;
      return 0;
    }

    method HandleSendRcptTo(i: Input) returns (state: int)
      requires current_state == SEND_RCPT_TO
      modifies this
      ensures (View(), state) == SendStep(old(View()), i)
    {
      if prev_state != RECEIVE_MAIL_FROM_RESPONSE {
        current_state := SMTP_ERROR;
        return -1;
      }
      if i.io == WouldBlock {
        return 1;
      }
      if i.io == Broken {
        current_state := SMTP_ERROR;
        return -2;
      }
      log := log + [Sent(Rcpt(if meta_data.Some? then meta_data.value.to else "(null)"))];
      prev_state := current_state;
      current_state := RECEIVE_RCPT_TO_RESPONSE;
      return 0;
    }

    method HandleResponseOfRcptTo(i: Input) returns (state: int)
      requires current_state == RECEIVE_RCPT_TO_RESPONSE
      modifies this
      ensures (View(), state) == ReceiveStep(old(View()), i)
    {
      if prev_state != SEND_RCPT_TO {
        current_state := SMTP_ERROR;
        return -1;
      }
      if i.io == WouldBlock {
        return 1;
      }
      if i.io == Broken {
        current_state := SMTP_ERROR;
        return -2;
      }
      log := log + [Got(i.reply)];
      if StatusCode(i.reply) != 250 {
        current_state := SMTP_ERROR;
        return -3;
      }
      if !OkLine(i.reply) {
        current_state := SMTP_ERROR;
        return -4;
      }
      prev_state := current_state;
      current_state := SEND_DATA;
      return 0;
    }

    method HandleSendData(i: Input) returns (state: int)
      requires current_state == SEND_DATA
      modifies this
      ensures (View(), state) == SendStep(old(View()), i)
    {
      if prev_state != RECEIVE_RCPT_TO_RESPONSE {
        current_state := SMTP_ERROR;
        return -1;
      }
      if i.io == WouldBlock {
        return 1;
      }
      if i.io == Broken {
        current_state := SMTP_ERROR;
        return -2;
      }
      log := log + [Sent(Data)];
      prev_state := current_state;
      current_state := RECEIVE_DATA_RESPONSE;
      return 0;
    }

    method HandleResponseOfData(i: Input) returns (state: int)
      requires current_state == RECEIVE_DATA_RESPONSE
      modifies this
      ensures (View(), state) == ReceiveStep(old(View()), i)
    {
      if prev_state != SEND_DATA {
        current_state := SMTP_ERROR;
        return -1;
      }
      if i.io == WouldBlock {
        return 1;
      }
      if i.io == Broken {
        current_state := SMTP_ERROR;
        return -2;
      }
      log := log + [Got(i.reply)];
      if StatusCode(i.reply) != 354 {
        current_state := SMTP_ERROR;
        return -3;
      }
      prev_state := current_state;
      current_state := SEND_LETTER;
      return 0;
    }

    method HandleSendLetter(i: Input) returns (state: int)
      requires current_state == SEND_LETTER
      modifies this
      ensures (View(), state) == SendStep(old(View()), i)
    {
      if prev_state != RECEIVE_DATA_RESPONSE {
        current_state := SMTP_ERROR;
        return -1;
      }
      if task_pool == [] {
        crashed := true;
        return -1;
      }
      var content := task_pool[0].content;
      if file == None {
        if !i.fileOpens {
          current_state := SMTP_ERROR;
          return -2;
        }
        file := Some(0);
      } else if file.value > |content| {
        file := Some(0);
      }
      var outcome := SendChunks(content, i.chunks);
      if outcome == WouldBlock {
        return 1;
      }
      if outcome == Broken {
        current_state := SMTP_ERROR;
        return -2;
      }
      file := None;
      prev_state := current_state;
      current_state := RECEIVE_LETTER_RESPONSE;
      return 0;
    }

    /** Reads and sends the rest of the open letter, then the terminator, stopping at the first send that fails. */
    method SendChunks(content: string, chunks: nat -> IO) returns (outcome: IO)
      requires file.Some? && file.value <= |content|
      modifies `file, `log
      ensures var r := Speak(content, old(file.value), chunks, 0);
              && outcome == r.outcome && file == Some(r.at)
              && (outcome == Done ==> log == old(log) + Tried(r.tries) + [Sent(EndOfLetter)])
              && (outcome != Done ==> log == old(log) + Tried(r.tries))
    {
      ghost var start, tries := file.value, [];
      var pos := file.value;
      var k := 0;
      while true
        invariant start <= pos <= |content| && file == Some(pos)
        invariant log == old(log) + Tried(tries)
        invariant var r := Speak(content, pos, chunks, k);
                  Speak(content, start, chunks, 0) == r.(tries := tries + r.tries)
        decreases |content| - pos
      {
        outcome := chunks(k);
        if pos == |content| {
          assert tries + [] == tries;
          if outcome == Done {
            log := log + [Sent(EndOfLetter)];
          }
          return;
        }
        var next := ChunkEnd(content, pos);
        var message := CString(content[pos..next]);
        file := Some(next);
        if outcome != Done {
          log := log + [Missed(message)];
          TriedMore(old(log), tries, Try(message, false), []);
          return;
        }
        log := log + [Sent(Chunk(message))];
        ghost var rest := Speak(content, next, chunks, k + 1).tries;
        TriedMore(old(log), tries, Try(message, true), rest);
        tries := tries + [Try(message, true)];
        pos := next;
        k := k + 1;
      }
    }

    method HandleResponseOfLetter(i: Input) returns (state: int)
      requires current_state == RECEIVE_LETTER_RESPONSE
      modifies this
      ensures (View(), state) == ReceiveStep(old(View()), i)
    {
      if prev_state != SEND_LETTER {
        current_state := SMTP_ERROR;
        return -1;
      }
      if i.io == WouldBlock {
        return 1;
      }
      if i.io == Broken {
        current_state := SMTP_ERROR;
        return -2;
      }
      log := log + [Got(i.reply)];
      if StatusCode(i.reply) != 250 {
        current_state := SMTP_ERROR;
        return -3;
      }
      if !OkWord(i.reply) {
        current_state := SMTP_ERROR;
        return -4;
      }
      if task_pool == [] {
        crashed := true;
        return -1;
      }
      log := log + [Moved(task_pool[0], Current)];
      var nextState;
      if |task_pool| > 1 {
        nextState := SEND_MAIL_FROM;
        attempt := 0;
        task_pool := task_pool[1..];
      } else {
        nextState := SEND_QUIT;
        log := log + [Forgot(domain)];
        task_pool := [];
      }
      prev_state := current_state;
      current_state := nextState;
      return 0;
    }

    method HandleSendQuit(i: Input) returns (state: int)
      requires current_state == SEND_QUIT
      modifies this
      ensures (View(), state) == SendStep(old(View()), i)
    {
      if prev_state != RECEIVE_LETTER_RESPONSE {
        current_state := SMTP_ERROR;
        return -1;
      }
      if i.io == WouldBlock {
        return 1;
      }
      if i.io == Broken {
        current_state := SMTP_ERROR;
        return -2;
      }
      log := log + [Sent(Quit)];
      prev_state := current_state;
      current_state := RECEIVE_QUIT_RESPONSE;
      return 0;
    }

    method HandleResponseOfQuit(i: Input) returns (state: int)
      requires current_state == RECEIVE_QUIT_RESPONSE
      modifies this
      ensures (View(), state) == ReceiveStep(old(View()), i)
    {
      if prev_state != SEND_QUIT {
        current_state := SMTP_ERROR;
        return -1;
      }
      if i.io == WouldBlock {
        return 1;
      }
      if i.io == Broken {
        current_state := SMTP_ERROR;
        return -2;
      }
      log := log + [Got(i.reply)];
      if StatusCode(i.reply) != 221 {
        current_state := SMTP_ERROR;
        return -3;
      }
      prev_state := current_state;
      current_state := DISPOSING_SOCKET;
      return 0;
    }

    method HandleDisposing() returns (state: int)
      requires current_state == DISPOSING_SOCKET
      modifies this
      ensures (View(), state) == DisposeStep(old(View()))
    {
      var normalMode := prev_state == RECEIVE_QUIT_RESPONSE;
      var errorMode := prev_state == SMTP_ERROR;
      var mistrustMode := prev_state == PREPARE_SOCKET_CONNECTION;
      if !(normalMode || errorMode || mistrustMode) {
        current_state := SMTP_ERROR;
        return -1;
      }
      meta_data := None;
      prev_state := DISPOSING_SOCKET;
      current_state := NULL_POINTER;
      return 0;
    }

    method HandleSmtpError() returns (state: int)
      requires current_state == SMTP_ERROR
      modifies this
      ensures (View(), state) == RecoverStep(old(View()))
    {
      if Unsolvable(prev_state) {
        log := log + [Forgot(domain)];
        file := None;
        while task_pool != []
          invariant log + ReturnAll(task_pool) == old(log) + [Forgot(domain)] + ReturnAll(old(task_pool))
          invariant View() == old(View()).(file := None, log := log, pool := task_pool)
          decreases |task_pool|
        {
          log := log + [Moved(task_pool[0], New)];
          task_pool := task_pool[1..];
        }
        assert log + ReturnAll([]) == log;
        prev_state := SMTP_ERROR;
        current_state := DISPOSING_SOCKET;
      } else if Solvable(prev_state) {
        if attempt == 0 {
          attempt := attempt + 1;
          file := None;
          meta_data := None;
        } else {
          if task_pool == [] {
            crashed := true;
            return -1;
          }
          file := None;
          log := log + [Moved(task_pool[0], New)];
          task_pool := task_pool[1..];
        }
        prev_state := SMTP_ERROR;
        current_state := SEND_RSET;
      }
      return 0;
    }

    method HandleSolvableMistake(i: Input) returns (state: int)
      requires current_state == SEND_RSET
      modifies this
      ensures (View(), state) == SendStep(old(View()), i)
    {
      if prev_state != SMTP_ERROR {
        current_state := SMTP_ERROR;
        return -1;
      }
      if i.io == WouldBlock {
        return 1;
      }
      if i.io == Broken {
        current_state := SMTP_ERROR;
        return -2;
      }
      log := log + [Sent(Rset)];
      prev_state := current_state;
      current_state := RECEIVE_RSET_RESPONSE;
      return 0;
    }

    method HandleResponseOfRset(i: Input) returns (state: int)
      requires current_state == RECEIVE_RSET_RESPONSE
      modifies this
      ensures (View(), state) == ReceiveStep(old(View()), i)
    {
      if prev_state != SEND_RSET {
        current_state := SMTP_ERROR;
        return -1;
      }
      if i.io == WouldBlock {
        return 1;
      }
      if i.io == Broken {
        current_state := SMTP_ERROR;
        return -2;
      }
      log := log + [Got(i.reply)];
      var status := StatusCode(i.reply);
      if status != 200 && status != 250 {
        current_state := SMTP_ERROR;
        return -3;
      }
      if task_pool != [] {
        prev_state := RECEIVE_RSET_RESPONSE;
        current_state := SEND_MAIL_FROM;
      } else {
        prev_state := current_state;
        current_state := SEND_QUIT;
      }
      return 0;
    }
  }
}
