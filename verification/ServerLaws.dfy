/** What the server does with one line, told by the words and texts on the wire and by the numbers of its states. */
module ServerLaws {
  import opened Text
  import opened Outcomes
  import opened ServerSession

  // -------------------------------------------------------------------- replies

  /** The line joins the dialogue with replies of just these texts, sent as the environment decides. */
  predicate Answered(log: seq<Event>, after: seq<Event>, line: string, e: LineInput, texts: seq<string>) {
    && |after| == |log| + 1 && after[..|log|] == log
    && var event := after[|log|];
       && event.line == line && |event.answers| == |texts|
       && forall k | 0 <= k < |texts| ::
            && ReplyText(event.answers[k].reply) == texts[k]
            && event.answers[k].io == if k == 0 then e.io else e.io2
  }

  /** One reply, of this text. */
  predicate Told(s: Session, d: Session, line: string, e: LineInput, text: string) {
    Answered(s.log, d.log, line, e, [text])
  }

  lemma SaidTold(s: Session, line: string, e: LineInput, r: Reply, text: string)
    requires text == ReplyText(r)
    ensures Told(s, Say(s, line, r, e), line, e, text)
  {
  }

  /** The second reply to a command that the state does not allow. */
  function Allowed(phase: int): string {
    if phase == 7 then "Allowed commands are: HELO, EHLO, NOOP, QUIT\n"
    else if phase == 8 then "Allowed commands are: RSET, MAIL, NOOP, QUIT\n"
    else if phase == 9 then "Allowed commands are: RSET, RCPT, NOOP, QUIT\n"
    else if phase == 10 then "Allowed commands are: RSET, RCPT, NOOP, DATA, QUIT\n"
    else if phase == 11 then "Allowed commands are: .\n"
    else ""
  }

  /** A command that the state does not allow changes nothing and is answered twice. */
  predicate Refused(s: Session, d: Session, line: string, e: LineInput) {
    && d == s.(log := d.log)
    && Answered(s.log, d.log, line, e,
                ["451 Unable to complete command: command not allowed\r\n", Allowed(s.phase)])
  }

  lemma NotAllowedRefuses(s: Session, line: string, e: LineInput)
    ensures Refused(s, NotAllowed(s, line, e), line, e)
  {
  }

  /** The first four characters are the word. */
  lemma WordIs(line: string, word: string)
    requires |word| == 4
    ensures Word(line) == word <==> word <= line
  {
  }

  /** The command of a line: one of the eight words, or another. */
  lemma CommandIs(line: string)
    ensures var v := VerbOf(line);
            && (v == HELO <==> "HELO" <= line) && (v == EHLO <==> "EHLO" <= line)
            && (v == MAIL <==> "MAIL" <= line) && (v == RCPT <==> "RCPT" <= line)
            && (v == DATA <==> "DATA" <= line) && (v == RSET <==> "RSET" <= line)
            && (v == NOOP <==> "NOOP" <= line) && (v == QUIT <==> "QUIT" <= line)
  {
    WordIs(line, "HELO");
    WordIs(line, "EHLO");
    WordIs(line, "MAIL");
    WordIs(line, "RCPT");
    WordIs(line, "DATA");
    WordIs(line, "RSET");
    WordIs(line, "NOOP");
    WordIs(line, "QUIT");
  }

  // --------------------------------------------------------- the parts of a line

  /** The text after the first space. */
  predicate HostAfter(line: string, before: string, host: string) {
    line == before + " " + host && ' ' !in before
  }

  lemma HostIs(line: string, before: string, host: string)
    requires HostAfter(line, before, host)
    ensures IndexFrom(line, ' ', 0) == Some(|before|) && HostOf(line) == host
  {
    assert line[|before|] == ' ';
    assert forall k | 0 <= k < |before| :: line[k] == before[k];
    IndexIs(line, ' ', 0, |before|);
    assert line[|before| + 1..] == host;
  }

  /** The text between the first '<' and the first '>' after it. */
  predicate AddressIn(line: string, before: string, a: string, after: string) {
    line == before + "<" + a + ">" + after && '<' !in before && '>' !in a
  }

  lemma AddressIs(line: string, before: string, a: string, after: string)
    requires AddressIn(line, before, a, after)
    ensures MailAddress(line) == Some(a)
  {
    var (open, close) := (|before|, |before| + 1 + |a|);
    assert line[open] == '<' && line[close] == '>';
    assert forall k | 0 <= k < open :: line[k] == before[k];
    assert forall k | open < k < close :: line[k] == a[k - open - 1];
    IndexIs(line, '<', 0, open);
    IndexIs(line, '>', open + 1, close);
    assert line[open + 1..close] == a;
  }

  lemma AddressFound(line: string, a: string)
    requires MailAddress(line) == Some(a)
    ensures exists before, after :: AddressIn(line, before, a, after)
  {
    var open := IndexFrom(line, '<', 0).value;
    var close := IndexFrom(line, '>', open + 1).value;
    var (before, after) := (line[..open], line[close + 1..]);
    assert line == before + "<" + a + ">" + after;
    assert AddressIn(line, before, a, after);
  }

  /** The line names an address that is not empty. */
  ghost predicate Names(line: string, a: string) {
    a != "" && exists before, after :: AddressIn(line, before, a, after)
  }

  lemma NamesIs(line: string, a: string)
    ensures Names(line, a) <==> a != "" && MailAddress(line) == Some(a)
  {
    if Names(line, a) {
      var before, after :| AddressIn(line, before, a, after);
      AddressIs(line, before, a, after);
    }
    if MailAddress(line) == Some(a) {
      AddressFound(line, a);
    }
  }

  // ------------------------------------------------------------------- commands

  predicate Commanded(s: Session, line: string, word: string) { !s.textMode && word <= line }

  lemma Dispatched(s: Session, line: string, e: LineInput)
    requires !s.textMode
    ensures "HELO" <= line ==> Line(s, line, e) == HandleHelo(s, line, e)
    ensures "EHLO" <= line ==> Line(s, line, e) == HandleHello(s, line, Named250(HostOf(line)), e)
    ensures "MAIL" <= line ==> Line(s, line, e) == HandleMail(s, line, e)
    ensures "RCPT" <= line ==> Line(s, line, e) == HandleRcpt(s, line, e)
  {
    CommandIs(line);
  }

  lemma DispatchedToo(s: Session, line: string, e: LineInput)
    requires !s.textMode
    ensures "DATA" <= line ==> Line(s, line, e) == HandleData(s, line, e)
    ensures "RSET" <= line ==> Line(s, line, e) == HandleRset(s, line, e)
    ensures "NOOP" <= line ==> Line(s, line, e) == Say(s, line, Noop250, e)
    ensures "QUIT" <= line ==> Line(s, line, e) == HandleQuit(s, line, e)
    ensures OtherWord(line) ==> Line(s, line, e) == Say(s, line, Unknown502, e)
  {
    CommandIs(line);
  }

  predicate OtherWord(line: string) {
    && !("HELO" <= line) && !("EHLO" <= line) && !("MAIL" <= line) && !("RCPT" <= line)
    && !("DATA" <= line) && !("RSET" <= line) && !("NOOP" <= line) && !("QUIT" <= line)
  }

  /** HELO and EHLO are taken once. */
  lemma HelloTaken(s: Session, line: string, e: LineInput, r: Reply, text: string)
    requires text == ReplyText(r)
    ensures var d := HandleHello(s, line, r, e);
            && (s.phase != 7 ==> Refused(s, d, line, e))
            && (s.phase == 7 ==>
                  d == s.(phase := if e.io == WouldBlock then 7 else 8, log := d.log) && Told(s, d, line, e, text))
  {
    NotAllowedRefuses(s, line, e);
    SaidTold(s, line, e, r, text);
  }

  lemma HeloTaken(s: Session, line: string, e: LineInput)
    ensures var d := HandleHelo(s, line, e);
            && (s.phase != 7 ==> Refused(s, d, line, e))
            && (s.phase == 7 && IndexFrom(line, ' ', 0).None? ==> d == s.(faulted := true))
            && (s.phase == 7 && IndexFrom(line, ' ', 0).Some? ==>
                  && d == s.(phase := if e.io == WouldBlock then 7 else 8, log := d.log)
                  && Told(s, d, line, e,
                          (if e.hostMatches then "250 Ok\r\n " else "252 Ok\r\n ") + HostOf(line) + "\r\n"))
  {
    var r := if e.hostMatches then Host250(HostOf(line)) else Host252(HostOf(line));
    HelloTaken(s, line, e, r, ReplyText(r));
  }

  /** HELO: 250 or 252 with the host, by the name comparison; a HELO without a host follows a null pointer. */
  lemma OnHelo(s: Session, line: string, e: LineInput, before: string, host: string)
    requires Commanded(s, line, "HELO") && (HostAfter(line, before, host) || ' ' !in line)
    ensures var d := Line(s, line, e);
            if s.phase != 7 then Refused(s, d, line, e)
            else if ' ' !in line then d == s.(faulted := true)
            else
              && d == s.(phase := if e.io == WouldBlock then 7 else 8, log := d.log)
              && Told(s, d, line, e, (if e.hostMatches then "250 Ok\r\n " else "252 Ok\r\n ") + host + "\r\n")
  {
    Dispatched(s, line, e);
    HeloTaken(s, line, e);
    if HostAfter(line, before, host) {
      HostIs(line, before, host);
    }
  }

  /** EHLO: likewise, with one reply, which names "(null)" when there is no host. */
  lemma OnEhlo(s: Session, line: string, e: LineInput, before: string, host: string)
    requires Commanded(s, line, "EHLO")
    requires HostAfter(line, before, host) || (' ' !in line && host == "(null)")
    ensures var d := Line(s, line, e);
            && (s.phase != 7 ==> Refused(s, d, line, e))
            && (s.phase == 7 ==>
                  && d == s.(phase := if e.io == WouldBlock then 7 else 8, log := d.log)
                  && Told(s, d, line, e, "250- " + host + "\r\n"))
  {
    Dispatched(s, line, e);
    if HostAfter(line, before, host) {
      HostIs(line, before, host);
    }
    HelloTaken(s, line, e, Named250(host), "250- " + host + "\r\n");
  }

  lemma MailTaken(s: Session, line: string, e: LineInput)
    ensures var (d, a) := (HandleMail(s, line, e), MailAddress(line));
            && (s.phase != 8 ==> Refused(s, d, line, e))
            && (s.phase == 8 && a.Some? && a.value != "" ==>
                  d == s.(from := a, phase := 9, log := d.log) && Told(s, d, line, e, "250 Ok\r\n"))
            && (s.phase == 8 && !(a.Some? && a.value != "") ==>
                  && d == s.(from := a, log := d.log)
                  && Told(s, d, line, e, "450 " + "Requested mail action not taken: mailbox unavailable\r\n"))
  {
    NotAllowedRefuses(s, line, e);
    SaidTold(s, line, e, Ok250, "250 Ok\r\n");
    SaidTold(s, line, e, Mailbox450, "450 " + "Requested mail action not taken: mailbox unavailable\r\n");
  }

  lemma RcptTaken(s: Session, line: string, e: LineInput)
    ensures var (d, a) := (HandleRcpt(s, line, e), MailAddress(line));
            && (s.phase != 9 && s.phase != 10 ==> Refused(s, d, line, e))
            && (s.phase == 9 || s.phase == 10 ==>
                  && (|s.to| >= 10 ==>
                        && d == s.(log := d.log)
                        && Told(s, d, line, e, "451 Unable to complete command: number of recipients exceeded\r\n"))
                  && (|s.to| < 10 && a.Some? && a.value != "" ==>
                        d == s.(to := s.to + [a.value], phase := 10, log := d.log) && Told(s, d, line, e, "250 Ok\r\n"))
                  && (|s.to| < 10 && !(a.Some? && a.value != "") ==>
                        && d == s.(log := d.log)
                        && Told(s, d, line, e, "450 " + "Requested mail action not taken: mailbox unavailable\r\n")))
  {
    NotAllowedRefuses(s, line, e);
    SaidTold(s, line, e, Ok250, "250 Ok\r\n");
    SaidTold(s, line, e, Exceeded451, "451 Unable to complete command: number of recipients exceeded\r\n");
    SaidTold(s, line, e, Mailbox450, "450 " + "Requested mail action not taken: mailbox unavailable\r\n");
  }

  lemma NamesNone(line: string)
    ensures (exists x :: Names(line, x)) <==> MailAddress(line).Some? && MailAddress(line).value != ""
  {
    if x :| Names(line, x) {
      NamesIs(line, x);
    }
    if MailAddress(line).Some? {
      NamesIs(line, MailAddress(line).value);
    }
  }

  /** MAIL: the address between the brackets becomes the sender, if it is not empty. */
  lemma OnMail(s: Session, line: string, e: LineInput, a: string)
    requires Commanded(s, line, "MAIL")
    ensures var d := Line(s, line, e);
            && (s.phase != 8 ==> Refused(s, d, line, e))
            && (s.phase == 8 && Names(line, a) ==>
                  d == s.(from := Some(a), phase := 9, log := d.log) && Told(s, d, line, e, "250 Ok\r\n"))
            && (s.phase == 8 && !(exists x :: Names(line, x)) ==>
                  && d == s.(from := d.from, log := d.log) && (d.from.Some? ==> d.from.value == "")
                  && Told(s, d, line, e, "450 " + "Requested mail action not taken: mailbox unavailable\r\n"))
  {
    Dispatched(s, line, e);
    MailTaken(s, line, e);
    NamesIs(line, a);
    NamesNone(line);
  }

  /** RCPT: the address joins the recipients, of which there are at most ten. */
  lemma OnRcpt(s: Session, line: string, e: LineInput, a: string)
    requires Commanded(s, line, "RCPT")
    ensures var d := Line(s, line, e);
            && (s.phase != 9 && s.phase != 10 ==> Refused(s, d, line, e))
            && (s.phase == 9 || s.phase == 10 ==>
                  && (|s.to| >= 10 ==>
                        && d == s.(log := d.log)
                        && Told(s, d, line, e, "451 Unable to complete command: number of recipients exceeded\r\n"))
                  && (|s.to| < 10 && Names(line, a) ==>
                        d == s.(to := s.to + [a], phase := 10, log := d.log) && Told(s, d, line, e, "250 Ok\r\n"))
                  && (|s.to| < 10 && !(exists x :: Names(line, x)) ==>
                        && d == s.(log := d.log)
                        && Told(s, d, line, e, "450 " + "Requested mail action not taken: mailbox unavailable\r\n")))
  {
    Dispatched(s, line, e);
    RcptTaken(s, line, e);
    NamesIs(line, a);
    NamesNone(line);
  }

  /** RSET: the envelope is emptied, whatever becomes of the reply. */
  lemma OnRset(s: Session, line: string, e: LineInput)
    requires Commanded(s, line, "RSET")
    ensures var d := Line(s, line, e);
            if 8 <= s.phase <= 10 || s.phase == 12 then
              d == s.(from := None, to := [], phase := 8, log := d.log) && Told(s, d, line, e, "250 Ok reset\r\n")
            else Refused(s, d, line, e)
  {
    DispatchedToo(s, line, e);
    NotAllowedRefuses(s, line, e);
    SaidTold(s, line, e, Reset250, "250 Ok reset\r\n");
  }

  /** NOOP changes nothing; an unknown word changes nothing either. */
  lemma OnIdle(s: Session, line: string, e: LineInput)
    requires !s.textMode && ("NOOP" <= line || OtherWord(line))
    ensures var d := Line(s, line, e);
            && d == s.(log := d.log)
            && Told(s, d, line, e, if "NOOP" <= line then "250 Ok noop\r\n" else "502 Command Not Implemented\r\n")
  {
    DispatchedToo(s, line, e);
    SaidTold(s, line, e, Noop250, "250 Ok noop\r\n");
    SaidTold(s, line, e, Unknown502, "502 Command Not Implemented\r\n");
  }

  /** DATA: the text begins only if the reply was sent. */
  lemma OnData(s: Session, line: string, e: LineInput)
    requires Commanded(s, line, "DATA")
    ensures var d := Line(s, line, e);
            if s.phase != 10 then Refused(s, d, line, e)
            else
              && d == (if e.io == Done then s.(textMode := true, phase := 11, body := "", capacity := 0, log := d.log)
                       else s.(log := d.log))
              && Told(s, d, line, e, "354 " + "Start mail input; end with <CRLF>.<CRLF>\r\n")
  {
    DispatchedToo(s, line, e);
    NotAllowedRefuses(s, line, e);
    SaidTold(s, line, e, Start354, "354 " + "Start mail input; end with <CRLF>.<CRLF>\r\n");
  }

  /** QUIT: closed, unless the reply would block. */
  lemma OnQuit(s: Session, line: string, e: LineInput)
    requires Commanded(s, line, "QUIT")
    ensures var d := Line(s, line, e);
            && d == s.(phase := if e.io == WouldBlock then s.phase else 13, log := d.log)
            && Told(s, d, line, e, "221 Ok\r\n")
  {
    DispatchedToo(s, line, e);
    SaidTold(s, line, e, Bye221, "221 Ok\r\n");
  }

  // ----------------------------------------------------------------------- text

  /** A text line joins the body with a line feed and is not answered. */
  lemma OnText(s: Session, line: string, e: LineInput)
    requires s.textMode && line != "."
    ensures var d := Line(s, line, e);
            && d == s.(body := s.body + line + "\n", capacity := d.capacity, log := d.log)
            && Answered(s.log, d.log, line, e, [])
  {
  }

  /** The dot delivers: one copy for each recipient, in order, if there is a sender, a recipient and a text; then the
      envelope is emptied and commands follow. */
  lemma OnDot(s: Session, e: LineInput)
    requires s.textMode
    ensures var d := Line(s, ".", e);
            && d == s.(textMode := false, phase := 8, from := None, to := [], body := "",
                       saved := d.saved, log := d.log)
            && Told(s, d, ".", e, "250 Ok reset\r\n")
            && (s.from.Some? && s.from.value != "" && s.to != [] && s.to[0] != "" && s.body != "" ==>
                  && |d.saved| == |s.saved| + |s.to| && d.saved[..|s.saved|] == s.saved
                  && forall k | 0 <= k < |s.to| :: d.saved[|s.saved| + k] == Copy(s.from.value, s.to[k], s.body))
            && (s.from.None? || s.from.value == "" || s.to == [] || s.to[0] == "" || s.body == "" ==>
                  d.saved == s.saved)
  {
    assert s.saved + [] == s.saved;
  }

  /** The greeting names the server, and its failure closes the connection unless it would block. */
  lemma GreetingSent(s: Session, io: IO)
    requires s.phase == 6
    ensures Greet(s, io) == s.(phase := if io == Done then 7 else if io == WouldBlock then 6 else 13)
    ensures ReplyText(Greeting220) == "220  myserver.com SMTP CCSMTP\n"
  {
  }
}
