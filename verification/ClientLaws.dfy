/**
 What one control step does, told by the texts on the wire alone: which replies lead where, what each state sends, and
 what failures lead to.
 */
module ClientLaws {
  import opened Text
  import opened Outcomes
  import opened Connection

  // --------------------------------------------------------------------- order

  /** The predecessors a sending or receiving state accepts. */
  const ORDER: set<(State, State)> :=
    {(RECEIVE_SMTP_GREETING, PREPARE_SOCKET_CONNECTION), (SEND_EHLO, RECEIVE_SMTP_GREETING),
     (RECEIVE_EHLO_RESPONSE, SEND_EHLO), (SEND_MAIL_FROM, RECEIVE_EHLO_RESPONSE),
     (SEND_MAIL_FROM, RECEIVE_LETTER_RESPONSE), (SEND_MAIL_FROM, RECEIVE_RSET_RESPONSE),
     (RECEIVE_MAIL_FROM_RESPONSE, SEND_MAIL_FROM), (SEND_RCPT_TO, RECEIVE_MAIL_FROM_RESPONSE),
     (RECEIVE_RCPT_TO_RESPONSE, SEND_RCPT_TO), (SEND_DATA, RECEIVE_RCPT_TO_RESPONSE),
     (RECEIVE_DATA_RESPONSE, SEND_DATA), (SEND_LETTER, RECEIVE_DATA_RESPONSE),
     (RECEIVE_LETTER_RESPONSE, SEND_LETTER), (SEND_QUIT, RECEIVE_LETTER_RESPONSE),
     (RECEIVE_QUIT_RESPONSE, SEND_QUIT), (SEND_RSET, SMTP_ERROR), (RECEIVE_RSET_RESPONSE, SEND_RSET)}

  predicate InOrder(c: Conn) { (c.cur, c.prev) in ORDER && !c.crashed }

  /** A handler reached from a state it does not expect does nothing but report an error. */
  lemma OutOfOrder(c: Conn, i: Input)
    requires (Sends(c.cur) || Receives(c.cur)) && !c.crashed && !InOrder(c)
    ensures Step(c, i).0 == c.(cur := SMTP_ERROR, prev := if c.cur == SEND_MAIL_FROM then c.cur else c.prev)
  {
  }

  // ------------------------------------------------------------------- replies

  /** The greeting is for this domain: the domain from index 4 on, one character more, and a space. */
  predicate GreetsDomain(reply: string, domain: string) {
    && |reply| > 5 + |domain| && NUL !in domain
    && reply[4..4 + |domain|] == domain && reply[5 + |domain|] == ' '
  }

  lemma NamedInGreeting(reply: string, domain: string)
    ensures GreetingNames(reply, domain) <==> GreetsDomain(reply, domain) || "myserver.co" <= domain
  {
    if |reply| >= 4 {
      var rest := reply[4..];
      assert |reply| >= 4 + |domain| ==> reply[4..4 + |domain|] == rest[..|domain|];
      if GreetsDomain(reply, domain) {
        assert forall k | 0 <= k < |domain| :: domain[k] == rest[k];
        assert |CString(rest)| >= |domain|;
      }
    }
  }

  /** Nothing to read, or a read that fails. */
  lemma ReadFails(c: Conn, i: Input)
    requires InOrder(c) && Receives(c.cur)
    ensures i.io == WouldBlock ==> Step(c, i) == (c, 1)
    ensures i.io == Broken ==> Step(c, i).0 == c.(cur := SMTP_ERROR)
  {
  }

  /** What is read is logged, and the step does not wait. */
  predicate Heard(c: Conn, i: Input) {
    InOrder(c) && Receives(c.cur) && i.io == Done
  }

  lemma HeardStep(c: Conn, i: Input)
    requires Heard(c, i)
    ensures Step(c, i) == ReplyStep(c, i.reply, HangsUp(c.cur, i.reply), Verdict(c.cur, i.reply, c.domain))
  {
    assert Step(c, i) == ReceiveStep(c, i);
  }

  /** The greeting: 220 that is for this domain, or that any test server gives, goes on; 421 disposes; else an error. */
  lemma GreetingLeads(c: Conn, i: Input)
    requires Heard(c, i) && c.cur == RECEIVE_SMTP_GREETING
    ensures var (d, reply) := (Step(c, i).0, i.reply);
            && (d.cur == SEND_EHLO
                <==> "220" <= reply && (GreetsDomain(reply, c.domain) || "myserver.co" <= c.domain))
            && (d.cur == DISPOSING_SOCKET <==> "421" <= reply)
            && (d.cur == SEND_EHLO || d.cur == DISPOSING_SOCKET || d.cur == SMTP_ERROR)
            && d == c.(cur := d.cur, prev := if d.cur == SEND_EHLO then c.cur else c.prev, log := c.log + [Got(reply)])
  {
    HeardStep(c, i);
    NamedInGreeting(i.reply, c.domain);
    CodeIs(i.reply, 220, "220");
    CodeIs(i.reply, 421, "421");
  }

  /** The client's name stands in the reply, first at `at`, after a space or dash and before the end of its line. */
  predicate NamedAt(reply: string, at: nat) {
    var name := "samsung-np530u4c";
    && At(CString(reply), name, at) && (forall j: nat | j < at :: !At(CString(reply), name, j))
    && at > 0 && (reply[at - 1] == ' ' || reply[at - 1] == '-')
    && at + |name| < |reply| && reply[at + |name|] == '\r'
    && reply[|reply| - 2..] == "\r\n"
  }

  lemma NamedInEhlo(reply: string)
    requires "250" <= reply
    ensures EhloNamesMe(reply) && EhloWellFormed(reply) <==> exists at :: NamedAt(reply, at)
  {
    var t := CString(reply);
    if EhloNamesMe(reply) {
      var at := Find(t, MY_DOMAIN).value;
      assert At(t, MY_DOMAIN, at);
      if EhloWellFormed(reply) {
        assert NamedAt(reply, at);
      }
    }
    if at: nat :| NamedAt(reply, at) {
      FindIs(t, MY_DOMAIN, at);
    }
  }

  lemma EhloTaken(reply: string, domain: string)
    ensures Verdict(RECEIVE_EHLO_RESPONSE, reply, domain) >= 0 <==> "250" <= reply && exists at :: NamedAt(reply, at)
    ensures HangsUp(RECEIVE_EHLO_RESPONSE, reply) <==> "421" <= reply
  {
    CodeIs(reply, 250, "250");
    CodeIs(reply, 421, "421");
    if "250" <= reply {
      NamedInEhlo(reply);
    }
  }

  lemma EhloStep(c: Conn, i: Input, hangsUp: bool, taken: bool)
    requires Heard(c, i) && c.cur == RECEIVE_EHLO_RESPONSE
    requires hangsUp == HangsUp(c.cur, i.reply) && taken == (Verdict(c.cur, i.reply, c.domain) >= 0)
    ensures Step(c, i).0 ==
            var heard := c.(log := c.log + [Got(i.reply)]);
            if hangsUp then heard.(cur := DISPOSING_SOCKET)
            else if taken then heard.(cur := SEND_MAIL_FROM, prev := c.cur, attempt := 0)
            else heard.(cur := SMTP_ERROR)
  {
    HeardStep(c, i);
  }

  /** The answer to EHLO: 250 with the client's name goes on and starts the count of tries anew; 421 hangs up. */
  lemma EhloLeads(c: Conn, i: Input)
    requires Heard(c, i) && c.cur == RECEIVE_EHLO_RESPONSE
    ensures Step(c, i).0 ==
            var heard := c.(log := c.log + [Got(i.reply)]);
            if "421" <= i.reply then heard.(cur := DISPOSING_SOCKET)
            else if "250" <= i.reply && exists at :: NamedAt(i.reply, at)
            then heard.(cur := SEND_MAIL_FROM, prev := c.cur, attempt := 0)
            else heard.(cur := SMTP_ERROR)
  {
    var (hangsUp, taken) := (HangsUp(c.cur, i.reply), Verdict(c.cur, i.reply, c.domain) >= 0);
    EhloTaken(i.reply, c.domain);
    EhloStep(c, i, hangsUp, taken);
  }

  /** The replies to MAIL and RCPT are accepted exactly when they start with "250 Ok" and CRLF, that to DATA when it
      starts with 354. */
  lemma TransactionLeads(c: Conn, i: Input)
    requires Heard(c, i) && RECEIVE_MAIL_FROM_RESPONSE <= c.cur <= RECEIVE_DATA_RESPONSE
    ensures var (d, reply) := (Step(c, i).0, i.reply);
            var accepted := (if c.cur == RECEIVE_DATA_RESPONSE then "354" else "250 Ok\r\n") <= reply;
            d == if accepted then c.(cur := c.cur + 1, prev := c.cur, log := c.log + [Got(reply)])
                 else c.(cur := SMTP_ERROR, log := c.log + [Got(reply)])
  {
    HeardStep(c, i);
    CodeIs(i.reply, 250, "250");
    CodeIs(i.reply, 354, "354");
    OkStarts(i.reply);
  }

  lemma OkStarts(reply: string)
    ensures OkLine(reply) ==> "250" <= reply
    ensures OkWord(reply) ==> "250" <= reply
  {
    assert OkLine(reply) ==> reply[..3] == "250 Ok\r\n"[..3];
    assert OkWord(reply) ==> reply[..3] == "250 Ok"[..3];
  }

  /** The letter is accepted exactly when the reply starts with "250 Ok": then it is filed, and the next letter follows
      with a fresh attempt, or QUIT, once the domain is forgotten. */
  lemma LetterLeads(c: Conn, i: Input)
    requires Heard(c, i) && c.cur == RECEIVE_LETTER_RESPONSE && c.pool != []
    ensures var (d, heard) := (Step(c, i).0, c.log + [Got(i.reply)]);
            var filed := heard + [Moved(c.pool[0], Current)];
            d == if !("250 Ok" <= i.reply) then c.(cur := SMTP_ERROR, log := heard)
                 else if |c.pool| > 1 then
                   c.(cur := SEND_MAIL_FROM, prev := c.cur, log := filed, pool := c.pool[1..], attempt := 0)
                 else c.(cur := SEND_QUIT, prev := c.cur, log := filed + [Forgot(c.domain)], pool := [])
  {
    HeardStep(c, i);
    CodeIs(i.reply, 250, "250");
    OkStarts(i.reply);
    assert |c.pool| == 1 ==> c.pool[1..] == [];
  }

  /** QUIT is answered by 221, RSET by 200 or 250. */
  lemma FarewellLeads(c: Conn, i: Input)
    requires Heard(c, i) && (c.cur == RECEIVE_QUIT_RESPONSE || c.cur == RECEIVE_RSET_RESPONSE)
    ensures var (d, reply) := (Step(c, i).0, i.reply);
            var accepted := if c.cur == RECEIVE_QUIT_RESPONSE then "221" <= reply else "200" <= reply || "250" <= reply;
            var next := if c.cur == RECEIVE_QUIT_RESPONSE then DISPOSING_SOCKET
                        else if c.pool != [] then SEND_MAIL_FROM else SEND_QUIT;
            d == if accepted then c.(cur := next, prev := c.cur, log := c.log + [Got(reply)])
                 else c.(cur := SMTP_ERROR, log := c.log + [Got(reply)])
  {
    HeardStep(c, i);
    CodeIs(i.reply, 221, "221");
    CodeIs(i.reply, 200, "200");
    CodeIs(i.reply, 250, "250");
  }

  // --------------------------------------------------------------------- sends

  lemma CommandSteps(c: Conn, i: Input)
    requires InOrder(c) && Sends(c.cur) && c.cur != SEND_MAIL_FROM && c.cur != SEND_LETTER
    ensures i.io == WouldBlock ==> Step(c, i) == (c, 1)
    ensures i.io == Broken ==> Step(c, i).0 == c.(cur := SMTP_ERROR)
    ensures i.io == Done ==> Step(c, i).0 == c.(cur := c.cur + 1, prev := c.cur, log := c.log + [Sent(CommandOf(c))])
  {
    assert Step(c, i) == SendStep(c, i);
  }

  lemma CommandTexts(c: Conn)
    requires c.cur == SEND_RCPT_TO ==> c.meta.Some?
    ensures Wire(CommandOf(c))
            == if c.cur == SEND_EHLO then "EHLO samsung-np530u4c\r\n"
               else if c.cur == SEND_RCPT_TO then "RCPT To: <" + c.meta.value.to + ">\r\n"
               else if c.cur == SEND_DATA then "DATA\r\n\0"
               else if c.cur == SEND_QUIT then "QUIT\r\n"
               else "RSET\r\n"
  {
  }

  /** The one send of EHLO, RCPT, DATA, QUIT and RSET: what goes out, and what its failures leave. */
  lemma CommandGoes(c: Conn, i: Input)
    requires InOrder(c) && Sends(c.cur) && c.cur != SEND_MAIL_FROM && c.cur != SEND_LETTER
    requires c.cur == SEND_RCPT_TO ==> c.meta.Some?
    ensures i.io == WouldBlock ==> Step(c, i) == (c, 1)
    ensures i.io == Broken ==> Step(c, i).0 == c.(cur := SMTP_ERROR)
    ensures i.io == Done ==> exists m: Command ::
              && Step(c, i).0 == c.(cur := c.cur + 1, prev := c.cur, log := c.log + [Sent(m)])
              && Wire(m)
                 == if c.cur == SEND_EHLO then "EHLO samsung-np530u4c\r\n"
                    else if c.cur == SEND_RCPT_TO then "RCPT To: <" + c.meta.value.to + ">\r\n"
                    else if c.cur == SEND_DATA then "DATA\r\n\0"
                    else if c.cur == SEND_QUIT then "QUIT\r\n"
                    else "RSET\r\n"
  {
    CommandSteps(c, i);
    CommandTexts(c);
  }

  /** MAIL for the first letter, unless its headers cannot be read; every failure names MAIL as the failed state. */
  lemma MailGoes(c: Conn, i: Input)
    requires InOrder(c) && c.cur == SEND_MAIL_FROM && c.pool != []
    ensures var (d, l) := (Step(c, i).0, c.pool[0]);
            var known := c.(meta := Some(Meta(l.from, l.to)));
            && (!i.metaFound ==> d == c.(cur := SMTP_ERROR, prev := SEND_MAIL_FROM, meta := None))
            && (i.metaFound && i.io == Broken ==> d == known.(cur := SMTP_ERROR, prev := SEND_MAIL_FROM))
            && (i.metaFound && i.io == WouldBlock ==> Step(c, i) == (known, 1))
            && (i.metaFound && i.io == Done ==>
                  && |d.log| == |c.log| + 1 && d.log[|c.log|].Sent?
                  && d == known.(cur := RECEIVE_MAIL_FROM_RESPONSE, prev := SEND_MAIL_FROM,
                                 log := c.log + [d.log[|c.log|]])
                  && Wire(d.log[|c.log|].command) == "MAIL FROM:<" + l.from + ">\r\n")
  {
    assert Step(c, i) == SendStep(c, i);
  }

  /** A letter that cannot be opened is not sent; one that is sent to its end is closed with CRLF, a dot and CRLF. */
  lemma LetterGoes(c: Conn, i: Input)
    requires InOrder(c) && c.cur == SEND_LETTER && c.pool != []
    ensures var d := Step(c, i).0;
            && (c.file.None? && !i.fileOpens ==> d == c.(cur := SMTP_ERROR))
            && (d.cur == RECEIVE_LETTER_RESPONSE ==>
                  && d.prev == SEND_LETTER && d.file == None && Step(c, i).1 == 0
                  && d.log != [] && d.log[|d.log| - 1].Sent? && Wire(d.log[|d.log| - 1].command) == "\r\n.\r\n")
            && (d.cur == SEND_LETTER ==> Step(c, i).1 == 1 && d.file.Some?)
            && (d.cur == RECEIVE_LETTER_RESPONSE || d.cur == SEND_LETTER || d.cur == SMTP_ERROR)
            && d.pool == c.pool && d.attempt == c.attempt && d.meta == c.meta
  {
    assert Step(c, i) == SendStep(c, i);
  }

  // ------------------------------------------------------- errors and disposal

  /** The error handler: failures around the session end it, failures of a transaction are met with RSET, and in the
      remaining states nothing changes. */
  lemma ErrorLeads(c: Conn, i: Input)
    requires c.cur == SMTP_ERROR && !c.crashed
    ensures var d := Step(c, i).0;
            if c.prev in {PREPARE_SOCKET_CONNECTION, RECEIVE_SMTP_GREETING, SEND_EHLO, RECEIVE_EHLO_RESPONSE,
                          SEND_QUIT, RECEIVE_QUIT_RESPONSE, SEND_RSET, RECEIVE_RSET_RESPONSE} then
              && d == c.(cur := DISPOSING_SOCKET, prev := SMTP_ERROR, pool := [], file := None, log := d.log)
              && |d.log| == |c.log| + 1 + |c.pool| && d.log[..|c.log|] == c.log && d.log[|c.log|] == Forgot(c.domain)
              && forall k | 0 <= k < |c.pool| :: d.log[|c.log| + 1 + k] == Moved(c.pool[k], New)
            else if c.prev in {SEND_MAIL_FROM, RECEIVE_MAIL_FROM_RESPONSE, SEND_DATA, RECEIVE_DATA_RESPONSE,
                               SEND_LETTER, RECEIVE_LETTER_RESPONSE} then
              if c.attempt == 0 then
                d == c.(cur := SEND_RSET, prev := SMTP_ERROR, attempt := 1, meta := None, file := None)
              else if c.pool == [] then d == c.(crashed := true)
              else
                d == c.(cur := SEND_RSET, prev := SMTP_ERROR, file := None, pool := c.pool[1..],
                        log := c.log + [Moved(c.pool[0], New)])
            else d == c
  {
  }

  /** Disposal is refused after any other state. */
  lemma DisposalLeads(c: Conn, i: Input)
    requires c.cur == DISPOSING_SOCKET && !c.crashed
    ensures Step(c, i).0 ==
            if c.prev in {RECEIVE_QUIT_RESPONSE, SMTP_ERROR, PREPARE_SOCKET_CONNECTION}
            then c.(cur := NULL_POINTER, prev := DISPOSING_SOCKET, meta := None)
            else c.(cur := SMTP_ERROR)
  {
  }

  /** Only an unprepared connection is prepared; a connection in progress waits, one that fails stays unprepared. */
  lemma PreparationLeads(c: Conn, i: Input)
    requires c.cur == PREPARE_SOCKET_CONNECTION && !c.crashed
    ensures var (d, status) := Step(c, i);
            var prepared := c.(cur := RECEIVE_SMTP_GREETING, prev := PREPARE_SOCKET_CONNECTION);
            && (c.prev != NULL_POINTER ==> (d, status) == (c, -1))
            && (c.prev == NULL_POINTER && i.connecting == Connected ==> (d, status) == (prepared, 0))
            && (c.prev == NULL_POINTER && i.connecting == InProgress ==> (d, status) == (prepared, 1))
            && (c.prev == NULL_POINTER && i.connecting.Unprepared? ==> d == c && status < 0)
  {
  }
}
