/**
 When a connection gives up its domain's dictionary record: with the last letter of its pool, and when an error ends the
 session. Read off the log of any connection, also of one whose pool a worker extends and cuts.
 */
module ConnectionForgets {
  import opened Text
  import opened Outcomes
  import opened Connection
  import opened ConnectionRuns

  /** A connection forgets no domain but its own. */
  predicate OwnForgets(log: seq<Action>, domain: string) {
    forall k | 0 <= k < |log| :: log[k].Forgot? ==> log[k] == Forgot(domain)
  }

  predicate HasForgot(log: seq<Action>) { exists k :: 0 <= k < |log| && log[k].Forgot? }

  /** The log ends in the filing of the last letter, the forgetting and then `n` more actions. */
  predicate EmptiedBefore(log: seq<Action>, domain: string, n: nat) {
    |log| >= n + 2 && log[|log| - n - 1] == Forgot(domain) && Files(log[|log| - n - 2])
  }

  predicate QuitSent(log: seq<Action>, domain: string) {
    EmptiedBefore(log, domain, 1) && log[|log| - 1] == Sent(Quit)
  }

  /** The log ends with QUIT and its answer, right after the last letter was filed and the domain forgotten. */
  predicate LeftByQuit(log: seq<Action>, domain: string) {
    && EmptiedBefore(log, domain, 2) && log[|log| - 2] == Sent(Quit)
    && log[|log| - 1].Got? && "221" <= log[|log| - 1].text
  }

  predicate ForgotAt(log: seq<Action>, domain: string, k: nat) {
    && k < |log| && log[k] == Forgot(domain)
    && forall j | k < j < |log| :: log[j].Moved? && log[j].folder == New
  }

  /** After the last forgetting the log only returns letters. */
  predicate LeftByError(log: seq<Action>, domain: string) { exists k: nat | k < |log| :: ForgotAt(log, domain, k) }

  /** Where a disposal, or the way to it, stands in the log. */
  predicate ForgetSound(c: Conn) {
    && OwnForgets(c.log, c.domain)
    && (c.cur == RECEIVE_SMTP_GREETING ==> c.log == [])
    && (c.cur == SEND_QUIT && c.prev == RECEIVE_LETTER_RESPONSE ==> EmptiedBefore(c.log, c.domain, 0))
    && (c.cur == RECEIVE_QUIT_RESPONSE ==> QuitSent(c.log, c.domain))
    && (c.cur == DISPOSING_SOCKET && c.prev == PREPARE_SOCKET_CONNECTION ==> TurnedAway(c))
    && (c.cur == DISPOSING_SOCKET && c.prev == RECEIVE_QUIT_RESPONSE ==> LeftByQuit(c.log, c.domain))
    && (c.cur == DISPOSING_SOCKET && c.prev == SMTP_ERROR ==> LeftByError(c.log, c.domain))
    && (Disposed(c) ==> TurnedAway(c) || LeftByQuit(c.log, c.domain) || LeftByError(c.log, c.domain))
  }

  lemma OwnMore(log: seq<Action>, more: seq<Action>, domain: string)
    requires OwnForgets(log, domain) && forall k | 0 <= k < |more| :: more[k].Forgot? ==> more[k] == Forgot(domain)
    ensures OwnForgets(log + more, domain)
  {
  }

  // -------------------------------------------------------------- every step

  lemma ForgetLetter(c: Conn, i: Input)
    requires InTable(c.cur, c.prev) && !c.crashed && c.cur == SEND_LETTER && ForgetSound(c)
    ensures ForgetSound(LetterStep(c, i).0)
  {
    if c.pool != [] {
      var ts := SpeechOf(c, i).tries;
      OwnMore(c.log, Tried(ts), c.domain);
      OwnMore(c.log + Tried(ts), [Sent(EndOfLetter)], c.domain);
    }
  }

  lemma ForgetMail(c: Conn, i: Input)
    requires InTable(c.cur, c.prev) && !c.crashed && c.cur == SEND_MAIL_FROM && ForgetSound(c)
    ensures ForgetSound(MailStep(c, i).0)
  {
  }

  lemma ForgetCommand(c: Conn, i: Input, m: Command)
    requires InTable(c.cur, c.prev) && !c.crashed && Sends(c.cur) && c.cur != SEND_LETTER && c.cur != SEND_MAIL_FROM
    requires ForgetSound(c) && (c.cur == SEND_QUIT ==> m == Quit)
    ensures !Follows(c.cur, c.prev) ==> ForgetSound(Refuse(c, -1).0)
    ensures Follows(c.cur, c.prev) ==> ForgetSound(CommandStep(c, i, m).0)
  {
    OwnMore(c.log, [Sent(m)], c.domain);
  }

  lemma ForgetFiling(c: Conn, reply: string)
    requires c.cur == RECEIVE_LETTER_RESPONSE && c.prev == SEND_LETTER && !c.crashed && ForgetSound(c)
    ensures ForgetSound(AcceptStep(Note(c, Got(reply))).0)
  {
    OwnMore(c.log, [Got(reply)], c.domain);
    if c.pool != [] {
      OwnMore(c.log + [Got(reply)], [Moved(c.pool[0], Current)], c.domain);
      OwnMore(c.log + [Got(reply)] + [Moved(c.pool[0], Current)], [Forgot(c.domain)], c.domain);
    }
  }

  lemma ForgetRefused(c: Conn, reply: string)
    requires InTable(c.cur, c.prev) && !c.crashed && Receives(c.cur) && ForgetSound(c)
    ensures ForgetSound(Refuse(Note(c, Got(reply)), -1).0)
    ensures HangsUp(c.cur, reply) ==> ForgetSound(Note(c, Got(reply)).(cur := DISPOSING_SOCKET))
  {
    OwnMore(c.log, [Got(reply)], c.domain);
  }

  lemma ForgetAccepted(c: Conn, reply: string)
    requires InTable(c.cur, c.prev) && !c.crashed && Receives(c.cur) && ForgetSound(c)
    requires c.cur == RECEIVE_QUIT_RESPONSE ==> "221" <= reply
    ensures ForgetSound(AcceptStep(Note(c, Got(reply))).0)
  {
    if c.cur == RECEIVE_LETTER_RESPONSE {
      ForgetFiling(c, reply);
    } else {
      OwnMore(c.log, [Got(reply)], c.domain);
    }
  }

  lemma ForgetReply(c: Conn, reply: string, hangsUp: bool, verdict: int)
    requires InTable(c.cur, c.prev) && !c.crashed && Receives(c.cur) && ForgetSound(c)
    requires hangsUp == HangsUp(c.cur, reply)
    requires c.cur == RECEIVE_QUIT_RESPONSE && verdict >= 0 ==> "221" <= reply
    ensures ForgetSound(ReplyStep(c, reply, hangsUp, verdict).0)
  {
    if hangsUp || verdict < 0 {
      ForgetRefused(c, reply);
    } else {
      ForgetAccepted(c, reply);
    }
  }

  lemma ForgetRecovering(c: Conn)
    requires InTable(c.cur, c.prev) && !c.crashed && c.cur == SMTP_ERROR && ForgetSound(c)
    ensures ForgetSound(RecoverStep(c).0)
  {
    if Unsolvable(c.prev) {
      var log := c.log + [Forgot(c.domain)] + ReturnAll(c.pool);
      assert ForgotAt(log, c.domain, |c.log|);
    }
  }

  /** In every step, whatever its input, forgetting stays where it belongs. */
  lemma ForgetKept(c: Conn, i: Input)
    requires InTable(c.cur, c.prev) && ForgetSound(c)
    ensures ForgetSound(Step(c, i).0)
  {
    if c.crashed {
    } else if c.cur == SMTP_ERROR {
      ForgetRecovering(c);
    } else if c.cur == SEND_LETTER {
      ForgetLetter(c, i);
    } else if c.cur == SEND_MAIL_FROM {
      ForgetMail(c, i);
    } else if Sends(c.cur) {
      ForgetCommand(c, i, CommandOf(c));
    } else if Receives(c.cur) && i.io == Done {
      var hangsUp, verdict := HangsUp(c.cur, i.reply), Verdict(c.cur, i.reply, c.domain);
      CodeIs(i.reply, 221, "221");
      ForgetReply(c, i.reply, hangsUp, verdict);
      assert Step(c, i) == ReceiveStep(c, i) == ReplyStep(c, i.reply, hangsUp, verdict);
    }
  }

  /** A disposed connection forgot its domain, and did nothing afterwards but return letters or say goodbye, unless the
      server turned it away with a 421 greeting: then it did not. */
  lemma DisposalForgets(c: Conn)
    requires Disposed(c) && ForgetSound(c)
    ensures HasForgot(c.log) <==> !TurnedAway(c)
    ensures HasForgot(c.log) <==> LeftByQuit(c.log, c.domain) || LeftByError(c.log, c.domain)
    ensures OwnForgets(c.log, c.domain)
  {
    if LeftByQuit(c.log, c.domain) {
      assert c.log[|c.log| - 3].Forgot?;
    } else if LeftByError(c.log, c.domain) {
      var k: nat :| k < |c.log| && ForgotAt(c.log, c.domain, k);
      assert c.log[k].Forgot?;
    }
  }
}
