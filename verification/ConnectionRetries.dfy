/**
 When a letter gets another try. `attempt` is cleared after EHLO and when a letter is filed that leaves another in the
 pool, and set by the first failure after that; it is not cleared when a letter is returned. So whether a failed
 transaction is tried again depends on what happened to the letters before it, and is read off the log here.
 */
module ConnectionRetries {
  import opened Text
  import opened Outcomes
  import opened Connection
  import opened ConnectionRuns

  /** The last letter of the pool was just filed: `attempt` stays what it is. */
  predicate JustEmptied(log: seq<Action>) {
    |log| >= 2 && log[|log| - 1].Forgot? && Files(log[|log| - 2])
  }

  /** An RSET was sent since a letter was last filed that left another in the pool. */
  predicate Spent(log: seq<Action>) {
    if log == [] then false
    else
      var a := log[|log| - 1];
      if a == Sent(Rset) then true
      else if Files(a) then false
      else Spent(log[..|log| - if JustEmptied(log) then 2 else 1])
  }

  /** The last letter moved was returned. */
  predicate LastReturned(log: seq<Action>) {
    log != [] &&
    var a := log[|log| - 1];
    if a.Moved? then a.folder == New else LastReturned(log[..|log| - 1])
  }

  /** The first RSET of a retry is still to be sent. */
  predicate Resetting(c: Conn) {
    c.cur == SEND_RSET || (c.cur == SMTP_ERROR && c.prev == SMTP_ERROR)
  }

  /** Past EHLO and before disposal `attempt` is 1 exactly when a try is spent, by the log or by the RSET under way; and
      a returned letter leaves it spent. */
  predicate RetrySound(c: Conn) {
    if Early(c) then !Spent(c.log) && !LastReturned(c.log)
    else
      !Disposed(c) && c.cur != DISPOSING_SOCKET ==>
        && c.attempt == (if Spent(c.log) || Resetting(c) then 1 else 0)
        && (LastReturned(c.log) ==> Spent(c.log))
  }

  /** An action of no consequence for tries. */
  predicate Plain(a: Action) {
    a != Sent(Rset) && !a.Moved? && !a.Forgot?
  }

  lemma SpentOne(log: seq<Action>, a: Action)
    ensures Plain(a) ==> Spent(log + [a]) == Spent(log)
    ensures Files(a) ==> !Spent(log + [a])
    ensures a.Moved? && a.folder == New ==> Spent(log + [a]) == Spent(log)
    ensures a == Sent(Rset) ==> Spent(log + [a])
    ensures LastReturned(log + [a]) == if a.Moved? then a.folder == New else LastReturned(log)
  {
    assert (log + [a])[..|log|] == log;
  }

  lemma SpentEmptied(log: seq<Action>, l: Letter, domain: string)
    ensures var log' := log + [Moved(l, Current)] + [Forgot(domain)];
            Spent(log') == Spent(log) && !LastReturned(log')
  {
    var log' := log + [Moved(l, Current)] + [Forgot(domain)];
    assert JustEmptied(log') && log'[..|log'| - 2] == log;
    SpentOne(log, Moved(l, Current));
    SpentOne(log + [Moved(l, Current)], Forgot(domain));
  }

  lemma {:induction false} SpentTried(log: seq<Action>, ts: seq<Try>)
    ensures Spent(log + Tried(ts)) == Spent(log) && LastReturned(log + Tried(ts)) == LastReturned(log)
  {
    if ts == [] {
      assert log + Tried(ts) == log;
    } else {
      var n := |ts| - 1;
      SpentTried(log, ts[..n]);
      TriedLast(log, ts);
      SpentOne(log + Tried(ts[..n]), Tried(ts)[n]);
    }
  }

  // ------------------------------------------------------------ every step

  lemma RetryLetter(c: Conn, i: Input)
    requires InTable(c.cur, c.prev) && !c.crashed && c.cur == SEND_LETTER && RetrySound(c)
    ensures RetrySound(LetterStep(c, i).0)
  {
    if c.pool != [] && (c.file.Some? || i.fileOpens) {
      var ts := SpeechOf(c, i).tries;
      SpentTried(c.log, ts);
      SpentOne(c.log + Tried(ts), Sent(EndOfLetter));
    }
  }

  lemma RetryMail(c: Conn, i: Input)
    requires InTable(c.cur, c.prev) && !c.crashed && c.cur == SEND_MAIL_FROM && RetrySound(c)
    ensures RetrySound(MailStep(c, i).0)
  {
    if c.pool != [] {
      SpentOne(c.log, Sent(Mail(c.pool[0].from)));
    }
  }

  lemma RetryCommand(c: Conn, i: Input, m: Command)
    requires InTable(c.cur, c.prev) && !c.crashed && Sends(c.cur) && c.cur != SEND_LETTER && c.cur != SEND_MAIL_FROM
    requires RetrySound(c) && (m == Rset <==> c.cur == SEND_RSET)
    ensures !Follows(c.cur, c.prev) ==> RetrySound(Refuse(c, -1).0)
    ensures Follows(c.cur, c.prev) ==> RetrySound(CommandStep(c, i, m).0)
  {
    SpentOne(c.log, Sent(m));
  }

  lemma RetryFiling(c: Conn)
    requires c.cur == RECEIVE_LETTER_RESPONSE && c.prev == SEND_LETTER && !c.crashed && RetrySound(c)
    ensures RetrySound(AcceptStep(c).0)
  {
    if c.pool != [] {
      SpentOne(c.log, Moved(c.pool[0], Current));
      SpentEmptied(c.log, c.pool[0], c.domain);
    }
  }

  lemma RetryReply(c: Conn, reply: string, hangsUp: bool, verdict: int)
    requires InTable(c.cur, c.prev) && !c.crashed && Receives(c.cur) && RetrySound(c)
    requires hangsUp == HangsUp(c.cur, reply)
    ensures RetrySound(ReplyStep(c, reply, hangsUp, verdict).0)
  {
    SpentOne(c.log, Got(reply));
    var c1 := Note(c, Got(reply));
    assert RetrySound(c1);
    if !hangsUp && verdict >= 0 && c.cur == RECEIVE_LETTER_RESPONSE {
      RetryFiling(c1);
    }
  }

  lemma RetryRecovering(c: Conn)
    requires InTable(c.cur, c.prev) && !c.crashed && c.cur == SMTP_ERROR && RetrySound(c)
    ensures RetrySound(RecoverStep(c).0)
  {
    if c.pool != [] {
      SpentOne(c.log, Moved(c.pool[0], New));
    }
  }

  /** The count of tries stays right in every step of any connection in the table, whatever its input. */
  lemma RetryKept(c: Conn, i: Input)
    requires InTable(c.cur, c.prev) && RetrySound(c)
    ensures RetrySound(Step(c, i).0)
  {
    if c.crashed {
    } else if c.cur == SMTP_ERROR {
      RetryRecovering(c);
    } else if c.cur == SEND_LETTER {
      RetryLetter(c, i);
    } else if c.cur == SEND_MAIL_FROM {
      RetryMail(c, i);
    } else if Sends(c.cur) {
      RetryCommand(c, i, CommandOf(c));
    } else if Receives(c.cur) && i.io == Done {
      var hangsUp, verdict := HangsUp(c.cur, i.reply), Verdict(c.cur, i.reply, c.domain);
      RetryReply(c, i.reply, hangsUp, verdict);
      assert ReceiveStep(c, i) == ReplyStep(c, i.reply, hangsUp, verdict);
    }
  }
}
