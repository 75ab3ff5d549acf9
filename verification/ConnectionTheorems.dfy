/** The main results about one client connection: whole runs from an open socket, with arbitrary inputs. */
module ConnectionTheorems {
  import opened Text
  import opened Outcomes
  import opened Connection
  import opened ConnectionRuns
  import opened ConnectionRetries
  import opened ConnectionForgets

  // ------------------------------------------------------------ all invariants

  ghost predicate Sound(c: Conn, initial: seq<Letter>) {
    && ControlSound(c)
    && Handed(c.log) + c.pool == initial
    && TranscriptSound(c) && FiledSound(c.log)
    && RetrySound(c) && OffersSound(c) && ForgetSound(c)
  }

  /** How often the letter now first in the pool has been offered: MAIL commands since the last move. */
  function Offers(log: seq<Action>): nat {
    if log == [] then 0
    else
      var a := log[|log| - 1];
      if a.Moved? then 0
      else Offers(log[..|log| - 1]) + if a.Sent? && a.command.Mail? then 1 else 0
  }

  predicate OffersSound(c: Conn) {
    && (Early(c) ==> Offers(c.log) == 0)
    && (c.cur == SEND_MAIL_FROM || c.cur == SEND_RSET || c.cur == RECEIVE_RSET_RESPONSE ==> Offers(c.log) <= c.attempt)
    && (SEND_MAIL_FROM < c.cur <= RECEIVE_LETTER_RESPONSE ==> Offers(c.log) <= c.attempt + 1)
    && (c.cur == SMTP_ERROR && SEND_MAIL_FROM <= c.prev <= SEND_LETTER ==> Offers(c.log) <= c.attempt + 1)
    && (c.cur == SEND_QUIT || (c.cur == SMTP_ERROR && c.prev == RECEIVE_LETTER_RESPONSE) ==> Offers(c.log) <= 1)
    && Offers(c.log) <= 2
  }

  lemma OffersOne(log: seq<Action>, a: Action)
    ensures Offers(log + [a]) ==
            if a.Moved? then 0 else Offers(log) + if a.Sent? && a.command.Mail? then 1 else 0
  {
    assert (log + [a])[..|log|] == log;
  }

  lemma {:induction false} OffersKept(log: seq<Action>, more: seq<Action>)
    requires forall k | 0 <= k < |more| ::
               more[k].Moved? || more[k].Missed? || (more[k].Sent? && more[k].command.Chunk?)
    ensures Offers(log + more) <= Offers(log)
    ensures (forall k | 0 <= k < |more| :: !more[k].Moved?) ==> Offers(log + more) == Offers(log)
  {
    if more == [] {
      assert log + more == log;
    } else {
      var n := |more| - 1;
      OffersKept(log, more[..n]);
      assert log + more == log + more[..n] + [more[n]];
      OffersOne(log + more[..n], more[n]);
    }
  }

  lemma OffersLetter(c: Conn, i: Input)
    requires InTable(c.cur, c.prev) && RetrySound(c) && !c.crashed && c.cur == SEND_LETTER && OffersSound(c)
    ensures OffersSound(LetterStep(c, i).0)
  {
    if c.pool != [] {
      var ts := SpeechOf(c, i).tries;
      OffersKept(c.log, Tried(ts));
      OffersOne(c.log + Tried(ts), Sent(EndOfLetter));
    }
  }

  lemma OffersSame(c: Conn, d: Conn)
    requires c.cur == SEND_MAIL_FROM && 0 <= c.attempt <= 1 && OffersSound(c)
    requires d.log == c.log && d.attempt == c.attempt
    requires (d.cur == SEND_MAIL_FROM && d.prev == c.prev) || (d.cur == SMTP_ERROR && d.prev == SEND_MAIL_FROM)
    ensures OffersSound(d)
  {
  }

  lemma OffersMore(c: Conn, d: Conn, from: string)
    requires c.cur == SEND_MAIL_FROM && 0 <= c.attempt <= 1 && OffersSound(c)
    requires d.log == c.log + [Sent(Mail(from))] && d.attempt == c.attempt && d.cur == RECEIVE_MAIL_FROM_RESPONSE
    ensures OffersSound(d)
  {
    OffersOne(c.log, Sent(Mail(from)));
  }

  lemma OffersMail(c: Conn, i: Input)
    requires InTable(c.cur, c.prev) && RetrySound(c) && !c.crashed && c.cur == SEND_MAIL_FROM && OffersSound(c)
    ensures OffersSound(MailStep(c, i).0)
  {
    var d := MailStep(c, i).0;
    if d.cur == RECEIVE_MAIL_FROM_RESPONSE {
      OffersMore(c, d, c.pool[0].from);
    } else {
      OffersSame(c, d);
    }
  }

  lemma OffersCommand(c: Conn, i: Input, m: Command)
    requires InTable(c.cur, c.prev) && RetrySound(c) && !c.crashed && Sends(c.cur) && OffersSound(c) && !m.Mail?
    requires c.cur != SEND_LETTER && c.cur != SEND_MAIL_FROM
    ensures Follows(c.cur, c.prev) ==> OffersSound(CommandStep(c, i, m).0)
    ensures !Follows(c.cur, c.prev) ==> OffersSound(Refuse(c, -1).0)
  {
    OffersOne(c.log, Sent(m));
  }

  lemma OffersFiling(c: Conn)
    requires c.cur == RECEIVE_LETTER_RESPONSE && c.pool != []
    ensures OffersSound(AcceptStep(c).0)
  {
    OffersOne(c.log, Moved(c.pool[0], Current));
    OffersOne(c.log + [Moved(c.pool[0], Current)], Forgot(c.domain));
  }

  lemma OffersAccepted(c: Conn)
    requires InTable(c.cur, c.prev) && RetrySound(c) && !c.crashed && OffersSound(c)
    requires Receives(c.cur) && c.cur != RECEIVE_LETTER_RESPONSE
    ensures OffersSound(AcceptStep(c).0)
  {
  }

  lemma OffersRejected(c: Conn)
    requires InTable(c.cur, c.prev) && RetrySound(c) && !c.crashed && Receives(c.cur) && OffersSound(c)
    ensures OffersSound(Refuse(c, -1).0)
    ensures c.cur == RECEIVE_SMTP_GREETING || c.cur == RECEIVE_EHLO_RESPONSE ==>
              OffersSound(c.(cur := DISPOSING_SOCKET))
  {
  }

  lemma OffersReply(c: Conn, reply: string, hangsUp: bool, verdict: int)
    requires InTable(c.cur, c.prev) && RetrySound(c) && !c.crashed && Receives(c.cur) && OffersSound(c)
    requires hangsUp == HangsUp(c.cur, reply)
    ensures OffersSound(ReplyStep(c, reply, hangsUp, verdict).0)
  {
    OffersOne(c.log, Got(reply));
    var offers := Offers(c.log);
    if hangsUp || verdict < 0 {
      OffersRejected(c);
    } else if c.cur == RECEIVE_LETTER_RESPONSE {
      if c.pool != [] {
        OffersFiling(Note(c, Got(reply)));
      }
    } else {
      OffersAccepted(c);
      var (d, d') := (AcceptStep(c).0, AcceptStep(Note(c, Got(reply))).0);
      assert d' == d.(log := c.log + [Got(reply)]);
    }
  }

  lemma OffersRecovering(c: Conn)
    requires InTable(c.cur, c.prev) && RetrySound(c) && !c.crashed && c.cur == SMTP_ERROR && OffersSound(c)
    ensures OffersSound(RecoverStep(c).0)
  {
    OffersOne(c.log, Forgot(c.domain));
    OffersKept(c.log + [Forgot(c.domain)], ReturnAll(c.pool));
    if c.pool != [] {
      OffersOne(c.log, Moved(c.pool[0], New));
    }
  }

  lemma OffersMoving(c: Conn, i: Input)
    requires InTable(c.cur, c.prev) && RetrySound(c) && !c.crashed && OffersSound(c)
    requires Sends(c.cur) || Receives(c.cur)
    ensures OffersSound(Step(c, i).0)
  {
    if c.cur == SEND_LETTER {
      OffersLetter(c, i);
    } else if c.cur == SEND_MAIL_FROM {
      OffersMail(c, i);
    } else if Sends(c.cur) {
      OffersCommand(c, i, CommandOf(c));
    } else if i.io == Done {
      var hangsUp, verdict := HangsUp(c.cur, i.reply), Verdict(c.cur, i.reply, c.domain);
      OffersReply(c, i.reply, hangsUp, verdict);
      assert ReceiveStep(c, i) == ReplyStep(c, i.reply, hangsUp, verdict);
    }
  }

  lemma OffersStep(c: Conn, i: Input)
    requires InTable(c.cur, c.prev) && RetrySound(c) && OffersSound(c)
    ensures OffersSound(Step(c, i).0)
  {
    if c.crashed {
    } else if c.cur == SMTP_ERROR {
      OffersRecovering(c);
    } else if Sends(c.cur) || Receives(c.cur) {
      OffersMoving(c, i);
    }
  }

  /** Every invariant survives every control step, whatever its input. */
  lemma StepSound(c: Conn, i: Input, initial: seq<Letter>)
    requires Sound(c, initial)
    ensures Sound(Step(c, i).0, initial)
  {
    ControlKept(c, i);
    HandedKept(c, i);
    TranscriptKept(c, i);
    RetryKept(c, i);
    OffersStep(c, i);
    ForgetKept(c, i);
  }

  lemma {:induction false} RunSound(c: Conn, inputs: seq<Input>)
    requires Fresh(c)
    ensures Sound(Run(c, inputs), c.pool)
  {
    if inputs != [] {
      var n := |inputs| - 1;
      RunSound(c, inputs[..n]);
      StepSound(Run(c, inputs[..n]), inputs[n], c.pool);
    }
  }

  // ------------------------------------------------------------- conservation

  /** Letters are neither lost nor duplicated nor reordered: those moved, then those left, are the initial pool.
      A disposed connection has no letter left, unless its greeting was a 421: then it has every one of them. */
  lemma Conservation(c: Conn, inputs: seq<Input>)
    requires Fresh(c)
    ensures var d := Run(c, inputs);
            && Handed(d.log) + d.pool == c.pool
            && (Disposed(d) ==> d.pool == [] || (TurnedAway(d) && d.pool == c.pool))
  {
    RunSound(c, inputs);
    var d := Run(c, inputs);
    if TurnedAway(d) {
      assert d.log[..0] == [];
      assert Handed(d.log) == [];
    }
  }

  lemma {:induction false} HandedMembers(log: seq<Action>)
    ensures forall j | 0 <= j < |log| && log[j].Moved? :: log[j].letter in Handed(log)
  {
    if log != [] {
      var n := |log| - 1;
      HandedMembers(log[..n]);
      assert forall j | 0 <= j < n :: log[..n][j] == log[j];
    }
  }

  predicate Distinct(ls: seq<Letter>) {
    forall i, j | 0 <= i < j < |ls| :: ls[i] != ls[j]
  }

  lemma {:induction false} HandedApart(log: seq<Action>, i: nat, j: nat)
    requires Distinct(Handed(log)) && i < j < |log| && log[i].Moved? && log[j].Moved?
    ensures log[i].letter != log[j].letter
  {
    var n := |log| - 1;
    var before := Handed(log[..n]);
    assert forall k | 0 <= k < |before| :: Handed(log)[k] == before[k];
    assert log[..n][i] == log[i];
    if j < n {
      assert log[..n][j] == log[j];
      HandedApart(log[..n], i, j);
    } else {
      HandedMembers(log[..n]);
      var p :| 0 <= p < |before| && before[p] == log[i].letter;
      assert Handed(log)[p] != Handed(log)[|before|];
    }
  }

  /** No letter is moved twice, so none is both filed as sent and returned as new. */
  lemma MovedOnce(c: Conn, inputs: seq<Input>, i: nat, j: nat)
    requires Fresh(c) && Distinct(c.pool)
    requires var log := Run(c, inputs).log; i < j < |log| && log[i].Moved? && log[j].Moved?
    ensures var log := Run(c, inputs).log; log[i].letter != log[j].letter
  {
    Conservation(c, inputs);
    var log := Run(c, inputs).log;
    assert forall k | 0 <= k < |Handed(log)| :: c.pool[k] == Handed(log)[k];
    HandedApart(log, i, j);
  }

  // ------------------------------------------------------------- forgetting

  /** Over every run a connection forgets its own domain only; once disposed it has forgotten it, with nothing after
      that but returned letters or QUIT and its answer, if and only if it was not turned away by a 421 greeting. */
  lemma DisposedForgot(c: Conn, inputs: seq<Input>)
    requires Fresh(c)
    ensures var d := Run(c, inputs);
            && OwnForgets(d.log, d.domain)
            && (Disposed(d) ==>
                  && (HasForgot(d.log) <==> !TurnedAway(d))
                  && (HasForgot(d.log) <==> LeftByQuit(d.log, d.domain) || LeftByError(d.log, d.domain)))
  {
    RunSound(c, inputs);
    if Disposed(Run(c, inputs)) {
      DisposalForgets(Run(c, inputs));
    }
  }

  // ------------------------------------------------- filed means acknowledged

  lemma {:induction false} FiledPoint(log: seq<Action>, j: nat)
    requires FiledSound(log) && j < |log| && Files(log[j])
    ensures EndsAcknowledged(log[j].letter, log[..j])
  {
    var n := |log| - 1;
    if j < n {
      assert log[..n][j] == log[j] && log[..n][..j] == log[..j];
      FiledPoint(log[..n], j);
    }
  }

  /** A letter is filed as sent only right after an unbroken transaction for it: MAIL, 250 Ok, RCPT, 250 Ok, DATA,
      354, every chunk of its text in order, each sent or lost, the terminator, 250 Ok. */
  lemma FiledMeansAcknowledged(c: Conn, inputs: seq<Input>, j: nat)
    requires Fresh(c)
    requires var log := Run(c, inputs).log; j < |log| && Files(log[j])
    ensures var log := Run(c, inputs).log; EndsAcknowledged(log[j].letter, log[..j])
  {
    RunSound(c, inputs);
    FiledPoint(Run(c, inputs).log, j);
  }

  lemma AcknowledgedWhole(log: seq<Action>, j: nat)
    requires j < |log| && Files(log[j]) && EndsAcknowledged(log[j].letter, log[..j])
    ensures j >= 2
    ensures var (body, pieces) := (log[..j - 2], Pieces(log[j].letter.content, 0));
            && |SentText(body)| + LostText(body) == |pieces|
            && (SentText(body) == pieces <==> LostText(body) == 0)
  {
    var (l, before) := (log[j].letter, log[..j]);
    var x, reply :| Acknowledged(l, before, x, reply);
    AcknowledgedText(l, before, x, reply);
    assert before[..|before| - 2] == log[..j - 2];
  }

  /** Whether all of a filed letter's text was sent: the chunks sent since the 354 reply are all its chunks exactly when
      none of them was lost to a send that would block. */
  lemma FiledWhole(c: Conn, inputs: seq<Input>, j: nat)
    requires Fresh(c)
    requires var log := Run(c, inputs).log; j < |log| && Files(log[j])
    ensures j >= 2
    ensures var (body, pieces) := (Run(c, inputs).log[..j - 2], Pieces(Run(c, inputs).log[j].letter.content, 0));
            && |SentText(body)| + LostText(body) == |pieces|
            && (SentText(body) == pieces <==> LostText(body) == 0)
  {
    FiledMeansAcknowledged(c, inputs, j);
    AcknowledgedWhole(Run(c, inputs).log, j);
  }

  /** At most one retry: no letter is offered to the server more than twice. */
  lemma OfferedAtMostTwice(c: Conn, inputs: seq<Input>)
    requires Fresh(c)
    ensures Offers(Run(c, inputs).log) <= 2
  {
    RunSound(c, inputs);
  }

  // ----------------------------------------------------------- another try

  /** What the error handler does after a failed transaction, or a failed QUIT, is decided by the log: the letter is
      tried again exactly when no RSET was sent since the last filing that left another letter; else it is returned,
      or a null pointer followed if there is none. After a return this is so for every letter until one is filed. */
  predicate DecidedByLog(d: Conn, d': Conn) {
    && (d.attempt == 1 <==> Spent(d.log))
    && (d'.crashed <==> Spent(d.log) && d.pool == [])
    && (d'.log == d.log && d'.pool == d.pool && d'.cur == SEND_RSET <==> !Spent(d.log))
    && (d.pool != [] ==> (d'.log == d.log + [Moved(d.pool[0], New)] && d'.pool == d.pool[1..] <==> Spent(d.log)))
    && (LastReturned(d.log) ==> Spent(d.log))
  }

  lemma RecoveryDecided(d: Conn, i: Input)
    requires RetrySound(d) && !d.crashed && d.cur == SMTP_ERROR && Solvable(d.prev)
    ensures DecidedByLog(d, Step(d, i).0)
  {
  }

  /** Over every run of a connection. */
  lemma TriedAgain(c: Conn, inputs: seq<Input>, i: Input)
    requires Fresh(c)
    requires var d := Run(c, inputs); !d.crashed && d.cur == SMTP_ERROR && Solvable(d.prev)
    ensures DecidedByLog(Run(c, inputs), Step(Run(c, inputs), i).0)
  {
    RunSound(c, inputs);
    RecoveryDecided(Run(c, inputs), i);
  }

  // -------------------------------------------------------------- termination

  /** Errors the recovery does not treat: the connection stays where it is for ever. */
  predicate Stuck(c: Conn) {
    c.cur == SMTP_ERROR && (c.prev == SEND_RCPT_TO || c.prev == RECEIVE_RCPT_TO_RESPONSE || c.prev == SMTP_ERROR)
  }

  predicate Final(c: Conn) {
    c.crashed || Disposed(c) || Stuck(c)
  }

  const ROUND := 13

  /** Tries left for the letters in the pool. */
  function Tries(c: Conn): nat { 2 * |c.pool| + if c.attempt == 0 then 1 else 0 }

  /** An upper bound on the control steps, other than blocked ones, that remain: it falls first with the tries left,
      then along the transaction. It does not depend on how the pool came to be what it is. */
  function Measure(c: Conn): nat
    requires InTable(c.cur, c.prev)
  {
    if Final(c) then 0
    else if c.cur == DISPOSING_SOCKET then (if c.prev == SEND_EHLO then 3 else 1)
    else if c.cur == SMTP_ERROR && Unsolvable(c.prev) then 2
    else if c.cur == RECEIVE_QUIT_RESPONSE then 3
    else if Early(c) then ROUND * (2 * |c.pool| + 1) + 16 - c.cur
    else
      ROUND * Tries(c) +
      if c.cur == SMTP_ERROR then 1
      else if c.cur == SEND_QUIT then 4
      else if c.cur == SEND_RSET then 13
      else if c.cur == RECEIVE_RSET_RESPONSE then 12
      else 15 - c.cur
  }

  /** What one step does to the state pair and the measure, for every connection in the table. */
  predicate Advances(c: Conn, d: Conn, status: int)
    requires InTable(c.cur, c.prev)
  {
    && InTable(d.cur, d.prev)
    && (if status == 1 then Measure(d) == Measure(c) && d.cur == c.cur && !d.crashed else Measure(d) < Measure(c))
    && (status != 0 && status != 1 ==> d.crashed || d.cur == SMTP_ERROR)
  }

  lemma CommandAdvances(c: Conn, i: Input, m: Command)
    requires InTable(c.cur, c.prev) && !c.crashed && Sends(c.cur) && c.cur != SEND_LETTER && c.cur != SEND_MAIL_FROM
    ensures !Follows(c.cur, c.prev) ==> Advances(c, Refuse(c, -1).0, -1)
    ensures Follows(c.cur, c.prev) ==> Advances(c, CommandStep(c, i, m).0, CommandStep(c, i, m).1)
  {
  }

  lemma MailAdvances(c: Conn, i: Input)
    requires InTable(c.cur, c.prev) && !c.crashed && c.cur == SEND_MAIL_FROM
    ensures Advances(c, MailStep(c, i).0, MailStep(c, i).1)
  {
  }

  lemma LetterAdvances(c: Conn, i: Input)
    requires InTable(c.cur, c.prev) && !c.crashed && c.cur == SEND_LETTER
    ensures Advances(c, LetterStep(c, i).0, LetterStep(c, i).1)
  {
  }

  lemma ReplyAdvances(c: Conn, reply: string, hangsUp: bool, verdict: int)
    requires InTable(c.cur, c.prev) && !c.crashed && Receives(c.cur)
    requires hangsUp == HangsUp(c.cur, reply)
    ensures var (d, status) := ReplyStep(c, reply, hangsUp, verdict); status != 1 && Advances(c, d, status)
  {
  }

  lemma RecoveryAdvances(c: Conn)
    requires InTable(c.cur, c.prev) && !Final(c) && c.cur == SMTP_ERROR
    ensures Advances(c, RecoverStep(c).0, RecoverStep(c).1)
  {
  }

  lemma SendAdvances(c: Conn, i: Input)
    requires InTable(c.cur, c.prev) && !c.crashed && Sends(c.cur)
    ensures Advances(c, SendStep(c, i).0, SendStep(c, i).1)
  {
    if c.cur == SEND_LETTER {
      LetterAdvances(c, i);
    } else if c.cur == SEND_MAIL_FROM {
      MailAdvances(c, i);
    } else {
      CommandAdvances(c, i, CommandOf(c));
    }
  }

  lemma ReceiveAdvances(c: Conn, i: Input)
    requires InTable(c.cur, c.prev) && !c.crashed && Receives(c.cur)
    ensures Advances(c, ReceiveStep(c, i).0, ReceiveStep(c, i).1)
  {
    if i.io == Done {
      var hangsUp, verdict := HangsUp(c.cur, i.reply), Verdict(c.cur, i.reply, c.domain);
      ReplyAdvances(c, i.reply, hangsUp, verdict);
      assert ReceiveStep(c, i) == ReplyStep(c, i.reply, hangsUp, verdict);
    }
  }

  /** A step that does not block uses up the measure; only final connections have measure 0, and they never change. */
  lemma StepAdvances(c: Conn, i: Input)
    requires InTable(c.cur, c.prev)
    ensures Measure(c) == 0 <==> Final(c)
    ensures Final(c) ==> Step(c, i).0 == c
    ensures !Final(c) ==> Advances(c, Step(c, i).0, Step(c, i).1)
  {
    if !Final(c) {
      if c.cur == SMTP_ERROR {
        RecoveryAdvances(c);
      } else if Sends(c.cur) {
        SendAdvances(c, i);
        assert Step(c, i) == SendStep(c, i);
      } else if Receives(c.cur) {
        ReceiveAdvances(c, i);
        assert Step(c, i) == ReceiveStep(c, i);
      }
    }
  }

  /** The steps of a run that neither block nor start from a final connection. */
  function Progress(c: Conn, inputs: seq<Input>): nat {
    if inputs == [] then 0
    else
      var n := |inputs| - 1;
      var d := Run(c, inputs[..n]);
      Progress(c, inputs[..n]) + if Final(d) || Step(d, inputs[n]).1 == 1 then 0 else 1
  }

  function Bound(n: nat): nat { ROUND * (2 * n + 1) + 15 }

  /** With n letters at most 13(2n + 1) + 15 steps make progress. Once that many have, the connection is disposed,
      has crashed, or is stuck; and a final connection stays as it is. */
  lemma {:induction false} Termination(c: Conn, inputs: seq<Input>)
    requires Fresh(c)
    ensures InTable(Run(c, inputs).cur, Run(c, inputs).prev)
    ensures Progress(c, inputs) + Measure(Run(c, inputs)) <= Bound(|c.pool|)
    ensures Progress(c, inputs) <= Bound(|c.pool|)
    ensures Progress(c, inputs) == Bound(|c.pool|) ==> Final(Run(c, inputs))
    ensures inputs != [] && Final(Run(c, inputs[..|inputs| - 1])) ==> Run(c, inputs) == Run(c, inputs[..|inputs| - 1])
  {
    RunSound(c, inputs);
    if inputs != [] {
      var n := |inputs| - 1;
      RunSound(c, inputs[..n]);
      Termination(c, inputs[..n]);
      StepAdvances(Run(c, inputs[..n]), inputs[n]);
      StepAdvances(Run(c, inputs), inputs[n]);
    }
  }

  // ---------------------------------------------------- reachable control states

  /** Every run stays in the table; past EHLO `attempt` is 0 or 1; a letter is there in every transaction state; and
      the error handler leaves a connection unchanged exactly when it is stuck. */
  lemma ReachableStates(c: Conn, inputs: seq<Input>)
    requires Fresh(c)
    ensures var d := Run(c, inputs);
            && InTable(d.cur, d.prev)
            && (SEND_MAIL_FROM <= d.cur <= RECEIVE_QUIT_RESPONSE ==> d.attempt == 0 || d.attempt == 1)
            && (InTransaction(d.cur) ==> d.pool != [])
            && (!d.crashed && d.cur == SMTP_ERROR ==>
                  (!RecoverStep(d).0.crashed && RecoverStep(d).0 == d <==> Stuck(d)))
  {
    RunSound(c, inputs);
  }

  /** The one null pointer a run can follow: recovery after QUIT could not be sent, when an RSET was sent since the last
      filing that left another letter. */
  lemma OnlyCrash(c: Conn, inputs: seq<Input>, i: Input)
    requires Fresh(c)
    ensures var d := Run(c, inputs);
            !d.crashed ==>
              (Step(d, i).0.crashed <==> d.cur == SMTP_ERROR && d.prev == RECEIVE_LETTER_RESPONSE && Spent(d.log))
  {
    RunSound(c, inputs);
    var d := Run(c, inputs);
    if !d.crashed {
      CrashPoint(d, i);
    }
  }

  lemma CrashPoint(d: Conn, i: Input)
    requires ControlSound(d) && RetrySound(d) && !d.crashed
    ensures Step(d, i).0.crashed <==> d.cur == SMTP_ERROR && d.prev == RECEIVE_LETTER_RESPONSE && Spent(d.log)
  {
    if Sends(d.cur) {
      if d.cur != SEND_LETTER && d.cur != SEND_MAIL_FROM {
        assert !CommandStep(d, i, CommandOf(d)).0.crashed;
      }
    } else if Receives(d.cur) && i.io == Done {
      var hangsUp, verdict := HangsUp(d.cur, i.reply), Verdict(d.cur, i.reply, d.domain);
      assert !ReplyStep(d, i.reply, hangsUp, verdict).0.crashed;
      assert ReceiveStep(d, i) == ReplyStep(d, i.reply, hangsUp, verdict);
    }
  }
}
