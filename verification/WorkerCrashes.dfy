/**
 Exactly when a connection of a worker follows a null pointer: its pool may be extended, and shutdown may
 empty it.
 */
module WorkerCrashes {
  import opened Text
  import opened Outcomes
  import opened Connection
  import opened ConnectionRuns
  import opened ConnectionRetries
  import opened ConnectionTheorems
  import opened ConnectionWitnesses
  import opened WorkerTasks
  import opened WorkerPass
  import opened WorkerLives
  import E = EndToEnd
  import S = ServerSession

  /** In every step of its life under a worker a connection holds a letter where one is needed. */
  predicate Stocked(c: Conn) {
    && InTable(c.cur, c.prev)
    && (SEND_MAIL_FROM < c.cur <= RECEIVE_LETTER_RESPONSE ==> c.pool != [])
    && (c.cur == SEND_MAIL_FROM && c.prev != RECEIVE_EHLO_RESPONSE ==> c.pool != [])
    && (c.cur == SMTP_ERROR && SEND_MAIL_FROM <= c.prev <= SEND_LETTER ==> c.pool != [])
  }

  predicate Sane(c: Conn) { Stocked(c) && RetrySound(c) }

  /** Where a null pointer is about to be followed: at MAIL, or in recovery after QUIT could not be sent when an RSET
      was sent since the last filing that left another letter; each with an empty pool. */
  predicate AtNull(c: Conn) {
    c.pool == [] &&
    ((c.cur == SMTP_ERROR && c.prev == RECEIVE_LETTER_RESPONSE && Spent(c.log)) || c.cur == SEND_MAIL_FROM)
  }

  lemma StockedCommand(c: Conn, i: Input, m: Command)
    requires Stocked(c) && !c.crashed && Sends(c.cur) && c.cur != SEND_LETTER && c.cur != SEND_MAIL_FROM
    ensures !Follows(c.cur, c.prev) ==> Stocked(Refuse(c, -1).0)
    ensures Follows(c.cur, c.prev) ==> Stocked(CommandStep(c, i, m).0) && !CommandStep(c, i, m).0.crashed
  {
  }

  lemma StockedSend(c: Conn, i: Input)
    requires Stocked(c) && !c.crashed && Sends(c.cur)
    ensures Stocked(Step(c, i).0) && (Step(c, i).0.crashed <==> AtNull(c))
  {
    assert Step(c, i) == SendStep(c, i);
    if c.cur != SEND_LETTER && c.cur != SEND_MAIL_FROM {
      StockedCommand(c, i, CommandOf(c));
    }
  }

  lemma StockedAnswer(c: Conn, reply: string, hangsUp: bool, verdict: int)
    requires Stocked(c) && !c.crashed && Receives(c.cur) && hangsUp == HangsUp(c.cur, reply)
    ensures var d := ReplyStep(c, reply, hangsUp, verdict).0; Stocked(d) && !d.crashed
  {
  }

  lemma StockedReply(c: Conn, i: Input)
    requires Stocked(c) && !c.crashed && Receives(c.cur)
    ensures Stocked(Step(c, i).0) && !Step(c, i).0.crashed
  {
    assert Step(c, i) == ReceiveStep(c, i);
    if i.io == Done {
      StockedAnswer(c, i.reply, HangsUp(c.cur, i.reply), Verdict(c.cur, i.reply, c.domain));
      assert ReceiveStep(c, i) == ReplyStep(c, i.reply, HangsUp(c.cur, i.reply), Verdict(c.cur, i.reply, c.domain));
    }
  }

  lemma SaneRecovery(c: Conn, i: Input)
    requires Sane(c) && !c.crashed && c.cur == SMTP_ERROR
    ensures Stocked(Step(c, i).0) && (Step(c, i).0.crashed <==> AtNull(c))
  {
  }

  /** A step follows a null pointer exactly at these two places. */
  lemma CrashExactly(c: Conn, i: Input)
    requires Sane(c) && !c.crashed
    ensures Sane(Step(c, i).0) && (Step(c, i).0.crashed <==> AtNull(c))
  {
    RetryKept(c, i);
    if Sends(c.cur) {
      StockedSend(c, i);
    } else if Receives(c.cur) {
      StockedReply(c, i);
    } else if c.cur == SMTP_ERROR {
      SaneRecovery(c, i);
    }
  }

  lemma {:induction false} DriveSane(c: Conn, inputs: nat -> Input, k: nat)
    requires Sane(c) && !Final(c)
    ensures var (d, e) := Drive(c, inputs, k); Sane(d) && (d.crashed ==> AtNull(d))
    decreases Measure(c)
  {
    var (d, status) := Step(c, inputs(k));
    StepAdvances(c, inputs(k));
    CrashExactly(c, inputs(k));
    DriveNext(c, inputs, k);
    if d.crashed {
      CrashStays(c, inputs(k));
    } else if !Final(d) && status != 1 {
      DriveSane(d, inputs, k + 1);
    }
  }

  /** In every state of a connection's life the next step crashes exactly at one of the two places, and a crashed
      connection is at one of them. */
  lemma {:induction false} LifeSane(c0: Conn, es: seq<Event>)
    requires Fresh(c0)
    ensures SaneLife(Life(c0, es))
  {
    if es != [] {
      LifeSane(c0, es[..|es| - 1]);
      EventSane(Life(c0, es[..|es| - 1]), es[|es| - 1]);
    }
  }

  predicate SaneLife(c: Conn) { Sane(c) && (c.crashed ==> AtNull(c)) }

  lemma EventSane(c: Conn, e: Event)
    requires SaneLife(c)
    ensures SaneLife(After(c, e))
  {
    if Waits(c) && e.Served? {
      DriveSane(c, e.inputs, 0);
    }
  }

  // ------------------------------------------------------- an emptied pool

  /** The first letter has not been offered yet. */
  predicate Unoffered(c: Conn) {
    c.cur == RECEIVE_SMTP_GREETING || c.cur == SEND_EHLO || c.cur == RECEIVE_EHLO_RESPONSE
    || (c.cur == SEND_MAIL_FROM && c.prev == RECEIVE_EHLO_RESPONSE)
  }

  /** Shutdown cut the pool while the greeting was awaited, and no letter was placed since. */
  predicate Emptied(c0: Conn, es: seq<Event>) {
    if es == [] then false
    else
      var (init, e) := (es[..|es| - 1], es[|es| - 1]);
      var c := Life(c0, init);
      if !Waits(c) then Emptied(c0, init)
      else match e
        case Placed(t) => false
        case Cut => Emptied(c0, init) || c.cur == RECEIVE_SMTP_GREETING
        case Served(inputs) => Emptied(c0, init)
  }

  lemma UnofferedStep(c: Conn, i: Input)
    requires InTable(c.cur, c.prev) && !Final(c)
    ensures var d := Step(c, i).0; Unoffered(d) ==> Unoffered(c) && d.pool == c.pool
  {
    if Receives(c.cur) {
      assert Step(c, i) == ReceiveStep(c, i);
      if i.io == Done {
        assert ReceiveStep(c, i) == ReplyStep(c, i.reply, HangsUp(c.cur, i.reply), Verdict(c.cur, i.reply, c.domain));
      }
    } else if Sends(c.cur) {
      assert Step(c, i) == SendStep(c, i);
    }
  }

  lemma {:induction false} UnofferedDrive(c: Conn, inputs: nat -> Input, k: nat)
    requires InTable(c.cur, c.prev) && !Final(c)
    ensures var d := Drive(c, inputs, k).0; Unoffered(d) ==> Unoffered(c) && d.pool == c.pool
    decreases Measure(c)
  {
    var (d, status) := Step(c, inputs(k));
    StepAdvances(c, inputs(k));
    UnofferedStep(c, inputs(k));
    DriveNext(c, inputs, k);
    if !Final(d) && status != 1 {
      UnofferedDrive(d, inputs, k + 1);
    }
  }

  /** Before its first letter is offered, a connection's pool is empty exactly when shutdown emptied it. */
  lemma {:induction false} EmptiedIs(c0: Conn, es: seq<Event>)
    requires Fresh(c0)
    ensures var c := Life(c0, es); Unoffered(c) ==> (c.pool == [] <==> Emptied(c0, es))
  {
    if es != [] {
      var (init, e) := (es[..|es| - 1], es[|es| - 1]);
      EmptiedIs(c0, init);
      var c := Life(c0, init);
      LateIs(c0, init);
      if Waits(c) && e.Served? {
        UnofferedDrive(c, e.inputs, 0);
      }
    }
  }

  /** The null pointers of a connection's life: in recovery after an unsent QUIT, with an empty pool and an RSET sent
      since the last filing that left another letter, or at MAIL with a pool that shutdown emptied while the greeting
      was awaited. */
  lemma LifeCrashes(c0: Conn, es: seq<Event>)
    requires Fresh(c0) && Life(c0, es).crashed
    ensures var c := Life(c0, es);
            && c.pool == []
            && ((c.cur == SMTP_ERROR && c.prev == RECEIVE_LETTER_RESPONSE && Spent(c.log))
                || (c.cur == SEND_MAIL_FROM && c.prev == RECEIVE_EHLO_RESPONSE && Emptied(c0, es)))
  {
    LifeSane(c0, es);
    EmptiedIs(c0, es);
  }

  // ------------------------------------------------------------------ a witness

  /** The greeting, the sending of EHLO, its answer, and MAIL, none of which blocks. */
  function Welcoming(): nat -> Input {
    (k: nat) => if k == 0 then Reply(S.Greeting220) else if k == 2 then Reply(S.Named250(MY_DOMAIN)) else Going()
  }

  lemma EhloSent(d: Conn)
    requires Stands(d, SEND_EHLO, RECEIVE_SMTP_GREETING)
    ensures var (d', status) := Step(d, Going());
            Stands(d', RECEIVE_EHLO_RESPONSE, SEND_EHLO) && d'.pool == d.pool && status == 0
  {
    assert Step(d, Going()) == SendStep(d, Going()) == CommandStep(d, Going(), CommandOf(d));
  }

  lemma NoBlock(d: Conn, i: Input)
    requires InTable(d.cur, d.prev) && !Final(d) && Receives(d.cur) && i.io == Done
    ensures Step(d, i).1 != 1
  {
    StepAdvances(d, i);
    assert Step(d, i) == ReceiveStep(d, i);
    assert ReceiveStep(d, i) == ReplyStep(d, i.reply, HangsUp(d.cur, i.reply), Verdict(d.cur, i.reply, d.domain));
  }

  lemma WelcomedToEhlo(c: Conn)
    requires Stands(c, RECEIVE_SMTP_GREETING, PREPARE_SOCKET_CONNECTION) && TEST_PREFIX <= c.domain
    ensures exists d :: Stands(d, RECEIVE_EHLO_RESPONSE, SEND_EHLO) && d.pool == c.pool
                        && Drive(c, Welcoming(), 0) == Drive(d, Welcoming(), 2)
  {
    var inputs := Welcoming();
    Greeted(c);
    NoBlock(c, inputs(0));
    DriveNext(c, inputs, 0);
    var c1 := Step(c, inputs(0)).0;
    EhloSent(c1);
    DriveNext(c1, inputs, 1);
    var d := Step(c1, inputs(1)).0;
    assert Drive(c, Welcoming(), 0) == Drive(d, Welcoming(), 2);
  }

  lemma EhloToNull(c: Conn)
    requires Stands(c, RECEIVE_EHLO_RESPONSE, SEND_EHLO) && c.pool == []
    ensures var d := Drive(c, Welcoming(), 2).0; d.crashed && d.cur == SEND_MAIL_FROM
  {
    var inputs := Welcoming();
    EhloHeard(c);
    NoBlock(c, inputs(2));
    DriveNext(c, inputs, 2);
    var d := Step(c, inputs(2)).0;
    assert Step(d, inputs(3)) == Crash(d);
    DriveNext(d, inputs, 3);
  }

  /** Shutdown empties the pool of a connection still awaiting its greeting; if greeting and EHLO then go through
      without blocking, MAIL follows a null pointer. */
  lemma ShutdownCrash(o: Opening, t: Letter)
    requires TEST_PREFIX <= t.domain
    ensures var c := Life(Opened(o, t), [Cut, Served(Welcoming())]); c.crashed && c.cur == SEND_MAIL_FROM
  {
    var c := Closed(Opened(o, t));
    assert [Cut, Served(Welcoming())] == [] + [Cut] + [Served(Welcoming())];
    LifeNext(Opened(o, t), [], Cut);
    LifeNext(Opened(o, t), [] + [Cut], Served(Welcoming()));
    WelcomedToEhlo(c);
    var d :| Stands(d, RECEIVE_EHLO_RESPONSE, SEND_EHLO) && d.pool == c.pool
             && Drive(c, Welcoming(), 0) == Drive(d, Welcoming(), 2);
    EhloToNull(d);
  }
}
