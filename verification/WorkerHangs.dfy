/**
 Exactly when a worker hangs: its inner loop never ends once a connection is in an error its handler leaves as
 it is.
 */
module WorkerHangs {
  import opened Text
  import opened Outcomes
  import opened Connection
  import opened ConnectionRuns
  import opened ConnectionTheorems
  import opened ConnectionWitnesses
  import opened WorkerTasks
  import opened WorkerPass
  import opened WorkerLives
  import opened WorkerRounds
  import opened WorkerTheorems
  import E = EndToEnd
  import S = ServerSession

  // ------------------------------------------------------------------ one step

  /** The recipient is refused, or the answer about it cannot be read; or DATA or RSET cannot be sent. */
  predicate Sticks(c: Conn, i: Input) {
    || (c.cur == RECEIVE_RCPT_TO_RESPONSE
        && (i.io == Broken || (i.io == Done && (StatusCode(i.reply) != 250 || !OkLine(i.reply)))))
    || ((c.cur == SEND_DATA || c.cur == SEND_RSET) && i.io == Broken)
  }

  lemma StuckReply(c: Conn, reply: string, hangsUp: bool, verdict: int)
    requires InTable(c.cur, c.prev) && !Final(c) && Receives(c.cur) && hangsUp == HangsUp(c.cur, reply)
    ensures Stuck(ReplyStep(c, reply, hangsUp, verdict).0) <==> c.cur == RECEIVE_RCPT_TO_RESPONSE && verdict < 0
  {
  }

  lemma StuckCommand(c: Conn, i: Input)
    requires InTable(c.cur, c.prev) && !Final(c) && Sends(c.cur)
    ensures Stuck(SendStep(c, i).0) <==> (c.cur == SEND_DATA || c.cur == SEND_RSET) && i.io == Broken
  {
  }

  /** A step leaves a connection stuck exactly on these inputs. */
  lemma StuckExactly(c: Conn, i: Input)
    requires InTable(c.cur, c.prev) && !Final(c)
    ensures Stuck(Step(c, i).0) <==> Sticks(c, i)
    ensures Stuck(Step(c, i).0) ==> !Step(c, i).0.crashed && Step(c, i).0.cur == SMTP_ERROR
  {
    if Sends(c.cur) {
      StuckCommand(c, i);
      assert Step(c, i) == SendStep(c, i);
    } else if Receives(c.cur) {
      assert Step(c, i) == ReceiveStep(c, i);
      if i.io == Done {
        var (h, v) := (HangsUp(c.cur, i.reply), Verdict(c.cur, i.reply, c.domain));
        StuckReply(c, i.reply, h, v);
        assert ReceiveStep(c, i) == ReplyStep(c, i.reply, h, v);
      }
    }
    if Step(c, i).0.crashed {
      CrashStays(c, i);
    }
  }

  // --------------------------------------------------------------- the inner loop

  /** The connection after `m` control steps. */
  function Stepped(c: Conn, inputs: nat -> Input, k: nat, m: nat): Conn
    decreases m
  {
    if m == 0 then c else Stepped(Step(c, inputs(k)).0, inputs, k + 1, m - 1)
  }

  /** None of `m` control steps blocks or is the last. */
  predicate GoesOn(c: Conn, inputs: nat -> Input, k: nat, m: nat)
    decreases m
  {
    m == 0 ||
    var (d, status) := Step(c, inputs(k));
    status != 1 && !Final(d) && GoesOn(d, inputs, k + 1, m - 1)
  }

  predicate HangsAfter(c: Conn, inputs: nat -> Input, k: nat, m: nat) {
    GoesOn(c, inputs, k, m) && Sticks(Stepped(c, inputs, k, m), inputs(k + m))
  }

  /** The loop over a connection comes to an input on which it sticks. */
  ghost predicate Hangs(c: Conn, inputs: nat -> Input, k: nat) {
    exists m: nat :: HangsAfter(c, inputs, k, m)
  }

  lemma HangsNext(c: Conn, inputs: nat -> Input, k: nat)
    requires InTable(c.cur, c.prev) && !Final(c) && !Sticks(c, inputs(k))
    ensures var (d, status) := Step(c, inputs(k));
            Hangs(c, inputs, k) <==> status != 1 && !Final(d) && Hangs(d, inputs, k + 1)
  {
    var (d, status) := Step(c, inputs(k));
    if Hangs(c, inputs, k) {
      var m: nat :| HangsAfter(c, inputs, k, m);
      assert m != 0;
      assert inputs(k + m) == inputs(k + 1 + (m - 1));
      assert HangsAfter(d, inputs, k + 1, m - 1);
    }
    if status != 1 && !Final(d) && Hangs(d, inputs, k + 1) {
      var m: nat :| HangsAfter(d, inputs, k + 1, m);
      assert inputs(k + 1 + m) == inputs(k + (m + 1));
      assert HangsAfter(c, inputs, k, m + 1);
    }
  }

  /** The inner loop never ends exactly when it comes to a recipient that is refused or whose answer cannot be read, or
      to a DATA or RSET that cannot be sent. */
  lemma {:induction false} DriveHangs(c: Conn, inputs: nat -> Input, k: nat)
    requires InTable(c.cur, c.prev) && !Final(c)
    ensures Drive(c, inputs, k).1 == Endless <==> Hangs(c, inputs, k)
    decreases Measure(c)
  {
    var (d, status) := Step(c, inputs(k));
    StepAdvances(c, inputs(k));
    StuckExactly(c, inputs(k));
    DriveNext(c, inputs, k);
    if Sticks(c, inputs(k)) {
      assert HangsAfter(c, inputs, k, 0);
    } else {
      HangsNext(c, inputs, k);
      if !Final(d) && status != 1 {
        DriveHangs(d, inputs, k + 1);
      }
    }
  }

  // ---------------------------------------------------------------- whole runs

  /** A pass comes to its connection `p`, which is ready and hangs; the loops over those before it end. */
  ghost predicate HangsAt(conns: seq<Conn>, ready: set<int>, turns: nat -> Turn, k: nat, p: nat)
    requires AllWait(conns)
    decreases p
  {
    p < |conns| &&
    if p == 0 then conns[0].id in ready && Hangs(conns[0], turns(k).inputs, 0)
    else ComesBack(conns[0], ready, turns(k)) && HangsAt(conns[1..], ready, turns, k + 1, p - 1)
  }

  ghost predicate HangsSomewhere(conns: seq<Conn>, ready: set<int>, turns: nat -> Turn, k: nat)
    requires AllWait(conns)
  {
    exists p: nat :: HangsAt(conns, ready, turns, k, p)
  }

  predicate ComesBack(c: Conn, ready: set<int>, t: Turn)
    requires Waits(c)
  {
    c.id in ready ==> var e := Drive(c, t.inputs, 0).1; e == Blocked || e == Gone
  }

  lemma {:induction false} PassHangs(conns: seq<Conn>, ready: set<int>, turns: nat -> Turn, k: nat)
    requires AllWait(conns)
    ensures PassOver(conns, ready, turns, k).halt == Some(Endless) <==> HangsSomewhere(conns, ready, turns, k)
    decreases |conns|
  {
    if conns != [] {
      var (c, rest) := (conns[0], conns[1..]);
      assert Waits(c);
      DriveHangs(c, turns(k).inputs, 0);
      HangsLater(conns, ready, turns, k);
      if ComesBack(c, ready, turns(k)) {
        PassHangs(rest, ready, turns, k + 1);
      }
    }
  }

  lemma HangsLater(conns: seq<Conn>, ready: set<int>, turns: nat -> Turn, k: nat)
    requires AllWait(conns) && conns != []
    ensures HangsSomewhere(conns, ready, turns, k) <==>
            (conns[0].id in ready && Hangs(conns[0], turns(k).inputs, 0))
            || (ComesBack(conns[0], ready, turns(k)) && HangsSomewhere(conns[1..], ready, turns, k + 1))
  {
    var rest := conns[1..];
    if HangsSomewhere(conns, ready, turns, k) {
      var p: nat :| HangsAt(conns, ready, turns, k, p);
      assert p != 0 ==> HangsAt(rest, ready, turns, k + 1, p - 1);
    }
    if conns[0].id in ready && Hangs(conns[0], turns(k).inputs, 0) {
      assert HangsAt(conns, ready, turns, k, 0);
    }
    if ComesBack(conns[0], ready, turns(k)) && HangsSomewhere(rest, ready, turns, k + 1) {
      var p: nat :| HangsAt(rest, ready, turns, k + 1, p);
      assert HangsAt(conns, ready, turns, k, p + 1);
    }
  }

  /** The turn comes to a pass, and in it to a connection that hangs. */
  ghost predicate HangsIn(w: Work, r: Round) {
    w.halt == None && Passes(w, r)
    && HangsSomewhere(PlaceAll(Stopped(w, r), r.net, 0).conns, ReadyIds(w, r), r.turns, 0)
  }

  lemma AroundHangs(w: Work, r: Round)
    requires w.halt == None
    ensures Around(w, r).halt == Some(Endless) <==> HangsIn(w, r)
  {
    if Passes(w, r) {
      var conns := PlaceAll(Stopped(w, r), r.net, 0).conns;
      assert conns[0..] == conns;
      PassHangs(conns, ReadyIds(w, r), r.turns, 0);
    }
  }

  /** After the turns `before` the turn `r` hangs. */
  ghost predicate HangsNow(before: seq<Round>, r: Round) {
    var v := RunRounds(IDLE_WORK, before);
    HangsIn(Arriving(v, r.arrivals), Reported(v, r))
  }

  /** The worker's turn number `j` hangs. */
  ghost predicate HangsInTurn(rs: seq<Round>, j: nat) { j < |rs| && HangsNow(rs[..j], rs[j]) }

  ghost predicate HangsSometime(rs: seq<Round>) { exists j: nat :: HangsInTurn(rs, j) }

  lemma SameTurn(rs: seq<Round>, j: nat)
    requires j < |rs| - 1
    ensures HangsInTurn(rs, j) <==> HangsInTurn(rs[..|rs| - 1], j)
  {
    assert rs[..|rs| - 1][..j] == rs[..j];
  }

  lemma HangsLast(rs: seq<Round>)
    requires rs != []
    ensures HangsSometime(rs) <==> HangsSometime(rs[..|rs| - 1]) || HangsInTurn(rs, |rs| - 1)
  {
    var init := rs[..|rs| - 1];
    if HangsSometime(rs) {
      var j: nat :| HangsInTurn(rs, j);
      if j < |rs| - 1 {
        SameTurn(rs, j);
      }
    }
    if HangsSometime(init) {
      var j: nat :| HangsInTurn(init, j);
      SameTurn(rs, j);
    }
  }

  /** Over every run: a worker hangs exactly when in some turn its pass comes to a ready connection whose recipient is
      refused, or the answer about it cannot be read, or that cannot send DATA or RSET. */
  lemma {:induction false} WorkerHangsExactly(rs: seq<Round>)
    ensures RunRounds(IDLE_WORK, rs).halt == Some(Endless) <==> HangsSometime(rs)
  {
    if rs == [] {
      assert !HangsSometime(rs);
    } else {
      var n := |rs| - 1;
      var v := RunRounds(IDLE_WORK, rs[..n]);
      WorkerHangsExactly(rs[..n]);
      HangsLast(rs);
      assert rs[..|rs|] == rs;
      RoundsNext(IDLE_WORK, rs, n);
      HaltsLast(v, rs[n]);
    }
  }

  lemma HaltsLast(v: Work, r: Round)
    ensures v.halt == None ==>
              (Around(Arriving(v, r.arrivals), Reported(v, r)).halt == Some(Endless)
               <==> HangsIn(Arriving(v, r.arrivals), Reported(v, r)))
    ensures v.halt != None ==> !HangsIn(Arriving(v, r.arrivals), Reported(v, r))
  {
    if v.halt == None {
      AroundHangs(Arriving(v, r.arrivals), Reported(v, r));
    }
  }

  // ------------------------------------------------------------------ a witness

  /** A server that takes the sender and refuses the recipient; nothing blocks. */
  function Refusing(): nat -> Input {
    (k: nat) =>
      if k == 0 then Reply(S.Greeting220)
      else if k == 2 then Reply(S.Named250(MY_DOMAIN))
      else if k == 4 then Reply(S.Ok250)
      else if k == 6 then Reply(S.Mailbox450)
      else Going()
  }

  /** The connection that a step made of `c` has moved on and can still go on. */
  predicate MovedOn(c: Conn, d: Conn) {
    !d.crashed && d.cur != c.cur && (Sends(d.cur) || Receives(d.cur))
  }

  lemma HangsBack(c: Conn, d: Conn, inputs: nat -> Input, k: nat)
    requires InTable(c.cur, c.prev) && !Final(c) && d == Step(c, inputs(k)).0 && MovedOn(c, d)
    requires Hangs(d, inputs, k + 1)
    ensures Hangs(c, inputs, k)
  {
    StepAdvances(c, inputs(k));
    StuckExactly(c, inputs(k));
    HangsNext(c, inputs, k);
  }

  /** A connection that still has its letter. */
  predicate Holds(c: Conn, cur: State, prev: State) { Stands(c, cur, prev) && c.pool != [] }

  lemma HangsAtReply(c: Conn)
    requires Holds(c, RECEIVE_RCPT_TO_RESPONSE, SEND_RCPT_TO)
    ensures Hangs(c, Refusing(), 6)
  {
    RecipientRejected(c);
    StuckExactly(c, Reply(S.Mailbox450));
    assert HangsAfter(c, Refusing(), 6, 0);
  }

  lemma HangsAtRecipient(c: Conn)
    requires Holds(c, SEND_RCPT_TO, RECEIVE_MAIL_FROM_RESPONSE)
    ensures Hangs(c, Refusing(), 5)
  {
    CommandSent(c);
    HangsAtReply(Step(c, Going()).0);
    HangsBack(c, Step(c, Going()).0, Refusing(), 5);
  }

  lemma HangsAtOk(c: Conn)
    requires Holds(c, RECEIVE_MAIL_FROM_RESPONSE, SEND_MAIL_FROM)
    ensures Hangs(c, Refusing(), 4)
  {
    OkHeard(c);
    HangsAtRecipient(Step(c, Reply(S.Ok250)).0);
    HangsBack(c, Step(c, Reply(S.Ok250)).0, Refusing(), 4);
  }

  lemma HangsAtMail(c: Conn)
    requires Holds(c, SEND_MAIL_FROM, RECEIVE_EHLO_RESPONSE)
    ensures Hangs(c, Refusing(), 3)
  {
    CommandSent(c);
    HangsAtOk(Step(c, Going()).0);
    HangsBack(c, Step(c, Going()).0, Refusing(), 3);
  }

  lemma HangsAtName(c: Conn)
    requires Holds(c, RECEIVE_EHLO_RESPONSE, SEND_EHLO)
    ensures Hangs(c, Refusing(), 2)
  {
    var named := Reply(S.Named250(MY_DOMAIN));
    EhloHeard(c);
    HangsAtMail(Step(c, named).0);
    HangsBack(c, Step(c, named).0, Refusing(), 2);
  }

  lemma HangsAtEhlo(c: Conn)
    requires Holds(c, SEND_EHLO, RECEIVE_SMTP_GREETING)
    ensures Hangs(c, Refusing(), 1)
  {
    CommandSent(c);
    HangsAtName(Step(c, Going()).0);
    HangsBack(c, Step(c, Going()).0, Refusing(), 1);
  }

  lemma GreetingHeard(c: Conn, inputs: nat -> Input) returns (d: Conn)
    requires Holds(c, RECEIVE_SMTP_GREETING, PREPARE_SOCKET_CONNECTION) && TEST_PREFIX <= c.domain
    requires inputs(0) == Reply(S.Greeting220)
    ensures Holds(d, SEND_EHLO, RECEIVE_SMTP_GREETING)
    ensures Hangs(d, inputs, 1) ==> Hangs(c, inputs, 0)
  {
    Greeted(c);
    d := Step(c, inputs(0)).0;
    if Hangs(d, inputs, 1) {
      HangsBack(c, d, inputs, 0);
    }
  }

  lemma HangsAtGreeting(c: Conn)
    requires Holds(c, RECEIVE_SMTP_GREETING, PREPARE_SOCKET_CONNECTION) && TEST_PREFIX <= c.domain
    ensures Hangs(c, Refusing(), 0)
  {
    var d := GreetingHeard(c, Refusing());
    HangsAtEhlo(d);
  }

  /** One letter, one server that refuses its recipient: the worker hangs in its second turn. */
  lemma OneRefusalHangs(t: Letter, net: Network, turns: nat -> Turn)
    requires TEST_PREFIX <= t.domain && !net({}, 0).connecting.Unprepared? && turns(0).inputs == Refusing()
    ensures var sockets := {net({}, 0).id};
            var first := Round([t], {}, {}, 0, false, false, net, turns);
            var second := Round([], sockets, {}, 1, false, false, net, turns);
            RunRounds(IDLE_WORK, [first] + [second]).halt == Some(Endless)
  {
    var (o, sockets) := (net({}, 0), {net({}, 0).id});
    var first := Round([t], {}, {}, 0, false, false, net, turns);
    var second := Round([], sockets, {}, 1, false, false, net, turns);
    var rs := [first] + [second];
    var c := Opened(o, t);
    FirstTurn(t, first);
    assert rs[..0] == [] && rs[..1] == [first] && rs[..2] == rs;
    RoundsNext(IDLE_WORK, rs, 0);
    RoundsNext(IDLE_WORK, rs, 1);
    SecondTurn(c, second);
  }

  lemma FirstTurn(t: Letter, r: Round)
    requires r == Round([t], {}, {}, 0, false, false, r.net, r.turns) && !r.net({}, 0).connecting.Unprepared?
    ensures Around(Arriving(IDLE_WORK, [t]), Reported(IDLE_WORK, r))
            == Work(Desk([], [Opened(r.net({}, 0), t)], [], []), 1, false, None)
  {
    var d := Desk([t], [], [], []);
    assert Arriving(IDLE_WORK, [t]) == Work(d, 1, false, None);
    assert Ids([]) == {};
    PlaceOne(d, r.net);
    assert Place(d, r.net({}, 0)) == Desk([], [Opened(r.net({}, 0), t)], [], []);
  }

  lemma SecondTurn(c: Conn, r: Round)
    requires Fresh(c) && TEST_PREFIX <= c.domain && r.turns(0).inputs == Refusing()
    requires r.arrivals == [] && r.readable == {c.id} && r.writable == {} && r.readyCount == 1 && !r.stopping
    ensures var w := Work(Desk([], [c], [], []), 1, false, None);
            Around(Arriving(w, []), Reported(w, r)).halt == Some(Endless)
  {
    var w := Work(Desk([], [c], [], []), 1, false, None);
    var conns := [c];
    HangsAtGreeting(c);
    assert conns[0] == c && c.id in ReaderIds(conns);
    assert Arriving(w, []) == w;
    assert PlaceAll(w.desk, r.net, 0) == w.desk;
    assert HangsAt(conns, {c.id}, r.turns, 0, 0);
    assert Reported(w, r) == r.(readable := {c.id}, writable := {});
    assert HangsSomewhere(conns, {c.id}, r.turns, 0);
    assert ReadyIds(w, Reported(w, r)) == {c.id};
    AroundHangs(w, Reported(w, r));
  }
}
