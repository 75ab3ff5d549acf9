/** What holds of every connection a worker ever had, although the worker adds letters to its pool and cuts it. */
module WorkerTheorems {
  import opened Text
  import opened Connection
  import opened ConnectionRuns
  import opened ConnectionRetries
  import opened ConnectionForgets
  import opened ConnectionTheorems
  import opened ConnectionWitnesses
  import opened WorkerTasks
  import opened WorkerPass
  import E = EndToEnd
  import S = ServerSession

  // ------------------------------------------------- filed means acknowledged

  ghost predicate Honest(c: Conn) {
    && InTable(c.cur, c.prev) && TranscriptSound(c) && FiledSound(c.log)
    && RetrySound(c) && OffersSound(c) && ForgetSound(c)
  }

  ghost predicate AllHonest(conns: seq<Conn>) {
    forall i | 0 <= i < |conns| :: Honest(conns[i])
  }

  /** Retries, offers and forgetting do not depend on the pool. */
  lemma PoolUncounted(c: Conn, pool: seq<Letter>)
    requires RetrySound(c) && OffersSound(c) && ForgetSound(c)
    ensures RetrySound(c.(pool := pool)) && OffersSound(c.(pool := pool)) && ForgetSound(c.(pool := pool))
  {
  }

  lemma GivenHonest(c: Conn, t: Letter)
    requires Honest(c)
    ensures Honest(Given(c, t))
  {
    PoolUncounted(c, Given(c, t).pool);
    if SEND_MAIL_FROM < c.cur <= RECEIVE_LETTER_RESPONSE {
      var x :| Dialogue(c, x);
      assert Dialogue(Given(c, t), x);
    }
  }

  lemma ClosedHonest(c: Conn)
    requires Honest(c)
    ensures Honest(Closed(c))
  {
    PoolUncounted(c, Closed(c).pool);
    if SEND_MAIL_FROM < c.cur <= RECEIVE_LETTER_RESPONSE {
      var x :| Dialogue(c, x);
      assert Dialogue(Closed(c), x);
    }
  }

  lemma StepHonest(c: Conn, i: Input)
    requires Honest(c)
    ensures Honest(Step(c, i).0)
  {
    StepAdvances(c, i);
    TranscriptKept(c, i);
    RetryKept(c, i);
    OffersStep(c, i);
    ForgetKept(c, i);
  }

  lemma PlaceHonest(d: Desk, o: Opening)
    requires d.tasks != [] && AllHonest(d.conns)
    ensures AllHonest(Place(d, o).conns) && Place(d, o).past == d.past
  {
    var t := d.tasks[0];
    var i := IndexOfDomain(d.conns, t.domain);
    if i < |d.conns| {
      GivenHonest(d.conns[i], t);
    } else {
      assert Honest(Opened(o, t));
    }
  }

  lemma {:induction false} PlaceAllHonest(d: Desk, net: Network, k: nat)
    requires AllHonest(d.conns)
    ensures AllHonest(PlaceAll(d, net, k).conns) && PlaceAll(d, net, k).past == d.past
    decreases |d.tasks|
  {
    if d.tasks != [] {
      PlaceHonest(d, net(Ids(d.conns), k));
      PlaceAllHonest(Place(d, net(Ids(d.conns), k)), net, k + 1);
    }
  }

  lemma ApplyHonest(d: Desk, op: Op)
    requires AllHonest(d.conns) && AllHonest(d.past)
    ensures AllHonest(Apply(d, op).conns) && AllHonest(Apply(d, op).past)
  {
    match op
    case Delegate(t) =>
    case Process(net) => PlaceAllHonest(d, net, 0);
    case Serve(i, input) =>
      if i < |d.conns| {
        StepHonest(d.conns[i], input);
      }
    case Retire(i) =>
    case Shut =>
      forall i | 0 <= i < |d.conns| ensures Honest(CloseEach(d.conns)[i]) {
        ClosedHonest(d.conns[i]);
      }
  }

  lemma {:induction false} RunHonest(ops: seq<Op>)
    ensures AllHonest(RunOps(ops).conns) && AllHonest(RunOps(ops).past)
  {
    if ops != [] {
      RunHonest(ops[..|ops| - 1]);
      ApplyHonest(RunOps(ops[..|ops| - 1]), ops[|ops| - 1]);
    }
  }

  /** Also under a worker, a letter is filed as sent only right after an unbroken, acknowledged transaction for it. */
  lemma WorkerFilesAcknowledged(ops: seq<Op>, c: Conn, j: nat)
    requires c in RunOps(ops).conns || c in RunOps(ops).past
    requires j < |c.log| && Files(c.log[j])
    ensures EndsAcknowledged(c.log[j].letter, c.log[..j])
  {
    RunHonest(ops);
    FiledPoint(c.log, j);
  }

  /** And what was sent of it is all of it exactly when no chunk was lost to a send that would block. */
  lemma WorkerFiledWhole(ops: seq<Op>, c: Conn, j: nat)
    requires c in RunOps(ops).conns || c in RunOps(ops).past
    requires j < |c.log| && Files(c.log[j])
    ensures j >= 2
    ensures var (body, pieces) := (c.log[..j - 2], Pieces(c.log[j].letter.content, 0));
            && |SentText(body)| + LostText(body) == |pieces|
            && (SentText(body) == pieces <==> LostText(body) == 0)
  {
    WorkerFilesAcknowledged(ops, c, j);
    AcknowledgedWhole(c.log, j);
  }

  /** No letter is offered more than twice by a connection of a worker, at any point. */
  lemma WorkerOffersAtMostTwice(ops: seq<Op>, c: Conn)
    requires c in RunOps(ops).conns || c in RunOps(ops).past
    ensures Offers(c.log) <= 2
  {
    RunHonest(ops);
  }

  /** Every connection of a worker forgets its own domain only, and a disposed one has forgotten it exactly when it was
      not turned away by a 421 greeting. */
  lemma WorkerForgot(ops: seq<Op>, c: Conn)
    requires c in RunOps(ops).conns || c in RunOps(ops).past
    ensures OwnForgets(c.log, c.domain)
    ensures Disposed(c) ==>
              && (HasForgot(c.log) <==> !TurnedAway(c))
              && (HasForgot(c.log) <==> LeftByQuit(c.log, c.domain) || LeftByError(c.log, c.domain))
  {
    RunHonest(ops);
    if Disposed(c) {
      DisposalForgets(c);
    }
  }

  /** After a failed transaction of any of its connections, the log decides as it does without a worker. */
  lemma WorkerTriesAgain(ops: seq<Op>, c: Conn, i: Input)
    requires c in RunOps(ops).conns && !c.crashed && c.cur == SMTP_ERROR && Solvable(c.prev)
    ensures DecidedByLog(c, Step(c, i).0)
  {
    RunHonest(ops);
    RecoveryDecided(c, i);
  }

  // ------------------------------------------------------------ letters left behind

  function Serving(inputs: seq<Input>): seq<Op> {
    seq(|inputs|, k requires 0 <= k < |inputs| => Serve(0, inputs[k]))
  }

  /** Serving a worker's only connection is running it. */
  lemma {:induction false} ServedRun(ops: seq<Op>, c: Conn, inputs: seq<Input>)
    requires RunOps(ops).conns == [c]
    ensures RunOps(ops + Serving(inputs)) == RunOps(ops).(conns := [Run(c, inputs)])
    ensures Delegated(ops + Serving(inputs)) == Delegated(ops)
  {
    if inputs == [] {
      assert ops + Serving(inputs) == ops;
    } else {
      var n := |inputs| - 1;
      ServedRun(ops, c, inputs[..n]);
      assert ops + Serving(inputs) == ops + Serving(inputs[..n]) + [Serve(0, inputs[n])];
      RunOne(ops + Serving(inputs[..n]), Serve(0, inputs[n]));
    }
  }

  lemma PlaceOne(d: Desk, net: Network)
    requires |d.tasks| == 1
    ensures PlaceAll(d, net, 0) == Place(d, net(Ids(d.conns), 0))
  {
    var e := Place(d, net(Ids(d.conns), 0));
    assert e.tasks == [];
    assert PlaceAll(e, net, 1) == e;
  }

  lemma FirstPlaced(t: Letter, net: Network)
    requires !net({}, 0).connecting.Unprepared?
    ensures var ops := [] + [Delegate(t)] + [Process(net)];
            RunOps(ops) == Desk([], [Opened(net({}, 0), t)], [], []) && Delegated(ops) == [t]
  {
    RunOne([], Delegate(t));
    RunOne([] + [Delegate(t)], Process(net));
    var d := RunOps([] + [Delegate(t)]);
    assert d == Desk([t], [], [], []);
    assert Ids([]) == {};
    PlaceOne(d, net);
    assert Place(d, net({}, 0)) == Desk([], [Opened(net({}, 0), t)], [], []);
  }

  lemma ByeHeard(d: Conn)
    requires Stands(d, RECEIVE_QUIT_RESPONSE, SEND_QUIT)
    ensures var d' := Step(Step(d, Reply(S.Bye221)).0, Going()).0;
            Disposed(d') && d'.pool == d.pool && Handed(d'.log) == Handed(d.log)
  {
    E.ByeCode();
    var reply := S.ReplyText(S.Bye221);
    HandedOne(d.log, Got(reply));
    assert Step(d, Reply(S.Bye221)) == ReceiveStep(d, Reply(S.Bye221));
    assert Verdict(d.cur, reply, d.domain) == 0 && !HangsUp(d.cur, reply);
  }

  lemma SecondPlaced(ops: seq<Op>, d: Conn, t: Letter, net: Network)
    requires RunOps(ops) == Desk([], [d], [], []) && t.domain == d.domain
    ensures var ops' := ops + [Delegate(t)] + [Process(net)];
            RunOps(ops') == Desk([], [Given(d, t)], [], []) && Delegated(ops') == Delegated(ops) + [t]
  {
    RunOne(ops, Delegate(t));
    RunOne(ops + [Delegate(t)], Process(net));
    var y := RunOps(ops + [Delegate(t)]);
    assert y == Desk([t], [d], [], []);
    PlaceOne(y, net);
    IndexOfDomainIs(y.conns, t.domain, 0);
    assert Place(y, net(Ids(y.conns), 0)) == Desk([], [Given(d, t)], [], []);
  }

  lemma LeftWhileQuitting(ops: seq<Op>, d: Conn, t: Letter, net: Network)
    requires RunOps(ops) == Desk([], [d], [], []) && t.domain == d.domain && d.pool == []
    requires Stands(d, RECEIVE_QUIT_RESPONSE, SEND_QUIT)
    ensures exists ops', c ::
              RunOps(ops') == Desk([], [], [], [c]) && Delegated(ops') == Delegated(ops) + [t]
              && Disposed(c) && c.pool == [t] && Handed(c.log) == Handed(d.log)
  {
    SecondPlaced(ops, d, t, net);
    var ops1 := ops + [Delegate(t)] + [Process(net)];
    var c := RetiredAfterBye(ops1, Given(d, t));
    assert Handed(Given(d, t).log) == Handed(d.log);
  }

  lemma RetiredAfterBye(ops: seq<Op>, d: Conn) returns (c: Conn)
    requires RunOps(ops) == Desk([], [d], [], []) && Stands(d, RECEIVE_QUIT_RESPONSE, SEND_QUIT)
    ensures Disposed(c) && c.pool == d.pool && Handed(c.log) == Handed(d.log)
    ensures exists ops' :: RunOps(ops') == Desk([], [], [], [c]) && Delegated(ops') == Delegated(ops)
  {
    var inputs := [] + [Reply(S.Bye221)] + [Going()];
    ServedRun(ops, d, inputs);
    RunNext(d, [], Reply(S.Bye221));
    RunNext(d, [] + [Reply(S.Bye221)], Going());
    ByeHeard(d);
    c := Run(d, inputs);
    RunOne(ops + Serving(inputs), Retire(0));
    assert RunOps(ops + Serving(inputs) + [Retire(0)]) == Desk([], [], [], [c]);
  }

  /** A letter that is added to a connection waiting for the answer to its QUIT stays in `tmp`: once the server has
      said goodbye the letter is in no queue and no open connection, and was neither sent nor returned. */
  lemma LetterLeftBehind(t1: Letter, t2: Letter, net: Network)
    requires !net({}, 0).connecting.Unprepared? && t1.domain == t2.domain && TEST_PREFIX <= t1.domain
    ensures exists ops, c ::
              RunOps(ops) == Desk([], [], [], [c]) && Delegated(ops) == [t1] + [t2]
              && Disposed(c) && c.pool == [t2] && Handed(c.log) == [t1]
  {
    var c := Opened(net({}, 0), t1);
    var ops := [] + [Delegate(t1)] + [Process(net)];
    FirstPlaced(t1, net);
    RunsToMail(c);
    var t := ToMail() + Transaction();
    RunsTransaction(c, ToMail(), 0);
    var (inputs, d) := (t + [Going()], Run(c, t + [Going()]));
    RunNext(c, t, Going());
    QuitSent(Run(c, t));
    ServedRun(ops, c, inputs);
    RunConserves(c, inputs);
    LeftWhileQuitting(ops + Serving(inputs), d, t2, net);
  }

  lemma QuitSent(d: Conn)
    requires Stands(d, SEND_QUIT, RECEIVE_LETTER_RESPONSE)
    ensures Stands(Step(d, Going()).0, RECEIVE_QUIT_RESPONSE, SEND_QUIT) && Step(d, Going()).0.pool == d.pool
  {
  }

  lemma {:induction false} RunConserves(c: Conn, inputs: seq<Input>)
    ensures Share(Run(c, inputs)) == Share(c) && Run(c, inputs).domain == c.domain
  {
    if inputs != [] {
      var n := |inputs| - 1;
      RunConserves(c, inputs[..n]);
      HandedKept(Run(c, inputs[..n]), inputs[n]);
      StepKeepsDomain(Run(c, inputs[..n]), inputs[n]);
    }
  }
}
