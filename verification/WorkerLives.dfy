/**
 The life of a connection under a worker: between its turns letters are added to its pool, and shutdown cuts the pool.
 Exactly when a disposed connection still has letters, and exactly when one follows a null pointer.
 */
module WorkerLives {
  import opened Text
  import opened Outcomes
  import opened Connection
  import opened ConnectionRuns
  import opened ConnectionTheorems
  import opened WorkerTasks
  import opened WorkerPass

  /** What a worker does to one connection. */
  datatype Event =
    | Placed(task: Letter)              // a letter is added to the pool
    | Cut                               // shutdown takes letters out of the pool
    | Served(inputs: nat -> Input)      // the inner control loop runs

  function After(c: Conn, e: Event): Conn {
    if !Waits(c) then c
    else match e
      case Placed(t) => Given(c, t)
      case Cut => Closed(c)
      case Served(inputs) => Drive(c, inputs, 0).0
  }

  function Life(c0: Conn, es: seq<Event>): Conn {
    if es == [] then c0 else After(Life(c0, es[..|es| - 1]), es[|es| - 1])
  }

  lemma LifeNext(c0: Conn, es: seq<Event>, e: Event)
    ensures Life(c0, es + [e]) == After(Life(c0, es), e)
  {
    assert (es + [e])[..|es|] == es;
  }

  // ------------------------------------------------------- letters left behind

  /** The last letter is filed and QUIT is due or its answer is awaited. */
  predicate Farewell(c: Conn) { c.cur == SEND_QUIT || c.cur == RECEIVE_QUIT_RESPONSE }

  /** A reply with this code is read. */
  predicate Reads(i: Input, code: int) { i.io == Done && StatusCode(i.reply) == code }

  /** The greeting that is awaited turns the client away. */
  predicate TurnsAway(c: Conn, inputs: nat -> Input, k: nat) {
    c.cur == RECEIVE_SMTP_GREETING && Reads(inputs(k), 421)
  }

  /** The server says goodbye: QUIT is sent, if that is still to be done, and answered 221. */
  predicate SaysGoodbye(c: Conn, inputs: nat -> Input, k: nat) {
    || (c.cur == RECEIVE_QUIT_RESPONSE && Reads(inputs(k), 221))
    || (c.cur == SEND_QUIT && c.prev == RECEIVE_LETTER_RESPONSE && inputs(k).io == Done && Reads(inputs(k + 1), 221))
  }

  /** What leaves a pool as it is when the connection is disposed. */
  predicate Doomed(c: Conn, inputs: nat -> Input, k: nat) {
    || TurnsAway(c, inputs, k) || SaysGoodbye(c, inputs, k)
    || (c.cur == DISPOSING_SOCKET && c.prev != SEND_EHLO)
  }

  lemma DoomedReply(c: Conn, inputs: nat -> Input, k: nat)
    requires InTable(c.cur, c.prev) && !Final(c) && Receives(c.cur)
    ensures var (d, status) := Step(c, inputs(k));
            && (status == 1 || Final(d) ==> !(c.pool != [] && Doomed(c, inputs, k)))
            && (status != 1 && !Final(d) && d.pool != [] ==> (Doomed(c, inputs, k) <==> Doomed(d, inputs, k + 1)))
            && (status != 1 && !Final(d) && d.pool == [] && c.pool != [] ==> !Doomed(c, inputs, k))
            && (Doomed(c, inputs, k) ==> d.pool == c.pool)
  {
    var i := inputs(k);
    assert Step(c, i) == ReceiveStep(c, i);
    if i.io == Done {
      assert ReceiveStep(c, i) == ReplyStep(c, i.reply, HangsUp(c.cur, i.reply), Verdict(c.cur, i.reply, c.domain));
    }
  }

  lemma DoomedSend(c: Conn, inputs: nat -> Input, k: nat)
    requires InTable(c.cur, c.prev) && !Final(c) && Sends(c.cur)
    ensures var (d, status) := Step(c, inputs(k));
            && d.pool == c.pool
            && (status == 1 || Final(d) ==> !Doomed(c, inputs, k))
            && (status != 1 && !Final(d) ==> (Doomed(c, inputs, k) <==> Doomed(d, inputs, k + 1)))
  {
    var i := inputs(k);
    assert Step(c, i) == SendStep(c, i);
    if c.cur != SEND_LETTER && c.cur != SEND_MAIL_FROM && Follows(c.cur, c.prev) {
      assert SendStep(c, i) == CommandStep(c, i, CommandOf(c));
    }
  }

  predicate Losing(c: Conn, inputs: nat -> Input, k: nat) { c.pool != [] && Doomed(c, inputs, k) }

  lemma LosingStep(c: Conn, inputs: nat -> Input, k: nat)
    requires InTable(c.cur, c.prev) && !Final(c)
    ensures var (d, status) := Step(c, inputs(k));
            && (status == 1 ==> !Losing(c, inputs, k))
            && (Final(d) && !Disposed(d) ==> !Losing(c, inputs, k))
            && (Disposed(d) ==> d.pool == c.pool && (Losing(c, inputs, k) <==> d.pool != []))
            && (status != 1 && !Final(d) ==> (Losing(c, inputs, k) <==> Losing(d, inputs, k + 1)))
            && (Losing(c, inputs, k) ==> d.pool == c.pool)
  {
    if Receives(c.cur) {
      DoomedReply(c, inputs, k);
      NotDisposedYet(c, inputs(k));
    } else if Sends(c.cur) {
      DoomedSend(c, inputs, k);
      NotDisposedYet(c, inputs(k));
    }
  }

  lemma NotDisposedYet(c: Conn, i: Input)
    requires Sends(c.cur) || Receives(c.cur)
    ensures !Disposed(Step(c, i).0)
  {
    if Receives(c.cur) && !c.crashed {
      assert Step(c, i) == ReceiveStep(c, i);
    } else if !c.crashed {
      assert Step(c, i) == SendStep(c, i);
    }
  }

  /** A turn ends with a disposed connection that still has letters exactly when the greeting was 421 or the server said
      goodbye while letters were there; and then it has all the letters it had. */
  lemma {:induction false} DriveLeaves(c: Conn, inputs: nat -> Input, k: nat)
    requires InTable(c.cur, c.prev) && !Final(c)
    ensures var (d, e) := Drive(c, inputs, k);
            && (e == Gone && d.pool != [] <==> Losing(c, inputs, k))
            && (Losing(c, inputs, k) ==> d.pool == c.pool)
    decreases Measure(c)
  {
    var (d, status) := Step(c, inputs(k));
    StepAdvances(c, inputs(k));
    LosingStep(c, inputs, k);
    DriveNext(c, inputs, k);
    if !Final(d) && status != 1 {
      DriveLeaves(d, inputs, k + 1);
    }
  }

  /** The inner loop, one control step further. */
  lemma DriveNext(c: Conn, inputs: nat -> Input, k: nat)
    requires InTable(c.cur, c.prev) && !Final(c)
    ensures var (d, status) := Step(c, inputs(k));
            && InTable(d.cur, d.prev)
            && (d.crashed ==> Drive(c, inputs, k) == (d, Crashed))
            && (!d.crashed && Disposed(d) ==> Drive(c, inputs, k) == (d, Gone))
            && (!d.crashed && Stuck(d) ==> Drive(c, inputs, k) == (d, Endless))
            && (!Final(d) && status == 1 ==> Drive(c, inputs, k) == (d, Blocked))
            && (!Final(d) && status != 1 ==> Drive(c, inputs, k) == Drive(d, inputs, k + 1))
  {
    StepAdvances(c, inputs(k));
  }

  // --------------------------------------------------- letters placed too late

  /** The letters placed during the connection's farewell that are still there: shutdown keeps the first of them, and
      they stop being late when the farewell fails and a letter is moved again. */
  function Late(c0: Conn, es: seq<Event>): seq<Letter> {
    if es == [] then []
    else
      var (init, e) := (es[..|es| - 1], es[|es| - 1]);
      var (c, late) := (Life(c0, init), Late(c0, init));
      if !Waits(c) then late
      else match e
        case Placed(t) => if Farewell(c) then late + [t] else []
        case Cut => if late == [] then [] else [late[0]]
        case Served(inputs) =>
          var d := Drive(c, inputs, 0).0;
          if Farewell(c) && Farewell(d) && Handed(d.log) == Handed(c.log) then late else []
  }

  lemma EntryStep(c: Conn, i: Input)
    requires InTable(c.cur, c.prev) && !Final(c)
    ensures var d := Step(c, i).0;
            Farewell(d) ==> d.pool == [] || (Farewell(c) && d.pool == c.pool)
  {
    if Receives(c.cur) {
      assert Step(c, i) == ReceiveStep(c, i);
      if i.io == Done {
        assert ReceiveStep(c, i) == ReplyStep(c, i.reply, HangsUp(c.cur, i.reply), Verdict(c.cur, i.reply, c.domain));
      }
    } else if Sends(c.cur) {
      assert Step(c, i) == SendStep(c, i);
    }
  }

  /** A farewell begins with an empty pool; one that goes on has the pool it had. */
  lemma {:induction false} FarewellEntry(c: Conn, inputs: nat -> Input, k: nat)
    requires InTable(c.cur, c.prev) && !Final(c)
    ensures var d := Drive(c, inputs, k).0;
            Farewell(d) ==> d.pool == [] || (Farewell(c) && d.pool == c.pool)
    decreases Measure(c)
  {
    var (d, status) := Step(c, inputs(k));
    StepAdvances(c, inputs(k));
    EntryStep(c, inputs(k));
    DriveNext(c, inputs, k);
    if !Final(d) && status != 1 {
      FarewellEntry(d, inputs, k + 1);
    }
  }

  lemma SameShare(c: Conn, d: Conn)
    requires Share(c) == Share(d) && Handed(c.log) == Handed(d.log)
    ensures c.pool == d.pool
  {
    assert Share(c)[|Handed(c.log)|..] == c.pool && Share(d)[|Handed(d.log)|..] == d.pool;
  }

  lemma MovedBetween(c: Conn, d: Conn)
    requires Share(c) == Share(d) && c.pool == d.pool
    ensures Handed(c.log) == Handed(d.log)
  {
    assert Share(c)[..|Share(c)| - |c.pool|] == Handed(c.log) && Share(d)[..|Share(d)| - |d.pool|] == Handed(d.log);
  }

  /** During a farewell the pool is exactly the letters placed too late. */
  lemma {:induction false} LateIs(c0: Conn, es: seq<Event>)
    requires Fresh(c0)
    ensures var c := Life(c0, es);
            && InTable(c.cur, c.prev)
            && (Waits(c) ==> if Farewell(c) then c.pool == Late(c0, es) else Late(c0, es) == [])
  {
    if es != [] {
      var (init, e) := (es[..|es| - 1], es[|es| - 1]);
      LateIs(c0, init);
      var c := Life(c0, init);
      if Waits(c) && e.Served? {
        var d := Drive(c, e.inputs, 0).0;
        FarewellEntry(c, e.inputs, 0);
        if Farewell(d) && Handed(d.log) == Handed(c.log) {
          SameShare(c, d);
        } else if d.pool == c.pool {
          MovedBetween(c, d);
        }
      }
    }
  }

  /** Every late letter was placed during a farewell. */
  lemma {:induction false} LateOnly(c0: Conn, es: seq<Event>, t: Letter)
    requires t in Late(c0, es)
    ensures exists k :: 0 <= k < |es| && es[k] == Placed(t) && Farewell(Life(c0, es[..k]))
  {
    var n := |es| - 1;
    if t in Late(c0, es[..n]) {
      LateOnly(c0, es[..n], t);
      var k :| 0 <= k < n && es[..n][k] == Placed(t) && Farewell(Life(c0, es[..n][..k]));
      assert es[k] == Placed(t) && es[..n][..k] == es[..k];
    } else {
      assert es[n] == Placed(t) && Farewell(Life(c0, es[..n]));
    }
  }

  /** When letters are left behind by the turn that ends a connection's life. */
  predicate LeftBehind(c0: Conn, es: seq<Event>, inputs: nat -> Input) {
    var c := Life(c0, es);
    (TurnsAway(c, inputs, 0) && c.pool != []) || (SaysGoodbye(c, inputs, 0) && Late(c0, es) != [])
  }

  lemma LeftWhen(c: Conn, late: seq<Letter>, inputs: nat -> Input)
    requires Waits(c) && if Farewell(c) then c.pool == late else late == []
    ensures var d := After(c, Served(inputs));
            var left := (TurnsAway(c, inputs, 0) && c.pool != []) || (SaysGoodbye(c, inputs, 0) && late != []);
            && (Disposed(d) && d.pool != [] <==> left)
            && (left ==> d.pool == if Farewell(c) then late else c.pool)
  {
    DriveLeaves(c, inputs, 0);
  }

  /** A connection is disposed with letters in its pool exactly when its greeting was 421 with letters there, or a
      letter was placed during its farewell, is still there, and the server says goodbye. The letters left are then
      those of the pool, or the late ones. */
  lemma LettersLeft(c0: Conn, es: seq<Event>, inputs: nat -> Input)
    requires Fresh(c0) && Waits(Life(c0, es))
    ensures var (c, d) := (Life(c0, es), Life(c0, es + [Served(inputs)]));
            && (Disposed(d) && d.pool != [] <==> LeftBehind(c0, es, inputs))
            && (LeftBehind(c0, es, inputs) ==> d.pool == if Farewell(c) then Late(c0, es) else c.pool)
  {
    LifeNext(c0, es, Served(inputs));
    LateIs(c0, es);
    LeftWhen(Life(c0, es), Late(c0, es), inputs);
  }
}
