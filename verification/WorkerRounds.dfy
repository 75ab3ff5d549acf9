/** Whole runs of a worker, one turn of its outer loop after the other, and the lives its connections have in them. */
module WorkerRounds {
  import opened Text
  import opened Connection
  import opened ConnectionRuns
  import opened ConnectionRetries
  import opened ConnectionTheorems
  import opened WorkerTasks
  import opened WorkerPass
  import opened WorkerLives
  import opened WorkerCrashes

  /** What the environment decides during one turn of the outer loop: the letters delegated meanwhile, what the select
      call reports, whether the worker was told to stop, and how openings and connections fare. */
  datatype Round = Round(
    arrivals: seq<Letter>,
    readable: set<int>,
    writable: set<int>,
    readyCount: int,
    told: bool,             // at the head of the loop
    stopping: bool,         // after the select call
    net: Network,
    turns: nat -> Turn)

  /** The system never hands out a socket that is in use. */
  ghost predicate FreshSockets(net: Network) {
    forall open, k :: net(open, k).id !in open
  }

  /** A worker between turns: its desk, how many letters it was ever given, whether it has shut its connections down,
      and whether its loop was cut short. */
  datatype Work = Work(desk: Desk, count: nat, closing: bool, halt: Option<Ending>)

  const IDLE_WORK := Work(IDLE, 0, false, None)

  /** The desk after the shutdown, which happens once. */
  function Stopped(w: Work, r: Round): Desk {
    if r.stopping && !w.closing then Close(w.desk) else w.desk
  }

  /** The sockets a pass looks at: all of them once the worker is closing. */
  function ReadyIds(w: Work, r: Round): set<int> {
    if w.closing || r.stopping then ReaderIds(w.desk.conns) + WriterIds(w.desk.conns) else r.readable + r.writable
  }

  /** The turn comes to a pass over the connections. */
  predicate Passes(w: Work, r: Round) {
    && w.count != 0 && (w.closing || r.stopping || r.readyCount > 0)
    && AllWait(PlaceAll(Stopped(w, r), r.net, 0).conns)
  }

  /** One turn of the outer loop, without the letters that arrive before it. */
  function Around(w: Work, r: Round): Work {
    var closing := w.closing || r.stopping;
    if w.count == 0 then Work(Stopped(w, r), w.count, closing, None)
    else
      var d := PlaceAll(Stopped(w, r), r.net, 0);
      if !Passes(w, r) then Work(d, w.count, closing, None)
      else
        var p := PassFrom(d.conns, 0, d.past, ReadyIds(w, r), r.turns, 0);
        Work(d.(conns := p.kept, past := p.gone), w.count, closing, p.halt)
  }

  function Arriving(w: Work, ls: seq<Letter>): Work {
    w.(desk := w.desk.(tasks := w.desk.tasks + ls), count := w.count + |ls|)
  }

  lemma ArrivingNone(w: Work, before: seq<Letter>)
    ensures Arriving(w, []) == w && before + [] == before
  {
    assert w.desk.tasks + [] == w.desk.tasks;
  }

  lemma ArrivingNext(w: Work, before: seq<Letter>, ls: seq<Letter>, k: nat)
    requires k < |ls|
    ensures var v := Arriving(w, ls[..k]);
            Arriving(w, ls[..k + 1]) == v.(desk := v.desk.(tasks := v.desk.tasks + [ls[k]]), count := v.count + 1)
    ensures before + ls[..k + 1] == before + ls[..k] + [ls[k]]
  {
    assert ls[..k + 1] == ls[..k] + [ls[k]];
    Assoc(w.desk.tasks, ls[..k], [ls[k]]);
    Assoc(before, ls[..k], [ls[k]]);
  }

  /** The select call only clears what is not ready. */
  function Reported(w: Work, r: Round): Round {
    r.(readable := r.readable * ReaderIds(w.desk.conns), writable := r.writable * WriterIds(w.desk.conns))
  }

  function RunRounds(w: Work, rs: seq<Round>): Work {
    if rs == [] then w
    else
      var v := RunRounds(w, rs[..|rs| - 1]);
      if v.halt.Some? then v else Around(Arriving(v, rs[|rs| - 1].arrivals), Reported(v, rs[|rs| - 1]))
  }

  function Arrived(rounds: seq<Round>): seq<Letter> {
    if rounds == [] then [] else Arrived(rounds[..|rounds| - 1]) + rounds[|rounds| - 1].arrivals
  }

  lemma ArrivedNext(rounds: seq<Round>, k: nat, before: seq<Letter>)
    requires k < |rounds|
    ensures before + Arrived(rounds[..k + 1]) == before + Arrived(rounds[..k]) + rounds[k].arrivals
  {
    assert rounds[..k + 1][..k] == rounds[..k];
    Assoc(before, Arrived(rounds[..k]), rounds[k].arrivals);
  }

  lemma RoundsNext(w: Work, rounds: seq<Round>, k: nat)
    requires k < |rounds|
    ensures var v := RunRounds(w, rounds[..k]);
            RunRounds(w, rounds[..k + 1])
            == if v.halt.Some? then v else Around(Arriving(v, rounds[k].arrivals), Reported(v, rounds[k]))
  {
    assert rounds[..k + 1][..k] == rounds[..k];
  }

  // ------------------------------------------------------- lives in a run

  /** The connection is at this point of a life that began with an opening. */
  ghost predicate Lived(c: Conn) { exists c0, es :: Fresh(c0) && Life(c0, es) == c }

  /** The connection was removed: its last turn was `inputs`, after the events `es`. */
  ghost predicate Removed(c: Conn, c0: Conn, es: seq<Event>, inputs: nat -> Input) {
    && Fresh(c0) && Waits(Life(c0, es)) && c == Life(c0, es + [Served(inputs)])
    && (Disposed(c) || (!Final(c) && c.pool == []))
  }

  ghost predicate WasRemoved(c: Conn) { exists c0, es, inputs :: Removed(c, c0, es, inputs) }

  ghost predicate AllLived(conns: seq<Conn>) { forall i | 0 <= i < |conns| :: Lived(conns[i]) }

  ghost predicate AllRemoved(conns: seq<Conn>) { forall i | 0 <= i < |conns| :: WasRemoved(conns[i]) }

  lemma LivesOn(c: Conn, e: Event)
    requires Lived(c)
    ensures Lived(After(c, e))
  {
    var c0, es :| Fresh(c0) && Life(c0, es) == c;
    LifeNext(c0, es, e);
    assert Life(c0, es + [e]) == After(c, e);
  }

  lemma OpenedLives(o: Opening, t: Letter)
    ensures Lived(Opened(o, t)) && Waits(Opened(o, t))
  {
    assert Fresh(Opened(o, t)) && Life(Opened(o, t), []) == Opened(o, t);
  }

  lemma IsRemoved(c: Conn, inputs: nat -> Input)
    requires Lived(c) && Waits(c)
    requires var d := Drive(c, inputs, 0).0; Disposed(d) || (!Final(d) && d.pool == [])
    ensures WasRemoved(Drive(c, inputs, 0).0)
  {
    var c0, es :| Fresh(c0) && Life(c0, es) == c;
    LifeNext(c0, es, Served(inputs));
    assert Removed(Drive(c, inputs, 0).0, c0, es, inputs);
  }

  lemma PlaceLives(d: Desk, o: Opening)
    requires d.tasks != [] && AllLived(d.conns) && AllWait(d.conns)
    ensures var d' := Place(d, o); AllLived(d'.conns) && AllWait(d'.conns) && d'.past == d.past
  {
    var t := d.tasks[0];
    var i := IndexOfDomain(d.conns, t.domain);
    if i < |d.conns| {
      LivesOn(d.conns[i], Placed(t));
      assert Waits(d.conns[i]);
    } else {
      OpenedLives(o, t);
    }
  }

  lemma {:induction false} PlaceAllLives(d: Desk, net: Network, k: nat)
    requires AllLived(d.conns) && AllWait(d.conns)
    ensures var d' := PlaceAll(d, net, k); AllLived(d'.conns) && AllWait(d'.conns) && d'.past == d.past
    decreases |d.tasks|
  {
    if d.tasks != [] {
      PlaceLives(d, net(Ids(d.conns), k));
      PlaceAllLives(Place(d, net(Ids(d.conns), k)), net, k + 1);
    }
  }

  lemma CloseLives(d: Desk)
    requires AllLived(d.conns) && AllWait(d.conns)
    ensures AllLived(Close(d).conns) && AllWait(Close(d).conns)
  {
    forall i | 0 <= i < |d.conns| ensures Lived(CloseEach(d.conns)[i]) && Waits(CloseEach(d.conns)[i]) {
      assert Waits(d.conns[i]);
      LivesOn(d.conns[i], Cut);
    }
  }

  lemma {:induction false} PassLives(conns: seq<Conn>, ready: set<int>, turns: nat -> Turn, k: nat)
    requires AllLived(conns) && AllWait(conns)
    ensures var p := PassOver(conns, ready, turns, k);
            AllLived(p.kept) && AllRemoved(p.gone) && (p.halt == None ==> AllWait(p.kept))
    decreases |conns|
  {
    if conns != [] {
      var (c, rest) := (conns[0], conns[1..]);
      assert Waits(c) && Lived(c);
      var (d, e) := Look(c, c.id in ready, turns(k));
      LookLives(c, c.id in ready, turns(k));
      if e == Blocked || e == Gone {
        PassLives(rest, ready, turns, k + 1);
      }
    }
  }

  lemma LookLives(c: Conn, ready: bool, t: Turn)
    requires Lived(c) && Waits(c)
    ensures var (d, e) := Look(c, ready, t);
            && Lived(d) && (e == Blocked ==> Waits(d))
            && (ready && Leaves(d, e, t) ==> WasRemoved(d)) && (!ready ==> e == Blocked)
            && (e == Gone ==> Leaves(d, e, t))
  {
    if ready {
      LivesOn(c, Served(t.inputs));
      var (d, e) := Drive(c, t.inputs, 0);
      if Leaves(d, e, t) {
        IsRemoved(c, t.inputs);
      }
    }
  }

  ghost predicate WorkSound(w: Work) {
    AllLived(w.desk.conns) && AllRemoved(w.desk.past) && (w.halt == None ==> AllWait(w.desk.conns))
  }

  lemma AroundLives(w: Work, r: Round)
    requires WorkSound(w) && w.halt == None
    ensures WorkSound(Around(w, r))
  {
    if r.stopping && !w.closing {
      CloseLives(w.desk);
    }
    PlaceAllLives(Stopped(w, r), r.net, 0);
    var d := PlaceAll(Stopped(w, r), r.net, 0);
    assert d.conns[0..] == d.conns && d.conns[..0] == [];
    PassLives(d.conns, ReadyIds(w, r), r.turns, 0);
  }

  lemma {:induction false} RoundsLive(rs: seq<Round>)
    ensures WorkSound(RunRounds(IDLE_WORK, rs))
  {
    if rs != [] {
      var (init, r) := (rs[..|rs| - 1], rs[|rs| - 1]);
      RoundsLive(init);
      var v := RunRounds(IDLE_WORK, init);
      if v.halt == None {
        AroundLives(Arriving(v, r.arrivals), Reported(v, r));
      }
    }
  }

  /** Over every run of a worker, and whatever life led a connection to its removal: it took letters with it exactly
      when its greeting was 421 with letters in its pool, or a letter placed during its farewell was still there when
      the server said goodbye. */
  lemma WorkerLeaves(rs: seq<Round>, c: Conn)
    requires c in RunRounds(IDLE_WORK, rs).desk.past
    ensures WasRemoved(c)
    ensures forall c0, es, inputs | Removed(c, c0, es, inputs) :: c.pool != [] <==> LeftBehind(c0, es, inputs)
  {
    RoundsLive(rs);
    forall c0, es, inputs | Removed(c, c0, es, inputs) ensures c.pool != [] <==> LeftBehind(c0, es, inputs) {
      LettersLeft(c0, es, inputs);
    }
  }

  /** Over every run of a worker: a connection that followed a null pointer was in recovery after an unsent QUIT, with
      an RSET sent since the last filing that left another letter, or at its first MAIL after shutdown had emptied its
      pool while it awaited its greeting. */
  lemma WorkerFollowsNull(rs: seq<Round>, c: Conn)
    requires c in RunRounds(IDLE_WORK, rs).desk.conns && c.crashed
    ensures c.pool == [] && Lived(c)
    ensures forall c0, es | Fresh(c0) && Life(c0, es) == c ::
              || (c.cur == SMTP_ERROR && c.prev == RECEIVE_LETTER_RESPONSE && Spent(c.log))
              || (c.cur == SEND_MAIL_FROM && c.prev == RECEIVE_EHLO_RESPONSE && Emptied(c0, es))
  {
    RoundsLive(rs);
    assert Lived(c);
    forall c0, es | Fresh(c0) && Life(c0, es) == c
      ensures c.pool == []
      ensures (c.cur == SMTP_ERROR && c.prev == RECEIVE_LETTER_RESPONSE && Spent(c.log))
              || (c.cur == SEND_MAIL_FROM && c.prev == RECEIVE_EHLO_RESPONSE && Emptied(c0, es))
    {
      LifeCrashes(c0, es);
    }
  }
}
