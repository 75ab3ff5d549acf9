/**
 One pass of a worker over its connections, on values: the inner control loop drives a ready connection until it blocks
 or ends; the select sets name the connections to wait for.
 */
module WorkerPass {
  import opened Text
  import opened Connection
  import opened ConnectionRuns
  import opened ConnectionTheorems
  import opened WorkerTasks

  // ------------------------------------------------------ the inner control loop

  datatype Ending =
    | Blocked     // waits for its socket
    | Gone        // disposed
    | Endless     // an error the recovery leaves as it is: the loop never ends
    | Crashed     // a null pointer was followed

  /** Control steps until the loop over one ready connection ends. */
  function Drive(c: Conn, inputs: nat -> Input, k: nat): (r: (Conn, Ending))
    requires InTable(c.cur, c.prev) && !Final(c)
    ensures InTable(r.0.cur, r.0.prev) && r.0.id == c.id && r.0.domain == c.domain
    ensures Share(r.0) == Share(c)
    ensures Final(r.0) <==> r.1 != Blocked
    ensures r.1 == Blocked ==> Sends(r.0.cur) || Receives(r.0.cur)
    ensures r.1 == Gone <==> Disposed(r.0)
    ensures r.1 == Endless <==> Stuck(r.0)
    ensures r.1 == Crashed <==> r.0.crashed
    decreases Measure(c)
  {
    StepAdvances(c, inputs(k));
    StepKeepsDomain(c, inputs(k));
    HandedKept(c, inputs(k));
    BlockedOnSocket(c, inputs(k));
    var (d, status) := Step(c, inputs(k));
    if d.crashed then CrashStays(c, inputs(k)); (d, Crashed)
    else if d.prev == DISPOSING_SOCKET then (d, Gone)
    else if Stuck(d) then (d, Endless)
    else if status == 1 then (d, Blocked)
    else Drive(d, inputs, k + 1)
  }

  /** Following a null pointer leaves the connection where it is. */
  lemma CrashStays(c: Conn, i: Input)
    requires !c.crashed && Step(c, i).0.crashed
    ensures var d := Step(c, i).0; d.cur == c.cur && d.prev == c.prev && d.pool == c.pool && d.attempt == c.attempt
  {
    if Receives(c.cur) {
      assert Step(c, i) == ReceiveStep(c, i);
      assert ReceiveStep(c, i) == ReplyStep(c, i.reply, HangsUp(c.cur, i.reply), Verdict(c.cur, i.reply, c.domain));
    } else if Sends(c.cur) {
      assert Step(c, i) == SendStep(c, i);
    }
  }

  lemma BlockedOnSocket(c: Conn, i: Input)
    requires InTable(c.cur, c.prev)
    ensures Step(c, i).1 == 1 ==> Sends(c.cur) || Receives(c.cur)
  {
  }

  // ------------------------------------------------------------- the select sets

  /** A connection between passes: it is in the table, can go on, and waits for its socket to be read or written. */
  predicate Waits(c: Conn) {
    InTable(c.cur, c.prev) && !Final(c) && (Sends(c.cur) || Receives(c.cur))
  }

  /** The connections that wait to write, or those that wait to read. */
  function IdsOf(conns: seq<Conn>, writing: bool): set<int> {
    set i | 0 <= i < |conns| && (if writing then Sends(conns[i].cur) else Receives(conns[i].cur)) :: conns[i].id
  }

  function ReaderIds(conns: seq<Conn>): set<int> { IdsOf(conns, false) }

  function WriterIds(conns: seq<Conn>): set<int> { IdsOf(conns, true) }

  predicate DistinctIds(conns: seq<Conn>) {
    forall i, j | 0 <= i < j < |conns| :: conns[i].id != conns[j].id
  }

  predicate AllWait(conns: seq<Conn>) {
    forall i | 0 <= i < |conns| :: Waits(conns[i])
  }

  /** The select-set invariant. */
  predicate Selected(conns: seq<Conn>, readers: set<int>, writers: set<int>) {
    AllWait(conns) && DistinctIds(conns) && readers == ReaderIds(conns) && writers == WriterIds(conns)
  }

  /** What the invariant says of the sets: they are disjoint, together they are exactly the ids of the connections, and
      each connection is in the one its state calls for. */
  lemma SelectSets(conns: seq<Conn>, readers: set<int>, writers: set<int>)
    requires Selected(conns, readers, writers)
    ensures readers !! writers && readers + writers == Ids(conns)
    ensures forall i | 0 <= i < |conns| ::
              (conns[i].id in readers <==> Receives(conns[i].cur)) && (conns[i].id in writers <==> Sends(conns[i].cur))
  {
    forall i | 0 <= i < |conns|
      ensures conns[i].id in readers <==> Receives(conns[i].cur)
      ensures conns[i].id in writers <==> Sends(conns[i].cur)
    {
      assert Waits(conns[i]);
      assert forall j | 0 <= j < |conns| && conns[j].id == conns[i].id :: j == i;
    }
    forall x | x in readers ensures x !in writers {
      var i :| 0 <= i < |conns| && Receives(conns[i].cur) && conns[i].id == x;
    }
    forall x | x in Ids(conns) ensures x in readers + writers {
      var i :| 0 <= i < |conns| && conns[i].id == x;
      assert Waits(conns[i]);
    }
  }

  /** A connection changes but still waits. */
  lemma SelectUpdate(conns: seq<Conn>, readers: set<int>, writers: set<int>, i: nat, c: Conn)
    requires Selected(conns, readers, writers) && i < |conns|
    requires c.id == conns[i].id && Waits(c)
    ensures var (r, w) := (readers - {c.id}, writers - {c.id});
            Selected(conns[i := c], if Receives(c.cur) then r + {c.id} else r, if Sends(c.cur) then w + {c.id} else w)
  {
    var conns' := conns[i := c];
    var (r, w) := (readers - {c.id}, writers - {c.id});
    assert forall j | 0 <= j < |conns| && j != i :: conns'[j] == conns[j] && conns[j].id != c.id;
    assert AllWait(conns') && DistinctIds(conns');
    assert conns'[i] == c;
    assert ReaderIds(conns') == if Receives(c.cur) then r + {c.id} else r;
    assert WriterIds(conns') == if Sends(c.cur) then w + {c.id} else w;
  }

  lemma IdsWithout(conns: seq<Conn>, i: nat, writing: bool)
    requires i < |conns| && DistinctIds(conns)
    ensures IdsOf(conns[..i] + conns[i + 1..], writing) == IdsOf(conns, writing) - {conns[i].id}
  {
    var rest := conns[..i] + conns[i + 1..];
    assert forall j | 0 <= j < i :: rest[j] == conns[j];
    assert forall j | i < j < |conns| :: rest[j - 1] == conns[j];
    assert forall j | i <= j < |rest| :: rest[j] == conns[j + 1];
  }

  /** A connection leaves. */
  lemma SelectWithout(conns: seq<Conn>, readers: set<int>, writers: set<int>, i: nat)
    requires Selected(conns, readers, writers) && i < |conns|
    ensures Selected(conns[..i] + conns[i + 1..], readers - {conns[i].id}, writers - {conns[i].id})
  {
    var rest := conns[..i] + conns[i + 1..];
    var id := conns[i].id;
    forall j | 0 <= j < |rest| ensures Waits(rest[j]) && rest[j].id != id {
      assert rest[j] == conns[if j < i then j else j + 1];
    }
    IdsWithout(conns, i, false);
    IdsWithout(conns, i, true);
  }

  /** A connection stops waiting: it was in one of the sets only. */
  lemma Unselected(conns: seq<Conn>, readers: set<int>, writers: set<int>, i: nat)
    requires Selected(conns, readers, writers) && i < |conns|
    ensures var (id, rest) := (conns[i].id, conns[..i] + conns[i + 1..]);
            && Selected(rest, readers - {id}, writers - {id})
            && (Receives(conns[i].cur) ==> id !in writers)
            && (Sends(conns[i].cur) ==> id !in readers)
  {
    SelectWithout(conns, readers, writers, i);
    SelectSets(conns, readers, writers);
    assert Waits(conns[i]);
  }

  /** A connection joins, under an id not in use, waiting for its greeting. */
  lemma SelectJoin(conns: seq<Conn>, readers: set<int>, writers: set<int>, c: Conn)
    requires Selected(conns, readers, writers) && c.id !in Ids(conns)
    requires Waits(c) && Receives(c.cur)
    ensures Selected(conns + [c], readers + {c.id}, writers)
  {
    var conns' := conns + [c];
    assert conns'[|conns|] == c;
    assert forall j | 0 <= j < |conns| :: conns'[j] == conns[j] && conns[j].id in Ids(conns);
    assert ReaderIds(conns') == readers + {c.id};
    assert WriterIds(conns') == writers;
  }

  lemma SelectSame(conns: seq<Conn>, conns': seq<Conn>, readers: set<int>, writers: set<int>)
    requires Selected(conns, readers, writers) && |conns'| == |conns|
    requires forall i | 0 <= i < |conns| :: conns'[i] == conns[i].(pool := conns'[i].pool)
    ensures Selected(conns', readers, writers)
  {
    forall i | 0 <= i < |conns'| ensures Waits(conns'[i]) {
      assert Waits(conns[i]);
    }
    assert ReaderIds(conns') == ReaderIds(conns) && WriterIds(conns') == WriterIds(conns);
  }

  lemma SelectClosed(conns: seq<Conn>, readers: set<int>, writers: set<int>)
    requires Selected(conns, readers, writers)
    ensures Selected(CloseEach(conns), readers, writers)
  {
    SelectSame(conns, CloseEach(conns), readers, writers);
  }

  /** What the select call reports names connections that wait for just that. */
  predicate Ready(conns: seq<Conn>, readable: set<int>, writable: set<int>) {
    forall i | 0 <= i < |conns| ::
      (conns[i].id in readable ==> Receives(conns[i].cur)) && (conns[i].id in writable ==> Sends(conns[i].cur))
  }

  lemma ReadySets(conns: seq<Conn>, readers: set<int>, writers: set<int>, readable: set<int>, writable: set<int>)
    requires Selected(conns, readers, writers) && readable <= readers && writable <= writers
    ensures Ready(conns, readable, writable)
  {
    SelectSets(conns, readers, writers);
  }

  // ------------------------------------------------------------------ the pass

  /** What the environment decides while one connection of the list is looked at. */
  datatype Turn = Turn(inputs: nat -> Input, stopping: bool)

  /** The connections kept and removed by a pass, in list order, and how it was cut short if it was. */
  datatype Pass = Pass(kept: seq<Conn>, gone: seq<Conn>, halt: Option<Ending>)

  /** What one look at a connection makes of it. */
  function Look(c: Conn, ready: bool, t: Turn): (Conn, Ending)
    requires Waits(c)
  {
    if !ready then (c, Blocked) else Drive(c, t.inputs, 0)
  }

  /** A driven connection leaves the list when it is disposed, or blocked during shutdown with nothing left to send. */
  predicate Leaves(c: Conn, e: Ending, t: Turn) {
    e == Gone || (e == Blocked && t.stopping && c.pool == [])
  }

  /** The list after connection `i` had its turn. */
  function Served(conns: seq<Conn>, i: nat, c: Conn, removed: bool): seq<Conn>
    requires i < |conns|
  {
    if removed then conns[..i] + conns[i + 1..] else conns[i := c]
  }

  /** The sets after connection `i` had its turn: taken out of the one it was in, and put back if it still waits. */
  lemma AfterTurn(conns: seq<Conn>, readers: set<int>, writers: set<int>, i: nat, c: Conn, removed: bool,
                  r: set<int>, w: set<int>)
    requires Selected(conns, readers, writers) && i < |conns| && Waits(conns[i])
    requires c.id == conns[i].id && (removed || Waits(c))
    requires var r1 := if Receives(conns[i].cur) then readers - {c.id} else readers;
             r == if !removed && Receives(c.cur) then r1 + {c.id} else r1
    requires var w1 := if Receives(conns[i].cur) then writers else writers - {c.id};
             w == if !removed && Sends(c.cur) then w1 + {c.id} else w1
    ensures Selected(Served(conns, i, c, removed), r, w)
  {
    Unselected(conns, readers, writers, i);
    assert Receives(conns[i].cur) ==> writers - {c.id} == writers;
    assert Sends(conns[i].cur) ==> readers - {c.id} == readers;
    if !removed {
      SelectUpdate(conns, readers, writers, i, c);
    }
  }

  function PassOver(conns: seq<Conn>, ready: set<int>, turns: nat -> Turn, k: nat): Pass
    requires AllWait(conns)
    decreases |conns|
  {
    if conns == [] then Pass([], [], None)
    else
      var isReady := conns[0].id in ready;
      var (d, e) := Look(conns[0], isReady, turns(k));
      if e == Endless || e == Crashed then Pass([d] + conns[1..], [], Some(e))
      else
        var p := PassOver(conns[1..], ready, turns, k + 1);
        if isReady && Leaves(d, e, turns(k)) then p.(gone := [d] + p.gone) else p.(kept := [d] + p.kept)
  }

  /** The outcome of a pass that has come to position `i` of the list. */
  function PassFrom(conns: seq<Conn>, i: nat, past: seq<Conn>, ready: set<int>, turns: nat -> Turn, k: nat): Pass
    requires i <= |conns| && AllWait(conns)
  {
    var p := PassOver(conns[i..], ready, turns, k);
    Pass(conns[..i] + p.kept, past + p.gone, p.halt)
  }

  /** A pass, one connection further. */
  lemma PassStep(conns: seq<Conn>, i: nat, past: seq<Conn>, ready: set<int>, turns: nat -> Turn, k: nat)
    requires i < |conns| && AllWait(conns)
    ensures var isReady := conns[i].id in ready;
            var (d, e) := Look(conns[i], isReady, turns(k));
            var removed := isReady && Leaves(d, e, turns(k));
            var (conns', i') := (Served(conns, i, d, removed), if removed then i else i + 1);
            && (e == Endless || e == Crashed ==>
                  PassFrom(conns, i, past, ready, turns, k) == Pass(conns', past, Some(e)))
            && (e == Blocked || e == Gone ==>
                  && conns'[i'..] == conns[i..][1..]
                  && (AllWait(conns') ==>
                        PassFrom(conns, i, past, ready, turns, k)
                        == PassFrom(conns', i', if removed then past + [d] else past, ready, turns, k + 1)))
  {
    var isReady := conns[i].id in ready;
    var (d, e) := Look(conns[i], isReady, turns(k));
    var removed := isReady && Leaves(d, e, turns(k));
    var conns' := Served(conns, i, d, removed);
    var (kept, rest) := (conns[..i], conns[i + 1..]);
    assert conns[i..][0] == conns[i] && conns[i..][1..] == rest;
    var p := PassOver(rest, ready, turns, k + 1);
    if e == Endless || e == Crashed {
      assert kept + ([d] + rest) == conns';
      assert past + [] == past;
    } else if removed {
      assert conns'[i..] == rest && conns'[..i] == kept;
      Assoc(past, [d], p.gone);
    } else {
      assert conns'[i + 1..] == rest && conns'[..i + 1] == kept + [d];
      Assoc(kept, [d], p.kept);
    }
  }

  lemma PassDone(conns: seq<Conn>, past: seq<Conn>, ready: set<int>, turns: nat -> Turn, k: nat)
    requires AllWait(conns)
    ensures PassFrom(conns, |conns|, past, ready, turns, k) == Pass(conns, past, None)
  {
    assert conns[|conns|..] == [] && conns[..|conns|] + [] == conns && past + [] == past;
  }
}
