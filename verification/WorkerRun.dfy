/**
 A worker as the object its loop updates: the task queue, the list of connection objects and the select sets. Every
 method is held to the description on values, and every state it reaches is one a run of desk operations reaches.
 */
module WorkerRun {
  import opened Text
  import opened Outcomes
  import opened Connection
  import opened ConnectionRuns
  import opened ConnectionTheorems
  import opened SmtpInterface
  import opened WorkerTasks
  import opened WorkerPass
  import opened WorkerRounds

  ghost function Views(fds: seq<FileDesc>): seq<Conn>
    reads fds
  {
    seq(|fds|, i requires 0 <= i < |fds| reads fds => fds[i].View())
  }

  function DomainsOf(conns: seq<Conn>): seq<string> {
    seq(|conns|, i requires 0 <= i < |conns| => conns[i].domain)
  }

  lemma EvictedNext(conns: seq<Conn>, i: nat, letters: seq<Letter>, domains: seq<string>)
    requires i < |conns|
    ensures letters + Evicted(conns[..i + 1]) == letters + Evicted(conns[..i]) + conns[i].pool[|Spared(conns[i])|..]
    ensures domains + DomainsOf(conns[..i + 1]) == domains + DomainsOf(conns[..i]) + [conns[i].domain]
  {
    assert conns[..i + 1][..i] == conns[..i];
    Assoc(letters, Evicted(conns[..i]), conns[i].pool[|Spared(conns[i])|..]);
  }

  class Worker {
    var tasks: seq<Letter>
    var count_task: nat
    var sockets: seq<FileDesc>
    var readers: set<int>
    var writers: set<int>
    var closing: bool
    var halt: Option<Ending>             // the loop is stuck in one connection, or crashed
    ghost var returned: seq<Letter>      // moved back to `new` by the worker itself
    ghost var past: seq<Conn>            // removed connections
    ghost var forgotten: seq<string>     // domains whose record was removed from the dictionary
    ghost var delegated: seq<Letter>     // every letter ever put in the queue
    ghost var history: seq<Op>

    ghost predicate Apart()
      reads `sockets
    {
      forall i, j | 0 <= i < j < |sockets| :: sockets[i] != sockets[j]
    }

    ghost function View(): Desk
      reads `tasks, `sockets, `returned, `past, sockets
    {
      Desk(tasks, Views(sockets), returned, past)
    }

    ghost function Whole(): Work
      reads this, sockets
    {
      Work(View(), count_task, closing, halt)
    }

    /** The worker is where its history leads. */
    ghost predicate Recorded()
      reads `tasks, `sockets, `returned, `past, `history, `delegated, `count_task, sockets
    {
      Apart() && View() == RunOps(history) && delegated == Delegated(history) && count_task == |delegated|
    }

    /** What holds at the head of the outer loop. */
    ghost predicate Valid()
      reads this, sockets
    {
      Recorded() && halt == None && Selected(Views(sockets), readers, writers)
    }

    constructor ()
      ensures Valid() && sockets == [] && View() == IDLE && !closing && forgotten == [] && delegated == []
    {
      tasks, count_task, sockets, readers, writers := [], 0, [], {}, {};
      closing, halt, returned, past, forgotten, delegated, history := false, None, [], [], [], [], [];
    }

    /** What was just done to the worker joins its history. */
    ghost method Record(before: Desk, op: Op)
      requires Apart() && before == RunOps(history) && View() == Apply(before, op) && count_task == |delegated|
      requires delegated == if op.Delegate? then Delegated(history) + [op.task] else Delegated(history)
      modifies `history
      ensures Recorded() && history == old(history) + [op]
    {
      RunOne(history, op);
      history := history + [op];
    }

    /** The end of the queue; what `DelegateTaskToWorker` does to the worker it chose. */
    method Delegate(t: Letter)
      requires Recorded()
      modifies `tasks, `count_task, `delegated, `history
      ensures Recorded() && (old(Valid()) ==> Valid()) && View() == old(View()).(tasks := old(tasks) + [t])
      ensures delegated == old(delegated) + [t] && count_task == old(count_task) + 1
    {
      ghost var before := View();
      tasks := tasks + [t];
      count_task := count_task + 1;
      delegated := delegated + [t];
      Record(before, Op.Delegate(t));
    }

    method FindSocketByDomain(domain: string) returns (i: nat)
      ensures i == IndexOfDomain(Views(sockets), domain)
    {
      i := 0;
      while i < |sockets|
        invariant i <= |sockets|
        invariant forall j | 0 <= j < i :: sockets[j].domain != domain
      {
        if sockets[i].domain == domain {
          break;
        }
        i := i + 1;
      }
      IndexOfDomainIs(Views(sockets), domain, i);
    }

    method AddNewSocketConnection(domain: string, o: Opening) returns (fd: FileDesc?)
      modifies `sockets
      ensures o.connecting.Unprepared? ==> fd == null && sockets == old(sockets)
      ensures !o.connecting.Unprepared? ==>
        && fd != null && fresh(fd) && sockets == old(sockets) + [fd]
        && fd.View() == Conn(o.id, domain, RECEIVE_SMTP_GREETING, PREPARE_SOCKET_CONNECTION, o.attempt,
                             [], None, None, [], false)
    {
      var connection := new FileDesc(o.id, domain, o.attempt);
      sockets := sockets + [connection];
      var status := connection.SmtpControl(Input(Done, "", _ => Done, true, true, o.connecting));
      if status != 0 && status != 1 {
        sockets := sockets[..|sockets| - 1];
        return null;
      }
      return connection;
    }

    /** A task at the end of an open connection's pool. */
    method AppendToPool(i: nat, t: Letter)
      requires i < |sockets| && Apart() && Selected(Views(sockets), readers, writers)
      modifies sockets[i]
      ensures Views(sockets) == old(Views(sockets))[i := Given(old(Views(sockets))[i], t)]
      ensures Selected(Views(sockets), readers, writers)
    {
      ghost var conns := Views(sockets);
      SelectSame(conns, conns[i := Given(conns[i], t)], readers, writers);
      sockets[i].task_pool := sockets[i].task_pool + [t];
      assert Views(sockets) == conns[i := Given(conns[i], t)];
    }

    /** The task that was first in the queue gets a connection of its own, or goes back to `new`. */
    method OpenFor(t: Letter, o: Opening)
      requires Apart() && o.id !in Ids(Views(sockets)) && Selected(Views(sockets), readers, writers)
      modifies `sockets, `readers, `returned
      ensures Apart() && Selected(Views(sockets), readers, writers)
      ensures old(readers) <= readers
      ensures forall i | 0 <= i < |sockets| :: sockets[i] in old(sockets) || fresh(sockets[i])
      ensures o.connecting.Unprepared? ==> Views(sockets) == old(Views(sockets)) && returned == old(returned) + [t]
      ensures !o.connecting.Unprepared? ==>
                Views(sockets) == old(Views(sockets)) + [Opened(o, t)] && returned == old(returned)
    {
      ghost var conns := Views(sockets);
      var fd := AddNewSocketConnection(t.domain, o);
      if fd == null {
        returned := returned + [t];
        return;
      }
      readers := readers + {fd.id};
      fd.task_pool := [t];
      assert Views(sockets) == conns + [Opened(o, t)];
      SelectJoin(conns, old(readers), writers, Opened(o, t));
    }

    /** The first task of the queue moves to its connection, opened if there is none, or back to `new`. */
    method PlaceTask(o: Opening)
      requires tasks != [] && Apart() && o.id !in Ids(Views(sockets))
      requires Selected(Views(sockets), readers, writers)
      modifies `tasks, `sockets, `readers, `returned, sockets
      ensures View() == Place(old(View()), o) && old(readers) <= readers
      ensures Apart() && Selected(Views(sockets), readers, writers)
      ensures forall i | 0 <= i < |sockets| :: sockets[i] in old(sockets) || fresh(sockets[i])
    {
      var t := tasks[0];
      tasks := tasks[1..];
      var i := FindSocketByDomain(t.domain);
      if i < |sockets| {
        AppendToPool(i, t);
      } else {
        OpenFor(t, o);
      }
    }

    method OpenSockets() returns (open: set<int>)
      ensures open == Ids(Views(sockets))
    {
      open := set i | 0 <= i < |sockets| :: sockets[i].id;
      assert forall i | 0 <= i < |sockets| :: Views(sockets)[i].id == sockets[i].id;
    }

    /** The queue loop. */
    method PlaceTasks(net: Network)
      requires Apart() && Selected(Views(sockets), readers, writers) && FreshSockets(net)
      modifies `tasks, `sockets, `readers, `returned, sockets
      ensures View() == PlaceAll(old(View()), net, 0) && old(readers) <= readers
      ensures Apart() && Selected(Views(sockets), readers, writers)
      ensures forall i | 0 <= i < |sockets| :: sockets[i] in old(sockets) || fresh(sockets[i])
    {
      var n := 0;
      while tasks != []
        invariant PlaceAll(View(), net, n) == PlaceAll(old(View()), net, 0) && old(readers) <= readers
        invariant Apart() && Selected(Views(sockets), readers, writers)
        invariant forall i | 0 <= i < |sockets| :: sockets[i] in old(sockets) || fresh(sockets[i])
        decreases |tasks|
      {
        ghost var d := View();
        var open := OpenSockets();
        PlaceTask(net(open, n));
        assert PlaceAll(d, net, n) == PlaceAll(Place(d, net(open, n)), net, n + 1);
        n := n + 1;
      }
    }

    method ProcessingTasks(net: Network)
      requires Valid() && FreshSockets(net)
      modifies `tasks, `sockets, `readers, `returned, `history, sockets
      ensures Valid() && View() == PlaceAll(old(View()), net, 0) && old(readers) <= readers
      ensures history == old(history) + [Process(net)]
      ensures forall i | 0 <= i < |sockets| :: sockets[i] in old(sockets) || fresh(sockets[i])
    {
      ghost var before := View();
      PlaceTasks(net);
      Record(before, Process(net));
    }

    /** A letter kept by the shutdown, if the connection is past its greeting, and the others taken out of its pool. */
    method CutPool(fd: FileDesc)
      modifies fd, `returned
      ensures fd.View() == Closed(old(fd.View()))
      ensures returned == old(returned) + old(fd.task_pool)[|Spared(old(fd.View()))|..]
    {
      var rest := fd.task_pool;
      if rest == [] {
        return;
      }
      if fd.current_state >= 2 {
        rest := rest[1..];
        fd.task_pool := fd.task_pool[..1];
      } else {
        fd.task_pool := [];
      }
      ghost var cut := rest;
      while rest != []
        invariant fd.View() == Closed(old(fd.View()))
        invariant returned + rest == old(returned) + cut
        decreases |rest|
      {
        returned := returned + [rest[0]];
        rest := rest[1..];
      }
    }

    /** The first `i` connections are cut, the others are as they were. */
    ghost predicate CutUpTo(i: nat, conns: seq<Conn>)
      reads this, sockets
    {
      && i <= |sockets| == |conns|
      && (forall j | 0 <= j < i :: sockets[j].View() == Closed(conns[j]))
      && (forall j | i <= j < |sockets| :: sockets[j].View() == conns[j])
    }

    method CutNext(i: nat, ghost conns: seq<Conn>)
      requires i < |sockets| && Apart() && CutUpTo(i, conns)
      modifies `returned, `forgotten, sockets[i]
      ensures CutUpTo(i + 1, conns)
      ensures returned == old(returned) + conns[i].pool[|Spared(conns[i])|..]
      ensures forgotten == old(forgotten) + [conns[i].domain]
    {
      forgotten := forgotten + [sockets[i].domain];
      CutPool(sockets[i]);
    }

    method CutPools()
      requires Apart()
      modifies `returned, `forgotten, sockets
      ensures Views(sockets) == CloseEach(old(Views(sockets)))
      ensures returned == old(returned) + Evicted(old(Views(sockets)))
      ensures forgotten == old(forgotten) + DomainsOf(old(Views(sockets)))
    {
      ghost var conns := Views(sockets);
      var i := 0;
      while i < |sockets|
        invariant i <= |sockets| && CutUpTo(i, conns)
        invariant returned == old(returned) + Evicted(conns[..i])
        invariant forgotten == old(forgotten) + DomainsOf(conns[..i])
      {
        CutNext(i, conns);
        EvictedNext(conns, i, old(returned), old(forgotten));
        i := i + 1;
      }
      assert conns[..i] == conns;
    }

    method ClosingConnections()
      requires Valid()
      modifies `returned, `forgotten, `history, sockets
      ensures Valid() && View() == Close(old(View()))
      ensures history == old(history) + [Shut]
      ensures forgotten == old(forgotten) + DomainsOf(old(Views(sockets)))
    {
      SelectClosed(Views(sockets), readers, writers);
      ghost var before := View();
      CutPools();
      Record(before, Shut);
    }

    /** The inner control loop over one connection. */
    method Control(i: nat, inputs: nat -> Input) returns (status: int, ending: Ending)
      requires Recorded() && i < |sockets| && Waits(sockets[i].View())
      modifies `history, sockets[i]
      ensures Recorded()
      ensures (sockets[i].View(), ending) == Drive(old(sockets[i].View()), inputs, 0)
      ensures ending == Gone ==> status == 0
      ensures ending == Blocked ==> status == 1
      ensures ending == Crashed <==> sockets[i].crashed
    {
      var fd := sockets[i];
      var k := 0;
      status := 0;
      while status == 0
        invariant Recorded()
        invariant InTable(fd.current_state, fd.prev_state) && !Final(fd.View())
        invariant status == 0 ==> Drive(fd.View(), inputs, k) == Drive(old(fd.View()), inputs, 0)
        invariant status != 0 ==> status == 1 && (fd.View(), Blocked) == Drive(old(fd.View()), inputs, 0)
        decreases Measure(fd.View()), if status == 0 then 1 else 0
      {
        StepAdvances(fd.View(), inputs(k));
        status := Advance(i, inputs(k));
        k := k + 1;
        if fd.crashed {
          return status, Crashed;
        }
        // an error is left to the handler of errors
        if fd.current_state == SMTP_ERROR {
          status := 0;
        }
        if fd.prev_state == DISPOSING_SOCKET {
          return status, Gone;
        }
        if fd.current_state == SMTP_ERROR && fd.prev_state in {SEND_RCPT_TO, RECEIVE_RCPT_TO_RESPONSE, SMTP_ERROR} {
          return status, Endless;
        }
      }
      ending := Blocked;
    }

    /** One control step, recorded. */
    method Advance(i: nat, input: Input) returns (status: int)
      requires Recorded() && i < |sockets|
      modifies `history, sockets[i]
      ensures Recorded() && history == old(history) + [Serve(i, input)]
      ensures (sockets[i].View(), status) == Step(old(sockets[i].View()), input)
    {
      ghost var before := View();
      status := sockets[i].SmtpControl(input);
      assert Views(sockets) == before.conns[i := Step(before.conns[i], input).0];
      Record(before, Serve(i, input));
    }

    ghost predicate IdsApart()
      reads `sockets
    {
      forall i, j | 0 <= i < j < |sockets| :: sockets[i].id != sockets[j].id
    }

    lemma SelectedApart()
      requires Selected(Views(sockets), readers, writers)
      ensures IdsApart()
    {
      var conns := Views(sockets);
      assert forall j | 0 <= j < |sockets| :: conns[j].id == sockets[j].id;
    }

    /** The first connection of the list with this socket. */
    method FindSocketById(id: int, ghost i: nat) returns (j: nat)
      requires IdsApart() && i < |sockets| && sockets[i].id == id
      ensures j == i
    {
      j := 0;
      while sockets[j].id != id
        invariant j <= i
        decreases i - j
      {
        j := j + 1;
      }
    }

    method RemoveSocketConnectionFromPool(fd: FileDesc, ghost i: nat)
      requires Recorded() && IdsApart() && i < |sockets| && sockets[i] == fd
      modifies `sockets, `past, `history
      ensures Recorded() && history == old(history) + [Retire(i)]
      ensures sockets == old(sockets)[..i] + old(sockets)[i + 1..] && past == old(past) + [fd.View()]
      ensures Views(sockets) == old(Views(sockets))[..i] + old(Views(sockets))[i + 1..]
    {
      ghost var before := View();
      Unlink(fd, i);
      Record(before, Retire(i));
    }

    method Unlink(fd: FileDesc, ghost i: nat)
      requires Apart() && IdsApart() && i < |sockets| && sockets[i] == fd
      modifies `sockets, `past
      ensures Apart() && View() == Remove(old(View()), i)
      ensures sockets == old(sockets)[..i] + old(sockets)[i + 1..]
    {
      ghost var conns := Views(sockets);
      var j := FindSocketById(fd.id, i);
      sockets := sockets[..j] + sockets[j + 1..];
      past := past + [fd.View()];
      assert Views(sockets) == conns[..i] + conns[i + 1..];
    }

    /** A ready connection is driven, and removed if it is over. */
    method ServeReady(fd: FileDesc, i: nat, t: Turn) returns (removed: bool, ending: Ending)
      requires Recorded() && IdsApart() && i < |sockets| && sockets[i] == fd && Waits(fd.View())
      modifies `history, `past, `sockets, fd
      ensures Recorded() && OldSockets(old(sockets))
      ensures (fd.View(), ending) == Drive(old(fd.View()), t.inputs, 0)
      ensures removed == Leaves(fd.View(), ending, t)
      ensures Views(sockets) == Served(old(Views(sockets)), i, fd.View(), removed)
      ensures past == if removed then old(past) + [fd.View()] else old(past)
    {
      ghost var conns := Views(sockets);
      var status;
      status, ending := Control(i, t.inputs);
      assert Views(sockets) == conns[i := fd.View()];
      removed := false;
      if ending == Endless || ending == Crashed {
        return;
      }
      if status != 1 && status != 0 {
        // the source gives up the domain's dictionary record here
        assert false;
      } else if status == 0 || (t.stopping && fd.task_pool == []) {
        removed := true;
        RemoveSocketConnectionFromPool(fd, i);
        assert conns[..i] == conns[i := fd.View()][..i] && conns[i + 1..] == conns[i := fd.View()][i + 1..];
      }
    }

    ghost predicate OldSockets(before: seq<FileDesc>)
      reads `sockets
    {
      forall i | 0 <= i < |sockets| :: sockets[i] in before
    }

    /** A connection that blocked is waited for again. */
    method Reselect(fd: FileDesc)
      requires Waits(fd.View())
      modifies `readers, `writers
      ensures readers == if Receives(fd.current_state) then old(readers) + {fd.id} else old(readers)
      ensures writers == if Sends(fd.current_state) then old(writers) + {fd.id} else old(writers)
    {
      if Receives(fd.current_state) {
        readers := readers + {fd.id};
      } else if Sends(fd.current_state) {
        writers := writers + {fd.id};
      } else {
        // "Fail SMTP Graph STATE"
        assert false;
      }
    }

    /** A ready connection has its turn, and is waited for again if it blocked. */
    method ServeAgain(fd: FileDesc, i: nat, t: Turn) returns (removed: bool, ending: Ending)
      requires Recorded() && IdsApart() && i < |sockets| && sockets[i] == fd && Waits(fd.View())
      modifies `history, `past, `sockets, `readers, `writers, fd
      ensures Recorded() && OldSockets(old(sockets))
      ensures (fd.View(), ending) == Drive(old(fd.View()), t.inputs, 0)
      ensures removed == Leaves(fd.View(), ending, t)
      ensures Views(sockets) == Served(old(Views(sockets)), i, fd.View(), removed)
      ensures past == if removed then old(past) + [fd.View()] else old(past)
      ensures var again := ending == Blocked && !removed;
              && readers == (if again && Receives(fd.current_state) then old(readers) + {fd.id} else old(readers))
              && writers == (if again && Sends(fd.current_state) then old(writers) + {fd.id} else old(writers))
    {
      removed, ending := ServeReady(fd, i, t);
      if ending == Blocked && !removed {
        Reselect(fd);
      }
    }

    /** What a ready connection's turn leaves: the connection waits in the right set, or is gone from list and sets. */
    method ServeSelected(fd: FileDesc, i: nat, reading: bool, t: Turn) returns (removed: bool, ending: Ending)
      requires Valid() && i < |sockets| && sockets[i] == fd && Waits(fd.View()) && reading == Receives(fd.current_state)
      modifies `history, `past, `sockets, `readers, `writers, fd
      ensures Recorded() && OldSockets(old(sockets))
      ensures ending == Blocked || ending == Gone ==> Selected(Views(sockets), readers, writers)
      ensures (fd.View(), ending) == Drive(old(fd.View()), t.inputs, 0)
      ensures removed == Leaves(fd.View(), ending, t)
      ensures Views(sockets) == Served(old(Views(sockets)), i, fd.View(), removed)
      ensures past == if removed then old(past) + [fd.View()] else old(past)
    {
      ghost var conns := Views(sockets);
      SelectedApart();
      if reading {
        readers := readers - {fd.id};
      } else {
        writers := writers - {fd.id};
      }
      removed, ending := ServeAgain(fd, i, t);
      if ending == Blocked || ending == Gone {
        AfterTurn(conns, old(readers), old(writers), i, fd.View(), removed, readers, writers);
      }
    }

    /** One connection of the list, in a pass over those found ready. */
    method Visit(fd: FileDesc, i: nat, readable: set<int>, writable: set<int>, t: Turn)
      returns (removed: bool, ending: Ending)
      requires Valid() && i < |sockets| && sockets[i] == fd && Waits(fd.View())
      requires fd.id in readable ==> Receives(fd.current_state)
      requires fd.id in writable ==> Sends(fd.current_state)
      modifies `history, `past, `sockets, `readers, `writers, fd
      ensures Recorded() && OldSockets(old(sockets))
      ensures ending == Blocked || ending == Gone ==> Selected(Views(sockets), readers, writers)
      ensures var ready := fd.id in readable + writable;
              var d := fd.View();
              && (d, ending) == Look(old(fd.View()), ready, t)
              && removed == (ready && Leaves(d, ending, t))
              && Views(sockets) == Served(old(Views(sockets)), i, d, removed)
              && past == if removed then old(past) + [d] else old(past)
    {
      removed, ending := false, Blocked;
      if fd.id in readable {
        removed, ending := ServeSelected(fd, i, true, t);
      } else if fd.id in writable {
        removed, ending := ServeSelected(fd, i, false, t);
      }
    }

    /** A pass that has come to position `i` of the list after `k` turns, and will end in `whole`. */
    ghost predicate Underway(i: nat, k: nat, readable: set<int>, writable: set<int>, turns: nat -> Turn, whole: Pass)
      reads this, sockets
    {
      && Valid() && i <= |sockets|
      && Ready(Views(sockets)[i..], readable, writable)
      && whole == PassFrom(Views(sockets), i, past, readable + writable, turns, k)
    }

    method SweepOne(i: nat, k: nat, readable: set<int>, writable: set<int>, turns: nat -> Turn, ghost whole: Pass)
      returns (next: nat)
      requires i < |sockets| && Underway(i, k, readable, writable, turns, whole)
      modifies `history, `past, `sockets, `halt, `readers, `writers, sockets
      ensures OldSockets(old(sockets)) && Recorded()
      ensures halt == None ==> Underway(next, k + 1, readable, writable, turns, whole)
      ensures halt == None ==> |sockets| - next < old(|sockets|) - i
      ensures halt != None ==> whole == Pass(Views(sockets), past, halt)
    {
      ghost var conns := Views(sockets);
      assert conns[i..][0] == sockets[i].View();
      assert AllWait(conns);
      PassStep(conns, i, past, readable + writable, turns, k);
      var removed, ending := Visit(sockets[i], i, readable, writable, turns(k));
      if ending == Endless || ending == Crashed {
        halt := Some(ending);
      }
      next := if removed then i else i + 1;
    }

    /** A pass over the list: every connection found ready is driven, in list order; no other is touched. */
    method Sweep(readable: set<int>, writable: set<int>, turns: nat -> Turn)
      requires Valid() && readable <= readers && writable <= writers
      modifies `history, `past, `sockets, `halt, `readers, `writers, sockets
      ensures Recorded() && OldSockets(old(sockets)) && (halt == None ==> Valid())
      ensures Pass(Views(sockets), past, halt)
              == PassFrom(old(Views(sockets)), 0, old(past), readable + writable, turns, 0)
    {
      ReadySets(Views(sockets), readers, writers, readable, writable);
      ghost var whole := PassFrom(Views(sockets), 0, past, readable + writable, turns, 0);
      var i: nat, k: nat := 0, 0;
      while i < |sockets| && halt == None
        invariant Recorded() && OldSockets(old(sockets))
        invariant halt == None ==> Underway(i, k, readable, writable, turns, whole)
        invariant halt != None ==> whole == Pass(Views(sockets), past, halt)
        decreases halt == None, |sockets| - i
      {
        i := SweepOne(i, k, readable, writable, turns, whole);
        k := k + 1;
      }
      if halt == None {
        PassDone(Views(sockets), past, readable + writable, turns, k);
      }
    }

    /** Told to stop, the worker closes its connections once. */
    method Stop(stopping: bool)
      requires Valid()
      modifies `returned, `forgotten, `history, `closing, sockets
      ensures Valid()
      ensures closing == (old(closing) || stopping)
      ensures View() == if stopping && !old(closing) then Close(old(View())) else old(View())
      ensures forgotten
              == old(forgotten) + if stopping && !old(closing) then DomainsOf(old(Views(sockets))) else []
    {
      if stopping && !closing {
        ClosingConnections();
        closing := true;
      }
    }

    /** The queue is placed; then, if any socket is ready, the list is swept. */
    method Attend(readable: set<int>, writable: set<int>, readyCount: int, net: Network, turns: nat -> Turn)
      requires Valid() && FreshSockets(net) && readable <= readers && writable <= writers
      modifies `tasks, `sockets, `readers, `writers, `returned, `past, `halt, `history, sockets
      ensures Recorded() && (halt == None ==> Valid())
      ensures forall i | 0 <= i < |sockets| :: sockets[i] in old(sockets) || fresh(sockets[i])
      ensures var d := PlaceAll(old(View()), net, 0);
              && AllWait(d.conns)
              && var p := if readyCount <= 0 then Pass(d.conns, d.past, None)
                          else PassFrom(d.conns, 0, d.past, readable + writable, turns, 0);
                 View() == d.(conns := p.kept, past := p.gone) && halt == p.halt
    {
      ProcessingTasks(net);
      assert AllWait(Views(sockets));
      if readyCount <= 0 {
        return;
      }
      Sweep(readable, writable, turns);
    }

    /** One turn of the outer loop. */
    method Iterate(r: Round)
      requires Valid() && FreshSockets(r.net) && r.readable <= readers && r.writable <= writers
      modifies `tasks, `sockets, `readers, `writers, `returned, `past, `halt, `forgotten, `closing, `history, sockets
      ensures Recorded() && (halt == None ==> Valid())
      ensures forall i | 0 <= i < |sockets| :: sockets[i] in old(sockets) || fresh(sockets[i])
      ensures forgotten
              == old(forgotten) + if r.stopping && !old(closing) then DomainsOf(old(Views(sockets))) else []
      ensures Whole() == Around(old(Whole()), r)
    {
      Stop(r.stopping);
      if count_task == 0 {
        return;
      }
      if closing {
        Attend(readers, writers, 1, r.net, r.turns);
      } else {
        Attend(r.readable, r.writable, r.readyCount, r.net, r.turns);
      }
    }

    method DelegateAll(ts: seq<Letter>)
      requires Valid()
      modifies `tasks, `count_task, `delegated, `history
      ensures Valid() && delegated == old(delegated) + ts && Whole() == Arriving(old(Whole()), ts)
    {
      ghost var (w, before) := (Whole(), delegated);
      var k := 0;
      ArrivingNone(w, before);
      while k < |ts|
        invariant k <= |ts| && Valid() && delegated == before + ts[..k] && Whole() == Arriving(w, ts[..k])
      {
        ArrivingNext(w, before, ts, k);
        Delegate(ts[k]);
        k := k + 1;
      }
      assert ts[..k] == ts;
    }

    /** Letters arrive, the select call clears what is not ready, and the loop turns once. */
    method GoRound(r: Round)
      requires Valid() && FreshSockets(r.net)
      modifies this, sockets
      ensures Recorded() && (halt == None ==> Valid())
      ensures forall i | 0 <= i < |sockets| :: sockets[i] in old(sockets) || fresh(sockets[i])
      ensures delegated == old(delegated) + r.arrivals
      ensures Whole() == Around(Arriving(old(Whole()), r.arrivals), Reported(old(Whole()), r))
    {
      DelegateAll(r.arrivals);
      Iterate(r.(readable := r.readable * readers, writable := r.writable * writers));
    }

    /** The outer loop, for any number of turns: it goes on until the worker was told to stop and has no connection
        left. Letters are delegated between turns. It does `n` turns exactly as `RunRounds` describes them, and whatever
        happens, the invariant holds at every head of the loop. */
    method Run(rounds: seq<Round>) returns (ghost n: nat)
      requires Valid() && forall k | 0 <= k < |rounds| :: FreshSockets(rounds[k].net)
      modifies this, sockets
      ensures Recorded() && (halt == None ==> Valid())
      ensures n <= |rounds| && Whole() == RunRounds(old(Whole()), rounds[..n])
      ensures delegated == old(delegated) + Arrived(rounds[..n])
      ensures n < |rounds| && halt == None ==> rounds[n].told && sockets == []
    {
      ghost var w := Whole();
      n := 0;
      var k := 0;
      while k < |rounds| && halt == None && (!rounds[k].told || sockets != [])
        invariant n == k <= |rounds| && Recorded() && (halt == None ==> Valid())
        invariant forall i | 0 <= i < |sockets| :: sockets[i] in old(sockets) || fresh(sockets[i])
        invariant delegated == old(delegated) + Arrived(rounds[..k])
        invariant Whole() == RunRounds(w, rounds[..k])
        decreases |rounds| - k
      {
        GoRound(rounds[k]);
        ArrivedNext(rounds, k, old(delegated));
        RoundsNext(w, rounds, k);
        k := k + 1;
        n := n + 1;
      }
    }
  }

  /** What every reachable state of a worker satisfies: each letter delegated to it is still somewhere, once for every
      time it was delegated; no two open connections serve one domain, and each holds letters to its domain only; and
      letters to one domain are handled in the order they came. */
  lemma WorkerKeeps(w: Worker, x: Letter, domain: string)
    requires w.Recorded()
    ensures Copies(x, w.View()) == Times(x, w.delegated)
    ensures Orderly(w.View())
    ensures Within(Queue(w.View(), domain), ForDomain(w.delegated, domain))
    ensures w.returned == [] ==> Queue(w.View(), domain) == ForDomain(w.delegated, domain)
  {
    TasksConserved(x, w.history);
    DomainsKept(w.history);
    OrderKept(w.history, domain);
  }
}
