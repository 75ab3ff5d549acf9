/** What placing, shutdown and a pass do to a worker's connections and letters, told position by position. */
module WorkerLaws {
  import opened Text
  import opened Connection
  import opened ConnectionRuns
  import opened ConnectionTheorems
  import opened WorkerTasks
  import opened WorkerPass
  import opened WorkerRounds

  // --------------------------------------------------------------------- placing

  /** The connection at `i` is the first to this domain. */
  predicate FirstTo(conns: seq<Conn>, domain: string, i: nat) {
    i < |conns| && conns[i].domain == domain && forall j | 0 <= j < i :: conns[j].domain != domain
  }

  predicate NoneTo(conns: seq<Conn>, domain: string) {
    forall j | 0 <= j < |conns| :: conns[j].domain != domain
  }

  /** The first task joins the end of the first pool to its domain; without one it opens a connection, if a socket can
      be prepared; only if none can it goes back. */
  lemma TaskPlaced(d: Desk, o: Opening, i: nat)
    requires d.tasks != [] && (FirstTo(d.conns, d.tasks[0].domain, i) || NoneTo(d.conns, d.tasks[0].domain))
    ensures var (p, t) := (Place(d, o), d.tasks[0]);
            && p.tasks == d.tasks[1..] && p.past == d.past
            && (FirstTo(d.conns, t.domain, i) ==>
                  p.returned == d.returned && p.conns == d.conns[i := d.conns[i].(pool := d.conns[i].pool + [t])])
            && (NoneTo(d.conns, t.domain) && !o.connecting.Unprepared? ==>
                  && p.returned == d.returned && |p.conns| == |d.conns| + 1 && p.conns[..|d.conns|] == d.conns
                  && var c := p.conns[|d.conns|];
                     && Fresh(c) && c.id == o.id && c.domain == t.domain && c.pool == [t])
            && (NoneTo(d.conns, t.domain) && o.connecting.Unprepared? ==>
                  p.returned == d.returned + [t] && p.conns == d.conns)
  {
    if FirstTo(d.conns, d.tasks[0].domain, i) {
      IndexOfDomainIs(d.conns, d.tasks[0].domain, i);
    }
  }

  lemma PlacedApart(d: Desk, o: Opening)
    requires d.tasks != [] && DistinctDomains(d.conns)
    ensures DistinctDomains(Place(d, o).conns)
  {
  }

  /** Placing one task leaves the connection at `i` alone, or adds the task to its pool. */
  lemma PlacedAt(d: Desk, o: Opening, i: nat)
    requires d.tasks != [] && DistinctDomains(d.conns) && i < |d.conns|
    ensures var p := Place(d, o);
            && i < |p.conns|
            && p.conns[i] == (if d.tasks[0].domain == d.conns[i].domain
                              then d.conns[i].(pool := d.conns[i].pool + [d.tasks[0]]) else d.conns[i])
            && (d.tasks[0].domain == d.conns[i].domain ==> p.returned == d.returned)
  {
    if d.tasks[0].domain == d.conns[i].domain {
      IndexOfDomainIs(d.conns, d.tasks[0].domain, i);
    }
  }

  lemma PlaceNext(d: Desk, net: Network, k: nat)
    requires d.tasks != []
    ensures PlaceAll(d, net, k) == PlaceAll(Place(d, net(Ids(d.conns), k)), net, k + 1)
  {
  }

  lemma ForFirst(ls: seq<Letter>, domain: string)
    requires ls != []
    ensures ForDomain(ls, domain)
            == (if ls[0].domain == domain then [ls[0]] else []) + ForDomain(ls[1..], domain)
  {
  }

  /** When the whole queue is placed, an open connection gets all the letters to its domain, in their order, behind
      those it had, whatever openings fail. */
  lemma {:induction false} OpenGetsAll(d: Desk, net: Network, k: nat, i: nat)
    requires DistinctDomains(d.conns) && i < |d.conns|
    ensures var p := PlaceAll(d, net, k);
            i < |p.conns|
            && p.conns[i] == d.conns[i].(pool := d.conns[i].pool + ForDomain(d.tasks, d.conns[i].domain))
    decreases |d.tasks|
  {
    var (c, domain) := (d.conns[i], d.conns[i].domain);
    if d.tasks == [] {
      assert c.pool + [] == c.pool;
    } else {
      var o := net(Ids(d.conns), k);
      PlacedApart(d, o);
      PlacedAt(d, o, i);
      PlaceNext(d, net, k);
      ForFirst(d.tasks, domain);
      OpenGetsAll(Place(d, o), net, k + 1, i);
      Assoc(c.pool, if d.tasks[0].domain == domain then [d.tasks[0]] else [], ForDomain(d.tasks[1..], domain));
      assert c.pool + [] == c.pool;
    }
  }

  /** The connection at `i` serves the domain with just these letters, none of them offered yet. */
  predicate Serves(p: Desk, i: nat, domain: string, ls: seq<Letter>) {
    i < |p.conns| && p.conns[i].domain == domain && Fresh(p.conns[i]) && p.conns[i].pool == ls
  }

  /** And a domain without a connection gets one, with all its letters, if every socket asked for can be prepared;
      nothing is returned then. */
  lemma {:induction false} NewGetsAll(d: Desk, net: Network, k: nat, domain: string)
    requires DistinctDomains(d.conns) && NoneTo(d.conns, domain) && ForDomain(d.tasks, domain) != []
    requires forall open, n :: !net(open, n).connecting.Unprepared?
    ensures exists i: nat :: Serves(PlaceAll(d, net, k), i, domain, ForDomain(d.tasks, domain))
    decreases |d.tasks|
  {
    var (o, t) := (net(Ids(d.conns), k), d.tasks[0]);
    var p := Place(d, o);
    PlacedApart(d, o);
    PlaceNext(d, net, k);
    ForFirst(d.tasks, domain);
    if t.domain == domain {
      TaskPlaced(d, o, 0);
      OpenGetsAll(p, net, k + 1, |d.conns|);
      assert Serves(PlaceAll(d, net, k), |d.conns|, domain, ForDomain(d.tasks, domain));
    } else {
      PlacedElsewhere(d, o, domain);
      assert [] + ForDomain(d.tasks[1..], domain) == ForDomain(d.tasks[1..], domain);
      NewGetsAll(p, net, k + 1, domain);
    }
  }

  lemma PlacedElsewhere(d: Desk, o: Opening, domain: string)
    requires d.tasks != [] && d.tasks[0].domain != domain && NoneTo(d.conns, domain)
    ensures NoneTo(Place(d, o).conns, domain)
  {
  }

  lemma {:induction false} NoneReturned(d: Desk, net: Network, k: nat)
    requires forall open, n :: !net(open, n).connecting.Unprepared?
    ensures PlaceAll(d, net, k).returned == d.returned && PlaceAll(d, net, k).tasks == []
    decreases |d.tasks|
  {
    if d.tasks != [] {
      PlaceNext(d, net, k);
      NoneReturned(Place(d, net(Ids(d.conns), k)), net, k + 1);
    }
  }

  // -------------------------------------------------------------------- shutdown

  /** How many letters of a connection shutdown spares: the first one, once the greeting was read. */
  function SparedCount(c: Conn): nat { if c.pool != [] && c.cur >= 2 then 1 else 0 }

  function Flat(lss: seq<seq<Letter>>): seq<Letter> {
    if lss == [] then [] else Flat(lss[..|lss| - 1]) + lss[|lss| - 1]
  }

  /** Shutdown returns all other letters, connection by connection, each pool in its order, and touches nothing else. */
  lemma {:induction false} EvictedAre(conns: seq<Conn>)
    ensures Evicted(conns) == Flat(seq(|conns|, k requires 0 <= k < |conns| => conns[k].pool[SparedCount(conns[k])..]))
  {
    if conns != [] {
      var n := |conns| - 1;
      var cut := seq(|conns|, k requires 0 <= k < |conns| => conns[k].pool[SparedCount(conns[k])..]);
      EvictedAre(conns[..n]);
      assert cut[..n] == seq(n, k requires 0 <= k < n => conns[..n][k].pool[SparedCount(conns[..n][k])..]);
    }
  }

  lemma ShutdownLeaves(d: Desk)
    ensures var (p, n) := (Close(d), |d.conns|);
            && p.tasks == d.tasks && p.past == d.past && |p.conns| == n
            && (forall k | 0 <= k < n :: p.conns[k] == d.conns[k].(pool := d.conns[k].pool[..SparedCount(d.conns[k])]))
            && p.returned
               == d.returned + Flat(seq(n, k requires 0 <= k < n => d.conns[k].pool[SparedCount(d.conns[k])..]))
  {
    EvictedAre(d.conns);
  }

  // ---------------------------------------------------------------------- a pass

  /** A connection after it was looked at: driven if its socket was ready, else untouched. */
  function Seen(c: Conn, ready: set<int>, t: Turn): Conn
    requires Waits(c)
  {
    if c.id in ready then Drive(c, t.inputs, 0).0 else c
  }

  /** It is done with: disposed, or idle when the worker is told to stop. */
  predicate DoneWith(c: Conn, ready: set<int>, t: Turn)
    requires Waits(c)
  {
    c.id in ready && var d := Seen(c, ready, t); d.cur == NULL_POINTER || (t.stopping && d.pool == [])
  }

  /** The connections of a pass that are done with, or those that are not, in list order. */
  function Sorted(conns: seq<Conn>, ready: set<int>, turns: nat -> Turn, k: nat, done: bool): seq<Conn>
    requires AllWait(conns)
    decreases |conns|
  {
    if conns == [] then []
    else
      (if DoneWith(conns[0], ready, turns(k)) == done then [Seen(conns[0], ready, turns(k))] else [])
      + Sorted(conns[1..], ready, turns, k + 1, done)
  }

  /** A pass that is not cut short keeps exactly the connections that are not done with, and removes the others. */
  lemma {:induction false} PassSorts(conns: seq<Conn>, ready: set<int>, turns: nat -> Turn, k: nat)
    requires AllWait(conns) && PassOver(conns, ready, turns, k).halt == None
    ensures var p := PassOver(conns, ready, turns, k);
            p.kept == Sorted(conns, ready, turns, k, false) && p.gone == Sorted(conns, ready, turns, k, true)
    decreases |conns|
  {
    if conns != [] {
      assert Waits(conns[0]);
      var rest := conns[1..];
      PassSorts(rest, ready, turns, k + 1);
      assert [] + Sorted(rest, ready, turns, k + 1, true) == Sorted(rest, ready, turns, k + 1, true);
      assert [] + Sorted(rest, ready, turns, k + 1, false) == Sorted(rest, ready, turns, k + 1, false);
    }
  }

  // ---------------------------------------------------------------------- a turn

  lemma PlacedWait(d: Desk, o: Opening)
    requires d.tasks != [] && AllWait(d.conns)
    ensures AllWait(Place(d, o).conns)
  {
    var i := IndexOfDomain(d.conns, d.tasks[0].domain);
    if i < |d.conns| {
      assert Waits(d.conns[i]);
    }
  }

  lemma {:induction false} AllPlacedWait(d: Desk, net: Network, k: nat)
    requires AllWait(d.conns)
    ensures AllWait(PlaceAll(d, net, k).conns)
    decreases |d.tasks|
  {
    if d.tasks != [] {
      PlacedWait(d, net(Ids(d.conns), k));
      PlaceNext(d, net, k);
      AllPlacedWait(Place(d, net(Ids(d.conns), k)), net, k + 1);
    }
  }

  lemma ShutWait(d: Desk)
    requires AllWait(d.conns)
    ensures AllWait(Close(d).conns)
  {
    forall k | 0 <= k < |d.conns| ensures Waits(Close(d).conns[k]) {
      assert Waits(d.conns[k]);
    }
  }

  lemma EveryoneWaits(conns: seq<Conn>)
    requires AllWait(conns)
    ensures ReaderIds(conns) + WriterIds(conns) == Ids(conns)
  {
    forall x | x in Ids(conns) ensures x in ReaderIds(conns) + WriterIds(conns) {
      var i :| 0 <= i < |conns| && conns[i].id == x;
      assert Waits(conns[i]);
    }
  }

  /** One turn: told to stop, the worker shuts down once; without a letter ever delegated it does no more; it places its
      queue; and it looks at the connections reported ready, or, once it is closing, at all that were open before. */
  lemma TurnGoes(w: Work, r: Round)
    requires w.halt == None && AllWait(w.desk.conns)
    ensures var (v, closing) := (Around(w, r), w.closing || r.stopping);
            var shut := if r.stopping && !w.closing then Close(w.desk) else w.desk;
            var placed := PlaceAll(shut, r.net, 0);
            && AllWait(placed.conns) && v.count == w.count && v.closing == closing
            && (w.count == 0 ==> v.desk == shut && v.halt == None)
            && (w.count > 0 && !closing && r.readyCount <= 0 ==> v.desk == placed && v.halt == None)
            && (w.count > 0 && (closing || r.readyCount > 0) && v.halt == None ==>
                  var ready := if closing then Ids(w.desk.conns) else r.readable + r.writable;
                  && v.desk.tasks == placed.tasks && v.desk.returned == placed.returned
                  && v.desk.conns == Sorted(placed.conns, ready, r.turns, 0, false)
                  && v.desk.past == placed.past + Sorted(placed.conns, ready, r.turns, 0, true))
  {
    ShutWait(w.desk);
    EveryoneWaits(w.desk.conns);
    var placed := PlaceAll(Stopped(w, r), r.net, 0);
    AllPlacedWait(Stopped(w, r), r.net, 0);
    if Passes(w, r) && Around(w, r).halt == None {
      assert placed.conns[0..] == placed.conns && placed.conns[..0] == [];
      PassSorts(placed.conns, ReadyIds(w, r), r.turns, 0);
    }
  }
}
