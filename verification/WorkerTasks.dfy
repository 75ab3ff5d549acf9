/**
 How a worker's tasks move: from its queue into the pool of the connection to their domain, from there wherever the
 connection puts them, or back to `new` when no connection can be opened or the worker shuts down. Described on
 values; the worker object is held to this.
 */
module WorkerTasks {
  import opened Text
  import opened Connection
  import opened ConnectionRuns

  /** What decides the fate of a new connection: how the preparation goes, its socket, and what memory held. */
  datatype Opening = Opening(connecting: Connecting, id: nat, attempt: int)

  /** A worker's queue and connections, the letters it has itself moved back to `new`, and the connections it removed
      from its list, each as it was then. */
  datatype Desk = Desk(tasks: seq<Letter>, conns: seq<Conn>, returned: seq<Letter>, past: seq<Conn>)

  const IDLE := Desk([], [], [], [])

  /** The position of the connection to a domain; the length of the list if there is none. */
  function IndexOfDomain(conns: seq<Conn>, domain: string): (i: nat)
    ensures i <= |conns|
    ensures i < |conns| ==> conns[i].domain == domain
    ensures forall j | 0 <= j < i :: conns[j].domain != domain
  {
    FirstIndex(conns, (c: Conn) => c.domain == domain)
  }

  lemma {:induction false} IndexOfDomainIs(conns: seq<Conn>, domain: string, i: nat)
    requires i <= |conns| && (i < |conns| ==> conns[i].domain == domain)
    requires forall j | 0 <= j < i :: conns[j].domain != domain
    ensures IndexOfDomain(conns, domain) == i
  {
  }

  /** A connection that was just prepared for its first letter. */
  function Opened(o: Opening, t: Letter): Conn {
    Conn(o.id, t.domain, RECEIVE_SMTP_GREETING, PREPARE_SOCKET_CONNECTION, o.attempt, [t], None, None, [], false)
  }

  function Given(c: Conn, t: Letter): Conn { c.(pool := c.pool + [t]) }

  /** What becomes of the first task of the queue. */
  function Place(d: Desk, o: Opening): Desk
    requires d.tasks != []
  {
    var t := d.tasks[0];
    var i := IndexOfDomain(d.conns, t.domain);
    var d1 := d.(tasks := d.tasks[1..]);
    if i < |d.conns| then d1.(conns := d.conns[i := Given(d.conns[i], t)])
    else if o.connecting.Unprepared? then d1.(returned := d.returned + [t])
    else d1.(conns := d.conns + [Opened(o, t)])
  }

  /** The sockets in use. */
  function Ids(conns: seq<Conn>): set<int> { set i | 0 <= i < |conns| :: conns[i].id }

  /** How openings turn out, given the sockets in use and the openings made so far. */
  type Network = (set<int>, nat) -> Opening

  /** `processingTasks`: the whole queue is placed. */
  function PlaceAll(d: Desk, net: Network, k: nat): Desk
    decreases |d.tasks|
  {
    if d.tasks == [] then d else PlaceAll(Place(d, net(Ids(d.conns), k)), net, k + 1)
  }

  /** The letters of a pool that survive shutdown: only one already past the greeting. */
  function Spared(c: Conn): seq<Letter> {
    if c.pool == [] || c.cur < SEND_EHLO then [] else [c.pool[0]]
  }

  function Closed(c: Conn): Conn { c.(pool := Spared(c)) }

  function CloseEach(conns: seq<Conn>): seq<Conn> {
    seq(|conns|, k requires 0 <= k < |conns| => Closed(conns[k]))
  }

  /** The letters shutdown takes out of the pools, connection by connection. */
  function Evicted(conns: seq<Conn>): seq<Letter> {
    if conns == [] then []
    else
      var c := conns[|conns| - 1];
      Evicted(conns[..|conns| - 1]) + c.pool[|Spared(c)|..]
  }

  /** `closingConnections`. */
  function Close(d: Desk): Desk { d.(conns := CloseEach(d.conns), returned := d.returned + Evicted(d.conns)) }

  /** Connection `i` taken out of the list. */
  function Remove(d: Desk, i: nat): Desk
    requires i < |d.conns|
  {
    d.(conns := d.conns[..i] + d.conns[i + 1..], past := d.past + [d.conns[i]])
  }

  // ---------------------------------------------------------------- whole runs

  /** Everything that can happen to a desk, in any order. */
  datatype Op =
    | Delegate(task: Letter)
    | Process(net: Network)
    | Serve(served: nat, input: Input)    // one control step of one connection
    | Retire(gone: nat)
    | Shut

  function Apply(d: Desk, op: Op): Desk {
    match op
    case Delegate(t) => d.(tasks := d.tasks + [t])
    case Process(net) => PlaceAll(d, net, 0)
    case Serve(i, input) => if i < |d.conns| then d.(conns := d.conns[i := Step(d.conns[i], input).0]) else d
    case Retire(i) => if i < |d.conns| then Remove(d, i) else d
    case Shut => Close(d)
  }

  function RunOps(ops: seq<Op>): Desk {
    if ops == [] then IDLE else Apply(RunOps(ops[..|ops| - 1]), ops[|ops| - 1])
  }

  function Delegated(ops: seq<Op>): seq<Letter> {
    if ops == [] then []
    else
      var (before, op) := (Delegated(ops[..|ops| - 1]), ops[|ops| - 1]);
      if op.Delegate? then before + [op.task] else before
  }

  lemma RunOne(ops: seq<Op>, op: Op)
    ensures RunOps(ops + [op]) == Apply(RunOps(ops), op)
    ensures Delegated(ops + [op]) == if op.Delegate? then Delegated(ops) + [op.task] else Delegated(ops)
  {
    assert (ops + [op])[..|ops|] == ops;
  }

  // --------------------------------------------------------------- conservation

  /** Every letter a connection was ever given: those it moved, then those it still has. */
  function Share(c: Conn): seq<Letter> { Handed(c.log) + c.pool }

  /** How often a letter occurs. */
  function Times(x: Letter, ls: seq<Letter>): nat { multiset(ls)[x] }

  lemma TimesSplit(x: Letter, a: seq<Letter>, b: seq<Letter>)
    ensures Times(x, a + b) == Times(x, a) + Times(x, b)
  {
  }

  function TimesShared(x: Letter, conns: seq<Conn>): nat {
    if conns == [] then 0 else TimesShared(x, conns[..|conns| - 1]) + Times(x, Share(conns[|conns| - 1]))
  }

  /** How often a letter is anywhere. */
  function Copies(x: Letter, d: Desk): nat {
    Times(x, d.tasks) + TimesShared(x, d.conns) + TimesShared(x, d.past) + Times(x, d.returned)
  }

  lemma SharedLast(x: Letter, conns: seq<Conn>, c: Conn)
    ensures TimesShared(x, conns + [c]) == TimesShared(x, conns) + Times(x, Share(c))
  {
    assert (conns + [c])[..|conns|] == conns;
  }

  lemma {:induction false} SharedUpdate(x: Letter, conns: seq<Conn>, i: nat, c: Conn)
    requires i < |conns|
    ensures TimesShared(x, conns[i := c]) == TimesShared(x, conns) - Times(x, Share(conns[i])) + Times(x, Share(c))
    decreases |conns|
  {
    var n := |conns| - 1;
    if i < n {
      SharedUpdate(x, conns[..n], i, c);
      assert conns[i := c][..n] == conns[..n][i := c] && conns[i := c][n] == conns[n];
    } else {
      assert conns[i := c][..n] == conns[..n];
    }
  }

  lemma WithoutLast(conns: seq<Conn>, i: nat)
    requires i < |conns|
    ensures var n := |conns| - 1;
            conns[..i] + conns[i + 1..] ==
            if i == n then conns[..n] else conns[..n][..i] + conns[..n][i + 1..] + [conns[n]]
  {
  }

  lemma SharedTail(x: Letter, conns: seq<Conn>, init: seq<Conn>, last: Conn)
    requires conns == init + [last]
    ensures TimesShared(x, conns) == TimesShared(x, init) + Times(x, Share(last))
  {
    SharedLast(x, init, last);
  }

  lemma {:induction false} SharedWithout(x: Letter, conns: seq<Conn>, i: nat)
    requires i < |conns|
    ensures TimesShared(x, conns) == TimesShared(x, conns[..i] + conns[i + 1..]) + Times(x, Share(conns[i]))
    decreases |conns|
  {
    var (init, last) := (conns[..|conns| - 1], conns[|conns| - 1]);
    var rest := conns[..i] + conns[i + 1..];
    WithoutLast(conns, i);
    SharedTail(x, conns, init, last);
    if i < |init| {
      SharedWithout(x, init, i);
      SharedTail(x, rest, init[..i] + init[i + 1..], last);
    }
  }

  lemma GivenShare(c: Conn, t: Letter)
    ensures Share(Given(c, t)) == Share(c) + [t]
  {
    Assoc(Handed(c.log), c.pool, [t]);
  }

  lemma OpenedShare(o: Opening, t: Letter)
    ensures Share(Opened(o, t)) == [t]
  {
  }

  lemma GivenConserves(x: Letter, conns: seq<Conn>, i: nat, t: Letter)
    requires i < |conns|
    ensures TimesShared(x, conns[i := Given(conns[i], t)]) == TimesShared(x, conns) + Times(x, [t])
  {
    GivenShare(conns[i], t);
    TimesSplit(x, Share(conns[i]), [t]);
    SharedUpdate(x, conns, i, Given(conns[i], t));
  }

  lemma TimesFirst(x: Letter, ls: seq<Letter>)
    requires ls != []
    ensures Times(x, ls) == Times(x, [ls[0]]) + Times(x, ls[1..])
  {
    assert ls == [ls[0]] + ls[1..];
    TimesSplit(x, [ls[0]], ls[1..]);
  }

  lemma PlaceConserves(x: Letter, d: Desk, o: Opening)
    requires d.tasks != []
    ensures Copies(x, Place(d, o)) == Copies(x, d)
  {
    var t := d.tasks[0];
    var i := IndexOfDomain(d.conns, t.domain);
    TimesFirst(x, d.tasks);
    if i < |d.conns| {
      GivenConserves(x, d.conns, i, t);
    } else {
      OpenedShare(o, t);
      SharedLast(x, d.conns, Opened(o, t));
      TimesSplit(x, d.returned, [t]);
    }
  }

  lemma {:induction false} PlaceAllConserves(x: Letter, d: Desk, net: Network, k: nat)
    ensures Copies(x, PlaceAll(d, net, k)) == Copies(x, d)
    decreases |d.tasks|
  {
    if d.tasks != [] {
      PlaceConserves(x, d, net(Ids(d.conns), k));
      PlaceAllConserves(x, Place(d, net(Ids(d.conns), k)), net, k + 1);
    }
  }

  /** What shutdown keeps of a connection's share and what it takes. */
  lemma ClosedShare(c: Conn)
    ensures Share(c) == Share(Closed(c)) + c.pool[|Spared(c)|..]
  {
    assert c.pool == Spared(c) + c.pool[|Spared(c)|..];
    Assoc(Handed(c.log), Spared(c), c.pool[|Spared(c)|..]);
  }

  lemma CloseLast(conns: seq<Conn>)
    requires conns != []
    ensures var n := |conns| - 1; CloseEach(conns) == CloseEach(conns[..n]) + [Closed(conns[n])]
  {
  }

  lemma {:induction false} EvictionConserves(x: Letter, conns: seq<Conn>)
    ensures TimesShared(x, CloseEach(conns)) + Times(x, Evicted(conns)) == TimesShared(x, conns)
  {
    if conns != [] {
      var n := |conns| - 1;
      var c := conns[n];
      EvictionConserves(x, conns[..n]);
      CloseLast(conns);
      SharedLast(x, CloseEach(conns[..n]), Closed(c));
      ClosedShare(c);
      TimesSplit(x, Share(Closed(c)), c.pool[|Spared(c)|..]);
      TimesSplit(x, Evicted(conns[..n]), c.pool[|Spared(c)|..]);
    }
  }

  lemma ServeConserves(x: Letter, d: Desk, i: nat, input: Input)
    requires i < |d.conns|
    ensures Copies(x, Apply(d, Serve(i, input))) == Copies(x, d)
  {
    HandedKept(d.conns[i], input);
    SharedUpdate(x, d.conns, i, Step(d.conns[i], input).0);
  }

  lemma ApplyConserves(x: Letter, d: Desk, op: Op)
    ensures Copies(x, Apply(d, op)) == Copies(x, d) + if op.Delegate? then Times(x, [op.task]) else 0
  {
    match op
    case Delegate(t) =>
      TimesSplit(x, d.tasks, [t]);
    case Process(net) =>
      PlaceAllConserves(x, d, net, 0);
    case Serve(i, input) =>
      if i < |d.conns| {
        ServeConserves(x, d, i, input);
      }
    case Retire(i) =>
      if i < |d.conns| {
        SharedWithout(x, d.conns, i);
        SharedLast(x, d.past, d.conns[i]);
      }
    case Shut =>
      EvictionConserves(x, d.conns);
      TimesSplit(x, d.returned, Evicted(d.conns));
  }

  /** Whatever happens in whatever order, a letter is in the queue, with a connection (moved by it or still in its
      pool), with a removed connection, or returned by the worker, as often in all as it was delegated: no letter is
      lost, none duplicated. */
  lemma {:induction false} TasksConserved(x: Letter, ops: seq<Op>)
    ensures Copies(x, RunOps(ops)) == Times(x, Delegated(ops))
  {
    if ops != [] {
      var n := |ops| - 1;
      TasksConserved(x, ops[..n]);
      ApplyConserves(x, RunOps(ops[..n]), ops[n]);
      if ops[n].Delegate? {
        TimesSplit(x, Delegated(ops[..n]), [ops[n].task]);
      }
    }
  }

  // --------------------------------------------------------- domains and order

  predicate DistinctDomains(conns: seq<Conn>) {
    forall i, j | 0 <= i < j < |conns| :: conns[i].domain != conns[j].domain
  }

  predicate AllFor(domain: string, ls: seq<Letter>) {
    forall k | 0 <= k < |ls| :: ls[k].domain == domain
  }

  /** Every letter a connection was given goes to the connection's domain. */
  predicate OwnDomain(conns: seq<Conn>) {
    forall i | 0 <= i < |conns| :: AllFor(conns[i].domain, Share(conns[i]))
  }

  predicate Orderly(d: Desk) {
    DistinctDomains(d.conns) && OwnDomain(d.conns) && OwnDomain(d.past)
  }

  lemma GivenOrderly(conns: seq<Conn>, i: nat, t: Letter)
    requires i < |conns| && t.domain == conns[i].domain && DistinctDomains(conns) && OwnDomain(conns)
    ensures DistinctDomains(conns[i := Given(conns[i], t)]) && OwnDomain(conns[i := Given(conns[i], t)])
  {
    GivenShare(conns[i], t);
    assert AllFor(conns[i].domain, Share(conns[i]));
  }

  lemma OpenedOrderly(conns: seq<Conn>, o: Opening, t: Letter)
    requires DistinctDomains(conns) && OwnDomain(conns) && forall j | 0 <= j < |conns| :: conns[j].domain != t.domain
    ensures DistinctDomains(conns + [Opened(o, t)]) && OwnDomain(conns + [Opened(o, t)])
  {
    OpenedShare(o, t);
  }

  lemma PlaceOrderly(d: Desk, o: Opening)
    requires d.tasks != [] && Orderly(d)
    ensures Orderly(Place(d, o))
  {
    var t := d.tasks[0];
    var i := IndexOfDomain(d.conns, t.domain);
    if i < |d.conns| {
      GivenOrderly(d.conns, i, t);
    } else {
      OpenedOrderly(d.conns, o, t);
    }
  }

  lemma {:induction false} PlaceAllOrderly(d: Desk, net: Network, k: nat)
    requires Orderly(d)
    ensures Orderly(PlaceAll(d, net, k)) && PlaceAll(d, net, k).tasks == []
    decreases |d.tasks|
  {
    if d.tasks != [] {
      PlaceOrderly(d, net(Ids(d.conns), k));
      PlaceAllOrderly(Place(d, net(Ids(d.conns), k)), net, k + 1);
    }
  }

  lemma CloseOrderly(d: Desk)
    requires Orderly(d)
    ensures Orderly(Close(d))
  {
    var d' := Close(d);
    forall i | 0 <= i < |d'.conns| ensures AllFor(d'.conns[i].domain, Share(d'.conns[i])) {
      var c := d.conns[i];
      ClosedShare(c);
      assert AllFor(c.domain, Share(c));
      assert forall k | 0 <= k < |Share(Closed(c))| :: Share(Closed(c))[k] == Share(c)[k];
    }
  }

  lemma StepKeepsDomain(c: Conn, i: Input)
    ensures Step(c, i).0.domain == c.domain && Step(c, i).0.id == c.id
  {
    if !c.crashed && Receives(c.cur) {
      assert Step(c, i) == ReceiveStep(c, i);
      assert ReceiveStep(c, i).0.domain == c.domain && ReceiveStep(c, i).0.id == c.id;
    } else if !c.crashed && Sends(c.cur) {
      assert Step(c, i) == SendStep(c, i);
    }
  }

  lemma ServeOrderly(d: Desk, i: nat, input: Input)
    requires Orderly(d) && i < |d.conns|
    ensures Orderly(Apply(d, Serve(i, input)))
  {
    HandedKept(d.conns[i], input);
    StepKeepsDomain(d.conns[i], input);
    var (c, c') := (d.conns[i], Step(d.conns[i], input).0);
    assert Share(c') == Share(c) && c'.domain == c.domain;
    assert AllFor(c.domain, Share(c));
  }

  lemma RetireOrderly(d: Desk, i: nat)
    requires Orderly(d) && i < |d.conns|
    ensures Orderly(Remove(d, i))
  {
    var d' := Remove(d, i);
    assert AllFor(d.conns[i].domain, Share(d.conns[i]));
    forall j | 0 <= j < |d'.conns| ensures AllFor(d'.conns[j].domain, Share(d'.conns[j])) {
      assert d'.conns[j] == d.conns[if j < i then j else j + 1];
    }
    assert forall j | 0 <= j < |d.past| :: d'.past[j] == d.past[j];
  }

  lemma ApplyOrderly(d: Desk, op: Op)
    requires Orderly(d)
    ensures Orderly(Apply(d, op))
  {
    match op
    case Delegate(t) =>
    case Process(net) => PlaceAllOrderly(d, net, 0);
    case Serve(i, input) => if i < |d.conns| { ServeOrderly(d, i, input); }
    case Retire(i) => if i < |d.conns| { RetireOrderly(d, i); }
    case Shut => CloseOrderly(d);
  }

  /** No two connections ever serve one domain, and no connection ever holds or moves a letter to another domain. */
  lemma {:induction false} DomainsKept(ops: seq<Op>)
    ensures Orderly(RunOps(ops))
  {
    if ops != [] {
      var n := |ops| - 1;
      DomainsKept(ops[..n]);
      ApplyOrderly(RunOps(ops[..n]), ops[n]);
    }
  }

  // ------------------------------------------------------------------- order

  function ForDomain(ls: seq<Letter>, domain: string): seq<Letter> {
    if ls == [] then []
    else if ls[0].domain == domain then [ls[0]] + ForDomain(ls[1..], domain)
    else ForDomain(ls[1..], domain)
  }

  /** What the connections to one domain were given, connection by connection. */
  function Chain(conns: seq<Conn>, domain: string): seq<Letter> {
    if conns == [] then []
    else
      var n := |conns| - 1;
      if conns[n].domain == domain then Chain(conns[..n], domain) + Share(conns[n]) else Chain(conns[..n], domain)
  }

  /** The letters to one domain in the order they are handled: past connections, the open one, the queue. */
  function Queue(d: Desk, domain: string): seq<Letter> {
    Chain(d.past, domain) + Chain(d.conns, domain) + ForDomain(d.tasks, domain)
  }

  lemma ChainLast(conns: seq<Conn>, c: Conn, domain: string)
    ensures Chain(conns + [c], domain)
            == if c.domain == domain then Chain(conns, domain) + Share(c) else Chain(conns, domain)
  {
    assert (conns + [c])[..|conns|] == conns;
  }

  lemma {:induction false} ChainNone(conns: seq<Conn>, domain: string)
    requires forall i | 0 <= i < |conns| :: conns[i].domain != domain
    ensures Chain(conns, domain) == []
  {
    if conns != [] {
      ChainNone(conns[..|conns| - 1], domain);
    }
  }

  /** One connection's share replaced: its place in the chain is the end if no later connection has its domain. */
  lemma {:induction false} ChainUpdate(conns: seq<Conn>, i: nat, c: Conn, domain: string)
    requires i < |conns| && c.domain == conns[i].domain && DistinctDomains(conns)
    ensures Chain(conns[i := c], domain) == if domain == c.domain then Share(c) else Chain(conns, domain)
    decreases |conns|
  {
    var n := |conns| - 1;
    if i < n {
      ChainUpdate(conns[..n], i, c, domain);
      assert conns[i := c] == conns[..n][i := c] + [conns[n]] && conns == conns[..n] + [conns[n]];
      ChainLast(conns[..n][i := c], conns[n], domain);
      ChainLast(conns[..n], conns[n], domain);
    } else {
      assert conns[i := c] == conns[..n] + [c] && conns == conns[..n] + [conns[n]];
      ChainLast(conns[..n], c, domain);
      ChainLast(conns[..n], conns[n], domain);
      if domain == c.domain {
        ChainNone(conns[..n], domain);
      }
    }
  }

  lemma ChainOf(conns: seq<Conn>, i: nat)
    requires i < |conns| && DistinctDomains(conns)
    ensures Chain(conns, conns[i].domain) == Share(conns[i])
  {
    ChainUpdate(conns, i, conns[i], conns[i].domain);
    assert conns[i := conns[i]] == conns;
  }

  lemma {:induction false} ChainWithout(conns: seq<Conn>, i: nat, domain: string)
    requires i < |conns| && DistinctDomains(conns)
    ensures Chain(conns[..i] + conns[i + 1..], domain) == if domain == conns[i].domain then [] else Chain(conns, domain)
    decreases |conns|
  {
    var n := |conns| - 1;
    WithoutLast(conns, i);
    if i < n {
      ChainWithout(conns[..n], i, domain);
      ChainLast(conns[..n][..i] + conns[..n][i + 1..], conns[n], domain);
    } else if domain == conns[i].domain {
      ChainNone(conns[..n], domain);
    }
  }

  lemma {:induction false} ForDomainSplit(a: seq<Letter>, b: seq<Letter>, domain: string)
    ensures ForDomain(a + b, domain) == ForDomain(a, domain) + ForDomain(b, domain)
  {
    if a == [] {
      assert a + b == b;
    } else {
      ForDomainSplit(a[1..], b, domain);
      assert (a + b)[1..] == a[1..] + b;
      Assoc([a[0]], ForDomain(a[1..], domain), ForDomain(b, domain));
    }
  }

  lemma ForDomainLast(a: seq<Letter>, t: Letter, domain: string)
    ensures ForDomain(a + [t], domain)
            == if t.domain == domain then ForDomain(a, domain) + [t] else ForDomain(a, domain)
  {
    ForDomainSplit(a, [t], domain);
    assert [t][1..] == [];
    assert ForDomain([t], domain) == if t.domain == domain then [t] else [];
  }

  /** `a` is `b` with some elements left out. */
  predicate Within<T(==)>(a: seq<T>, b: seq<T>) {
    if a == [] then true
    else if b == [] then false
    else if a[|a| - 1] == b[|b| - 1] && Within(a[..|a| - 1], b[..|b| - 1]) then true
    else Within(a, b[..|b| - 1])
  }

  lemma WithinAppend<T>(a: seq<T>, b: seq<T>, x: T)
    requires Within(a, b)
    ensures Within(a + [x], b + [x]) && Within(a, b + [x])
  {
    assert (a + [x])[..|a|] == a && (b + [x])[..|b|] == b;
  }

  lemma {:induction false} WithinLonger<T>(a: seq<T>, b: seq<T>, more: seq<T>)
    requires Within(a, b)
    ensures Within(a, b + more)
    decreases |more|
  {
    if more == [] {
      assert b + more == b;
    } else {
      WithinAppend(a, b, more[0]);
      WithinLonger(a, b + [more[0]], more[1..]);
      FirstMoved(b, more);
    }
  }

  lemma {:induction false} WithinMore<T>(a: seq<T>, b: seq<T>, more: seq<T>)
    requires Within(a, b)
    ensures Within(a + more, b + more)
    decreases |more|
  {
    if more == [] {
      assert b + more == b && a + more == a;
    } else {
      WithinAppend(a, b, more[0]);
      WithinMore(a + [more[0]], b + [more[0]], more[1..]);
      FirstMoved(a, more);
      FirstMoved(b, more);
    }
  }

  lemma FirstMoved<T>(a: seq<T>, more: seq<T>)
    requires more != []
    ensures a + [more[0]] + more[1..] == a + more
  {
  }

  lemma WithinSelf<T>(a: seq<T>)
    ensures Within(a, a)
  {
    WithinMore([], [], a);
    assert [] + a == a;
  }

  lemma {:induction false} WithinConcat<T>(a: seq<T>, b: seq<T>, c: seq<T>, d: seq<T>)
    requires Within(a, b) && Within(c, d)
    ensures Within(a + c, b + d)
    decreases |d|
  {
    if c == [] {
      assert a + c == a;
      WithinLonger(a, b, d);
    } else {
      var (c1, d1) := (c[..|c| - 1], d[..|d| - 1]);
      assert b + d == b + d1 + [d[|d| - 1]];
      if c[|c| - 1] == d[|d| - 1] && Within(c1, d1) {
        WithinConcat(a, b, c1, d1);
        WithinAppend(a + c1, b + d1, d[|d| - 1]);
        assert a + c == a + c1 + [c[|c| - 1]];
      } else {
        WithinConcat(a, b, c, d1);
        WithinAppend(a + c, b + d1, d[|d| - 1]);
      }
    }
  }

  lemma {:induction false} WithinTransitive<T>(a: seq<T>, b: seq<T>, c: seq<T>)
    requires Within(a, b) && Within(b, c)
    ensures Within(a, c)
    decreases |b| + |c|
  {
    if a != [] && b != [] && c != [] {
      var (a1, b1, c1) := (a[..|a| - 1], b[..|b| - 1], c[..|c| - 1]);
      if b[|b| - 1] == c[|c| - 1] && Within(b1, c1) {
        if a[|a| - 1] == b[|b| - 1] && Within(a1, b1) {
          WithinTransitive(a1, b1, c1);
        } else {
          WithinTransitive(a, b1, c1);
        }
      } else {
        WithinTransitive(a, b, c1);
      }
    }
  }

  lemma QueueFrom(d: Desk, domain: string)
    requires d.tasks != []
    ensures Queue(d, domain) == Chain(d.past, domain) + Chain(d.conns, domain)
                                + (ForDomain(d.tasks[..1], domain) + ForDomain(d.tasks[1..], domain))
  {
    ForDomainSplit(d.tasks[..1], d.tasks[1..], domain);
    assert d.tasks[..1] + d.tasks[1..] == d.tasks;
  }

  /** A placed task stands at the end of its connection's share. */
  lemma PlacedLast(d: Desk, o: Opening, domain: string)
    requires d.tasks != [] && Orderly(d)
    ensures var d' := Place(d, o);
            Chain(d'.conns, domain) == Chain(d.conns, domain)
                                       + if d'.returned == d.returned then ForDomain(d.tasks[..1], domain) else []
  {
    var t := d.tasks[0];
    var i := IndexOfDomain(d.conns, t.domain);
    ForDomainLast([], t, domain);
    assert d.tasks[..1] == [] + [t];
    if i < |d.conns| {
      PlacedInChain(d.conns, i, t, domain);
    } else {
      OpenedLast(d.conns, o, t, domain);
    }
  }

  lemma OpenedLast(conns: seq<Conn>, o: Opening, t: Letter, domain: string)
    ensures Chain(conns + [Opened(o, t)], domain) == Chain(conns, domain) + if t.domain == domain then [t] else []
  {
    ChainLast(conns, Opened(o, t), domain);
    OpenedShare(o, t);
  }

  /** Placing a task changes nobody's place in line; only a task that cannot be placed leaves it. */
  lemma PlaceInLine(d: Desk, o: Opening, domain: string)
    requires d.tasks != [] && Orderly(d)
    ensures var d' := Place(d, o);
            var (ahead, first) := (Chain(d.past, domain) + Chain(d.conns, domain), ForDomain(d.tasks[..1], domain));
            var rest := ForDomain(d.tasks[1..], domain);
            && Queue(d, domain) == ahead + (first + rest)
            && Queue(d', domain) == if d'.returned == d.returned then ahead + (first + rest) else ahead + rest
  {
    QueueFrom(d, domain);
    PlacedLast(d, o, domain);
    JoinLine(Chain(d.past, domain), Chain(d.conns, domain),
             ForDomain(d.tasks[..1], domain), ForDomain(d.tasks[1..], domain));
  }

  lemma PlacedInChain(conns: seq<Conn>, i: nat, t: Letter, domain: string)
    requires i < |conns| && conns[i].domain == t.domain && DistinctDomains(conns)
    ensures Chain(conns[i := Given(conns[i], t)], domain)
            == if domain == t.domain then Chain(conns, domain) + [t] else Chain(conns, domain)
  {
    ChainUpdate(conns, i, Given(conns[i], t), domain);
    ChainOf(conns, i);
    GivenShare(conns[i], t);
  }

  lemma JoinLine<T>(past: seq<T>, open: seq<T>, one: seq<T>, rest: seq<T>)
    ensures past + (open + one) + rest == past + open + (one + rest)
    ensures past + (open + []) + rest == past + open + rest
  {
  }

  lemma PlaceWithin(d: Desk, o: Opening, domain: string)
    requires d.tasks != [] && Orderly(d)
    ensures Within(Queue(Place(d, o), domain), Queue(d, domain))
    ensures Place(d, o).returned == d.returned ==> Queue(Place(d, o), domain) == Queue(d, domain)
  {
    PlaceInLine(d, o, domain);
    var (ahead, first) := (Chain(d.past, domain) + Chain(d.conns, domain), ForDomain(d.tasks[..1], domain));
    var rest := ForDomain(d.tasks[1..], domain);
    WithinMore([], first, rest);
    assert [] + rest == rest;
    WithinSelf(ahead);
    WithinConcat(ahead, ahead, rest, first + rest);
    WithinSelf(ahead + (first + rest));
  }

  lemma {:induction false} PlaceAllWithin(d: Desk, net: Network, k: nat, domain: string)
    requires Orderly(d)
    ensures var d' := PlaceAll(d, net, k);
            && Within(Queue(d', domain), Queue(d, domain))
            && |d.returned| <= |d'.returned|
            && (|d'.returned| == |d.returned| ==> Queue(d', domain) == Queue(d, domain))
    decreases |d.tasks|
  {
    if d.tasks == [] {
      WithinSelf(Queue(d, domain));
    } else {
      var e := Place(d, net(Ids(d.conns), k));
      PlaceOrderly(d, net(Ids(d.conns), k));
      PlaceWithin(d, net(Ids(d.conns), k), domain);
      PlaceAllWithin(e, net, k + 1, domain);
      WithinTransitive(Queue(PlaceAll(e, net, k + 1), domain), Queue(e, domain), Queue(d, domain));
    }
  }

  /** What shutdown leaves of one connection's share is a part of it. */
  lemma ClosedWithin(c: Conn)
    ensures Within(Share(Closed(c)), Share(c))
  {
    ClosedShare(c);
    WithinSelf(Share(Closed(c)));
    WithinLonger(Share(Closed(c)), Share(Closed(c)), c.pool[|Spared(c)|..]);
  }

  lemma CloseChainLast(conns: seq<Conn>, domain: string)
    requires conns != []
    ensures var n := |conns| - 1;
            var (closed, open) := (Chain(CloseEach(conns[..n]), domain), Chain(conns[..n], domain));
            if conns[n].domain == domain then
              && Chain(CloseEach(conns), domain) == closed + Share(Closed(conns[n]))
              && Chain(conns, domain) == open + Share(conns[n])
            else Chain(CloseEach(conns), domain) == closed && Chain(conns, domain) == open
  {
    CloseLast(conns);
    ChainLast(CloseEach(conns[..|conns| - 1]), Closed(conns[|conns| - 1]), domain);
  }

  lemma {:induction false} CloseChain(conns: seq<Conn>, domain: string)
    ensures Within(Chain(CloseEach(conns), domain), Chain(conns, domain))
  {
    if conns != [] {
      var n := |conns| - 1;
      CloseChain(conns[..n], domain);
      CloseChainLast(conns, domain);
      if conns[n].domain == domain {
        ClosedWithin(conns[n]);
        WithinConcat(Chain(CloseEach(conns[..n]), domain), Chain(conns[..n], domain),
                     Share(Closed(conns[n])), Share(conns[n]));
      }
    }
  }

  lemma NothingCut(c: Conn)
    requires c.pool[|Spared(c)|..] == []
    ensures Share(Closed(c)) == Share(c)
  {
    ClosedShare(c);
  }

  /** If shutdown takes no letter, no chain changes. */
  lemma {:induction false} CloseChainSame(conns: seq<Conn>, domain: string)
    requires Evicted(conns) == []
    ensures Chain(CloseEach(conns), domain) == Chain(conns, domain)
  {
    if conns != [] {
      CloseChainSame(conns[..|conns| - 1], domain);
      CloseChainLast(conns, domain);
      NothingCut(conns[|conns| - 1]);
    }
  }

  lemma CloseWithin(d: Desk, domain: string)
    ensures Within(Queue(Close(d), domain), Queue(d, domain))
    ensures Evicted(d.conns) == [] ==> Queue(Close(d), domain) == Queue(d, domain)
  {
    var (past, queue) := (Chain(d.past, domain), ForDomain(d.tasks, domain));
    CloseChain(d.conns, domain);
    if Evicted(d.conns) == [] {
      CloseChainSame(d.conns, domain);
    }
    WithinSelf(past);
    WithinConcat(past, past, Chain(CloseEach(d.conns), domain), Chain(d.conns, domain));
    WithinMore(past + Chain(CloseEach(d.conns), domain), past + Chain(d.conns, domain), queue);
  }

  lemma ServeInLine(d: Desk, i: nat, input: Input, domain: string)
    requires Orderly(d) && i < |d.conns|
    ensures Queue(Apply(d, Serve(i, input)), domain) == Queue(d, domain)
  {
    HandedKept(d.conns[i], input);
    StepKeepsDomain(d.conns[i], input);
    ChainUpdate(d.conns, i, Step(d.conns[i], input).0, domain);
    ChainOf(d.conns, i);
  }

  lemma RetireInLine(d: Desk, i: nat, domain: string)
    requires Orderly(d) && i < |d.conns|
    ensures Queue(Remove(d, i), domain) == Queue(d, domain)
  {
    ChainWithout(d.conns, i, domain);
    ChainLast(d.past, d.conns[i], domain);
    ChainOf(d.conns, i);
    JoinLine(Chain(d.past, domain), Chain(d.conns, domain), [], ForDomain(d.tasks, domain));
  }

  lemma DelegateInLine(d: Desk, t: Letter, domain: string)
    ensures Queue(Apply(d, Delegate(t)), domain) == Queue(d, domain) + ForDomain([t], domain)
  {
    ForDomainSplit(d.tasks, [t], domain);
    Assoc(Chain(d.past, domain) + Chain(d.conns, domain), ForDomain(d.tasks, domain), ForDomain([t], domain));
  }

  lemma ApplyInLine(d: Desk, op: Op, domain: string)
    requires Orderly(d) && !op.Delegate?
    ensures var d' := Apply(d, op);
            && Within(Queue(d', domain), Queue(d, domain))
            && |d.returned| <= |d'.returned|
            && (|d'.returned| == |d.returned| ==> Queue(d', domain) == Queue(d, domain))
  {
    WithinSelf(Queue(d, domain));
    match op
    case Process(net) => PlaceAllWithin(d, net, 0, domain);
    case Serve(i, input) => if i < |d.conns| { ServeInLine(d, i, input, domain); }
    case Retire(i) => if i < |d.conns| { RetireInLine(d, i, domain); }
    case Shut => CloseWithin(d, domain);
  }

  /** First come, first served, domain by domain and across all connections to a domain: the letters to a domain are
      handled in the order they were delegated, leaving out only letters the worker moved back to `new` itself. */
  lemma {:induction false} OrderKept(ops: seq<Op>, domain: string)
    ensures var d := RunOps(ops);
            && Within(Queue(d, domain), ForDomain(Delegated(ops), domain))
            && (d.returned == [] ==> Queue(d, domain) == ForDomain(Delegated(ops), domain))
  {
    if ops != [] {
      var n := |ops| - 1;
      var (d, op, given) := (RunOps(ops[..n]), ops[n], ForDomain(Delegated(ops[..n]), domain));
      OrderKept(ops[..n], domain);
      DomainsKept(ops[..n]);
      if op.Delegate? {
        DelegateInLine(d, op.task, domain);
        ForDomainSplit(Delegated(ops[..n]), [op.task], domain);
        WithinMore(Queue(d, domain), given, ForDomain([op.task], domain));
      } else {
        ApplyInLine(d, op, domain);
        WithinTransitive(Queue(Apply(d, op), domain), Queue(d, domain), given);
      }
    }
  }
}
