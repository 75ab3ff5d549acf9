/** Routing of new letters: a domain keeps the worker it was given, and a new domain gets the least loaded worker. */
module Controller {
  import opened Text
  import opened Connection
  import opened Dictionary
  import opened WorkerRun

  // ------------------------------------------------------------ least loaded worker

  /** The leftmost of the smallest. */
  predicate LeftmostMin(counts: seq<nat>, k: nat) {
    && k < |counts|
    && (forall j | 0 <= j < |counts| :: counts[k] <= counts[j])
    && (forall j | 0 <= j < k :: counts[k] < counts[j])
  }

  function MostFree(counts: seq<nat>): (k: nat)
    requires counts != []
    ensures LeftmostMin(counts, k)
  {
    var n := |counts| - 1;
    if n == 0 then 0
    else
      var k := MostFree(counts[..n]);
      if counts[n] < counts[k] then n else k
  }

  lemma MostFreeIs(counts: seq<nat>, k: nat)
    requires LeftmostMin(counts, k)
    ensures MostFree(counts) == k
  {
    var m := MostFree(counts);
    assert counts[k] <= counts[m] && counts[m] <= counts[k];
  }

  // ----------------------------------------------------------------------- routing

  /** The dictionary, and the letters given to each worker so far. */
  datatype Office = Office(entries: seq<Entry>, given: seq<seq<Letter>>)

  function Loads(given: seq<seq<Letter>>): seq<nat> {
    seq(|given|, i requires 0 <= i < |given| => |given[i]|)
  }

  /** One of the first `tries` additions finds memory. */
  predicate Fitted(memory: nat -> bool, tries: nat) {
    tries > 0 && (memory(tries - 1) || Fitted(memory, tries - 1))
  }

  /** One of the three additions tried finds memory. */
  predicate Fits(memory: nat -> bool) { Fitted(memory, MAX_TRIES) }

  /** A domain is added exactly when one of three tries finds memory. */
  lemma FitsIn(memory: nat -> bool)
    ensures Fits(memory) <==> memory(0) || memory(1) || memory(2)
  {
    assert Fitted(memory, 1) == memory(0);
    assert Fitted(memory, 2) == (memory(1) || Fitted(memory, 1));
  }

  lemma {:induction false} FittedLater(memory: nat -> bool, a: nat, b: nat)
    requires Fitted(memory, a) && a <= b
    ensures Fitted(memory, b)
  {
    if a < b {
      FittedLater(memory, a, b - 1);
    }
  }

  /** The worker of a domain and the dictionary afterwards: a new domain is added with the least loaded worker, if
      memory allows; otherwise there is none. */
  function Choose(o: Office, domain: string, memory: nat -> bool): (seq<Entry>, int)
    requires o.given != []
  {
    var w := Lookup(o.entries, domain);
    if 0 <= w then (o.entries, w)
    else if !Fits(memory) then (o.entries, -1)
    else (o.entries + [Entry(domain, MostFree(Loads(o.given)))], MostFree(Loads(o.given)))
  }

  lemma ChosenInRange(o: Office, domain: string, memory: nat -> bool)
    requires o.given != [] && InRange(o)
    ensures Choose(o, domain, memory).1 < |o.given|
  {
  }

  /** One letter: delegated to its domain's worker; a letter whose domain has none is left for later. */
  function Route(o: Office, l: Letter, memory: nat -> bool): Office
    requires o.given != []
  {
    var (entries, w) := Choose(o, l.domain, memory);
    if 0 <= w < |o.given| then Office(entries, o.given[w := o.given[w] + [l]]) else o.(entries := entries)
  }

  datatype Event = Arrive(letter: Letter, memory: nat -> bool) | Forget(domain: string)

  function Handle(o: Office, e: Event): Office
    requires o.given != []
    ensures |Handle(o, e).given| == |o.given|
  {
    match e
    case Arrive(l, memory) => Route(o, l, memory)
    case Forget(d) => o.(entries := Without(o.entries, d))
  }

  function HandleAll(o: Office, es: seq<Event>): (r: Office)
    requires o.given != []
    ensures |r.given| == |o.given|
  {
    if es == [] then o else Handle(HandleAll(o, es[..|es| - 1]), es[|es| - 1])
  }

  /** Workers that were given nothing yet. */
  function Newly(n: nat): Office { Office([], seq(n, _ => [])) }

  // --------------------------------------------------------- a domain keeps its worker

  /** Every recorded worker exists, and while nothing is forgotten every letter is with the worker of its domain. */
  predicate InRange(o: Office) {
    forall i | 0 <= i < |o.entries| :: o.entries[i].worker < |o.given|
  }

  predicate Together(o: Office) {
    forall w, j | 0 <= w < |o.given| && 0 <= j < |o.given[w]| :: Lookup(o.entries, o.given[w][j].domain) == w
  }

  lemma RouteInRange(o: Office, l: Letter, memory: nat -> bool)
    requires o.given != [] && InRange(o)
    ensures InRange(Route(o, l, memory))
  {
  }

  lemma LookupKept(es: seq<Entry>, e: Entry, domain: string)
    requires Lookup(es, e.domain) < 0
    ensures Lookup(es + [e], domain) == if domain == e.domain then e.worker else Lookup(es, domain)
  {
    LookupLast(es, e, domain);
  }

  lemma RouteTogether(o: Office, l: Letter, memory: nat -> bool)
    requires o.given != [] && Together(o)
    ensures Together(Route(o, l, memory))
  {
    var o' := Route(o, l, memory);
    forall w, j | 0 <= w < |o'.given| && 0 <= j < |o'.given[w]| ensures Lookup(o'.entries, o'.given[w][j].domain) == w {
      var x := o'.given[w][j];
      if j < |o.given[w]| {
        assert x == o.given[w][j];
      }
      if Lookup(o.entries, l.domain) < 0 && Fits(memory) {
        LookupKept(o.entries, Entry(l.domain, MostFree(Loads(o.given))), x.domain);
      }
    }
  }

  /** Until a domain is forgotten, all letters to it go to one worker, whatever the dictionary finds memory for. */
  lemma {:induction false} OneWorkerPerDomain(n: nat, es: seq<Event>)
    requires n > 0 && forall k | 0 <= k < |es| :: es[k].Arrive?
    ensures Together(HandleAll(Newly(n), es))
  {
    if es != [] {
      var m := |es| - 1;
      OneWorkerPerDomain(n, es[..m]);
      RouteTogether(HandleAll(Newly(n), es[..m]), es[m].letter, es[m].memory);
    }
  }

  // ------------------------------------------------------------------- fair shares

  predicate Balanced(given: seq<seq<Letter>>) {
    forall i, j | 0 <= i < |given| && 0 <= j < |given| :: |given[i]| <= |given[j]| + 1
  }

  /** Every letter, at its time, is to a domain without a record. */
  predicate AllFresh(o: Office, es: seq<Event>)
    requires o.given != []
  {
    es == [] ||
    (AllFresh(o, es[..|es| - 1]) &&
     (es[|es| - 1].Arrive? ==> Lookup(HandleAll(o, es[..|es| - 1]).entries, es[|es| - 1].letter.domain) < 0))
  }

  lemma RouteBalanced(o: Office, l: Letter, memory: nat -> bool)
    requires o.given != [] && Balanced(o.given) && Lookup(o.entries, l.domain) < 0
    ensures Balanced(Route(o, l, memory).given)
  {
    if Fits(memory) {
      var loads := Loads(o.given);
      var k := MostFree(loads);
      assert LeftmostMin(loads, k);
      forall j | 0 <= j < |o.given| ensures |o.given[k]| <= |o.given[j]| {
        assert loads[k] <= loads[j];
      }
    }
  }

  /** As long as every letter is to a new domain, no worker is ever given two letters more than another, however
      domains are forgotten in between. */
  lemma {:induction false} FairShares(o: Office, es: seq<Event>)
    requires o.given != [] && Balanced(o.given) && AllFresh(o, es)
    ensures Balanced(HandleAll(o, es).given)
  {
    if es != [] {
      var m := |es| - 1;
      FairShares(o, es[..m]);
      if es[m].Arrive? {
        RouteBalanced(HandleAll(o, es[..m]), es[m].letter, es[m].memory);
      }
    }
  }

  // -------------------------------------------------------------------- the threads

  ghost function Loaded(pool: seq<Worker>): seq<seq<Letter>>
    reads pool
  {
    seq(|pool|, i requires 0 <= i < |pool| reads pool => pool[i].delegated)
  }

  /** Delegating returns 0 or -1 in the source, or has no defined outcome. */
  datatype Delegation = Delegated | Refused | OutsideArray

  class MailOffice {
    const pool: seq<Worker>
    const dictionary: DomainList

    constructor (pool: seq<Worker>, dictionary: DomainList)
      ensures this.pool == pool && this.dictionary == dictionary
    {
      this.pool, this.dictionary := pool, dictionary;
    }

    ghost predicate Apart() {
      forall i, j | 0 <= i < j < |pool| :: pool[i] != pool[j]
    }

    ghost function View(): Office
      reads pool, dictionary
    {
      Office(dictionary.Entries(), Loaded(pool))
    }

    method MostFreeWorker() returns (res: nat)
      requires pool != [] && forall w | w in pool :: w.Recorded()
      ensures res == MostFree(Loads(Loaded(pool)))
    {
      ghost var loads := Loads(Loaded(pool));
      assert pool[0].Recorded();
      var min := pool[0].count_task;
      res := 0;
      var i := 1;
      while i < |pool|
        invariant 1 <= i <= |pool| && res < i
        invariant min == loads[res]
        invariant forall j | 0 <= j < i :: loads[res] <= loads[j]
        invariant forall j | 0 <= j < res :: loads[res] < loads[j]
      {
        assert pool[i].Recorded();
        if min > pool[i].count_task {
          min := pool[i].count_task;
          res := i;
        }
        i := i + 1;
      }
      MostFreeIs(loads, res);
    }

    /** The source refuses only an index greater than the number of workers, so the one equal to it, and a negative
        one, read outside its array. */
    method DelegateTaskToWorker(workerIndex: int, task: Letter) returns (code: Delegation)
      requires Apart() && forall w | w in pool :: w.Recorded()
      modifies set w | w in pool :: w
      ensures forall w | w in pool :: w.Recorded()
      ensures code.OutsideArray? <==> workerIndex == |pool| || workerIndex < 0
      ensures code.Refused? <==> workerIndex > |pool|
      ensures !code.Delegated? ==> forall w | w in pool :: unchanged(w)
      ensures code.Delegated? ==>
                && Loaded(pool) == old(Loaded(pool))[workerIndex := old(Loaded(pool))[workerIndex] + [task]]
                && pool[workerIndex].View()
                   == old(pool[workerIndex].View()).(tasks := old(pool[workerIndex].tasks) + [task])
                && forall w | w in pool && w != pool[workerIndex] :: unchanged(w)
    {
      if workerIndex > |pool| {
        return Refused;
      }
      if workerIndex < 0 || workerIndex == |pool| {
        return OutsideArray;
      }
      assert pool[workerIndex] in pool;
      pool[workerIndex].Delegate(task);
      return Delegated;
    }

    /** A domain without a record is added with the given worker, in at most three tries. */
    method AddDomain(domain: string, free: nat, memory: nat -> bool) returns (workerId: int)
      requires dictionary.Valid()
      modifies dictionary, dictionary.records
      ensures dictionary.Valid()
      ensures old(dictionary.records) <= dictionary.records
      ensures forall i | old(|dictionary.records|) <= i < |dictionary.records| :: fresh(dictionary.records[i])
      ensures workerId == if Fits(memory) then free else -1
      ensures dictionary.Entries() ==
              if Fits(memory) then old(dictionary.Entries()) + [Entry(domain, free)] else old(dictionary.Entries())
    {
      ghost var before := dictionary.Entries();
      var tries := 0;
      workerId := -1;
      while workerId < 0 && tries < MAX_TRIES
        invariant tries <= MAX_TRIES && dictionary.Valid()
        invariant old(dictionary.records) <= dictionary.records
        invariant forall i | old(|dictionary.records|) <= i < |dictionary.records| :: fresh(dictionary.records[i])
        invariant workerId == (if Fitted(memory, tries) then free else -1)
        invariant dictionary.Entries() == if Fitted(memory, tries) then before + [Entry(domain, free)] else before
        decreases MAX_TRIES - tries
      {
        workerId := dictionary.AddDomainRecordToDictionary(domain, free, memory(tries));
        tries := tries + 1;
      }
      if workerId >= 0 {
        FittedLater(memory, tries, MAX_TRIES);
      }
    }

    /** A new domain gets the least loaded worker. */
    method AddToLeastLoaded(domain: string, memory: nat -> bool) returns (workerId: int)
      requires pool != [] && dictionary.Valid() && forall w | w in pool :: w.Recorded()
      modifies dictionary, dictionary.records
      ensures dictionary.Valid() && Loaded(pool) == old(Loaded(pool))
      ensures old(dictionary.records) <= dictionary.records
      ensures forall i | old(|dictionary.records|) <= i < |dictionary.records| :: fresh(dictionary.records[i])
      ensures workerId == if Fits(memory) then MostFree(Loads(Loaded(pool))) else -1
      ensures dictionary.Entries() ==
              if Fits(memory) then old(dictionary.Entries()) + [Entry(domain, workerId)] else old(dictionary.Entries())
    {
      var free := MostFreeWorker();
      workerId := AddDomain(domain, free, memory);
    }

    /** The recorded worker of a domain, or the one it is now recorded with. */
    method ChooseWorker(domain: string, memory: nat -> bool) returns (workerId: int)
      requires pool != [] && dictionary.Valid() && forall w | w in pool :: w.Recorded()
      modifies dictionary, dictionary.records
      ensures dictionary.Valid() && Loaded(pool) == old(Loaded(pool))
      ensures old(dictionary.records) <= dictionary.records
      ensures forall i | old(|dictionary.records|) <= i < |dictionary.records| :: fresh(dictionary.records[i])
      ensures (dictionary.Entries(), workerId) == Choose(old(View()), domain, memory)
    {
      workerId := dictionary.FindDomainInDictionary(domain);
      if workerId < 0 {
        workerId := AddToLeastLoaded(domain, memory);
      }
    }

    /** Find the letter's worker or choose one, then delegate. */
    method ProcessLetter(l: Letter, memory: nat -> bool)
      requires pool != [] && Apart() && InRange(View())
      requires dictionary.Valid() && forall w | w in pool :: w.Recorded()
      modifies dictionary, dictionary.records, set w | w in pool :: w
      ensures dictionary.Valid() && forall w | w in pool :: w.Recorded()
      ensures old(dictionary.records) <= dictionary.records
      ensures forall i | old(|dictionary.records|) <= i < |dictionary.records| :: fresh(dictionary.records[i])
      ensures View() == Route(old(View()), l, memory)
    {
      ChosenInRange(View(), l.domain, memory);
      var workerId := ChooseWorker(l.domain, memory);
      if workerId >= 0 {
        var code := DelegateTaskToWorker(workerId, l);
      }
    }

    /** The letters found in the mail directories, in order. */
    method ProcessingLetters(ls: seq<Letter>, memory: nat -> nat -> bool)
      requires pool != [] && Apart() && InRange(View())
      requires dictionary.Valid() && forall w | w in pool :: w.Recorded()
      modifies dictionary, dictionary.records, set w | w in pool :: w
      ensures dictionary.Valid() && forall w | w in pool :: w.Recorded()
      ensures InRange(View()) && View() == HandleAll(old(View()), Arrivals(ls, memory))
    {
      var k := 0;
      while k < |ls|
        invariant k <= |ls| && InRange(View())
        invariant dictionary.Valid() && forall w | w in pool :: w.Recorded()
        invariant old(dictionary.records) <= dictionary.records
        invariant forall i | old(|dictionary.records|) <= i < |dictionary.records| :: fresh(dictionary.records[i])
        invariant View() == HandleAll(old(View()), Arrivals(ls[..k], memory))
      {
        RouteInRange(View(), ls[k], memory(k));
        HandleNext(old(View()), ls, memory, k);
        ProcessLetter(ls[k], memory(k));
        k := k + 1;
      }
      assert ls[..k] == ls;
    }
  }

  function Arrivals(ls: seq<Letter>, memory: nat -> nat -> bool): seq<Event> {
    seq(|ls|, k requires 0 <= k < |ls| => Arrive(ls[k], memory(k)))
  }

  lemma HandleNext(o: Office, ls: seq<Letter>, memory: nat -> nat -> bool, k: nat)
    requires k < |ls| && o.given != []
    ensures HandleAll(o, Arrivals(ls[..k + 1], memory))
            == Route(HandleAll(o, Arrivals(ls[..k], memory)), ls[k], memory(k))
  {
    assert Arrivals(ls[..k + 1], memory)[..k] == Arrivals(ls[..k], memory);
  }
}
