/** The dictionary from domains to workers that all threads share: a linked list changed in place. */
module Dictionary {
  import opened Text
  import opened Outcomes

  datatype Entry = Entry(domain: string, worker: nat)

  /** The position of the first entry for a domain; the length of the list if there is none. */
  function FirstFor(es: seq<Entry>, domain: string): (i: nat)
    ensures i <= |es|
    ensures i < |es| ==> es[i].domain == domain
    ensures forall j | 0 <= j < i :: es[j].domain != domain
  {
    FirstIndex(es, (e: Entry) => e.domain == domain)
  }

  lemma {:induction false} FirstForIs(es: seq<Entry>, domain: string, i: nat)
    requires i <= |es| && (i < |es| ==> es[i].domain == domain)
    requires forall j | 0 <= j < i :: es[j].domain != domain
    ensures FirstFor(es, domain) == i
  {
  }

  /** The worker of a domain, -1 if it has none. */
  function Lookup(es: seq<Entry>, domain: string): int {
    var i := FirstFor(es, domain);
    if i < |es| then es[i].worker else -1
  }

  /** The list without the first entry for a domain. */
  function Without(es: seq<Entry>, domain: string): seq<Entry> {
    var i := FirstFor(es, domain);
    if i < |es| then es[..i] + es[i + 1..] else es
  }

  class Record {
    const domain: string
    const workerId: nat
    var next: Record?

    constructor (domain: string, workerId: nat)
      ensures this.domain == domain && this.workerId == workerId && next == null
    {
      this.domain, this.workerId, next := domain, workerId, null;
    }
  }

  ghost function Nth(rs: seq<Record>, i: nat): Record? { if i < |rs| then rs[i] else null }

  ghost function EntriesOf(rs: seq<Record>): seq<Entry> {
    seq(|rs|, i requires 0 <= i < |rs| => Entry(rs[i].domain, rs[i].workerId))
  }

  lemma EntriesWithout(rs: seq<Record>, k: nat)
    requires k < |rs|
    ensures EntriesOf(rs[..k] + rs[k + 1..]) == EntriesOf(rs)[..k] + EntriesOf(rs)[k + 1..]
  {
  }

  class DomainList {
    var first: Record?
    ghost var records: seq<Record>

    ghost predicate Valid()
      reads this, records
    {
      && (forall i, j | 0 <= i < j < |records| :: records[i] != records[j])
      && first == Nth(records, 0)
      && (forall i | 0 <= i < |records| :: records[i].next == Nth(records, i + 1))
    }

    ghost function Entries(): seq<Entry>
      reads this
    {
      EntriesOf(records)
    }

    constructor ()
      ensures Valid() && Entries() == [] && records == []
    {
      first, records := null, [];
    }

    /** A new last record; `worker` is the least loaded worker, and -1 reports that memory ran out. */
    method AddDomainRecordToDictionary(domain: string, worker: nat, memory: bool) returns (result: int)
      requires Valid()
      modifies this, records
      ensures Valid() && old(records) <= records && forall i | |old(records)| <= i < |records| :: fresh(records[i])
      ensures result == if memory then worker else -1
      ensures Entries() == if memory then old(Entries()) + [Entry(domain, worker)] else old(Entries())
    {
      var pointer := first;
      ghost var k := 0;
      while first != null && pointer.next != null
        invariant Valid() && Entries() == old(Entries())
        invariant first != null ==> k < |records| && pointer == records[k]
        decreases |records| - k
      {
        pointer := pointer.next;
        k := k + 1;
      }
      if !memory {
        return -1;
      }
      var record := new Record(domain, worker);
      if first == null {
        first := record;
      } else {
        pointer.next := record;
      }
      records := records + [record];
      return worker;
    }

    method FindDomainInDictionary(domain: string) returns (result: int)
      requires Valid()
      ensures result == Lookup(Entries(), domain)
    {
      result := -1;
      var pointer := first;
      ghost var k := 0;
      while pointer != null
        invariant k <= |records| && pointer == Nth(records, k)
        invariant forall j | 0 <= j < k :: records[j].domain != domain
        decreases |records| - k
      {
        if pointer.domain == domain {
          FirstForIs(Entries(), domain, k);
          return pointer.workerId;
        }
        pointer := pointer.next;
        k := k + 1;
      }
      FirstForIs(Entries(), domain, k);
    }

    method Unlink(prev: Record?, pointer: Record, ghost k: nat)
      requires Valid() && k < |records| && pointer == records[k]
      requires prev == if k == 0 then null else Nth(records, k - 1)
      modifies this, records
      ensures Valid() && records == old(records)[..k] + old(records)[k + 1..]
    {
      ghost var (before, rest) := (records, records[..k] + records[k + 1..]);
      if prev != null {
        prev.next := pointer.next;
      } else if pointer.next != null {
        first := first.next;
      } else {
        first := null;
      }
      records := rest;
      forall i | 0 <= i < |rest| ensures rest[i].next == Nth(rest, i + 1) {
        if i < k {
          assert rest[i] == before[i];
        } else {
          assert rest[i] == before[i + 1];
        }
      }
    }

    method RemoveDomainRecordFromDictionary(domain: string)
      requires Valid()
      modifies this, records
      ensures Valid() && forall i | 0 <= i < |records| :: records[i] in old(records)
      ensures Entries() == Without(old(Entries()), domain)
    {
      var pointer := first;
      var prev: Record? := null;
      ghost var k := 0;
      while pointer != null
        invariant Valid() && records == old(records)
        invariant k <= |records| && pointer == Nth(records, k)
        invariant prev == if k == 0 then null else Nth(records, k - 1)
        invariant forall j | 0 <= j < k :: records[j].domain != domain
        decreases |records| - k
      {
        if pointer.domain == domain {
          FirstForIs(Entries(), domain, k);
          EntriesWithout(records, k);
          Unlink(prev, pointer, k);
          return;
        }
        prev := pointer;
        pointer := pointer.next;
        k := k + 1;
      }
      FirstForIs(Entries(), domain, k);
    }
  }

  // ------------------------------------------------------ the list as a finite map

  /** No domain has two records. */
  predicate Unique(es: seq<Entry>) {
    forall i, j | 0 <= i < j < |es| :: es[i].domain != es[j].domain
  }

  /** The map a list stands for: what a search would find. */
  function AsMap(es: seq<Entry>): map<string, nat> {
    map i | 0 <= i < |es| && i == FirstFor(es, es[i].domain) :: es[i].domain := es[i].worker
  }

  lemma AsMapFinds(es: seq<Entry>, domain: string)
    ensures domain in AsMap(es) <==> FirstFor(es, domain) < |es|
    ensures Lookup(es, domain) == if domain in AsMap(es) then AsMap(es)[domain] else -1
  {
    var i := FirstFor(es, domain);
    if i < |es| {
      assert i == FirstFor(es, es[i].domain);
    }
  }

  lemma WithoutAt(es: seq<Entry>, domain: string, j: nat)
    requires FirstFor(es, domain) < |es| && j < |es| - 1
    ensures |Without(es, domain)| == |es| - 1
    ensures Without(es, domain)[j] == es[if j < FirstFor(es, domain) then j else j + 1]
  {
  }

  /** Removing touches no other domain. */
  lemma RemovalKeepsOthers(es: seq<Entry>, domain: string, other: string)
    requires other != domain
    ensures Lookup(Without(es, domain), other) == Lookup(es, other)
  {
    var (i, k, rest) := (FirstFor(es, domain), FirstFor(es, other), Without(es, domain));
    if i < |es| {
      var at := if k < i then k else k - 1;
      forall j: nat | j < at ensures rest[j].domain != other {
        WithoutAt(es, domain, j);
      }
      if k < |es| {
        WithoutAt(es, domain, at);
      }
      FirstForIs(rest, other, at);
    }
  }

  /** The domain itself is gone exactly when it had no second record. */
  lemma RemovalIsFull(es: seq<Entry>, domain: string)
    ensures Lookup(Without(es, domain), domain) == -1 <==> Single(es, domain)
  {
    var (i, rest) := (FirstFor(es, domain), Without(es, domain));
    if i < |es| {
      if Single(es, domain) {
        forall j: nat | j < |rest| ensures rest[j].domain != domain {
          WithoutAt(es, domain, j);
        }
      } else {
        var j, k :| 0 <= j < k < |es| && es[j].domain == domain && es[k].domain == domain;
        WithoutAt(es, domain, k - 1);
      }
    }
  }

  /** At most one record for the domain. */
  predicate Single(es: seq<Entry>, domain: string) {
    forall i, j | 0 <= i < j < |es| && es[i].domain == domain :: es[j].domain != domain
  }

  lemma UniqueWithout(es: seq<Entry>, domain: string)
    requires Unique(es)
    ensures Unique(Without(es, domain))
  {
    var (i, rest) := (FirstFor(es, domain), Without(es, domain));
    if i < |es| {
      assert forall j | 0 <= j < |rest| :: rest[j] == es[if j < i then j else j + 1];
    }
  }

  lemma RemovalAt(es: seq<Entry>, domain: string, x: string)
    requires Unique(es)
    ensures Lookup(Without(es, domain), x) == if x == domain then -1 else Lookup(es, x)
  {
    if x == domain {
      RemovalIsFull(es, domain);
    } else {
      RemovalKeepsOthers(es, domain, x);
    }
  }

  lemma SameMap(es: seq<Entry>, m: map<string, nat>)
    requires forall x: string :: Lookup(es, x) == if x in m then m[x] else -1
    ensures AsMap(es) == m
  {
    forall x: string
      ensures (x in AsMap(es) <==> x in m) && (x in m ==> AsMap(es)[x] == m[x])
    {
      AsMapFinds(es, x);
      assert Lookup(es, x) == if x in m then m[x] else -1;
    }
  }

  /** With one record per domain the list is a map: removing is removing the key. */
  lemma RemovalIsMapRemoval(es: seq<Entry>, domain: string)
    requires Unique(es)
    ensures AsMap(Without(es, domain)) == AsMap(es) - {domain}
  {
    var m := AsMap(es) - {domain};
    forall x: string ensures Lookup(Without(es, domain), x) == if x in m then m[x] else -1 {
      RemovalAt(es, domain, x);
      AsMapFinds(es, x);
    }
    SameMap(Without(es, domain), m);
  }

  lemma {:induction false} LookupLast(es: seq<Entry>, e: Entry, domain: string)
    ensures FirstFor(es + [e], domain)
            == if FirstFor(es, domain) == |es| && e.domain != domain then |es| + 1 else FirstFor(es, domain)
  {
    var i := FirstFor(es, domain);
    FirstForIs(es + [e], domain, if i == |es| && e.domain != domain then |es| + 1 else i);
  }

  /** Adding a domain that is not there is adding a key; the other mappings stay. */
  lemma AdditionIsMapUpdate(es: seq<Entry>, e: Entry)
    requires Lookup(es, e.domain) == -1
    ensures AsMap(es + [e]) == AsMap(es)[e.domain := e.worker]
  {
    var m := AsMap(es)[e.domain := e.worker];
    forall x: string ensures Lookup(es + [e], x) == if x in m then m[x] else -1 {
      AsMapFinds(es, x);
      LookupLast(es, e, x);
    }
    SameMap(es + [e], m);
  }

  // --------------------------------------------------------------- interleaving

  /** What the threads do to the dictionary: the main thread looks a domain up and, having found nothing, tries to add
      it up to three times; the workers remove domains at any time in between. */
  datatype Act = Find(sought: string) | Add(worker: nat, memory: bool) | Remove(domain: string)

  /** `pending` is the domain the main thread has looked up in vain, `tries` how often it has failed to add it. */
  datatype Shared = Shared(entries: seq<Entry>, pending: Option<string>, tries: nat)

  const MAX_TRIES := 3

  function Done(s: Shared, a: Act): Shared {
    match a
    case Find(d) =>
      if s.pending == None && Lookup(s.entries, d) < 0 then s.(pending := Some(d), tries := 0) else s
    case Add(worker, memory) =>
      if s.pending == None then s
      else if memory then Shared(s.entries + [Entry(s.pending.value, worker)], None, 0)
      else if s.tries + 1 < MAX_TRIES then s.(tries := s.tries + 1)
      else s.(pending := None, tries := 0)
    case Remove(d) => s.(entries := Without(s.entries, d))
  }

  function Interleaved(acts: seq<Act>): Shared {
    if acts == [] then Shared([], None, 0) else Done(Interleaved(acts[..|acts| - 1]), acts[|acts| - 1])
  }

  predicate SharedSound(s: Shared) {
    Unique(s.entries) && (s.pending.Some? ==> Lookup(s.entries, s.pending.value) == -1)
  }

  lemma AbsentWithout(es: seq<Entry>, domain: string, absent: string)
    requires Lookup(es, absent) == -1
    ensures Lookup(Without(es, domain), absent) == -1
  {
    if absent != domain {
      RemovalKeepsOthers(es, domain, absent);
    }
  }

  lemma ActSound(s: Shared, a: Act)
    requires SharedSound(s)
    ensures SharedSound(Done(s, a))
  {
    if a.Remove? {
      UniqueWithout(s.entries, a.domain);
      if s.pending.Some? {
        AbsentWithout(s.entries, a.domain, s.pending.value);
      }
    }
  }

  lemma {:induction false} InterleavedSound(acts: seq<Act>)
    ensures SharedSound(Interleaved(acts))
  {
    if acts != [] {
      InterleavedSound(acts[..|acts| - 1]);
      ActSound(Interleaved(acts[..|acts| - 1]), acts[|acts| - 1]);
    }
  }

  /** However the main thread's look-up and addition interleave with removals by workers, no domain ever has two
      records; so removing the first match always removes the mapping, and only that one. */
  lemma NoDoubleRecord(acts: seq<Act>, domain: string)
    ensures var es := Interleaved(acts).entries;
            && Unique(es)
            && Lookup(Without(es, domain), domain) == -1
            && AsMap(Without(es, domain)) == AsMap(es) - {domain}
  {
    InterleavedSound(acts);
    var es := Interleaved(acts).entries;
    RemovalIsFull(es, domain);
    RemovalIsMapRemoval(es, domain);
  }
}
