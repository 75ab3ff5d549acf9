/** What a connection's forgetting does to the dictionary that all threads share. */
module ForgottenRecords {
  import opened Text
  import opened Connection
  import opened ConnectionRuns
  import opened ConnectionForgets
  import opened Dictionary
  import opened Controller
  import opened WorkerTasks
  import opened WorkerTheorems

  /** The removals a connection asks of the dictionary, in order. */
  function Forgets(log: seq<Action>): seq<Event> {
    if log == [] then []
    else
      var (before, a) := (Forgets(log[..|log| - 1]), log[|log| - 1]);
      if a.Forgot? then before + [Forget(a.domain)] else before
  }

  lemma HandleNextEvent(o: Office, es: seq<Event>, e: Event)
    requires o.given != []
    ensures HandleAll(o, es + [e]) == Handle(HandleAll(o, es), e)
  {
    assert (es + [e])[..|es|] == es;
  }

  /** The removals leave unique records unique, touch no worker's letters and no other domain. */
  lemma {:induction false} ForgetsRemove(o: Office, log: seq<Action>, domain: string, x: string)
    requires o.given != [] && Unique(o.entries) && OwnForgets(log, domain)
    ensures var r := HandleAll(o, Forgets(log));
            && Unique(r.entries) && r.given == o.given
            && Lookup(r.entries, x) == (if HasForgot(log) && x == domain then -1 else Lookup(o.entries, x))
            && (!HasForgot(log) ==> r == o)
  {
    if log != [] {
      var (init, a) := (log[..|log| - 1], log[|log| - 1]);
      ForgetsRemove(o, init, domain, x);
      assert HasForgot(init) ==> HasForgot(log) by {
        if k :| 0 <= k < |init| && init[k].Forgot? {
          assert log[k].Forgot?;
        }
      }
      if a.Forgot? {
        var r := HandleAll(o, Forgets(init));
        HandleNextEvent(o, Forgets(init), Forget(a.domain));
        RemovalAt(r.entries, domain, x);
        UniqueWithout(r.entries, domain);
      } else if k :| 0 <= k < |log| && log[k].Forgot? {
        assert init[k].Forgot?;
      }
    }
  }

  /** When the dictionary has one record per domain, the removals of a disposed connection of a worker take its domain's
      record away, and nothing else, if and only if a 421 greeting did not turn it away; then the record stays. */
  lemma DisposedUnrecorded(ops: seq<Op>, c: Conn, o: Office, x: string)
    requires c in RunOps(ops).conns || c in RunOps(ops).past
    requires Disposed(c) && o.given != [] && Unique(o.entries)
    ensures var r := HandleAll(o, Forgets(c.log));
            && Lookup(r.entries, x) == (if x == c.domain && !TurnedAway(c) then -1 else Lookup(o.entries, x))
            && (TurnedAway(c) ==> r == o)
  {
    WorkerForgot(ops, c);
    ForgetsRemove(o, c.log, c.domain, x);
  }
}
