/** Exactly when a server session follows a null pointer. */
module ServerFaults {
  import opened Text
  import opened Outcomes
  import opened ServerBuffer
  import opened DrainExact
  import opened ServerSession
  import opened ServerSocket
  import opened HandedLines

  /** In command mode, before any HELO or EHLO was taken, a HELO without a space. */
  predicate Trips(s: Session, line: string, e: LineInput) {
    !s.textMode && s.phase == INIT && "HELO" <= line && ' ' !in line
  }

  lemma LineFaults(s: Session, line: string, e: LineInput)
    requires !s.faulted
    ensures Line(s, line, e).faulted <==> Trips(s, line, e)
    ensures Trips(s, line, e) ==> Quits(s, line)
  {
    assert Word(line) == "HELO" <==> "HELO" <= line;
  }

  lemma {:induction false} FoldFaults(env: nat -> LineInput, s: Session, lines: seq<string>, n: nat)
    requires !s.faulted
    ensures Fold(Server(env), s, lines, n).state.faulted <==> Meets(Trips, env, s, lines, n)
    decreases |lines|
  {
    if lines == [] {
      MeetsNone(Trips, env, s, n);
    } else {
      MeetsLater(Trips, env, s, lines, n);
      FoldNext(env, s, lines, n);
      LineFaults(s, lines[0], env(n));
      if !Trips(s, lines[0], env(n)) && !Quits(s, lines[0]) {
        FoldFaults(env, Line(s, lines[0], env(n)), lines[1..], n + 1);
      }
    }
  }

  // ---------------------------------------------------------------- every call

  lemma CallFaults(k: Socket, c: Call)
    requires Terminated(k.buffer) && Possible(c.reading) && !k.session.faulted
    ensures CallStep(k.(flag := c.flag), c.io, c.reading, c.env, c.n).session.faulted <==> Hands(Trips, k, c)
  {
    var s := k.session;
    if s.phase != SEND_GREETING && c.flag {
      DrainFoldsHandled(Server(c.env), s, k.buffer, c.n);
      FoldFaults(c.env, s, Handled(Server(c.env), s, k.buffer, c.n), c.n);
    }
  }

  ghost predicate TripsInCall(calls: seq<Call>, j: nat) {
    j < |calls| && Hands(Trips, RunCalls(calls[..j]), calls[j])
  }

  ghost predicate TripsSometime(calls: seq<Call>) { exists j: nat :: TripsInCall(calls, j) }

  lemma SameCall(calls: seq<Call>, j: nat)
    requires j < |calls| - 1
    ensures TripsInCall(calls, j) <==> TripsInCall(calls[..|calls| - 1], j)
  {
    assert calls[..|calls| - 1][..j] == calls[..j];
  }

  lemma TripsLast(calls: seq<Call>)
    requires calls != []
    ensures TripsSometime(calls) <==> TripsSometime(calls[..|calls| - 1]) || TripsInCall(calls, |calls| - 1)
  {
    var init := calls[..|calls| - 1];
    if TripsSometime(calls) {
      var j: nat :| TripsInCall(calls, j);
      if j < |calls| - 1 {
        SameCall(calls, j);
      }
    }
    if TripsSometime(init) {
      var j: nat :| TripsInCall(init, j);
      SameCall(calls, j);
    }
  }

  /** After any calls of its handler a session has followed a null pointer exactly when one of them handed over, in
      command mode and before any HELO or EHLO was taken, a HELO without a space. */
  lemma {:induction false} FaultsExactly(calls: seq<Call>)
    ensures RunCalls(calls).session.faulted <==> TripsSometime(calls)
  {
    if calls == [] {
      assert !TripsSometime(calls);
    } else {
      var (init, c) := (calls[..|calls| - 1], calls[|calls| - 1]);
      var k := RunCalls(init);
      FaultsExactly(init);
      TripsLast(calls);
      if Possible(c.reading) && !k.session.faulted {
        CallFaults(k, c);
      }
    }
  }
}
