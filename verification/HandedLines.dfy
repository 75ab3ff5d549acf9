/** The lines that a session is handed, one after the other up to a quit, and whether one of them is of some kind. */
module HandedLines {
  import opened Text
  import opened Outcomes
  import opened ServerBuffer
  import opened DrainExact
  import opened ServerSession
  import opened ServerSocket

  /** What a line, met by a session, may be. */
  type Kind = (Session, string, LineInput) -> bool

  /** A reading of lines comes to its line `p`, and that is of this kind. */
  predicate MeetsAt(kind: Kind, env: nat -> LineInput, s: Session, lines: seq<string>, n: nat, p: nat)
    decreases p
  {
    p < |lines| &&
    if p == 0 then kind(s, lines[0], env(n))
    else !Quits(s, lines[0]) && MeetsAt(kind, env, Line(s, lines[0], env(n)), lines[1..], n + 1, p - 1)
  }

  ghost predicate Meets(kind: Kind, env: nat -> LineInput, s: Session, lines: seq<string>, n: nat) {
    exists p: nat :: MeetsAt(kind, env, s, lines, n, p)
  }

  lemma MeetsNone(kind: Kind, env: nat -> LineInput, s: Session, n: nat)
    ensures !Meets(kind, env, s, [], n)
  {
  }

  lemma MeetsLater(kind: Kind, env: nat -> LineInput, s: Session, lines: seq<string>, n: nat)
    requires lines != []
    ensures Meets(kind, env, s, lines, n) <==>
            kind(s, lines[0], env(n))
            || (!Quits(s, lines[0]) && Meets(kind, env, Line(s, lines[0], env(n)), lines[1..], n + 1))
  {
    if Meets(kind, env, s, lines, n) {
      var p: nat :| MeetsAt(kind, env, s, lines, n, p);
      assert p != 0 ==> MeetsAt(kind, env, Line(s, lines[0], env(n)), lines[1..], n + 1, p - 1);
    }
    if kind(s, lines[0], env(n)) {
      assert MeetsAt(kind, env, s, lines, n, 0);
    }
    if !Quits(s, lines[0]) && Meets(kind, env, Line(s, lines[0], env(n)), lines[1..], n + 1) {
      var p: nat :| MeetsAt(kind, env, Line(s, lines[0], env(n)), lines[1..], n + 1, p);
      assert MeetsAt(kind, env, s, lines, n, p + 1);
    }
  }

  lemma FoldNext(env: nat -> LineInput, s: Session, lines: seq<string>, n: nat)
    requires lines != []
    ensures var s1 := Line(s, lines[0], env(n));
            Fold(Server(env), s, lines, n)
            == if Quits(s, lines[0]) then Folded(s1, true) else Fold(Server(env), s1, lines[1..], n + 1)
  {
  }

  /** The call drains the buffer, and hands over a line of this kind. */
  ghost predicate Hands(kind: Kind, k: Socket, c: Call)
    requires Terminated(k.buffer)
  {
    var s := k.session;
    && Possible(c.reading) && !s.faulted && s.phase != SEND_GREETING && c.flag
    && Meets(kind, c.env, s, Handled(Server(c.env), s, k.buffer, c.n), c.n)
  }
}
