/** The growing buffer of a message body: when it is enlarged, what always fits in it, and how often it grows. */
module BodyGrowth {
  import opened Text
  import opened ServerBuffer
  import opened ServerSession

  /** The longest line the receive buffer can hold with its CRLF and the final NUL. */
  const MAX_LINE := 1021

  /** How far apart the growths are at least. */
  const SPACING := 1027

  predicate TextLines(lines: seq<string>) {
    forall k | 0 <= k < |lines| :: |lines[k]| <= MAX_LINE && lines[k] != "."
  }

  /** The line makes the handler enlarge the buffer. */
  predicate Grows(s: Session, line: string) { |s.body| + |line| >= s.capacity }

  /** The session after some lines of text. */
  function After(s: Session, lines: seq<string>, env: nat -> LineInput, n: nat): Session {
    Fold(Server(env), s, lines, n).state
  }

  function Growths(s: Session, lines: seq<string>, env: nat -> LineInput, n: nat): nat
    decreases |lines|
  {
    if lines == [] then 0
    else (if Grows(s, lines[0]) then 1 else 0) + Growths(Line(s, lines[0], env(n)), lines[1..], env, n + 1)
  }

  /** One line of text: the body gains the line and LF. */
  lemma OneLine(s: Session, line: string, e: LineInput)
    requires s.textMode && line != "."
    ensures var s' := Line(s, line, e);
            && s'.textMode && s'.body == s.body + line + "\n" && |s'.body| == |s.body| + |line| + 1
            && s'.capacity == (if Grows(s, line) then |s.body| + 2 * BUFFER_SIZE else s.capacity)
            && !Quits(s, line)
  {
  }

  /** The body is the text lines in order, each followed by LF. */
  lemma {:induction false} BodyIsLines(s: Session, lines: seq<string>, env: nat -> LineInput, n: nat)
    requires s.textMode && TextLines(lines)
    ensures var s' := After(s, lines, env, n); s'.textMode && s'.body == s.body + Unlines(lines, "\n")
    decreases |lines|
  {
    if lines == [] {
      assert s.body + "" == s.body;
    } else {
      OneLine(s, lines[0], env(n));
      BodyIsLines(Line(s, lines[0], env(n)), lines[1..], env, n + 1);
      Assoc(s.body, lines[0] + "\n", Unlines(lines[1..], "\n"));
      Assoc(s.body, lines[0], "\n");
    }
  }

  /** Once room is made, the line and the terminating NUL always fit. The LF that replaces the NUL, with a NUL after it,
      fits too, except when body and line fill the buffer to its last byte; then no room had been made for this line. */
  lemma Room(s: Session, line: string, e: LineInput)
    requires s.textMode && |line| <= MAX_LINE && line != "."
    ensures var capacity := Line(s, line, e).capacity;
            && |s.body| + |line| + 1 <= capacity
            && (|s.body| + |line| + 2 <= capacity <==> |s.body| + |line| != capacity - 1)
            && (Grows(s, line) ==> |s.body| + |line| + 2 <= capacity)
  {
  }

  /** After a growth at body length p, the next one comes at least 1027 body bytes later. */
  lemma NextGrowth(s: Session, p: nat, line: string)
    requires s.capacity == p + 2 * BUFFER_SIZE && |line| <= MAX_LINE && Grows(s, line)
    ensures |s.body| >= p + SPACING
  {
  }

  lemma {:induction false} GrowthsAfter(s: Session, p: nat, lines: seq<string>, env: nat -> LineInput, n: nat)
    requires s.textMode && TextLines(lines) && s.capacity == p + 2 * BUFFER_SIZE && p <= |s.body|
    ensures p + SPACING * Growths(s, lines, env, n) <= |After(s, lines, env, n).body|
    decreases |lines|
  {
    if lines != [] {
      var s' := Line(s, lines[0], env(n));
      OneLine(s, lines[0], env(n));
      if Grows(s, lines[0]) {
        NextGrowth(s, p, lines[0]);
        GrowthsAfter(s', |s.body|, lines[1..], env, n + 1);
      } else {
        GrowthsAfter(s', p, lines[1..], env, n + 1);
      }
    }
  }

  /** A session that was just told to start its text. */
  predicate Started(s: Session) { s.textMode && s.body == "" && s.capacity == 0 }

  /** A body of n bytes makes the buffer grow at most 1 + n / 1027 times. */
  lemma FewGrowths(s: Session, lines: seq<string>, env: nat -> LineInput, n: nat)
    requires Started(s) && TextLines(lines)
    ensures Growths(s, lines, env, n) <= 1 + |After(s, lines, env, n).body| / SPACING
  {
    if lines != [] {
      var s' := Line(s, lines[0], env(n));
      OneLine(s, lines[0], env(n));
      GrowthsAfter(s', 0, lines[1..], env, n + 1);
      assert Growths(s, lines, env, n) == 1 + Growths(s', lines[1..], env, n + 1);
    }
  }

  function Xs(n: nat): (t: string)
    ensures |t| == n
  {
    seq(n, _ => 'x')
  }

  /** The exception is real: lines of 1021, 1021 and 3 characters fill the first buffer to its last byte. */
  lemma LastByteReached(s: Session, env: nat -> LineInput)
    requires Started(s)
    ensures var lines := [Xs(1021), Xs(1021)];
            var s2 := After(s, lines, env, 0);
            && TextLines(lines + [Xs(3)])
            && |s2.body| + |Xs(3)| == Line(s2, Xs(3), env(2)).capacity - 1
  {
    var lines := [Xs(1021), Xs(1021)];
    var s1 := Line(s, Xs(1021), env(0));
    var s2 := Line(s1, Xs(1021), env(1));
    assert Xs(1021) != "." && Xs(3) != ".";
    OneLine(s, Xs(1021), env(0));
    OneLine(s1, Xs(1021), env(1));
    OneLine(s2, Xs(3), env(2));
    assert lines[1..] == [Xs(1021)] && lines[1..][1..] == [];
    assert Fold(Server(env), s2, [], 2).state == s2;
    assert Fold(Server(env), s1, [Xs(1021)], 1).state == s2;
    assert After(s, lines, env, 0) == s2;
  }
}
