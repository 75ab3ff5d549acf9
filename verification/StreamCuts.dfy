/** Which streams a transport can deliver in pieces of whole lines of at most 512 bytes. */
module StreamCuts {
  import opened Text
  import opened Outcomes
  import opened ServerBuffer
  import C = Connection
  import E = EndToEnd
  import S = ServerSession

  ghost predicate Cuttable(t: string) { exists chunks :: AllWholeLines(chunks) && Concat(chunks) == t }

  predicate ShortLines(t: string) {
    forall k | 0 <= k < |Lines(t)| :: |Lines(t)[k]| <= 510
  }

  lemma {:induction false} LineWithin(ls: seq<string>, k: nat)
    requires k < |ls|
    ensures |ls[k]| + 2 <= |Unlines(ls, CRLF)|
    ensures NUL in ls[k] ==> NUL in Unlines(ls, CRLF)
  {
    if k > 0 {
      LineWithin(ls[1..], k - 1);
    }
  }

  lemma {:induction false} LinesOfChunks(chunks: seq<string>, k: nat)
    requires AllWholeLines(chunks) && k < |AllLines(chunks)|
    ensures |AllLines(chunks)[k]| <= 510
  {
    var n := |Lines(chunks[0])|;
    if k < n {
      LinesComplete(chunks[0]);
      LineWithin(Lines(chunks[0]), k);
    } else {
      LinesOfChunks(chunks[1..], k - n);
    }
  }

  /** Every line in a piece of its own. */
  function OneByOne(ls: seq<string>): seq<string> {
    if ls == [] then [] else [ls[0] + CRLF] + OneByOne(ls[1..])
  }

  lemma {:induction false} OneByOneWhole(ls: seq<string>)
    requires forall k | 0 <= k < |ls| :: |ls[k]| <= 510 && NUL !in ls[k]
    ensures AllWholeLines(OneByOne(ls)) && Concat(OneByOne(ls)) == Unlines(ls, CRLF)
  {
    if ls != [] {
      OneByOneWhole(ls[1..]);
      var rest := OneByOne(ls[1..]);
      assert ([ls[0] + CRLF] + rest)[1..] == rest;
      assert WholeLines(ls[0] + CRLF);
    }
  }

  /** A NUL-free stream that ends in CRLF can be delivered exactly when no line of it exceeds 510 characters. */
  lemma CuttableExactly(t: string)
    requires NUL !in t && EndsWithCRLF(t)
    ensures Cuttable(t) <==> ShortLines(t)
  {
    if Cuttable(t) {
      var chunks :| AllWholeLines(chunks) && Concat(chunks) == t;
      AllLinesOfStream(chunks);
      forall k | 0 <= k < |Lines(t)| ensures |Lines(t)[k]| <= 510 {
        LinesOfChunks(chunks, k);
      }
    }
    if ShortLines(t) {
      var ls := Lines(t);
      LinesComplete(t);
      forall k | 0 <= k < |ls| ensures NUL !in ls[k] {
        LineWithin(ls, k);
      }
      OneByOneWhole(ls);
      assert AllWholeLines(OneByOne(ls)) && Concat(OneByOne(ls)) == t;
    }
  }

  lemma StreamWhole(l: C.Letter)
    requires E.Mailable(l)
    ensures NUL !in E.StreamOf(l) && EndsWithCRLF(E.StreamOf(l))
  {
  }

  ghost function CutOf(l: C.Letter): (chunks: seq<string>)
    requires E.Mailable(l) && ShortLines(E.StreamOf(l))
    ensures AllWholeLines(chunks) && Concat(chunks) == E.StreamOf(l)
  {
    StreamWhole(l);
    CuttableExactly(E.StreamOf(l));
    var chunks :| AllWholeLines(chunks) && Concat(chunks) == E.StreamOf(l);
    chunks
  }

  predicate Sendable(letters: seq<C.Letter>) {
    forall k | 0 <= k < |letters| :: E.Mailable(letters[k]) && ShortLines(E.StreamOf(letters[k]))
  }

  /** Cuts for a list of letters. */
  lemma CutsExist(letters: seq<C.Letter>) returns (cuts: seq<seq<string>>)
    requires Sendable(letters)
    ensures E.CutsOf(cuts, letters)
  {
    cuts := seq(|letters|, k requires 0 <= k < |letters| => CutOf(letters[k]));
  }

  /** A fresh connection to the test server with letters that can be mailed can be joined to a server, so that every
      letter arrives, exactly when no line of a letter exceeds 510 characters. */
  lemma JoinedExactly(c: C.Conn)
    requires C.Fresh(c) && C.TEST_PREFIX <= c.domain && forall k | 0 <= k < |c.pool| :: E.Mailable(c.pool[k])
    ensures (exists y :: E.JustOpened(y) && y.client == c)
            <==> forall k | 0 <= k < |c.pool| :: ShortLines(E.StreamOf(c.pool[k]))
  {
    if y: E.System :| E.JustOpened(y) && y.client == c {
      forall k | 0 <= k < |c.pool| ensures ShortLines(E.StreamOf(c.pool[k])) {
        StreamWhole(c.pool[k]);
        assert AllWholeLines(y.cuts[k]) && Concat(y.cuts[k]) == E.StreamOf(c.pool[k]);
        CuttableExactly(E.StreamOf(c.pool[k]));
      }
    }
    if forall k | 0 <= k < |c.pool| :: ShortLines(E.StreamOf(c.pool[k])) {
      var cuts := CutsExist(c.pool);
      var y := E.System(c, Drained(S.Greet(S.NEW_SESSION, Done), Zeros(BUFFER_SIZE), false, 0),
                        [S.ReplyText(S.Greeting220)], cuts);
      assert E.JustOpened(y);
    }
  }
}
