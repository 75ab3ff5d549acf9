/** The cutting of a letter into the chunks of its sends, told without its algorithm. */
module LetterPieces {
  import opened Text
  import opened Connection
  import opened ConnectionRuns

  /** At most 997 characters, of which only the last may be a line feed. */
  predicate OneRead(t: string) {
    1 <= |t| <= 997 && forall k | 0 <= k < |t| - 1 :: t[k] != '\n'
  }

  /** A read that stopped before the end of the file. */
  predicate StopsShort(t: string) {
    t != "" && (t[|t| - 1] == '\n' || |t| == 997)
  }

  /** The reads of a text: each stops at the first line feed, after 997 characters, or at the end. */
  predicate Cutting(ps: seq<string>) {
    (forall k | 0 <= k < |ps| :: OneRead(ps[k])) && forall k | 0 <= k < |ps| - 1 :: StopsShort(ps[k])
  }

  lemma FirstRead(content: string, pos: nat)
    requires pos < |content| && NUL !in content
    ensures var (e, t) := (ChunkEnd(content, pos), content[pos..ChunkEnd(content, pos)]);
            && CString(t) == t && OneRead(t) && (e < |content| ==> StopsShort(t))
            && Pieces(content, pos) == [t] + Pieces(content, e)
  {
    var t := content[pos..ChunkEnd(content, pos)];
    CStringIs(t, |t|);
    assert t[..|t|] == t;
  }

  /** Every piece of a letter is one read, and only the last one may stop for want of text. */
  lemma {:induction false} PiecesCut(content: string, pos: nat)
    requires pos <= |content| && NUL !in content
    ensures Cutting(Pieces(content, pos)) && (Pieces(content, pos) == [] <==> pos == |content|)
    decreases |content| - pos
  {
    if pos < |content| {
      var e := ChunkEnd(content, pos);
      FirstRead(content, pos);
      PiecesCut(content, e);
    }
  }

  /** A read that stopped did not stop before another could have. */
  lemma NotShorter(s: string, a: nat, b: nat)
    requires 1 <= a <= |s| && 1 <= b <= |s| && OneRead(s[..b]) && (a < |s| ==> StopsShort(s[..a]))
    ensures b <= a
  {
    assert s[..a][a - 1] == s[a - 1];
    assert forall k | 0 <= k < b :: s[..b][k] == s[k];
  }

  lemma ConcatFirst(ps: seq<string>)
    requires ps != [] && Cutting(ps)
    ensures Cutting(ps[1..]) && Concat(ps) == ps[0] + Concat(ps[1..])
    ensures ps[1..] == [] ==> Concat(ps[1..]) == ""
    ensures ps[1..] != [] ==> Concat(ps[1..]) != "" && StopsShort(ps[0])
  {
    if |ps| > 1 {
      assert Concat(ps[1..]) == ps[1] + Concat(ps[1..][1..]);
      assert OneRead(ps[1]);
    }
  }

  /** There is no other cutting of the text into such reads. */
  lemma {:induction false} OnlyPieces(content: string, pos: nat, ps: seq<string>)
    requires pos <= |content| && NUL !in content && Cutting(ps) && Concat(ps) == content[pos..]
    ensures ps == Pieces(content, pos)
    decreases |content| - pos
  {
    if ps != [] {
      ConcatFirst(ps);
      assert OneRead(ps[0]);
      assert pos < |content|;
      var (s, a, e) := (content[pos..], |ps[0]|, ChunkEnd(content, pos));
      FirstRead(content, pos);
      assert s[..a] == ps[0] && s[..e - pos] == content[pos..e];
      NotShorter(s, a, e - pos);
      NotShorter(s, e - pos, a);
      assert content[e..] == s[a..] == Concat(ps[1..]);
      OnlyPieces(content, e, ps[1..]);
    }
  }
}
