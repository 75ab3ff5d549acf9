/** C strings as sequences of characters: termination, search, line splitting and number reading. */
module Text {
  datatype Option<+T> = None | Some(value: T)

  const NUL: char := '\0'
  const CRLF: string := "\r\n"

  // ------------------------------------------------------------------ search

  /** The position of the first element with a property; the length of the list if there is none. */
  function FirstIndex<T>(xs: seq<T>, p: T -> bool): (i: nat)
    ensures i <= |xs|
    ensures i < |xs| ==> p(xs[i])
    ensures forall j | 0 <= j < i :: !p(xs[j])
  {
    if xs == [] || p(xs[0]) then 0 else 1 + FirstIndex(xs[1..], p)
  }

  predicate At(s: string, p: string, i: nat) {
    i + |p| <= |s| && s[i..i + |p|] == p
  }

  /** The first occurrence of `p` in `s` at index `i` or later. */
  function FindFrom(s: string, p: string, i: nat): (r: Option<nat>)
    ensures r.Some? ==> i <= r.value && At(s, p, r.value) && forall j: nat | i <= j < r.value :: !At(s, p, j)
    ensures r.None? ==> forall j: nat | i <= j :: !At(s, p, j)
    decreases |s| - i
  {
    if At(s, p, i) then Some(i)
    else if i >= |s| then None
    else FindFrom(s, p, i + 1)
  }

  /** `strstr`. */
  function Find(s: string, p: string): (r: Option<nat>)
    ensures r.Some? ==> At(s, p, r.value) && forall j: nat | j < r.value :: !At(s, p, j)
    ensures r.None? ==> forall j: nat :: !At(s, p, j)
  {
    FindFrom(s, p, 0)
  }

  lemma FindIs(s: string, p: string, i: nat)
    requires At(s, p, i)
    requires forall j: nat | j < i :: !At(s, p, j)
    ensures Find(s, p) == Some(i)
  {
  }

  /** `strchr`, searching from index `i`. */
  function IndexFrom(s: string, c: char, i: nat): (r: Option<nat>)
    ensures r.Some? ==> i <= r.value < |s| && s[r.value] == c && forall j | i <= j < r.value :: s[j] != c
    ensures r.None? ==> forall j | i <= j < |s| :: s[j] != c
    decreases |s| - i
  {
    if i >= |s| then None
    else if s[i] == c then Some(i)
    else IndexFrom(s, c, i + 1)
  }

  lemma IndexIs(s: string, c: char, i: nat, k: nat)
    requires i <= k < |s| && s[k] == c
    requires forall j | i <= j < k :: s[j] != c
    ensures IndexFrom(s, c, i) == Some(k)
  {
  }

  /** What C code sees of `s`: everything before the first NUL. */
  function CString(s: string): (t: string)
    ensures t <= s && NUL !in t
    ensures |t| == |s| || s[|t|] == NUL
    ensures forall k | 0 <= k < |t| :: s[k] != NUL
  {
    match IndexFrom(s, NUL, 0)
    case Some(k) => s[..k]
    case None => s
  }

  lemma CStringIs(s: string, k: nat)
    requires k <= |s| && NUL !in s[..k]
    requires k == |s| || s[k] == NUL
    ensures CString(s) == s[..k]
  {
    if k < |s| {
      IndexIs(s, NUL, 0, k);
    }
  }

  // ------------------------------------------------------------------- lines

  predicate Eol(s: string, i: nat) {
    i + 2 <= |s| && s[i] == '\r' && s[i + 1] == '\n'
  }

  predicate EndsWithCRLF(s: string) {
    |s| >= 2 && Eol(s, |s| - 2)
  }

  function EolFrom(s: string, i: nat): (r: Option<nat>)
    ensures r.Some? ==> i <= r.value && Eol(s, r.value) && forall j: nat | i <= j < r.value :: !Eol(s, j)
    ensures r.None? ==> forall j: nat | i <= j :: !Eol(s, j)
    decreases |s| - i
  {
    if Eol(s, i) then Some(i)
    else if i >= |s| then None
    else EolFrom(s, i + 1)
  }

  /** The first CRLF of `s`: `strstr(s, "\r\n")`. */
  function FirstEol(s: string): (r: Option<nat>)
    ensures r.Some? ==> Eol(s, r.value) && forall j: nat | j < r.value :: !Eol(s, j)
    ensures r.None? ==> forall j: nat :: !Eol(s, j)
  {
    EolFrom(s, 0)
  }

  lemma FirstEolIs(s: string, i: nat)
    requires Eol(s, i)
    requires forall j: nat | j < i :: !Eol(s, j)
    ensures FirstEol(s) == Some(i)
  {
  }

  /** The CRLF-terminated lines of `t`, without their terminators; what follows the last CRLF is dropped. */
  function Lines(t: string): (ls: seq<string>)
    decreases |t|
  {
    match FirstEol(t)
    case None => []
    case Some(i) => [t[..i]] + Lines(t[i + 2..])
  }

  function Unlines(ls: seq<string>, eol: string): string {
    if ls == [] then "" else ls[0] + eol + Unlines(ls[1..], eol)
  }

  function Concat(ts: seq<string>): string {
    if ts == [] then "" else ts[0] + Concat(ts[1..])
  }

  lemma Assoc<T>(a: seq<T>, b: seq<T>, c: seq<T>)
    ensures a + (b + c) == a + b + c
  {
  }

  lemma {:induction false} ConcatSplit(a: seq<string>, b: seq<string>)
    ensures Concat(a + b) == Concat(a) + Concat(b)
  {
    if a == [] {
      assert a + b == b;
    } else {
      ConcatSplit(a[1..], b);
      assert (a + b)[1..] == a[1..] + b;
      Assoc(a[0], Concat(a[1..]), Concat(b));
    }
  }

  lemma {:induction false} UnlinesSplit(a: seq<string>, b: seq<string>, eol: string)
    ensures Unlines(a + b, eol) == Unlines(a, eol) + Unlines(b, eol)
  {
    if a == [] {
      assert a + b == b;
    } else {
      UnlinesSplit(a[1..], b, eol);
      assert (a + b)[1..] == a[1..] + b;
      Assoc(a[0] + eol, Unlines(a[1..], eol), Unlines(b, eol));
    }
  }

  /** A line without CRLF inside and CRLF after it is the first line of any text it starts. */
  lemma FirstLine(l: string, rest: string)
    requires FirstEol(l + "\r").None?
    ensures FirstEol(l + CRLF + rest) == Some(|l|)
    ensures Lines(l + CRLF + rest) == [l] + Lines(rest)
  {
    var t := l + CRLF + rest;
    forall j: nat | j < |l| ensures !Eol(t, j) {
      assert !Eol(l + "\r", j);
    }
    FirstEolIs(t, |l|);
    assert t[..|l|] == l && t[|l| + 2..] == rest;
  }

  /** The first line of a CRLF-terminated text, and the text after it. */
  lemma FirstLineOf(a: string) returns (i: nat)
    requires EndsWithCRLF(a)
    ensures FirstEol(a) == Some(i) && i + 2 <= |a|
    ensures a[i + 2..] == "" || EndsWithCRLF(a[i + 2..])
    ensures a == a[..i] + CRLF + a[i + 2..]
  {
    assert Eol(a, |a| - 2);
    i := FirstEol(a).value;
  }

  lemma FirstEolExtends(a: string, b: string, i: nat)
    requires FirstEol(a) == Some(i)
    ensures i + 2 <= |a|
    ensures Lines(a) == [a[..i]] + Lines(a[i + 2..])
    ensures Lines(a + b) == [a[..i]] + Lines(a[i + 2..] + b)
  {
    forall j: nat | j < i ensures !Eol(a + b, j) {
      assert !Eol(a, j);
    }
    FirstEolIs(a + b, i);
    assert (a + b)[i + 2..] == a[i + 2..] + b && (a + b)[..i] == a[..i];
  }

  lemma Regroup<T>(whole: seq<T>, first: T, rest: seq<T>, tail: seq<T>, a: seq<T>)
    requires whole == [first] + (rest + tail) && a == [first] + rest
    ensures whole == a + tail
  {
  }

  /** Splitting respects concatenation at a CRLF boundary. */
  lemma {:induction false} LinesSplit(a: string, b: string)
    requires a == "" || EndsWithCRLF(a)
    ensures Lines(a + b) == Lines(a) + Lines(b)
    decreases |a|
  {
    if a == "" {
      assert a + b == b && Lines(a) == [];
    } else {
      var i := FirstLineOf(a);
      FirstEolExtends(a, b, i);
      LinesSplit(a[i + 2..], b);
      Regroup(Lines(a + b), a[..i], Lines(a[i + 2..]), Lines(b), Lines(a));
    }
  }

  /** A text ending in CRLF is exactly its lines, each terminated. */
  lemma {:induction false} LinesComplete(a: string)
    requires a == "" || EndsWithCRLF(a)
    ensures Unlines(Lines(a), CRLF) == a
    decreases |a|
  {
    if a == "" {
      assert FirstEol(a).None?;
    } else {
      var i := FirstLineOf(a);
      LinesComplete(a[i + 2..]);
    }
  }

  /** Each CRLF replaced by LF. */
  function CrlfToLf(t: string): string {
    if t == "" then ""
    else if Eol(t, 0) then "\n" + CrlfToLf(t[2..])
    else [t[0]] + CrlfToLf(t[1..])
  }

  lemma UnlinesOfFirst(u: string, i: nat, eol: string)
    requires FirstEol(u) == Some(i)
    ensures i + 2 <= |u| && Unlines(Lines(u), eol) == u[..i] + eol + Unlines(Lines(u[i + 2..]), eol)
  {
    assert Lines(u) == [u[..i]] + Lines(u[i + 2..]);
  }

  lemma UnlinesNone(eol: string)
    ensures Unlines(Lines(""), eol) == ""
  {
    assert FirstEol("").None?;
  }

  /** Re-terminating the lines of `t` CRLF with LF is the same as replacing every CRLF of `t`. */
  lemma {:induction false} LinesAsLf(t: string)
    ensures Unlines(Lines(t + CRLF), "\n") == CrlfToLf(t) + "\n"
    decreases |t|
  {
    var u := t + CRLF;
    var i := FirstLineOf(u);
    forall j: nat | j < i ensures !Eol(t, j) {
      assert !Eol(u, j);
    }
    UnlinesOfFirst(u, i, "\n");
    if i == |t| {
      assert u[i + 2..] == "" && u[..i] == t;
      UnlinesNone("\n");
      NoCrlf(t);
    } else {
      assert u[i + 2..] == t[i + 2..] + CRLF && u[..i] == t[..i];
      LinesAsLf(t[i + 2..]);
      CrlfPrefix(t, i);
      Assoc(t[..i] + "\n", CrlfToLf(t[i + 2..]), "\n");
    }
  }

  /** Before the first CRLF nothing is replaced. */
  lemma {:induction false} CrlfPrefix(t: string, i: nat)
    requires Eol(t, i)
    requires forall j: nat | j < i :: !Eol(t, j)
    ensures CrlfToLf(t) == t[..i] + "\n" + CrlfToLf(t[i + 2..])
    decreases i
  {
    if i > 0 {
      assert !Eol(t, 0);
      forall j: nat | j < i - 1 ensures !Eol(t[1..], j) {
        assert !Eol(t, j + 1);
      }
      CrlfPrefix(t[1..], i - 1);
      assert t[1..][i + 1..] == t[i + 2..];
      assert [t[0]] + t[1..][..i - 1] == t[..i];
    }
  }

  lemma {:induction false} NoCrlf(t: string)
    requires forall j: nat | j < |t| :: !Eol(t, j)
    ensures CrlfToLf(t) == t
  {
    if t != "" {
      assert !Eol(t, 0);
      forall j: nat | j < |t[1..]| ensures !Eol(t[1..], j) {
        assert !Eol(t, j + 1);
      }
      NoCrlf(t[1..]);
    }
  }

  // ------------------------------------------------------------ reply codes

  predicate IsDigit(c: char) { '0' <= c <= '9' }

  predicate IsSpace(c: char) { c == ' ' || '\t' <= c <= '\r' }

  function Digits(s: string, acc: nat): int {
    if s == "" || !IsDigit(s[0]) then acc
    else Digits(s[1..], acc * 10 + (s[0] as int - '0' as int))
  }

  /** `atoi`. */
  function Atoi(s: string): int {
    if s == "" then 0
    else if IsSpace(s[0]) then Atoi(s[1..])
    else if s[0] == '-' then -Digits(s[1..], 0)
    else if s[0] == '+' then Digits(s[1..], 0)
    else Digits(s, 0)
  }

  /** The number in the first three characters of a server reply. */
  function StatusCode(reply: string): int {
    var t := CString(reply);
    Atoi(if |t| <= 3 then t else t[..3])
  }

  /** A reply that starts with three digits. */
  lemma CodeOf(t: string)
    requires |t| >= 3 && IsDigit(t[0]) && IsDigit(t[1]) && IsDigit(t[2])
    ensures StatusCode(t)
            == 100 * (t[0] as int - '0' as int) + 10 * (t[1] as int - '0' as int) + (t[2] as int - '0' as int)
  {
    var u := CString(t);
    assert t[0] != NUL && t[1] != NUL && t[2] != NUL;
    assert |u| >= 3;
    var v := if |u| <= 3 then u else u[..3];
    assert v == [t[0], t[1], t[2]];
    var (a, b, c) := (t[0] as int - '0' as int, t[1] as int - '0' as int, t[2] as int - '0' as int);
    assert v[1..] == [t[1], t[2]] && v[1..][1..] == [t[2]] && v[1..][1..][1..] == [];
    assert Digits([], 100 * a + 10 * b + c) == 100 * a + 10 * b + c;
    assert Digits([t[2]], 10 * a + b) == 100 * a + 10 * b + c;
    assert Digits([t[1], t[2]], a) == 100 * a + 10 * b + c;
    assert Digits(v, 0) == 100 * a + 10 * b + c;
  }

  /** A reply has a code of three digits exactly when it starts with them. */
  lemma CodeIs(t: string, n: int, code: string)
    requires |code| == 3 && IsDigit(code[0]) && IsDigit(code[1]) && IsDigit(code[2]) && code[0] != '0'
    requires n == 100 * (code[0] as int - '0' as int) + 10 * (code[1] as int - '0' as int)
                  + (code[2] as int - '0' as int)
    ensures StatusCode(t) == n <==> code <= t
  {
    if code <= t {
      CodeOf(t);
    } else {
      var u := CString(t);
      var v := if |u| <= 3 then u else u[..3];
      if |v| == 3 && IsDigit(v[0]) && IsDigit(v[1]) && IsDigit(v[2]) {
        assert v == t[..3] == [t[0], t[1], t[2]];
        CodeOf(t);
        assert code == [code[0], code[1], code[2]];
      } else {
        FewDigits(v);
      }
    }
  }

  /** Fewer than three digits make a number below 100. */
  lemma {:induction false} FewDigits(v: string)
    requires |v| <= 3 && !(|v| == 3 && IsDigit(v[0]) && IsDigit(v[1]) && IsDigit(v[2]))
    ensures -100 < Atoi(v) < 100
    decreases |v|
  {
    ShortDigits(v);
    if v != "" {
      ShortDigits(v[1..]);
      if IsSpace(v[0]) {
        FewDigits(v[1..]);
      }
    }
  }

  lemma ShortDigits(v: string)
    requires |v| <= 3 && !(|v| == 3 && IsDigit(v[0]) && IsDigit(v[1]) && IsDigit(v[2]))
    ensures 0 <= Digits(v, 0) < 100
  {
    if v != "" && IsDigit(v[0]) {
      var (a, u) := (v[0] as int - '0' as int, v[1..]);
      assert Digits(v, 0) == Digits(u, a);
      if u != "" && IsDigit(u[0]) {
        var (b, w) := (u[0] as int - '0' as int, u[1..]);
        assert Digits(u, a) == Digits(w, 10 * a + b);
        assert w == "" || !IsDigit(w[0]);
      }
    }
  }
}
