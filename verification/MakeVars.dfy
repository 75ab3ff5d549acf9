/**
 The variable resolver of the build scripts, on values made of plain text and plain references: a worklist that goes
 round until every variable is expanded or a round changes nothing.
 */
module MakeVars {
  import opened Text

  datatype Token = Plain(text: string) | Ref(name: string)

  type Value = seq<Token>

  type Defs = map<string, Value>

  function Refs(value: Value): set<string> {
    set k | 0 <= k < |value| && value[k].Ref? :: value[k].name
  }

  /** A value with every reference replaced, if all of them are known. */
  function Expand(value: Value, known: map<string, string>): Option<string> {
    if value == [] then Some("")
    else
      match (value[0], Expand(value[1..], known))
      case (Plain(t), Some(rest)) => Some(t + rest)
      case (Ref(n), Some(rest)) => if n in known then Some(known[n] + rest) else None
      case (_, None) => None
  }

  lemma {:induction false} ExpandKnown(value: Value, known: map<string, string>)
    ensures Expand(value, known).Some? <==> Refs(value) <= known.Keys
  {
    if value != [] {
      ExpandKnown(value[1..], known);
      RefsFirst(value);
    }
  }

  lemma RefsFirst(value: Value)
    requires value != []
    ensures Refs(value) == Refs(value[1..]) + if value[0].Ref? then {value[0].name} else {}
  {
    assert forall k | 1 <= k < |value| :: value[k] == value[1..][k - 1];
  }

  /** Only the referenced variables matter. */
  lemma {:induction false} ExpandSame(value: Value, known: map<string, string>, known': map<string, string>)
    requires forall n | n in Refs(value) :: n in known && n in known' && known[n] == known'[n]
    ensures Expand(value, known) == Expand(value, known')
  {
    if value != [] {
      RefsFirst(value);
      ExpandSame(value[1..], known, known');
    }
  }

  lemma {:induction false} ExpandSplit(a: Value, b: Value, known: map<string, string>)
    ensures Expand(a + b, known) ==
            match (Expand(a, known), Expand(b, known))
            case (Some(x), Some(y)) => Some(x + y)
            case _ => None
  {
    if a == [] {
      assert a + b == b;
      assert Expand(b, known).Some? ==> "" + Expand(b, known).value == Expand(b, known).value;
    } else {
      ExpandSplit(a[1..], b, known);
      assert (a + b)[1..] == a[1..] + b;
      match (a[0], Expand(a[1..], known), Expand(b, known)) {
        case (Plain(t), Some(x), Some(y)) => Assoc(t, x, y);
        case (Ref(n), Some(x), Some(y)) => if n in known { Assoc(known[n], x, y); }
        case _ =>
      }
    }
  }

  /** Replacing one known reference by its text changes nothing. */
  lemma ExpandOne(a: Value, n: string, b: Value, known: map<string, string>)
    requires n in known
    ensures Expand(a + [Plain(known[n])] + b, known) == Expand(a + [Ref(n)] + b, known)
  {
    assert [Plain(known[n])][1..] == [] && [Ref(n)][1..] == [];
    assert Expand([], known) == Some("");
    assert Expand([Plain(known[n])], known) == Expand([Ref(n)], known);
    ExpandSplit(a, [Plain(known[n])], known);
    ExpandSplit(a, [Ref(n)], known);
    ExpandSplit(a + [Plain(known[n])], b, known);
    ExpandSplit(a + [Ref(n)], b, known);
  }

  /** The first reference in a value; its length if there is none. */
  function FirstRef(value: Value): (i: nat)
    ensures i <= |value|
    ensures i < |value| ==> value[i].Ref?
    ensures forall j | 0 <= j < i :: value[j].Plain?
  {
    if value == [] || value[0].Ref? then 0 else 1 + FirstRef(value[1..])
  }

  function RefCount(value: Value): nat {
    if value == [] then 0 else (if value[0].Ref? then 1 else 0) + RefCount(value[1..])
  }

  lemma {:induction false} RefCountSplit(a: Value, b: Value)
    ensures RefCount(a + b) == RefCount(a) + RefCount(b)
  {
    if a == [] {
      assert a + b == b;
    } else {
      RefCountSplit(a[1..], b);
      assert (a + b)[1..] == a[1..] + b;
    }
  }

  lemma RefCountOne(a: Value, t: string, n: string, b: Value)
    ensures RefCount(a + [Plain(t)] + b) + 1 == RefCount(a + [Ref(n)] + b)
  {
    RefCountSplit(a, [Plain(t)]);
    RefCountSplit(a + [Plain(t)], b);
    RefCountSplit(a, [Ref(n)]);
    RefCountSplit(a + [Ref(n)], b);
    assert [Plain(t)][1..] == [] && [Ref(n)][1..] == [];
    assert RefCount([Plain(t)]) == 0 && RefCount([Ref(n)]) == 1;
  }

  function Texts(value: Value): string {
    if value == [] then ""
    else (if value[0].Plain? then value[0].text else "") + Texts(value[1..])
  }

  lemma {:induction false} NothingToExpand(value: Value, known: map<string, string>)
    requires forall j | 0 <= j < |value| :: value[j].Plain?
    ensures Expand(value, known) == Some(Texts(value))
  {
    if value != [] {
      NothingToExpand(value[1..], known);
    }
  }

  /** First reference first; an unknown one stops the whole expansion. */
  method NoVars(line: Value, known: map<string, string>) returns (r: Option<string>)
    ensures r == Expand(line, known)
  {
    var l := line;
    while true
      invariant Expand(l, known) == Expand(line, known)
      decreases RefCount(l)
    {
      var i := FirstRef(l);
      if i == |l| {
        NothingToExpand(l, known);
        return Some(Texts(l));
      }
      var n := l[i].name;
      assert l == l[..i] + [Ref(n)] + l[i + 1..];
      if n !in known {
        assert n in Refs(l);
        ExpandKnown(l, known);
        return None;
      }
      ExpandOne(l[..i], n, l[i + 1..], known);
      RefCountOne(l[..i], known[n], n, l[i + 1..]);
      l := l[..i] + [Plain(known[n])] + l[i + 1..];
    }
  }

  // -------------------------------------------------------------- dependency order

  predicate Defined(defs: Defs) {
    forall v | v in defs :: Refs(defs[v]) <= defs.Keys
  }

  /** Each variable of the walk refers to the next. */
  predicate Walk(defs: Defs, p: seq<string>) {
    && (forall i | 0 <= i < |p| :: p[i] in defs)
    && (forall i | 0 <= i < |p| - 1 :: p[i + 1] in Refs(defs[p[i]]))
  }

  ghost predicate Acyclic(defs: Defs) {
    !exists p :: |p| > 1 && Walk(defs, p) && p[0] == p[|p| - 1]
  }

  /** A full expansion: every variable's text is its value with all references replaced by their texts. */
  predicate Solves(defs: Defs, texts: map<string, string>) {
    texts.Keys == defs.Keys && forall v | v in defs :: Expand(defs[v], texts) == Some(texts[v])
  }

  /** An order in which every variable comes after those it refers to. */
  predicate Ordered(defs: Defs, order: seq<string>) {
    forall i | 0 <= i < |order| :: order[i] in defs && Refs(defs[order[i]]) <= Elements(order[..i])
  }

  function Elements(s: seq<string>): set<string> { set x | x in s }

  /** More names than there are to go round: one comes twice. */
  lemma {:induction false} Pigeonhole(p: seq<string>, s: set<string>)
    requires |p| > |s| && forall k | 0 <= k < |p| :: p[k] in s
    ensures exists i, j :: 0 <= i < j < |p| && p[i] == p[j]
    decreases |p|
  {
    if p[0] in p[1..] {
      var j :| 0 <= j < |p| - 1 && p[1..][j] == p[0];
      assert p[0] == p[j + 1];
    } else {
      forall k | 0 <= k < |p[1..]| ensures p[1..][k] in s - {p[0]} {
        assert p[1..][k] == p[k + 1] && p[k + 1] in p[1..];
      }
      Pigeonhole(p[1..], s - {p[0]});
      var i, j :| 0 <= i < j < |p[1..]| && p[1..][i] == p[1..][j];
      assert p[i + 1] == p[j + 1];
    }
  }

  ghost predicate RefersInto(value: Value, s: set<string>) { exists r :: r in Refs(value) && r in s }

  /** Every variable of the set refers to one of the set. */
  ghost predicate Entangled(defs: Defs, s: set<string>) {
    s <= defs.Keys && forall v {:trigger RefersInto(defs[v], s)} | v in s :: RefersInto(defs[v], s)
  }

  ghost function Chase(defs: Defs, s: set<string>, v: string, n: nat): (p: seq<string>)
    requires Entangled(defs, s) && v in s
    ensures |p| == n + 1 && p[0] == v && Walk(defs, p)
    ensures forall k | 0 <= k < |p| :: p[k] in s
    decreases n
  {
    if n == 0 then [v]
    else
      assert RefersInto(defs[v], s);
      var next :| next in Refs(defs[v]) && next in s;
      var rest := Chase(defs, s, next, n - 1);
      WalkCons(defs, v, rest);
      [v] + rest
  }

  lemma WalkCons(defs: Defs, v: string, p: seq<string>)
    requires Walk(defs, p) && p != [] && v in defs && p[0] in Refs(defs[v])
    ensures Walk(defs, [v] + p)
  {
  }

  lemma WalkPart(defs: Defs, p: seq<string>, i: nat, j: nat)
    requires Walk(defs, p) && i < j < |p|
    ensures Walk(defs, p[i..j + 1])
  {
    var q := p[i..j + 1];
    forall k | 0 <= k < |q| - 1 ensures q[k + 1] in Refs(defs[q[k]]) {
      assert q[k] == p[i + k] && q[k + 1] == p[i + k + 1];
    }
  }

  lemma RepeatMeansCycle(defs: Defs, p: seq<string>, i: nat, j: nat)
    requires Walk(defs, p) && i < j < |p| && p[i] == p[j]
    ensures !Acyclic(defs)
  {
    WalkPart(defs, p, i, j);
    assert p[i..j + 1][0] == p[i] && p[i..j + 1][j - i] == p[j];
  }

  lemma LongWalkRepeats(defs: Defs, p: seq<string>, s: set<string>)
    requires Walk(defs, p) && |p| > |s| && forall k | 0 <= k < |p| :: p[k] in s
    ensures exists i, j :: 0 <= i < j < |p| && p[i] == p[j]
    ensures !Acyclic(defs)
  {
    Pigeonhole(p, s);
    var i, j :| 0 <= i < j < |p| && p[i] == p[j];
    RepeatMeansCycle(defs, p, i, j);
  }

  /** Chasing references inside a finite set comes back somewhere. */
  lemma EntangledMeansCycle(defs: Defs, s: set<string>)
    requires Entangled(defs, s) && s != {}
    ensures !Acyclic(defs)
  {
    var v :| v in s;
    LongWalkRepeats(defs, Chase(defs, s, v, |s|), s);
  }

  function Position(order: seq<string>, v: string): (i: nat)
    requires v in order
    ensures i < |order| && order[i] == v && forall j | 0 <= j < i :: order[j] != v
  {
    if order[0] == v then 0 else 1 + Position(order[1..], v)
  }

  /** Every step of a walk goes to an earlier place in the order. */
  lemma {:induction false} WalkDescends(defs: Defs, order: seq<string>, p: seq<string>)
    requires Ordered(defs, order) && Elements(order) == defs.Keys && Walk(defs, p) && p != []
    ensures p[0] in order && p[|p| - 1] in order
    ensures Position(order, p[|p| - 1]) + |p| - 1 <= Position(order, p[0])
    decreases |p|
  {
    assert p[0] in Elements(order);
    if |p| > 1 {
      assert p[1..][|p| - 2] == p[|p| - 1];
      assert forall i | 0 <= i < |p| - 1 :: p[1..][i] == p[i + 1];
      WalkDescends(defs, order, p[1..]);
      var at := Position(order, p[0]);
      assert p[1] in Refs(defs[order[at]]);
      assert p[1] in order[..at];
      var k :| 0 <= k < at && order[k] == p[1];
    }
  }

  lemma OrderedMeansAcyclic(defs: Defs, order: seq<string>)
    requires Ordered(defs, order) && Elements(order) == defs.Keys
    ensures Acyclic(defs) && Defined(defs)
  {
    forall p | |p| > 1 && Walk(defs, p) ensures p[0] != p[|p| - 1] {
      WalkDescends(defs, order, p);
    }
    forall v | v in defs ensures Refs(defs[v]) <= defs.Keys {
      assert v in Elements(order);
      var i := Position(order, v);
      assert Elements(order[..i]) <= Elements(order);
    }
  }

  lemma OrderGrows(defs: Defs, order: seq<string>, v: string)
    requires Ordered(defs, order) && v in defs && Refs(defs[v]) <= Elements(order)
    ensures Ordered(defs, order + [v]) && Elements(order + [v]) == Elements(order) + {v}
  {
    var order' := order + [v];
    forall i | 0 <= i < |order'| ensures order'[i] in defs && Refs(defs[order'[i]]) <= Elements(order'[..i]) {
      assert order'[..i] == order[..i];
      if i == |order| {
        assert order[..i] == order;
      }
    }
    assert order'[|order|] == v;
    forall x | x in Elements(order) ensures x in Elements(order') {
      var k :| 0 <= k < |order| && order[k] == x;
      assert order'[k] == x;
    }
  }

  lemma Untangled(defs: Defs, s: set<string>) returns (v: string)
    requires Acyclic(defs) && s <= defs.Keys && s != {}
    ensures v in s && forall r | r in Refs(defs[v]) :: r !in s
  {
    if Entangled(defs, s) {
      EntangledMeansCycle(defs, s);
    }
    v :| v in s && !RefersInto(defs[v], s);
  }

  /** Without a cycle, and with every reference defined, an order can be completed. */
  lemma {:induction false} CompleteOrder(defs: Defs, order: seq<string>) returns (full: seq<string>)
    requires Defined(defs) && Acyclic(defs) && Ordered(defs, order) && Elements(order) <= defs.Keys
    ensures Ordered(defs, full) && Elements(full) == defs.Keys
    decreases |defs.Keys - Elements(order)|
  {
    var rest := defs.Keys - Elements(order);
    if rest == {} {
      return order;
    }
    var v := Untangled(defs, rest);
    assert Refs(defs[v]) <= defs.Keys;
    OrderGrows(defs, order, v);
    assert defs.Keys - Elements(order + [v]) == rest - {v};
    full := CompleteOrder(defs, order + [v]);
  }

  lemma {:induction false} SameSolution(defs: Defs, order: seq<string>, a: map<string, string>, b: map<string, string>)
    requires Ordered(defs, order) && Elements(order) <= defs.Keys && Solves(defs, a) && Solves(defs, b)
    ensures forall v | v in Elements(order) :: a[v] == b[v]
  {
    if order != [] {
      var n := |order| - 1;
      var (v, before) := (order[n], order[..n]);
      assert order == before + [v];
      assert forall i | 0 <= i < n :: order[..i] == before[..i] && before[i] == order[i];
      assert Elements(before) <= Elements(order) && Elements(order) <= Elements(before) + {v};
      SameSolution(defs, before, a, b);
      assert v in defs && Refs(defs[v]) <= Elements(before);
      ExpandSame(defs[v], a, b);
    }
  }

  /** Without a cycle there is at most one full expansion: the order of the work does not matter. */
  lemma UniqueSolution(defs: Defs, a: map<string, string>, b: map<string, string>)
    requires Acyclic(defs) && Solves(defs, a) && Solves(defs, b)
    ensures a == b
  {
    forall v | v in defs ensures Refs(defs[v]) <= defs.Keys {
      ExpandKnown(defs[v], a);
    }
    var order := CompleteOrder(defs, []);
    SameSolution(defs, order, a, b);
  }

  // ------------------------------------------------------------------ the worklist

  /** What is known so far: the variables resolved, in the order they were, each with its full text. */
  ghost predicate Progress(defs: Defs, todo: Defs, known: map<string, string>, order: seq<string>) {
    && known.Keys + todo.Keys == defs.Keys && known.Keys !! todo.Keys
    && (forall v | v in todo :: todo[v] == defs[v])
    && Ordered(defs, order) && Elements(order) == known.Keys
    && (forall v | v in known :: Expand(defs[v], known) == Some(known[v]))
  }

  /** What is known stays right when more is known. */
  lemma StillSolved(defs: Defs, known: map<string, string>, v: string, text: string)
    requires known.Keys <= defs.Keys && v in defs && v !in known && Expand(defs[v], known) == Some(text)
    requires forall x | x in known :: Expand(defs[x], known) == Some(known[x])
    ensures var known' := known[v := text]; forall x | x in known' :: Expand(defs[x], known') == Some(known'[x])
  {
    var known' := known[v := text];
    forall x | x in known' ensures Expand(defs[x], known') == Some(known'[x]) {
      ExpandKnown(defs[x], known);
      ExpandSame(defs[x], known, known');
    }
  }

  /** One more variable resolved. */
  lemma ProgressOne(defs: Defs, todo: Defs, known: map<string, string>, order: seq<string>, v: string)
    requires Progress(defs, todo, known, order) && v in todo && Expand(defs[v], known).Some?
    ensures Progress(defs, todo - {v}, known[v := Expand(defs[v], known).value], order + [v])
  {
    ExpandKnown(defs[v], known);
    OrderGrows(defs, order, v);
    StillSolved(defs, known, v, Expand(defs[v], known).value);
  }

  /** A round that resolves nothing will never resolve anything: something is undefined, or there is a cycle. */
  lemma StuckMeans(defs: Defs, todo: Defs, known: map<string, string>, order: seq<string>)
    requires Progress(defs, todo, known, order) && todo.Keys != {}
    requires forall v | v in todo :: Expand(todo[v], known).None?
    ensures !Defined(defs) || !Acyclic(defs)
  {
    if Defined(defs) {
      forall v | v in todo.Keys ensures RefersInto(defs[v], todo.Keys) {
        ExpandKnown(defs[v], known);
        assert Refs(defs[v]) <= defs.Keys && !(Refs(defs[v]) <= known.Keys);
        var r :| r in Refs(defs[v]) && r !in known.Keys;
        assert r in defs.Keys && r in todo.Keys;
      }
      EntangledMeansCycle(defs, todo.Keys);
    }
  }

  ghost predicate OnlySolution(defs: Defs, known: map<string, string>) {
    Solves(defs, known) && forall t | Solves(defs, t) :: t == known
  }

  lemma ProgressFirst(defs: Defs)
    ensures Progress(defs, defs, map[], [])
  {
  }

  lemma DoneMeans(defs: Defs, todo: Defs, known: map<string, string>, order: seq<string>)
    requires Progress(defs, todo, known, order) && todo == map[]
    ensures Defined(defs) && Acyclic(defs) && OnlySolution(defs, known)
  {
    assert known.Keys == defs.Keys;
    OrderedMeansAcyclic(defs, order);
    forall t | Solves(defs, t) ensures t == known {
      UniqueSolution(defs, t, known);
    }
  }

  /** Rounds over the unresolved variables, in any order, until all are resolved or a round resolves none. It needs at
      most one round more than there are variables; it succeeds exactly when every reference is defined and no variable
      depends on itself; and its result is then the one full expansion. */
  method CalcVars(defs: Defs) returns (r: Option<map<string, string>>, rounds: nat)
    ensures rounds <= |defs| + 1
    ensures r.Some? <==> Defined(defs) && Acyclic(defs)
    ensures r.Some? ==> OnlySolution(defs, r.value)
  {
    var todo, known, changed := defs, map[], true;
    ghost var order: seq<string> := [];
    rounds := 0;
    ProgressFirst(defs);
    while changed
      invariant Progress(defs, todo, known, order)
      invariant rounds + |todo| <= |defs| + if changed then 0 else 1
      invariant !changed ==> todo == map[]
      decreases |todo|, changed
    {
      todo, known, changed, order := Round(defs, todo, known, order);
      rounds := rounds + 1;
      if todo != map[] && !changed {
        return None, rounds;
      }
    }
    DoneMeans(defs, todo, known, order);
    r := Some(known);
  }

  method Round(defs: Defs, todo0: Defs, known0: map<string, string>, ghost order0: seq<string>)
    returns (todo: Defs, known: map<string, string>, changed: bool, ghost order: seq<string>)
    requires Progress(defs, todo0, known0, order0)
    ensures Progress(defs, todo, known, order)
    ensures if changed then |todo| < |todo0| else todo == todo0
    ensures !changed && todo != map[] ==> !Defined(defs) || !Acyclic(defs)
  {
    todo, known, changed, order := todo0, known0, false, order0;
    var keys := todo.Keys;
    while keys != {}
      invariant keys <= todo.Keys <= todo0.Keys && Progress(defs, todo, known, order)
      invariant if changed then |todo| < |todo0| else todo == todo0
      invariant !changed ==> forall v | v in todo.Keys - keys :: Expand(todo[v], known).None?
      decreases |keys|
    {
      var v :| v in keys;
      keys := keys - {v};
      var value := NoVars(todo[v], known);
      if value.Some? {
        ProgressOne(defs, todo, known, order, v);
        known := known[v := value.value];
        Shrinks(todo, v);
        todo := todo - {v};
        changed := true;
        order := order + [v];
      }
    }
    if !changed && todo != map[] {
      StuckMeans(defs, todo, known, order);
    }
  }

  lemma Shrinks(m: Defs, v: string)
    requires v in m
    ensures |m - {v}| == |m| - 1
  {
    assert (m - {v}).Keys == m.Keys - {v};
    assert |m| == |m.Keys| && |m - {v}| == |(m - {v}).Keys|;
  }
}
