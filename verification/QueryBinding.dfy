/** Placeholder binding and meaning of whole queries, over every sequence of builder calls. */
module QueryBinding {
  import opened Wrappers
  import opened SqlAst
  import opened SqlCompile
  import opened QueryState

  /** Every condition has an operator of fitting arity, and every inline predicate carries
      its own values. */
  predicate GoodCall(c: Call)
    decreases c
  {
    match c
    case OrWhere(sub) => GoodCalls(sub)
    case Having(_) => true
    case WithCte(_, w) => SelfContained(w)
    case WhereExists(s, _) => s.pred.Some? ==> SelfContained(s.pred.value)
    case WhereInSubquery(s, _) => s.pred.Some? ==> SelfContained(s.pred.value)
    case ApplyQueryFilter(e) => SelfContained(e)
    case _ => WellFormed(CallTree(c).value)
  }

  predicate GoodCalls(calls: seq<Call>)
    decreases calls
  {
    calls != [] ==> GoodCall(calls[0]) && GoodCalls(calls[1..])
  }

  // ---------------------------------------------------------------------------
  // Where each parameter comes from
  // ---------------------------------------------------------------------------

  /** A parameter pushed for a WHERE condition, for a HAVING condition, or for a HAVING
      condition of an OR-ed sub-query, which has no place in the statement. */
  datatype Kind = ForWhere | ForHaving | Lost

  datatype Parameter = Parameter(kind: Kind, value: DbValue)

  function Tagged(kind: Kind, vs: seq<DbValue>): seq<Parameter> {
    seq(|vs|, k requires 0 <= k < |vs| => Parameter(kind, vs[k]))
  }

  /** A sub-query's HAVING parameters become lost ones. */
  function Lose(ps: seq<Parameter>): seq<Parameter> {
    seq(|ps|, k requires 0 <= k < |ps| => if ps[k].kind == ForWhere then ps[k] else Parameter(Lost, ps[k].value))
  }

  /** The calls leave a WHERE tree. */
  predicate HasWhere(calls: seq<Call>)
    decreases calls
  {
    calls != [] && (AddsWhere(calls[0]) || HasWhere(calls[1..]))
  }

  predicate AddsWhere(c: Call)
    decreases c
  {
    match c
    case OrWhere(sub) => HasWhere(sub)
    case Having(_) => false
    case WithCte(_, _) => false
    case _ => true
  }

  function Pushes(c: Call): seq<Parameter>
    decreases c
  {
    match c
    case OrWhere(sub) => if HasWhere(sub) then Lose(AllPushes(sub)) else []
    case Having(h) => Tagged(ForHaving, CollectParams(h))
    case WithCte(_, _) => []
    case _ => Tagged(ForWhere, CallValues(c))
  }

  function AllPushes(calls: seq<Call>): seq<Parameter>
    decreases calls
  {
    if calls == [] then [] else Pushes(calls[0]) + AllPushes(calls[1..])
  }

  function ValuesOf(ps: seq<Parameter>): seq<DbValue> {
    seq(|ps|, k requires 0 <= k < |ps| => ps[k].value)
  }

  /** The values of one kind, in order. */
  function Only(ps: seq<Parameter>, kind: Kind): seq<DbValue> {
    if ps == [] then [] else (if ps[0].kind == kind then [ps[0].value] else []) + Only(ps[1..], kind)
  }

  /** No parameter is lost, and no WHERE parameter was pushed after a HAVING parameter. */
  predicate InOrder(ps: seq<Parameter>) {
    && (forall k :: 0 <= k < |ps| ==> ps[k].kind != Lost)
    && (forall j, k :: 0 <= j < k < |ps| && ps[j].kind == ForHaving ==> ps[k].kind != ForWhere)
  }

  predicate AllDifferent(ps: seq<Parameter>) {
    forall j, k :: 0 <= j < k < |ps| ==> ps[j].value != ps[k].value
  }

  lemma {:induction false} OnlyConcat(a: seq<Parameter>, b: seq<Parameter>, kind: Kind)
    ensures Only(a + b, kind) == Only(a, kind) + Only(b, kind)
  {
    if a == [] {
      assert a + b == b;
    } else {
      var h := if a[0].kind == kind then [a[0].value] else [];
      assert (a + b)[1..] == a[1..] + b;
      OnlyConcat(a[1..], b, kind);
      assert h + (Only(a[1..], kind) + Only(b, kind)) == (h + Only(a[1..], kind)) + Only(b, kind);
    }
  }

  lemma {:induction false} OnlyTagged(kind: Kind, vs: seq<DbValue>, k: Kind)
    ensures Only(Tagged(kind, vs), k) == if k == kind then vs else []
    decreases |vs|
  {
    if vs != [] {
      OnlyTagged(kind, vs[1..], k);
      assert Tagged(kind, vs)[1..] == Tagged(kind, vs[1..]);
    }
  }

  lemma {:induction false} OnlyLose(ps: seq<Parameter>)
    ensures Only(Lose(ps), ForWhere) == Only(ps, ForWhere) && Only(Lose(ps), ForHaving) == []
    decreases |ps|
  {
    if ps != [] {
      OnlyLose(ps[1..]);
      assert Lose(ps)[1..] == Lose(ps[1..]);
    }
  }

  lemma {:induction false} OnlyLength(ps: seq<Parameter>)
    ensures |Only(ps, ForWhere)| + |Only(ps, ForHaving)| + |Only(ps, Lost)| == |ps|
    ensures (forall k :: 0 <= k < |ps| ==> ps[k].kind != Lost) <==> Only(ps, Lost) == []
    decreases |ps|
  {
    if ps != [] {
      OnlyLength(ps[1..]);
      assert forall k :: 0 <= k < |ps[1..]| ==> ps[1..][k] == ps[k + 1];
      if ps[0].kind != Lost && Only(ps[1..], Lost) == [] {
        forall k | 0 <= k < |ps| ensures ps[k].kind != Lost {
          if k > 0 { assert ps[k] == ps[1..][k - 1]; }
        }
      }
    }
  }

  lemma {:induction false} OnlyMember(ps: seq<Parameter>, kind: Kind, v: DbValue)
    requires v in Only(ps, kind)
    ensures exists k :: 0 <= k < |ps| && ps[k] == Parameter(kind, v)
    decreases |ps|
  {
    if ps[0].kind == kind && ps[0].value == v {
      assert ps[0] == Parameter(kind, v);
    } else {
      OnlyMember(ps[1..], kind, v);
      var k :| 0 <= k < |ps[1..]| && ps[1..][k] == Parameter(kind, v);
      assert ps[k + 1] == Parameter(kind, v);
    }
  }

  lemma {:induction false} OnlyNone(ps: seq<Parameter>, kind: Kind)
    requires forall k :: 0 <= k < |ps| ==> ps[k].kind != kind
    ensures Only(ps, kind) == []
  {
    if Only(ps, kind) != [] { OnlyMember(ps, kind, Only(ps, kind)[0]); }
  }

  /** In order, the pushed values are the WHERE values followed by the HAVING values. */
  lemma {:induction false} OrderedPushes(ps: seq<Parameter>)
    requires InOrder(ps)
    ensures ValuesOf(ps) == Only(ps, ForWhere) + Only(ps, ForHaving)
    decreases |ps|
  {
    if ps != [] {
      var rest := ps[1..];
      assert forall k :: 0 <= k < |rest| ==> rest[k] == ps[k + 1];
      OrderedPushes(rest);
      assert ValuesOf(ps) == [ps[0].value] + ValuesOf(rest);
      if ps[0].kind == ForHaving {
        OnlyNone(rest, ForWhere);
      }
    }
  }

  /** A HAVING parameter in front of a WHERE parameter: the statement's first placeholder
      belongs to another value than the first one pushed. */
  lemma HavingFirst(ps: seq<Parameter>)
    requires ps != [] && ps[0].kind == ForHaving && Only(ps[1..], ForWhere) != [] && AllDifferent(ps)
    ensures ValuesOf(ps) != Only(ps, ForWhere) + Only(ps, ForHaving)
  {
    var rest := ps[1..];
    var w := Only(rest, ForWhere);
    OnlyMember(rest, ForWhere, w[0]);
    var m :| 0 <= m < |rest| && rest[m] == Parameter(ForWhere, w[0]);
    assert ps[m + 1].value != ps[0].value;
    assert (Only(ps, ForWhere) + Only(ps, ForHaving))[0] == w[0];
    assert ValuesOf(ps)[0] == ps[0].value;
  }

  /** Different values betray any other order. */
  lemma {:induction false} DisorderedPushes(ps: seq<Parameter>)
    requires !InOrder(ps) && AllDifferent(ps)
    ensures ValuesOf(ps) != Only(ps, ForWhere) + Only(ps, ForHaving)
    decreases |ps|
  {
    OnlyLength(ps);
    if Only(ps, Lost) == [] {
      var rest := ps[1..];
      var w, h := Only(rest, ForWhere), Only(rest, ForHaving);
      if ps[0].kind == ForHaving && w != [] {
        HavingFirst(ps);
      } else {
        TailDisordered(ps);
        DisorderedPushes(rest);
        assert ValuesOf(ps)[1..] == ValuesOf(rest);
        assert Only(ps, ForWhere) + Only(ps, ForHaving) == [ps[0].value] + (w + h);
        assert ([ps[0].value] + (w + h))[1..] == w + h;
      }
    }
  }

  lemma TailDisordered(ps: seq<Parameter>)
    requires !InOrder(ps) && Only(ps, Lost) == [] && ps != []
    requires ps[0].kind == ForHaving ==> Only(ps[1..], ForWhere) == []
    ensures !InOrder(ps[1..])
  {
    var rest := ps[1..];
    OnlyLength(ps);
    var j, k :| 0 <= j < k < |ps| && ps[j].kind == ForHaving && ps[k].kind == ForWhere;
    assert rest[k - 1] == ps[k];
    if j == 0 {
      OnlyHas(rest, k - 1);
    } else {
      assert rest[j - 1] == ps[j];
    }
  }

  lemma {:induction false} OnlyHas(ps: seq<Parameter>, k: nat)
    requires k < |ps|
    ensures ps[k].value in Only(ps, ps[k].kind)
    decreases k
  {
    if k > 0 {
      assert ps[1..][k - 1] == ps[k];
      OnlyHas(ps[1..], k - 1);
    }
  }

  // ---------------------------------------------------------------------------
  // What a run of calls leaves in the state
  // ---------------------------------------------------------------------------

  function HavingExprs(calls: seq<Call>): seq<HavingExpr> {
    if calls == [] then [] else (if calls[0].Having? then [calls[0].expr] else []) + HavingExprs(calls[1..])
  }

  function CteSpecs(calls: seq<Call>): seq<Cte> {
    if calls == [] then []
    else (if calls[0].WithCte? then [Cte(calls[0].table, calls[0].cteWhere, CollectValues(calls[0].cteWhere))] else [])
         + CteSpecs(calls[1..])
  }

  lemma ValuesOfConcat(a: seq<Parameter>, b: seq<Parameter>)
    ensures ValuesOf(a + b) == ValuesOf(a) + ValuesOf(b)
    ensures ValuesOf(Lose(a)) == ValuesOf(a)
  {
  }

  lemma ValuesOfTagged(kind: Kind, vs: seq<DbValue>)
    ensures ValuesOf(Tagged(kind, vs)) == vs
  {
  }

  lemma {:induction false} AppliedParameters(s: State, c: Call)
    ensures Apply(s, c).parameters == s.parameters + ValuesOf(Pushes(c))
    ensures Apply(s, c).where_.Some? <==> s.where_.Some? || AddsWhere(c)
    decreases c, 0
  {
    match c
    case OrWhere(sub) =>
      RunParameters(EMPTY, sub);
      ValuesOfConcat(AllPushes(sub), []);
      assert s.parameters + [] == s.parameters;
    case Having(h) => ValuesOfTagged(ForHaving, CollectParams(h));
    case WithCte(_, _) => assert s.parameters + [] == s.parameters;
    case _ => ValuesOfTagged(ForWhere, CallValues(c));
  }

  lemma {:induction false} RunParameters(s: State, calls: seq<Call>)
    ensures Run(s, calls).parameters == s.parameters + ValuesOf(AllPushes(calls))
    ensures Run(s, calls).where_.Some? <==> s.where_.Some? || HasWhere(calls)
    decreases calls, 0
  {
    if calls == [] {
      assert s.parameters + [] == s.parameters;
    } else {
      AppliedParameters(s, calls[0]);
      RunParameters(Apply(s, calls[0]), calls[1..]);
      ValuesOfConcat(Pushes(calls[0]), AllPushes(calls[1..]));
      var own, more := ValuesOf(Pushes(calls[0])), ValuesOf(AllPushes(calls[1..]));
      assert (s.parameters + own) + more == s.parameters + (own + more);
    }
  }

  lemma {:induction false} RunClauses(s: State, calls: seq<Call>)
    ensures Run(s, calls).havings == s.havings + HavingExprs(calls)
    ensures Run(s, calls).ctes == s.ctes + CteSpecs(calls)
    decreases |calls|
  {
    if calls == [] {
      assert s.havings + [] == s.havings && s.ctes + [] == s.ctes;
    } else {
      var t := Apply(s, calls[0]);
      RunClauses(t, calls[1..]);
      var h := if calls[0].Having? then [calls[0].expr] else [];
      var d := if calls[0].WithCte? then [Cte(calls[0].table, calls[0].cteWhere, CollectValues(calls[0].cteWhere))]
          else [];
      assert t.havings == s.havings + h && t.ctes == s.ctes + d;
      assert (s.havings + h) + HavingExprs(calls[1..]) == s.havings + (h + HavingExprs(calls[1..]));
      assert (s.ctes + d) + CteSpecs(calls[1..]) == s.ctes + (d + CteSpecs(calls[1..]));
    }
  }

  function HavingParams(hs: seq<HavingExpr>, n: nat): seq<DbValue>
    requires n <= |hs|
  {
    if n == 0 then [] else HavingParams(hs, n - 1) + CollectParams(hs[n - 1])
  }

  lemma {:induction false} HavingParamsCons(h: HavingExpr, hs: seq<HavingExpr>, n: nat)
    requires n <= |hs|
    ensures HavingParams([h] + hs, n + 1) == CollectParams(h) + HavingParams(hs, n)
  {
    if n == 0 {
      assert [] + CollectParams(h) == CollectParams(h) == CollectParams(h) + [];
      assert HavingParams([h] + hs, 0) == [];
    } else {
      HavingParamsCons(h, hs, n - 1);
      assert ([h] + hs)[n] == hs[n - 1];
      Associative(CollectParams(h), HavingParams(hs, n - 1), CollectParams(hs[n - 1]));
    }
  }

  lemma Associative<T>(a: seq<T>, b: seq<T>, c: seq<T>)
    ensures a + (b + c) == (a + b) + c
  {
  }

  /** The HAVING parameters pushed by a run are those of its HAVING conditions. */
  lemma {:induction false} PushedHavings(calls: seq<Call>)
    ensures Only(AllPushes(calls), ForHaving) == HavingParams(HavingExprs(calls), |HavingExprs(calls)|)
    decreases |calls|
  {
    if calls != [] {
      var rest := HavingExprs(calls[1..]);
      PushedHavings(calls[1..]);
      OnlyConcat(Pushes(calls[0]), AllPushes(calls[1..]), ForHaving);
      OwnHavingPushes(calls[0]);
      if calls[0].Having? {
        HavingParamsCons(calls[0].expr, rest, |rest|);
      } else {
        assert HavingExprs(calls) == rest;
      }
    }
  }

  lemma OwnHavingPushes(c: Call)
    ensures Only(Pushes(c), ForHaving) == if c.Having? then CollectParams(c.expr) else []
  {
    match c {
      case Having(h) => OnlyTagged(ForHaving, CollectParams(h), ForHaving);
      case WithCte(_, _) =>
      case OrWhere(sub) => OnlyLose(AllPushes(sub));
      case _ => OnlyTagged(ForWhere, CallValues(c), ForHaving);
    }
  }
}
