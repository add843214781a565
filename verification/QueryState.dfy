/** The query builder's accumulated state, the statement it compiles to and the parameter
    vector it is executed with. */
module QueryState {
  import opened Wrappers
  import opened SqlAst
  import opened SqlCompile

  /** A typed CTE: `WITH name AS (SELECT * FROM table WHERE where_)`, its values extracted at construction. */
  datatype Cte = Cte(table: string, where_: BoolExpr, params: seq<DbValue>)

  datatype State = State(where_: Option<BoolExpr>, havings: seq<HavingExpr>, ctes: seq<Cte>, parameters: seq<DbValue>)

  /** Fragments in the order they were pushed. */
  datatype Texts = NoTexts | Push(before: Texts, last: Text)

  /** The clauses of a statement that can hold placeholders, each as its own text. */
  datatype Statement = Statement(ctes: Texts, where_: Option<Text>, havings: Texts)

  datatype Call =
    | FilterColumn(column: string, operator: string, value: DbValue)
    | FilterNot(column: string, operator: string, value: DbValue)
    | FilterIn(column: string, values: seq<DbValue>)
    | FilterNotIn(column: string, values: seq<DbValue>)
    | FilterIsNull(column: string)
    | FilterIsNotNull(column: string)
    | FilterBetween(column: string, low: DbValue, high: DbValue)
    | OrWhere(sub: seq<Call>)
    | WhereExists(spec: SubquerySpec, negated: bool)
    | WhereInSubquery(inSpec: InSubquerySpec, negated: bool)
    | ApplyQueryFilter(filter: BoolExpr)
    | Having(expr: HavingExpr)
    | WithCte(table: string, cteWhere: BoolExpr)

  const EMPTY := State(None, [], [], [])

  /** AND-s a condition to the WHERE tree, the new one on the right. */
  function AndWhere(w: Option<BoolExpr>, e: BoolExpr): Option<BoolExpr> {
    match w
    case None => Some(e)
    case Some(existing) => Some(And(existing, e))
  }

  function OrRight(w: Option<BoolExpr>, e: BoolExpr): Option<BoolExpr> {
    match w
    case None => Some(e)
    case Some(left) => Some(Or(left, e))
  }

  function Condition(column: string, operator: string, n: nat): BoolExpr {
    Filter(FilterCondition(column, operator, n, []))
  }

  /** The tree a call adds to WHERE, if it adds one; an OR-ed sub-query is not covered here. */
  function CallTree(c: Call): Option<BoolExpr> {
    match c
    case FilterColumn(col, op, _) => Some(Condition(col, op, 1))
    case FilterNot(col, op, _) => Some(Not(Condition(col, op, 1)))
    case FilterIn(col, vs) => Some(Condition(col, "IN", |vs|))
    case FilterNotIn(col, vs) => Some(Not(Condition(col, "IN", |vs|)))
    case FilterIsNull(col) => Some(Condition(col, "IS NULL", 0))
    case FilterIsNotNull(col) => Some(Condition(col, "IS NOT NULL", 0))
    case FilterBetween(col, _, _) => Some(Condition(col, "BETWEEN", 2))
    case WhereExists(s, neg) => Some(if neg then NotExists(s) else Exists(s))
    case WhereInSubquery(s, neg) => Some(if neg then NotInSubquery(s) else InSubquery(s))
    case ApplyQueryFilter(e) => Some(e)
    case OrWhere(_) => None
    case Having(_) => None
    case WithCte(_, _) => None
  }

  /** The values a call adding to WHERE is given, in the order of its conditions. */
  function CallValues(c: Call): seq<DbValue> {
    match c
    case FilterColumn(_, _, v) => [v]
    case FilterNot(_, _, v) => [v]
    case FilterIn(_, vs) => vs
    case FilterNotIn(_, vs) => vs
    case FilterBetween(_, lo, hi) => [lo, hi]
    case WhereExists(s, _) => OptValues(s.pred)
    case WhereInSubquery(s, _) => OptValues(s.pred)
    case ApplyQueryFilter(e) => CollectValues(e)
    case _ => []
  }

  /** The state after one call. A sub-query contributes only when it has a WHERE tree,
      and then with all its parameters. */
  function Apply(s: State, c: Call): State
    decreases c
  {
    match c
    case OrWhere(sub) =>
      var t := Run(EMPTY, sub);
      (match t.where_
       case None => s
       case Some(right) => s.(where_ := OrRight(s.where_, right), parameters := s.parameters + t.parameters))
    case Having(h) => s.(havings := s.havings + [h], parameters := s.parameters + CollectParams(h))
    case WithCte(t, w) => s.(ctes := s.ctes + [Cte(t, w, CollectValues(w))])
    case _ => s.(where_ := AndWhere(s.where_, CallTree(c).value), parameters := s.parameters + CallValues(c))
  }

  function Run(s: State, calls: seq<Call>): State
    decreases calls
  {
    if calls == [] then s else Run(Apply(s, calls[0]), calls[1..])
  }

  // ---------------------------------------------------------------------------
  // Compilation
  // ---------------------------------------------------------------------------

  // The following run over the first `n` CTEs or HAVING conditions.

  function CteParamCount(ctes: seq<Cte>, n: nat): nat
    requires n <= |ctes|
  {
    if n == 0 then 0 else CteParamCount(ctes, n - 1) + |ctes[n - 1].params|
  }

  /** Index reached after compiling CTE bodies from `i`. */
  function CteNext(ctes: seq<Cte>, n: nat, i: nat): nat
    requires n <= |ctes|
  {
    if n == 0 then i else NextIndex(ctes[n - 1].where_, CteNext(ctes, n - 1, i))
  }

  function CteTexts(ctes: seq<Cte>, n: nat, i: nat): Texts
    requires n <= |ctes|
  {
    if n == 0 then NoTexts
    else Push(CteTexts(ctes, n - 1, i), CompileBoolExpr(ctes[n - 1].where_, CteNext(ctes, n - 1, i), End))
  }

  function HavingNext(hs: seq<HavingExpr>, n: nat, i: nat): nat
    requires n <= |hs|
  {
    if n == 0 then i else HavingNext(hs, n - 1, i) + HavingParamCount(hs[n - 1])
  }

  function HavingTexts(hs: seq<HavingExpr>, n: nat, i: nat): Texts
    requires n <= |hs|
  {
    if n == 0 then NoTexts
    else Push(HavingTexts(hs, n - 1, i), CompileHaving(hs[n - 1], HavingNext(hs, n - 1, i), End))
  }

  /** Index of the first HAVING placeholder when WHERE starts at `i`. */
  function WhereNext(w: Option<BoolExpr>, i: nat): nat {
    match w
    case None => i
    case Some(e) => NextIndex(e, i)
  }

  /** The statement of a state: CTE bodies numbered from 1, WHERE and HAVING from one past
      the CTE parameters. */
  function StatementOf(s: State): Statement {
    var start := 1 + CteParamCount(s.ctes, |s.ctes|);
    Statement(CteTexts(s.ctes, |s.ctes|, 1),
              if s.where_.Some? then Some(CompileBoolExpr(s.where_.value, start, End)) else None,
              HavingTexts(s.havings, |s.havings|, WhereNext(s.where_, start)))
  }

  function CteParams(ctes: seq<Cte>, n: nat): seq<DbValue>
    requires n <= |ctes|
  {
    if n == 0 then [] else CteParams(ctes, n - 1) + ctes[n - 1].params
  }

  /** The parameter vector a state is executed with. */
  function AllParamsOf(s: State): seq<DbValue> {
    CteParams(s.ctes, |s.ctes|) + s.parameters
  }

  class QueryBuilder {
    var where_: Option<BoolExpr>
    var havings: seq<HavingExpr>
    var ctes: seq<Cte>
    var parameters: seq<DbValue>

    ghost function Value(): State
      reads this
    {
      State(where_, havings, ctes, parameters)
    }

    constructor ()
      ensures Value() == EMPTY
    {
      where_, havings, ctes, parameters := None, [], [], [];
    }

    method AppendBoolExpr(e: BoolExpr)
      modifies this`where_
      ensures where_ == AndWhere(old(where_), e)
    {
      match where_
      case None => where_ := Some(e);
      case Some(existing) => where_ := Some(And(existing, e));
    }

    method FilterColumn(column: string, operator: string, value: DbValue)
      modifies this
      ensures Value() == Apply(old(Value()), Call.FilterColumn(column, operator, value))
    {
      parameters := parameters + [value];
      AppendBoolExpr(Condition(column, operator, 1));
    }

    method FilterNot(column: string, operator: string, value: DbValue)
      modifies this
      ensures Value() == Apply(old(Value()), Call.FilterNot(column, operator, value))
    {
      parameters := parameters + [value];
      AppendBoolExpr(Not(Condition(column, operator, 1)));
    }

    method PushAll(values: seq<DbValue>)
      modifies this`parameters
      ensures parameters == old(parameters) + values
    {
      for k := 0 to |values|
        invariant parameters == old(parameters) + values[..k]
      {
        parameters := parameters + [values[k]];
      }
      assert values[..|values|] == values;
    }

    method FilterIn(column: string, values: seq<DbValue>)
      modifies this
      ensures Value() == Apply(old(Value()), Call.FilterIn(column, values))
    {
      PushAll(values);
      AppendBoolExpr(Condition(column, "IN", |values|));
    }

    method FilterNotIn(column: string, values: seq<DbValue>)
      modifies this
      ensures Value() == Apply(old(Value()), Call.FilterNotIn(column, values))
    {
      PushAll(values);
      AppendBoolExpr(Not(Condition(column, "IN", |values|)));
    }

    method FilterIsNull(column: string)
      modifies this
      ensures Value() == Apply(old(Value()), Call.FilterIsNull(column))
    {
      AppendBoolExpr(Condition(column, "IS NULL", 0));
      assert parameters + [] == parameters;
    }

    method FilterIsNotNull(column: string)
      modifies this
      ensures Value() == Apply(old(Value()), Call.FilterIsNotNull(column))
    {
      AppendBoolExpr(Condition(column, "IS NOT NULL", 0));
      assert parameters + [] == parameters;
    }

    method FilterBetween(column: string, low: DbValue, high: DbValue)
      modifies this
      ensures Value() == Apply(old(Value()), Call.FilterBetween(column, low, high))
    {
      parameters := parameters + [low];
      parameters := parameters + [high];
      AppendBoolExpr(Condition(column, "BETWEEN", 2));
    }

    /** OR-s in a builder filled separately; `calls` is how it was filled. */
    method OrWhere(sub: QueryBuilder, ghost calls: seq<Call>)
      requires sub != this && sub.Value() == Run(EMPTY, calls)
      modifies this
      ensures Value() == Apply(old(Value()), Call.OrWhere(calls))
    {
      match sub.where_
      case None =>
      case Some(right) =>
        where_ := match where_ case None => Some(right) case Some(left) => Some(Or(left, right));
        parameters := parameters + sub.parameters;
    }

    method WhereExists(spec: SubquerySpec, negated: bool)
      modifies this
      ensures Value() == Apply(old(Value()), Call.WhereExists(spec, negated))
    {
      if spec.pred.Some? { parameters := parameters + CollectValues(spec.pred.value); }
      AppendBoolExpr(if negated then NotExists(spec) else Exists(spec));
      assert parameters == old(parameters) + OptValues(spec.pred);
    }

    method WhereInSubquery(spec: InSubquerySpec, negated: bool)
      modifies this
      ensures Value() == Apply(old(Value()), Call.WhereInSubquery(spec, negated))
    {
      if spec.pred.Some? { parameters := parameters + CollectValues(spec.pred.value); }
      AppendBoolExpr(if negated then NotInSubquery(spec) else InSubquery(spec));
      assert parameters == old(parameters) + OptValues(spec.pred);
    }

    method ApplyQueryFilter(filter: BoolExpr)
      modifies this
      ensures Value() == Apply(old(Value()), Call.ApplyQueryFilter(filter))
    {
      parameters := parameters + CollectValues(filter);
      AppendBoolExpr(filter);
    }

    method HavingExprInternal(expr: HavingExpr)
      modifies this
      ensures Value() == Apply(old(Value()), Call.Having(expr))
    {
      parameters := parameters + CollectParams(expr);
      havings := havings + [expr];
    }

    method WithCteTyped(table: string, cteWhere: BoolExpr)
      modifies this
      ensures Value() == Apply(old(Value()), Call.WithCte(table, cteWhere))
    {
      ctes := ctes + [Cte(table, cteWhere, CollectValues(cteWhere))];
    }

    method CountCteParams() returns (n: nat)
      ensures n == CteParamCount(ctes, |ctes|)
    {
      n := 0;
      for k := 0 to |ctes|
        invariant n == CteParamCount(ctes, k)
      {
        n := n + |ctes[k].params|;
      }
    }

    method CompileHavings(start: nat) returns (compiled: Texts)
      ensures compiled == HavingTexts(havings, |havings|, start)
    {
      var idx := start;
      compiled := NoTexts;
      for k := 0 to |havings|
        invariant idx == HavingNext(havings, k, start)
        invariant compiled == HavingTexts(havings, k, start)
      {
        compiled := Push(compiled, CompileHaving(havings[k], idx, End));
        idx := idx + HavingParamCount(havings[k]);
      }
    }

    method CompileCtes() returns (parts: Texts)
      ensures parts == CteTexts(ctes, |ctes|, 1)
    {
      var running := 1;
      parts := NoTexts;
      for k := 0 to |ctes|
        invariant running == CteNext(ctes, k, 1)
        invariant parts == CteTexts(ctes, k, 1)
      {
        parts := Push(parts, CompileBoolExpr(ctes[k].where_, running, End));
        running := NextIndex(ctes[k].where_, running);
      }
    }

    /** Compiles the state: one index runs over WHERE and HAVING, another over the CTEs. */
    method ToSqlWith() returns (sql: Statement)
      ensures sql == StatementOf(Value())
    {
      var cteCount := CountCteParams();
      var idx := 1 + cteCount;
      var whereText: Option<Text> := None;
      match where_ {
        case None =>
        case Some(e) =>
          whereText := Some(CompileBoolExpr(e, idx, End));
          idx := NextIndex(e, idx);
      }
      var compiled := CompileHavings(idx);
      var parts := CompileCtes();
      sql := Statement(parts, whereText, compiled);
    }

    /** CTE parameters in declaration order, then the builder's own vector. */
    method AllParams() returns (params: seq<DbValue>)
      ensures params == AllParamsOf(Value())
    {
      params := [];
      for k := 0 to |ctes|
        invariant params == CteParams(ctes, k)
      {
        params := params + ctes[k].params;
      }
      params := params + parameters;
    }
  }
}
