/** The query expression trees (`BoolExpr`, `HavingExpr`) and the values bound to them. */
module SqlAst {
  import opened Wrappers

  datatype DbValue = Null | Bool(b: bool) | Int(n: int) | Text(s: string)

  /** A condition `column operator ?...`. `values` is empty for conditions added
      through the builder, whose values live in the builder's parameter vector. */
  datatype FilterCondition = FilterCondition(column: string, operator: string, paramCount: nat, values: seq<DbValue>)

  /** A correlated subquery whose table and column names are already resolved. */
  datatype SubquerySpec = SubquerySpec(
    relatedTable: string, fkColumn: string, outerTable: string, outerPkColumn: string,
    pred: Option<BoolExpr>)

  datatype InSubquerySpec = InSubquerySpec(
    outerColumn: string, sourceTable: string, projection: string, pred: Option<BoolExpr>)

  datatype BoolExpr =
    | Filter(f: FilterCondition)
    | And(left: BoolExpr, right: BoolExpr)
    | Or(left: BoolExpr, right: BoolExpr)
    | Not(inner: BoolExpr)
    | Exists(spec: SubquerySpec)
    | NotExists(spec: SubquerySpec)
    | InSubquery(inSpec: InSubquerySpec)
    | NotInSubquery(inSpec: InSubquerySpec)

  datatype HavingExpr =
    | Compare(agg: string, col: string, op: string, value: DbValue)
    | HAnd(left: HavingExpr, right: HavingExpr)
    | HOr(left: HavingExpr, right: HavingExpr)
    | HNot(inner: HavingExpr)
    | CompareAgg(leftAgg: string, leftCol: string, op: string, rightAgg: string, rightCol: string)

  /** Number of parameters an expression claims, over all its conditions. */
  function TotalParamCount(e: BoolExpr): nat {
    match e
    case Filter(f) => f.paramCount
    case And(a, b) => TotalParamCount(a) + TotalParamCount(b)
    case Or(a, b) => TotalParamCount(a) + TotalParamCount(b)
    case Not(x) => TotalParamCount(x)
    case Exists(s) => OptParamCount(s.pred)
    case NotExists(s) => OptParamCount(s.pred)
    case InSubquery(s) => OptParamCount(s.pred)
    case NotInSubquery(s) => OptParamCount(s.pred)
  }

  function OptParamCount(p: Option<BoolExpr>): nat {
    match p
    case None => 0
    case Some(x) => TotalParamCount(x)
  }

  /** Inline values carried by the conditions of a tree, left to right. */
  function CollectValues(e: BoolExpr): seq<DbValue> {
    match e
    case Filter(f) => f.values
    case And(a, b) => CollectValues(a) + CollectValues(b)
    case Or(a, b) => CollectValues(a) + CollectValues(b)
    case Not(x) => CollectValues(x)
    case Exists(s) => OptValues(s.pred)
    case NotExists(s) => OptValues(s.pred)
    case InSubquery(s) => OptValues(s.pred)
    case NotInSubquery(s) => OptValues(s.pred)
  }

  function OptValues(p: Option<BoolExpr>): seq<DbValue> {
    match p
    case None => []
    case Some(x) => CollectValues(x)
  }

  function HavingParamCount(h: HavingExpr): nat {
    match h
    case Compare(_, _, _, _) => 1
    case HAnd(a, b) => HavingParamCount(a) + HavingParamCount(b)
    case HOr(a, b) => HavingParamCount(a) + HavingParamCount(b)
    case HNot(x) => HavingParamCount(x)
    case CompareAgg(_, _, _, _, _) => 0
  }

  /** Values of a HAVING tree, left to right. */
  function CollectParams(h: HavingExpr): (vs: seq<DbValue>)
    ensures |vs| == HavingParamCount(h)
  {
    match h
    case Compare(_, _, _, v) => [v]
    case HAnd(a, b) => CollectParams(a) + CollectParams(b)
    case HOr(a, b) => CollectParams(a) + CollectParams(b)
    case HNot(x) => CollectParams(x)
    case CompareAgg(_, _, _, _, _) => []
  }

  /** A property of every condition in the tree, subquery predicates included. */
  predicate AllFilters(e: BoolExpr, p: FilterCondition -> bool) {
    match e
    case Filter(f) => p(f)
    case And(a, b) => AllFilters(a, p) && AllFilters(b, p)
    case Or(a, b) => AllFilters(a, p) && AllFilters(b, p)
    case Not(x) => AllFilters(x, p)
    case Exists(s) => s.pred.Some? ==> AllFilters(s.pred.value, p)
    case NotExists(s) => s.pred.Some? ==> AllFilters(s.pred.value, p)
    case InSubquery(s) => s.pred.Some? ==> AllFilters(s.pred.value, p)
    case NotInSubquery(s) => s.pred.Some? ==> AllFilters(s.pred.value, p)
  }

  /** The operator is used with the number of parameters its SQL form has room for; an IN list may be empty. */
  predicate FitsArity(f: FilterCondition) {
    if f.operator == "IS NULL" || f.operator == "IS NOT NULL" then f.paramCount == 0
    else if f.operator == "IN" then true
    else if f.operator == "BETWEEN" then f.paramCount == 2
    else f.paramCount == 1
  }

  /** An IN list is not empty, as SQL's grammar asks. */
  predicate HasList(f: FilterCondition) {
    f.operator == "IN" ==> f.paramCount >= 1
  }

  /** The condition carries its own values, as the `linq!(filter ...)` form builds it. */
  predicate CarriesValues(f: FilterCondition) {
    |f.values| == f.paramCount
  }

  predicate WellFormed(e: BoolExpr) {
    AllFilters(e, FitsArity)
  }

  /** Its text is an SQL expression. */
  predicate Readable(e: BoolExpr) {
    WellFormed(e) && AllFilters(e, HasList)
  }

  predicate SelfContained(e: BoolExpr) {
    WellFormed(e) && AllFilters(e, CarriesValues)
  }

  lemma {:induction false} CollectedCount(e: BoolExpr)
    requires AllFilters(e, CarriesValues)
    ensures |CollectValues(e)| == TotalParamCount(e)
  {
    match e
    case Filter(_) =>
    case And(a, b) => CollectedCount(a); CollectedCount(b);
    case Or(a, b) => CollectedCount(a); CollectedCount(b);
    case Not(x) => CollectedCount(x);
    case Exists(s) => if s.pred.Some? { CollectedCount(s.pred.value); }
    case NotExists(s) => if s.pred.Some? { CollectedCount(s.pred.value); }
    case InSubquery(s) => if s.pred.Some? { CollectedCount(s.pred.value); }
    case NotInSubquery(s) => if s.pred.Some? { CollectedCount(s.pred.value); }
  }
}
