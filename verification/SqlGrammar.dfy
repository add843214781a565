/** The reading side: search conditions of SQL-92 (ISO/IEC 9075:1992, section 8.12) as a
    recursive-descent parser with NOT over AND over OR, both operators associating to
    the left. It knows nothing of the compiler. */
module SqlGrammar {
  import opened SqlCompile

  datatype SqlExpr =
    | Pred(column: string, operator: string, phs: seq<nat>)
    | JoinEq(t1: string, c1: string, t2: string, c2: string)
    | Conj(left: SqlExpr, right: SqlExpr)
    | Disj(left: SqlExpr, right: SqlExpr)
    | Neg(inner: SqlExpr)
    | SubExists(table: string, cond: SqlExpr)
    | SubIn(outerColumn: string, projection: string, source: string)
    | SubInWhere(outerColumn: string, projection: string, source: string, cond: SqlExpr)
    | AggValue(agg: string, arg: string, op: string, ph: nat)
    | AggAgg(agg: string, arg: string, op: string, agg2: string, arg2: string)

  datatype Parse = Fail | Parsed(x: SqlExpr, rest: Text)

  datatype ListParse = NoList | List(phs: seq<nat>, rest: Text)

  /** search condition := boolean term { OR boolean term } */
  function ParseOr(ts: Text): (r: Parse)
    ensures r.Parsed? ==> r.rest < ts
    decreases ts, 4
  {
    match ParseAnd(ts)
    case Fail => Fail
    case Parsed(x, rest) => OrTail(x, rest)
  }

  function OrTail(l: SqlExpr, ts: Text): (r: Parse)
    ensures r.Parsed? ==> r.rest == ts || r.rest < ts
    decreases ts, 3
  {
    match ts
    case Tok(OrKw, more) =>
      (match ParseAnd(more)
       case Fail => Fail
       case Parsed(x, rest) => OrTail(Disj(l, x), rest))
    case _ => Parsed(l, ts)
  }

  /** boolean term := boolean factor { AND boolean factor } */
  function ParseAnd(ts: Text): (r: Parse)
    ensures r.Parsed? ==> r.rest < ts
    decreases ts, 2
  {
    match ParseFactor(ts)
    case Fail => Fail
    case Parsed(x, rest) => AndTail(x, rest)
  }

  function AndTail(l: SqlExpr, ts: Text): (r: Parse)
    ensures r.Parsed? ==> r.rest == ts || r.rest < ts
    decreases ts, 1
  {
    match ts
    case Tok(AndKw, more) =>
      (match ParseFactor(more)
       case Fail => Fail
       case Parsed(x, rest) => AndTail(Conj(l, x), rest))
    case _ => Parsed(l, ts)
  }

  /** boolean factor := [ NOT ] ( predicate | "(" search condition ")" ) */
  function ParseFactor(ts: Text): (r: Parse)
    ensures r.Parsed? ==> r.rest < ts
    decreases ts, 0
  {
    match ts
    case Tok(NotKw, more) =>
      (match ParseFactor(more)
       case Fail => Fail
       case Parsed(x, rest) => Parsed(Neg(x), rest))
    case Tok(LParen, more) => Close(ParseOr(more))
    case Tok(ExistsKw, Tok(LParen, Tok(SelectOne, Tok(FromKw, Tok(Quoted(t), Tok(WhereKw, more)))))) =>
      (match Close(ParseOr(more))
       case Fail => Fail
       case Parsed(x, rest) => Parsed(SubExists(t, x), rest))
    case Tok(Quoted(c), Tok(NotKw, more)) =>
      (match ParseInBody(c, more)
       case Fail => Fail
       case Parsed(x, rest) => Parsed(Neg(x), rest))
    case Tok(Quoted(c), more) => ParseInBody(c, more)
    case Tok(Name(c), more) => ParsePredicate(c, more)
    case Tok(Qualified(t1, c1), Tok(OpText(op), Tok(Qualified(t2, c2), rest))) =>
      if op == "=" then Parsed(JoinEq(t1, c1, t2, c2), rest) else Fail
    case Tok(Agg(g, c), Tok(OpText(op), Tok(Ph(n), rest))) => Parsed(AggValue(g, c, op, n), rest)
    case Tok(Agg(g, c), Tok(OpText(op), Tok(Agg(g2, c2), rest))) => Parsed(AggAgg(g, c, op, g2, c2), rest)
    case _ => Fail
  }

  /** Expects a closing parenthesis after what was read. */
  function Close(p: Parse): (r: Parse)
    ensures r.Parsed? ==> p.Parsed? && r.rest < p.rest
  {
    match p
    case Parsed(x, Tok(RParen, rest)) => Parsed(x, rest)
    case _ => Fail
  }

  /** IN ( SELECT projection FROM source [ WHERE search condition ] ) */
  function ParseInBody(column: string, ts: Text): (r: Parse)
    ensures r.Parsed? ==> r.rest < ts
    decreases ts, 0
  {
    match ts
    case Tok(InKw, Tok(LParen, Tok(SelectKw, Tok(Quoted(proj), Tok(FromKw, Tok(Quoted(src), Tok(RParen, rest))))))) =>
      Parsed(SubIn(column, proj, src), rest)
    case Tok(InKw, Tok(LParen, Tok(SelectKw, Tok(Quoted(proj), Tok(FromKw, Tok(Quoted(src), Tok(WhereKw, more))))))) =>
      (match Close(ParseOr(more))
       case Fail => Fail
       case Parsed(x, rest) => Parsed(SubInWhere(column, proj, src, x), rest))
    case _ => Fail
  }

  /** comparison, BETWEEN, IN (value list) and NULL predicates on an unquoted column */
  function ParsePredicate(c: string, ts: Text): (r: Parse)
    ensures r.Parsed? ==> r.rest < ts
  {
    match ts
    case Tok(IsNullKw, rest) => Parsed(Pred(c, "IS NULL", []), rest)
    case Tok(IsNotNullKw, rest) => Parsed(Pred(c, "IS NOT NULL", []), rest)
    case Tok(BetweenKw, Tok(Ph(m), Tok(AndKw, Tok(Ph(n), rest)))) => Parsed(Pred(c, "BETWEEN", [m, n]), rest)
    case Tok(OpText(op), Tok(Ph(n), rest)) => Parsed(Pred(c, op, [n]), rest)
    case Tok(InKw, Tok(LParen, more)) =>
      (match ParseList(more)
       case NoList => Fail
       case List(phs, rest) => Parsed(Pred(c, "IN", phs), rest))
    case _ => Fail
  }

  /** in value list := ? { , ? } ")" */
  function ParseList(ts: Text): (r: ListParse)
    ensures r.List? ==> r.rest < ts
  {
    match ts
    case Tok(Ph(n), Tok(RParen, rest)) => List([n], rest)
    case Tok(Ph(n), Tok(Comma, more)) =>
      (match ParseList(more)
       case NoList => NoList
       case List(phs, rest) => List([n] + phs, rest))
    case _ => NoList
  }
}
