/** What the grammar reads back from compiled text. */
module SqlParseBack {
  import opened Wrappers
  import opened SqlAst
  import opened SqlCompile
  import opened SqlGrammar

  /** `join AND text` as the grammar groups it when `text` is not parenthesised. */
  function Splice(join: SqlExpr, t: SqlExpr): SqlExpr {
    match t
    case Conj(a, b) => Conj(Conj(join, a), b)
    case Disj(a, b) => Disj(Conj(join, a), b)
    case _ => Conj(join, t)
  }

  function JoinOf(s: SubquerySpec): SqlExpr {
    JoinEq(s.relatedTable, s.fkColumn, s.outerTable, s.outerPkColumn)
  }

  /** The tree the grammar assigns to the compiled text of `e`. */
  function Tree(e: BoolExpr, i: nat): SqlExpr {
    match e
    case Filter(f) => Pred(f.column, f.operator, Range(i, f.paramCount))
    case And(a, b) => Conj(Tree(a, i), Tree(b, i + TotalParamCount(a)))
    case Or(a, b) => Disj(Tree(a, i), Tree(b, i + TotalParamCount(a)))
    case Not(x) => Neg(Tree(x, i))
    case Exists(s) => ExistsTree(s, i)
    case NotExists(s) => Neg(ExistsTree(s, i))
    case InSubquery(s) => InTree(s, i)
    case NotInSubquery(s) => Neg(InTree(s, i))
  }

  function ExistsTree(s: SubquerySpec, i: nat): SqlExpr {
    match s.pred
    case None => SubExists(s.relatedTable, JoinOf(s))
    case Some(p) => SubExists(s.relatedTable, Splice(JoinOf(s), Tree(p, i)))
  }

  function InTree(s: InSubquerySpec, i: nat): SqlExpr {
    match s.pred
    case None => SubIn(s.outerColumn, s.projection, s.sourceTable)
    case Some(p) => SubInWhere(s.outerColumn, s.projection, s.sourceTable, Tree(p, i))
  }

  /** What may follow a complete search condition. */
  predicate Stops(rest: Text) {
    rest.End? || (rest.head != AndKw && rest.head != OrKw)
  }

  predicate IsFactor(e: BoolExpr) {
    !e.And? && !e.Or?
  }

  lemma FactorAlone(ts: Text, t: SqlExpr, rest: Text)
    requires ParseFactor(ts) == Parsed(t, rest) && Stops(rest)
    ensures ParseOr(ts) == Parsed(t, rest)
  {
    assert ParseAnd(ts) == AndTail(t, rest) == Parsed(t, rest);
  }

  /** Two factors joined by AND or OR form a search condition. */
  lemma ChainBack(first: Text, ta: SqlExpr, kw: Token, second: Text, tb: SqlExpr, rest: Text)
    requires kw == AndKw || kw == OrKw
    requires ParseFactor(first) == Parsed(ta, Tok(kw, second)) && ParseFactor(second) == Parsed(tb, rest) && Stops(rest)
    ensures ParseOr(first) == Parsed(if kw == AndKw then Conj(ta, tb) else Disj(ta, tb), rest)
  {
    TailBack(ta, kw, second, tb, rest);
    assert ParseAnd(first) == AndTail(ta, Tok(kw, second));
  }

  lemma TailBack(l: SqlExpr, kw: Token, second: Text, tb: SqlExpr, rest: Text)
    requires kw == AndKw || kw == OrKw
    requires ParseFactor(second) == Parsed(tb, rest) && Stops(rest)
    ensures kw == AndKw ==> AndTail(l, Tok(kw, second)) == Parsed(Conj(l, tb), rest)
    ensures kw == OrKw ==> AndTail(l, Tok(kw, second)) == Parsed(l, Tok(kw, second))
    ensures kw == OrKw ==> OrTail(l, Tok(kw, second)) == Parsed(Disj(l, tb), rest)
  {
    assert AndTail(Conj(l, tb), rest) == Parsed(Conj(l, tb), rest);
    assert ParseAnd(second) == AndTail(tb, rest) == Parsed(tb, rest);
    assert OrTail(Disj(l, tb), rest) == Parsed(Disj(l, tb), rest);
  }

  lemma {:induction false} ListBack(i: nat, n: nat, rest: Text)
    requires n >= 1
    ensures ParseList(ListText(i, n, rest)) == List(Range(i, n), rest)
    decreases n
  {
    if n == 1 {
      assert [i] == Range(i, 1);
    } else {
      ListBack(i + 1, n - 1, rest);
      assert [i] + Range(i + 1, n - 1) == Range(i, n);
    }
  }

  lemma FilterBack(f: FilterCondition, i: nat, rest: Text)
    requires FitsArity(f) && HasList(f)
    ensures ParseFactor(FilterText(f, i, rest)) == Parsed(Pred(f.column, f.operator, Range(i, f.paramCount)), rest)
  {
    if f.operator == "IN" {
      ListBack(i, f.paramCount, rest);
    } else if f.operator == "BETWEEN" {
      assert [i, i + 1] == Range(i, 2);
    } else if f.paramCount == 1 {
      assert [i] == Range(i, 1);
    }
  }

  lemma {:induction false} ParenBack(e: BoolExpr, i: nat, rest: Text)
    requires Readable(e)
    ensures ParseFactor(Tok(LParen, CompileBoolExpr(e, i, Tok(RParen, rest)))) == Parsed(Tree(e, i), rest)
    decreases e, 3
  {
    ReadBack(e, i, Tok(RParen, rest));
  }

  /** Reading the compiled text of any well-formed tree consumes exactly that text. */
  lemma {:induction false} ReadBack(e: BoolExpr, i: nat, rest: Text)
    requires Readable(e) && Stops(rest)
    ensures ParseOr(CompileBoolExpr(e, i, rest)) == Parsed(Tree(e, i), rest)
    decreases e, 2
  {
    if IsFactor(e) {
      FactorBack(e, i, rest);
      FactorAlone(CompileBoolExpr(e, i, rest), Tree(e, i), rest);
    } else {
      var kw := if e.And? then AndKw else OrKw;
      var second := BinaryBack(e, i, rest);
      ChainBack(CompileBoolExpr(e, i, rest), Tree(e.left, i), kw, second, Tree(e.right, i + TotalParamCount(e.left)),
                rest);
    }
  }

  /** A compiled AND or OR is two factors around its keyword. */
  lemma {:induction false} BinaryBack(e: BoolExpr, i: nat, rest: Text) returns (second: Text)
    requires Readable(e) && !IsFactor(e)
    ensures ParseFactor(CompileBoolExpr(e, i, rest))
         == Parsed(Tree(e.left, i), Tok(if e.And? then AndKw else OrKw, second))
    ensures ParseFactor(second) == Parsed(Tree(e.right, i + TotalParamCount(e.left)), rest)
    decreases e, 1
  {
    var j := NextIndex(e.left, i);
    NextIndexCounts(e.left, i);
    second := Tok(LParen, CompileBoolExpr(e.right, j, Tok(RParen, rest)));
    ParenBack(e.left, i, Tok(if e.And? then AndKw else OrKw, second));
    ParenBack(e.right, j, rest);
  }

  lemma {:induction false} FactorBack(e: BoolExpr, i: nat, rest: Text)
    requires Readable(e) && IsFactor(e)
    ensures ParseFactor(CompileBoolExpr(e, i, rest)) == Parsed(Tree(e, i), rest)
    decreases e, 1
  {
    match e
    case Filter(f) => FilterBack(f, i, rest);
    case Not(x) => ParenBack(x, i, rest);
    case Exists(s) => ExistsBack(s, i, rest);
    case NotExists(s) => ExistsBack(s, i, rest);
    case InSubquery(s) => InBodyBack(s, i, rest);
    case NotInSubquery(s) => InBodyBack(s, i, rest);
  }

  /** The link of an EXISTS followed by `k`. */
  function JoinText(s: SubquerySpec, k: Text): Text {
    Tok(Qualified(s.relatedTable, s.fkColumn), Tok(OpText("="), Tok(Qualified(s.outerTable, s.outerPkColumn), k)))
  }

  /** What stands around the condition of an EXISTS. */
  lemma ExistsAround(t: string, body: Text, x: SqlExpr, rest: Text)
    requires ParseOr(body) == Parsed(x, Tok(RParen, rest))
    ensures ParseFactor(Tok(ExistsKw, Tok(LParen, Tok(SelectOne, Tok(FromKw, Tok(Quoted(t), Tok(WhereKw, body)))))))
         == Parsed(SubExists(t, x), rest)
  {
  }

  lemma {:induction false} ExistsBack(s: SubquerySpec, i: nat, rest: Text)
    requires s.pred.Some? ==> Readable(s.pred.value)
    ensures ParseFactor(CompileSubquery(s, i, rest)) == Parsed(ExistsTree(s, i), rest)
    decreases s, 1
  {
    var close := Tok(RParen, rest);
    match s.pred
    case None =>
      FactorAlone(JoinText(s, close), JoinOf(s), close);
      ExistsAround(s.relatedTable, JoinText(s, close), JoinOf(s), rest);
    case Some(p) =>
      SpliceBack(s, p, i, close);
      ExistsAround(s.relatedTable, JoinText(s, Tok(AndKw, CompileBoolExpr(p, i, close))), Splice(JoinOf(s), Tree(p, i)),
                   rest);
  }

  /** The unparenthesised predicate of an EXISTS is regrouped by the grammar. */
  lemma {:induction false} SpliceBack(s: SubquerySpec, p: BoolExpr, i: nat, rest: Text)
    requires Readable(p) && Stops(rest)
    ensures ParseOr(JoinText(s, Tok(AndKw, CompileBoolExpr(p, i, rest)))) == Parsed(Splice(JoinOf(s), Tree(p, i)), rest)
    decreases p, 4
  {
    hide ParseFactor, CompileBoolExpr;
    var ptext := CompileBoolExpr(p, i, rest);
    var all := JoinText(s, Tok(AndKw, ptext));
    JoinBack(s, Tok(AndKw, ptext));
    if IsFactor(p) {
      FactorBack(p, i, rest);
      ChainBack(all, JoinOf(s), AndKw, ptext, Tree(p, i), rest);
    } else {
      var kw := if p.And? then AndKw else OrKw;
      var second := BinaryBack(p, i, rest);
      Regroup(all, JoinOf(s), ptext, Tree(p.left, i), kw, second);
      TailBack(Conj(JoinOf(s), Tree(p.left, i)), kw, second, Tree(p.right, i + TotalParamCount(p.left)), rest);
    }
  }

  /** The link of an EXISTS is one factor. */
  lemma JoinBack(s: SubquerySpec, k: Text)
    ensures ParseFactor(JoinText(s, k)) == Parsed(JoinOf(s), k)
  {
  }

  /** A factor, AND, and another factor are joined before what follows. */
  lemma Regroup(all: Text, join: SqlExpr, ptext: Text, ta: SqlExpr, kw: Token, second: Text)
    requires ParseFactor(all) == Parsed(join, Tok(AndKw, ptext)) && ParseFactor(ptext) == Parsed(ta, Tok(kw, second))
    ensures ParseAnd(all) == AndTail(Conj(join, ta), Tok(kw, second))
  {
  }

  lemma InAround(c: string, proj: string, src: string, body: Text, x: SqlExpr, rest: Text)
    requires ParseOr(body) == Parsed(x, Tok(RParen, rest))
    ensures ParseInBody(c, Tok(InKw, Tok(LParen, Tok(SelectKw, Tok(Quoted(proj),
                        Tok(FromKw, Tok(Quoted(src), Tok(WhereKw, body))))))))
         == Parsed(SubInWhere(c, proj, src, x), rest)
  {
  }

  lemma {:induction false} InBodyBack(s: InSubquerySpec, i: nat, rest: Text)
    requires s.pred.Some? ==> Readable(s.pred.value)
    ensures ParseInBody(s.outerColumn, CompileInBody(s, i, rest)) == Parsed(InTree(s, i), rest)
    decreases s, 1
  {
    match s.pred
    case None =>
    case Some(p) =>
      var close := Tok(RParen, rest);
      ReadBack(p, i, close);
      InAround(s.outerColumn, s.projection, s.sourceTable, CompileBoolExpr(p, i, close), Tree(p, i), rest);
  }
}
