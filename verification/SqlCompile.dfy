/** Compilation of expression trees to SQL tokens. `Ph(k)` is the placeholder the
    generator was asked for with index `k`: a `$N` dialect prints the index, a `?`
    dialect ignores it. Text is a list, and `CompileBoolExpr(e, i, k)` is the text of
    `e`, numbered from `i`, followed by `k`. */
module SqlCompile {
  import opened Wrappers
  import opened SqlAst

  datatype Token =
    | LParen | RParen | Comma
    | AndKw | OrKw | NotKw | ExistsKw | InKw | BetweenKw | IsNullKw | IsNotNullKw
    | SelectOne | SelectKw | FromKw | WhereKw
    | Name(column: string)                       // unquoted column text
    | Quoted(ident: string)                      // quoted identifier
    | Qualified(table: string, col: string)      // "table"."col"
    | Agg(agg: string, arg: string)              // AGG(col)
    | OpText(text: string)
    | Ph(index: nat)

  datatype Text = End | Tok(head: Token, tail: Text)

  /** `?, ?, ...)` for `n` parameters starting at index `i`. */
  function ListText(i: nat, n: nat, k: Text): Text
    decreases n
  {
    if n == 0 then Tok(RParen, k)
    else if n == 1 then Tok(Ph(i), Tok(RParen, k))
    else Tok(Ph(i), Tok(Comma, ListText(i + 1, n - 1, k)))
  }

  /** SQL text of one condition, branch for branch as the operator is matched. */
  function FilterText(f: FilterCondition, i: nat, k: Text): Text {
    Tok(Name(f.column),
      if f.operator == "IS NULL" then Tok(IsNullKw, k)
      else if f.operator == "IS NOT NULL" then Tok(IsNotNullKw, k)
      else if f.operator == "IN" then Tok(InKw, Tok(LParen, ListText(i, f.paramCount, k)))
      else if f.operator == "BETWEEN" && f.paramCount >= 2 then
        Tok(BetweenKw, Tok(Ph(i), Tok(AndKw, Tok(Ph(i + 1), k))))
      else if f.paramCount == 0 then Tok(OpText(f.operator), k)
      else Tok(OpText(f.operator), Tok(Ph(i), k)))
  }

  /** The index the caller continues from, threaded through the tree left to right. */
  function NextIndex(e: BoolExpr, i: nat): nat {
    match e
    case Filter(f) => i + f.paramCount
    case And(a, b) => NextIndex(b, NextIndex(a, i))
    case Or(a, b) => NextIndex(b, NextIndex(a, i))
    case Not(x) => NextIndex(x, i)
    case Exists(s) => if s.pred.Some? then NextIndex(s.pred.value, i) else i
    case NotExists(s) => if s.pred.Some? then NextIndex(s.pred.value, i) else i
    case InSubquery(s) => if s.pred.Some? then NextIndex(s.pred.value, i) else i
    case NotInSubquery(s) => if s.pred.Some? then NextIndex(s.pred.value, i) else i
  }

  function CompileBoolExpr(e: BoolExpr, i: nat, k: Text): Text
    decreases e
  {
    match e
    case Filter(f) => FilterText(f, i, k)
    case And(a, b) =>
      Tok(LParen, CompileBoolExpr(a, i, Tok(RParen, Tok(AndKw, Tok(LParen,
        CompileBoolExpr(b, NextIndex(a, i), Tok(RParen, k)))))))
    case Or(a, b) =>
      Tok(LParen, CompileBoolExpr(a, i, Tok(RParen, Tok(OrKw, Tok(LParen,
        CompileBoolExpr(b, NextIndex(a, i), Tok(RParen, k)))))))
    case Not(x) => Tok(NotKw, Tok(LParen, CompileBoolExpr(x, i, Tok(RParen, k))))
    case Exists(s) => CompileSubquery(s, i, k)
    case NotExists(s) => Tok(NotKw, CompileSubquery(s, i, k))
    case InSubquery(s) => Tok(Quoted(s.outerColumn), CompileInBody(s, i, k))
    case NotInSubquery(s) => Tok(Quoted(s.outerColumn), Tok(NotKw, CompileInBody(s, i, k)))
  }

  /** `EXISTS (SELECT 1 FROM related WHERE related.fk = outer.pk [AND predicate])`; the
      predicate gets no parentheses of its own. */
  function CompileSubquery(s: SubquerySpec, i: nat, k: Text): Text
    decreases s
  {
    Tok(ExistsKw, Tok(LParen, Tok(SelectOne, Tok(FromKw, Tok(Quoted(s.relatedTable), Tok(WhereKw,
      Tok(Qualified(s.relatedTable, s.fkColumn), Tok(OpText("="), Tok(Qualified(s.outerTable, s.outerPkColumn),
        match s.pred
        case None => Tok(RParen, k)
        case Some(p) => Tok(AndKw, CompileBoolExpr(p, i, Tok(RParen, k))))))))))))
  }

  /** `IN (SELECT projection FROM source [WHERE predicate])` */
  function CompileInBody(s: InSubquerySpec, i: nat, k: Text): Text
    decreases s
  {
    Tok(InKw, Tok(LParen, Tok(SelectKw, Tok(Quoted(s.projection), Tok(FromKw, Tok(Quoted(s.sourceTable),
      match s.pred
      case None => Tok(RParen, k)
      case Some(p) => Tok(WhereKw, CompileBoolExpr(p, i, Tok(RParen, k)))))))))
  }

  function CompileHaving(h: HavingExpr, i: nat, k: Text): Text
    decreases h
  {
    match h
    case Compare(agg, col, op, _) => Tok(Agg(agg, col), Tok(OpText(op), Tok(Ph(i), k)))
    case HAnd(a, b) =>
      Tok(LParen, CompileHaving(a, i, Tok(AndKw, CompileHaving(b, i + HavingParamCount(a), Tok(RParen, k)))))
    case HOr(a, b) =>
      Tok(LParen, CompileHaving(a, i, Tok(OrKw, CompileHaving(b, i + HavingParamCount(a), Tok(RParen, k)))))
    case HNot(x) => Tok(NotKw, Tok(LParen, CompileHaving(x, i, Tok(RParen, k))))
    case CompareAgg(la, lc, op, ra, rc) => Tok(Agg(la, lc), Tok(OpText(op), Tok(Agg(ra, rc), k)))
  }

  // ---------------------------------------------------------------------------
  // Placeholder numbering
  // ---------------------------------------------------------------------------

  /** Number of placeholders of a text. */
  function PhCount(ts: Text): nat {
    match ts
    case End => 0
    case Tok(t, rest) => (if t.Ph? then 1 else 0) + PhCount(rest)
  }

  /** The placeholders of a text are numbered `i, i+1, ...` in text order, so the number
      a `$N` dialect prints and the position a `?` dialect counts agree. */
  predicate Contiguous(ts: Text, i: nat) {
    match ts
    case End => true
    case Tok(t, rest) => if t.Ph? then t.index == i && Contiguous(rest, i + 1) else Contiguous(rest, i)
  }

  /** Index of the `j`-th placeholder in text order, counting from 1. */
  function NthPlaceholder(ts: Text, j: nat): nat
    requires 1 <= j <= PhCount(ts)
  {
    if ts.head.Ph? && j == 1 then ts.head.index
    else NthPlaceholder(ts.tail, if ts.head.Ph? then j - 1 else j)
  }

  lemma {:induction false} ContiguousNth(ts: Text, i: nat, j: nat)
    requires Contiguous(ts, i) && 1 <= j <= PhCount(ts)
    ensures NthPlaceholder(ts, j) == i + j - 1
    decreases ts
  {
    if ts.head.Ph? && j > 1 {
      ContiguousNth(ts.tail, i + 1, j - 1);
    } else if !ts.head.Ph? {
      ContiguousNth(ts.tail, i, j);
    }
  }

  /** Tokens other than placeholders change neither numbering nor count. */
  lemma SkipOne(a: Token, k: Text, i: nat)
    requires !a.Ph?
    ensures Contiguous(Tok(a, k), i) <==> Contiguous(k, i)
    ensures PhCount(Tok(a, k)) == PhCount(k)
  {
  }

  lemma SkipThree(a: Token, b: Token, c: Token, k: Text, i: nat)
    requires !a.Ph? && !b.Ph? && !c.Ph?
    ensures Contiguous(Tok(a, Tok(b, Tok(c, k))), i) <==> Contiguous(k, i)
    ensures PhCount(Tok(a, Tok(b, Tok(c, k)))) == PhCount(k)
  {
    assert Contiguous(Tok(c, k), i) <==> Contiguous(k, i);
    assert PhCount(Tok(c, k)) == PhCount(k);
  }

  function Range(i: nat, n: nat): seq<nat> {
    seq(n, k requires 0 <= k < n => i + k)
  }

  lemma {:induction false} NextIndexCounts(e: BoolExpr, i: nat)
    ensures NextIndex(e, i) == i + TotalParamCount(e)
    decreases e
  {
    match e
    case Filter(_) =>
    case And(a, b) => NextIndexCounts(a, i); NextIndexCounts(b, NextIndex(a, i));
    case Or(a, b) => NextIndexCounts(a, i); NextIndexCounts(b, NextIndex(a, i));
    case Not(x) => NextIndexCounts(x, i);
    case Exists(s) => if s.pred.Some? { NextIndexCounts(s.pred.value, i); }
    case NotExists(s) => if s.pred.Some? { NextIndexCounts(s.pred.value, i); }
    case InSubquery(s) => if s.pred.Some? { NextIndexCounts(s.pred.value, i); }
    case NotInSubquery(s) => if s.pred.Some? { NextIndexCounts(s.pred.value, i); }
  }

  lemma {:induction false} ListNumbering(i: nat, n: nat, k: Text)
    ensures Contiguous(ListText(i, n, k), i) <==> Contiguous(k, i + n)
    ensures PhCount(ListText(i, n, k)) == n + PhCount(k)
    decreases n
  {
    if n > 1 { ListNumbering(i + 1, n - 1, k); }
  }

  lemma FilterNumbering(f: FilterCondition, i: nat, k: Text)
    requires FitsArity(f)
    ensures Contiguous(FilterText(f, i, k), i) <==> Contiguous(k, i + f.paramCount)
    ensures PhCount(FilterText(f, i, k)) == f.paramCount + PhCount(k)
  {
    if f.operator == "IN" {
      var list := ListText(i, f.paramCount, k);
      ListNumbering(i, f.paramCount, k);
      SkipThree(Name(f.column), InKw, LParen, list, i);
    } else if f.operator == "BETWEEN" {
      var high := Tok(Ph(i + 1), k);
      assert Contiguous(Tok(AndKw, high), i + 1) <==> Contiguous(k, i + 2);
      assert PhCount(Tok(AndKw, high)) == 1 + PhCount(k);
      assert Contiguous(Tok(Ph(i), Tok(AndKw, high)), i) <==> Contiguous(k, i + 2);
      assert PhCount(Tok(Ph(i), Tok(AndKw, high))) == 2 + PhCount(k);
    } else if f.paramCount == 1 {
      assert Contiguous(Tok(Ph(i), k), i) <==> Contiguous(k, i + 1);
      assert PhCount(Tok(Ph(i), k)) == 1 + PhCount(k);
    }
  }

  /** A compiled tree has one placeholder for each parameter it claims, numbered
      contiguously from `i`, so what follows continues from `i + TotalParamCount(e)`. */
  lemma {:induction false} CompiledNumbering(e: BoolExpr, i: nat, k: Text)
    requires WellFormed(e)
    ensures Contiguous(CompileBoolExpr(e, i, k), i) <==> Contiguous(k, NextIndex(e, i))
    ensures PhCount(CompileBoolExpr(e, i, k)) == TotalParamCount(e) + PhCount(k)
    decreases e, 1
  {
    hide Contiguous, PhCount, CompileSubquery, CompileInBody, FilterText;
    match e
    case Filter(f) => FilterNumbering(f, i, k);
    case Not(x) =>
      CompiledNumbering(x, i, Tok(RParen, k));
      SkipOne(RParen, k, NextIndex(x, i));
      SkipOne(LParen, CompileBoolExpr(x, i, Tok(RParen, k)), i);
      SkipOne(NotKw, Tok(LParen, CompileBoolExpr(x, i, Tok(RParen, k))), i);
    case Exists(s) => SubqueryNumbering(s, i, k);
    case NotExists(s) =>
      SubqueryNumbering(s, i, k);
      SkipOne(NotKw, CompileSubquery(s, i, k), i);
    case InSubquery(s) =>
      InBodyNumbering(s, i, k);
      SkipOne(Quoted(s.outerColumn), CompileInBody(s, i, k), i);
    case NotInSubquery(s) =>
      InBodyNumbering(s, i, k);
      SkipOne(NotKw, CompileInBody(s, i, k), i);
      SkipOne(Quoted(s.outerColumn), Tok(NotKw, CompileInBody(s, i, k)), i);
    case _ => BothNumbering(e, i, k);
  }

  lemma {:induction false} BothNumbering(e: BoolExpr, i: nat, k: Text)
    requires (e.And? || e.Or?) && WellFormed(e)
    ensures Contiguous(CompileBoolExpr(e, i, k), i) <==> Contiguous(k, NextIndex(e, i))
    ensures PhCount(CompileBoolExpr(e, i, k)) == TotalParamCount(e) + PhCount(k)
    decreases e, 0
  {
    var j := NextIndex(e.left, i);
    var second := CompileBoolExpr(e.right, j, Tok(RParen, k));
    var kw := if e.And? then AndKw else OrKw;
    CompiledNumbering(e.left, i, Tok(RParen, Tok(kw, Tok(LParen, second))));
    SkipThree(RParen, kw, LParen, second, j);
    CompiledNumbering(e.right, j, Tok(RParen, k));
  }

  lemma {:induction false} SubqueryNumbering(s: SubquerySpec, i: nat, k: Text)
    requires s.pred.Some? ==> WellFormed(s.pred.value)
    ensures Contiguous(CompileSubquery(s, i, k), i) <==> Contiguous(k, NextIndex(Exists(s), i))
    ensures PhCount(CompileSubquery(s, i, k)) == OptParamCount(s.pred) + PhCount(k)
    decreases s
  {
    var close := Tok(RParen, k);
    if s.pred.Some? { CompiledNumbering(s.pred.value, i, close); }
    var body := if s.pred.Some? then Tok(AndKw, CompileBoolExpr(s.pred.value, i, close)) else close;
    var link, outer := Qualified(s.relatedTable, s.fkColumn), Qualified(s.outerTable, s.outerPkColumn);
    SkipThree(link, OpText("="), outer, body, i);
    var more := Tok(link, Tok(OpText("="), Tok(outer, body)));
    SkipThree(FromKw, Quoted(s.relatedTable), WhereKw, more, i);
    SkipThree(ExistsKw, LParen, SelectOne, Tok(FromKw, Tok(Quoted(s.relatedTable), Tok(WhereKw, more))), i);
  }

  lemma {:induction false} InBodyNumbering(s: InSubquerySpec, i: nat, k: Text)
    requires s.pred.Some? ==> WellFormed(s.pred.value)
    ensures Contiguous(CompileInBody(s, i, k), i) <==> Contiguous(k, NextIndex(InSubquery(s), i))
    ensures PhCount(CompileInBody(s, i, k)) == OptParamCount(s.pred) + PhCount(k)
    decreases s
  {
    var close := Tok(RParen, k);
    if s.pred.Some? { CompiledNumbering(s.pred.value, i, close); }
    var body := if s.pred.Some? then Tok(WhereKw, CompileBoolExpr(s.pred.value, i, close)) else close;
    SkipThree(Quoted(s.projection), FromKw, Quoted(s.sourceTable), body, i);
    SkipThree(InKw, LParen, SelectKw, Tok(Quoted(s.projection), Tok(FromKw, Tok(Quoted(s.sourceTable), body))), i);
  }

  lemma {:induction false} HavingNumbering(h: HavingExpr, i: nat, k: Text)
    ensures Contiguous(CompileHaving(h, i, k), i) <==> Contiguous(k, i + HavingParamCount(h))
    ensures PhCount(CompileHaving(h, i, k)) == HavingParamCount(h) + PhCount(k)
    decreases h, 1
  {
    match h
    case Compare(_, _, _, _) =>
      assert Contiguous(Tok(Ph(i), k), i) <==> Contiguous(k, i + 1);
      assert PhCount(Tok(Ph(i), k)) == 1 + PhCount(k);
    case CompareAgg(la, lc, op, ra, rc) => SkipThree(Agg(la, lc), OpText(op), Agg(ra, rc), k, i);
    case HNot(x) => HavingNumbering(x, i, Tok(RParen, k));
    case _ => HavingBinaryNumbering(h, i, k);
  }

  lemma {:induction false} HavingBinaryNumbering(h: HavingExpr, i: nat, k: Text)
    requires h.HAnd? || h.HOr?
    ensures Contiguous(CompileHaving(h, i, k), i) <==> Contiguous(k, i + HavingParamCount(h))
    ensures PhCount(CompileHaving(h, i, k)) == HavingParamCount(h) + PhCount(k)
    decreases h, 0
  {
    var j := i + HavingParamCount(h.left);
    var second := CompileHaving(h.right, j, Tok(RParen, k));
    var kw := if h.HAnd? then AndKw else OrKw;
    HavingNumbering(h.left, i, Tok(kw, second));
    HavingNumbering(h.right, j, Tok(RParen, k));
    assert CompileHaving(h, i, k) == Tok(LParen, CompileHaving(h.left, i, Tok(kw, second)));
  }
}
