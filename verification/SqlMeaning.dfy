/** Three-valued meaning of expression trees, the value the database computes for the
    tree it reads, and when the two agree. */
module SqlMeaning {
  import opened Wrappers
  import opened SqlAst
  import opened SqlCompile
  import opened SqlGrammar
  import opened SqlParseBack

  datatype TV = T | F | U

  function And3(a: TV, b: TV): TV {
    if a == F || b == F then F else if a == T && b == T then T else U
  }

  function Or3(a: TV, b: TV): TV {
    if a == T || b == T then T else if a == F && b == F then F else U
  }

  function Not3(a: TV): TV {
    match a case T => F case F => T case U => U
  }

  type Row = map<string, DbValue>

  /** A database together with its comparison operators and the aggregates of the current group. */
  datatype Env = Env(tables: map<string, seq<Row>>, cmp: (string, DbValue, DbValue) -> TV,
                     agg: (string, string) -> DbValue)

  /** A row in scope under its table name; the innermost scope comes first. */
  datatype Scope = Scope(table: string, row: Row)

  function Cell(row: Row, c: string): DbValue {
    if c in row then row[c] else Null
  }

  function Lookup(scopes: seq<Scope>, t: string, c: string): DbValue {
    if scopes == [] then Null
    else if scopes[0].table == t then Cell(scopes[0].row, c)
    else Lookup(scopes[1..], t, c)
  }

  function Rows(env: Env, t: string): seq<Row> {
    if t in env.tables then env.tables[t] else []
  }

  /** The value bound to placeholder `k`. */
  function Bound(params: seq<DbValue>, k: nat): DbValue {
    if 1 <= k <= |params| then params[k - 1] else Null
  }

  function InList(env: Env, v: DbValue, args: seq<DbValue>): TV {
    if args == [] then F else Or3(env.cmp("=", v, args[0]), InList(env, v, args[1..]))
  }

  /** A predicate on a column value and its bound arguments. */
  function EvalPred(env: Env, op: string, v: DbValue, args: seq<DbValue>): TV {
    if op == "IS NULL" then (if v == Null then T else F)
    else if op == "IS NOT NULL" then (if v == Null then F else T)
    else if op == "IN" then InList(env, v, args)
    else if op == "BETWEEN" then
      (if |args| == 2 then And3(env.cmp(">=", v, args[0]), env.cmp("<=", v, args[1])) else U)
    else if |args| == 1 then env.cmp(op, v, args[0])
    else U
  }

  /** `v IN (projection of the rows that pass)`: true on a match, unknown on an unknown one. */
  ghost function InRows(env: Env, v: DbValue, proj: string, rows: seq<Row>, pass: Row -> bool): TV {
    if exists r :: r in rows && pass(r) && env.cmp("=", v, Cell(r, proj)) == T then T
    else if exists r :: r in rows && pass(r) && env.cmp("=", v, Cell(r, proj)) == U then U
    else F
  }

  /** The database's value of a parsed search condition. */
  ghost function Eval(x: SqlExpr, params: seq<DbValue>, env: Env, scopes: seq<Scope>): TV
    requires scopes != []
  {
    match x
    case Pred(c, op, phs) =>
      EvalPred(env, op, Cell(scopes[0].row, c), seq(|phs|, k requires 0 <= k < |phs| => Bound(params, phs[k])))
    case JoinEq(t1, c1, t2, c2) => env.cmp("=", Lookup(scopes, t1, c1), Lookup(scopes, t2, c2))
    case Conj(a, b) => And3(Eval(a, params, env, scopes), Eval(b, params, env, scopes))
    case Disj(a, b) => Or3(Eval(a, params, env, scopes), Eval(b, params, env, scopes))
    case Neg(a) => Not3(Eval(a, params, env, scopes))
    case SubExists(t, cond) =>
      if exists r :: r in Rows(env, t) && Eval(cond, params, env, [Scope(t, r)] + scopes) == T then T else F
    case SubIn(c, proj, t) => InRows(env, Cell(scopes[0].row, c), proj, Rows(env, t), r => true)
    case SubInWhere(c, proj, t, cond) =>
      InRows(env, Cell(scopes[0].row, c), proj, Rows(env, t), r => Eval(cond, params, env, [Scope(t, r)] + scopes) == T)
    case AggValue(g, c, op, ph) => env.cmp(op, env.agg(g, c), Bound(params, ph))
    case AggAgg(g, c, op, g2, c2) => env.cmp(op, env.agg(g, c), env.agg(g2, c2))
  }

  /** The intended value of an expression tree on a row. `vals` lists the values given to
      conditions, left to right; those of this tree start at position `at`. */
  ghost function Meaning(e: BoolExpr, vals: seq<DbValue>, at: nat, env: Env, row: Row): TV
    requires at + TotalParamCount(e) <= |vals|
  {
    match e
    case Filter(f) => EvalPred(env, f.operator, Cell(row, f.column), vals[at..at + f.paramCount])
    case And(a, b) => And3(Meaning(a, vals, at, env, row), Meaning(b, vals, at + TotalParamCount(a), env, row))
    case Or(a, b) => Or3(Meaning(a, vals, at, env, row), Meaning(b, vals, at + TotalParamCount(a), env, row))
    case Not(x) => Not3(Meaning(x, vals, at, env, row))
    case Exists(s) => if AnyRelated(s, vals, at, env, row) then T else F
    case NotExists(s) => if AnyRelated(s, vals, at, env, row) then F else T
    case InSubquery(s) => InMeaning(s, vals, at, env, row)
    case NotInSubquery(s) => Not3(InMeaning(s, vals, at, env, row))
  }

  ghost predicate Holds(p: Option<BoolExpr>, vals: seq<DbValue>, at: nat, env: Env, row: Row)
    requires at + OptParamCount(p) <= |vals|
  {
    match p
    case None => true
    case Some(x) => Meaning(x, vals, at, env, row) == T
  }

  /** The related row's foreign key equals the outer row's primary key. */
  predicate Linked(s: SubquerySpec, env: Env, row: Row, r: Row) {
    env.cmp("=", Cell(r, s.fkColumn), Cell(row, s.outerPkColumn)) == T
  }

  /** Some row related to `row` satisfies the predicate. */
  ghost predicate AnyRelated(s: SubquerySpec, vals: seq<DbValue>, at: nat, env: Env, row: Row)
    requires at + OptParamCount(s.pred) <= |vals|
  {
    exists r :: r in Rows(env, s.relatedTable) && Linked(s, env, row, r) && Holds(s.pred, vals, at, env, r)
  }

  ghost function InMeaning(s: InSubquerySpec, vals: seq<DbValue>, at: nat, env: Env, row: Row): TV
    requires at + OptParamCount(s.pred) <= |vals|
  {
    InRows(env, Cell(row, s.outerColumn), s.projection, Rows(env, s.sourceTable), r => Holds(s.pred, vals, at, env, r))
  }

  /** Every EXISTS is asked of the table in scope, about a different table, and its
      predicate is not a disjunction. */
  predicate Faithful(e: BoolExpr, table: string) {
    match e
    case Filter(_) => true
    case And(a, b) => Faithful(a, table) && Faithful(b, table)
    case Or(a, b) => Faithful(a, table) && Faithful(b, table)
    case Not(x) => Faithful(x, table)
    case Exists(s) => FaithfulExists(s, table)
    case NotExists(s) => FaithfulExists(s, table)
    case InSubquery(s) => s.pred.Some? ==> Faithful(s.pred.value, s.sourceTable)
    case NotInSubquery(s) => s.pred.Some? ==> Faithful(s.pred.value, s.sourceTable)
  }

  /** What the compiled text needs to say what the tree means. */
  predicate ReadAsMeant(e: BoolExpr, table: string) {
    Faithful(e, table) && AllFilters(e, HasList)
  }

  predicate FaithfulExists(s: SubquerySpec, table: string) {
    && s.outerTable == table && s.relatedTable != table
    && (s.pred.Some? ==> !s.pred.value.Or? && Faithful(s.pred.value, s.relatedTable))
  }

  lemma BoundArgs(vals: seq<DbValue>, at: nat, n: nat)
    requires at + n <= |vals|
    ensures var phs := Range(at + 1, n);
      seq(|phs|, k requires 0 <= k < |phs| => Bound(vals, phs[k])) == vals[at..at + n]
  {
  }

  /** The database computes the intended value for every faithful tree. */
  lemma {:induction false} TreeMeaning(e: BoolExpr, vals: seq<DbValue>, at: nat, env: Env, scopes: seq<Scope>)
    requires scopes != [] && Faithful(e, scopes[0].table) && at + TotalParamCount(e) <= |vals|
    ensures Eval(Tree(e, at + 1), vals, env, scopes) == Meaning(e, vals, at, env, scopes[0].row)
    decreases e, 1
  {
    match e
    case Filter(f) => FilterMeaning(f, vals, at, env, scopes);
    case And(_, _) => BinaryMeaning(e, vals, at, env, scopes);
    case Or(_, _) => BinaryMeaning(e, vals, at, env, scopes);
    case Not(x) => TreeMeaning(x, vals, at, env, scopes);
    case Exists(s) => ExistsMeaning(s, vals, at, env, scopes);
    case NotExists(s) => ExistsMeaning(s, vals, at, env, scopes);
    case InSubquery(s) => InSubqueryMeaning(s, vals, at, env, scopes);
    case NotInSubquery(s) => InSubqueryMeaning(s, vals, at, env, scopes);
  }

  lemma FilterMeaning(f: FilterCondition, vals: seq<DbValue>, at: nat, env: Env, scopes: seq<Scope>)
    requires scopes != [] && at + f.paramCount <= |vals|
    ensures Eval(Tree(Filter(f), at + 1), vals, env, scopes) == Meaning(Filter(f), vals, at, env, scopes[0].row)
  {
    BoundArgs(vals, at, f.paramCount);
  }

  lemma {:induction false} BinaryMeaning(e: BoolExpr, vals: seq<DbValue>, at: nat, env: Env, scopes: seq<Scope>)
    requires scopes != [] && (e.And? || e.Or?) && Faithful(e, scopes[0].table) && at + TotalParamCount(e) <= |vals|
    ensures Eval(Tree(e, at + 1), vals, env, scopes) == Meaning(e, vals, at, env, scopes[0].row)
    decreases e, 0
  {
    TreeMeaning(e.left, vals, at, env, scopes);
    TreeMeaning(e.right, vals, at + TotalParamCount(e.left), env, scopes);
    var x, y := Tree(e.left, at + 1), Tree(e.right, at + 1 + TotalParamCount(e.left));
    if e.And? {
      EvalConj(x, y, vals, env, scopes);
      MeaningAnd(e.left, e.right, vals, at, env, scopes[0].row);
    } else {
      EvalDisj(x, y, vals, env, scopes);
      MeaningOr(e.left, e.right, vals, at, env, scopes[0].row);
    }
  }

  lemma EvalConj(x: SqlExpr, y: SqlExpr, vals: seq<DbValue>, env: Env, scopes: seq<Scope>)
    requires scopes != []
    ensures Eval(Conj(x, y), vals, env, scopes) == And3(Eval(x, vals, env, scopes), Eval(y, vals, env, scopes))
  {
  }

  lemma EvalDisj(x: SqlExpr, y: SqlExpr, vals: seq<DbValue>, env: Env, scopes: seq<Scope>)
    requires scopes != []
    ensures Eval(Disj(x, y), vals, env, scopes) == Or3(Eval(x, vals, env, scopes), Eval(y, vals, env, scopes))
  {
  }

  lemma MeaningAnd(a: BoolExpr, b: BoolExpr, vals: seq<DbValue>, at: nat, env: Env, row: Row)
    requires at + TotalParamCount(And(a, b)) <= |vals|
    ensures Meaning(And(a, b), vals, at, env, row)
         == And3(Meaning(a, vals, at, env, row), Meaning(b, vals, at + TotalParamCount(a), env, row))
  {
  }

  lemma MeaningOr(a: BoolExpr, b: BoolExpr, vals: seq<DbValue>, at: nat, env: Env, row: Row)
    requires at + TotalParamCount(Or(a, b)) <= |vals|
    ensures Meaning(Or(a, b), vals, at, env, row)
         == Or3(Meaning(a, vals, at, env, row), Meaning(b, vals, at + TotalParamCount(a), env, row))
  {
  }

  /** A spliced conjunction holds exactly when both parts do, unless the predicate is a disjunction. */
  lemma SpliceHolds(join: SqlExpr, t: SqlExpr, vals: seq<DbValue>, env: Env, scopes: seq<Scope>)
    requires scopes != [] && !t.Disj?
    ensures Eval(Splice(join, t), vals, env, scopes) == T
       <==> Eval(join, vals, env, scopes) == T && Eval(t, vals, env, scopes) == T
  {
    if t.Conj? {
      assert Splice(join, t) == Conj(Conj(join, t.left), t.right);
    } else {
      assert Splice(join, t) == Conj(join, t);
    }
  }

  lemma JoinScope(s: SubquerySpec, env: Env, vals: seq<DbValue>, scopes: seq<Scope>, r: Row)
    requires scopes != [] && scopes[0].table == s.outerTable && s.relatedTable != s.outerTable
    ensures Eval(JoinOf(s), vals, env, [Scope(s.relatedTable, r)] + scopes) == T <==> Linked(s, env, scopes[0].row, r)
  {
    var inner := [Scope(s.relatedTable, r)] + scopes;
    assert inner[1..] == scopes;
    assert Lookup(inner, s.outerTable, s.outerPkColumn) == Lookup(scopes, s.outerTable, s.outerPkColumn);
  }

  lemma {:induction false} ExistsMeaning(s: SubquerySpec, vals: seq<DbValue>, at: nat, env: Env, scopes: seq<Scope>)
    requires scopes != [] && FaithfulExists(s, scopes[0].table) && at + OptParamCount(s.pred) <= |vals|
    ensures Eval(ExistsTree(s, at + 1), vals, env, scopes)
         == (if AnyRelated(s, vals, at, env, scopes[0].row) then T else F)
    decreases s
  {
    forall r
      ensures Eval(ExistsTree(s, at + 1).cond, vals, env, [Scope(s.relatedTable, r)] + scopes) == T
         <==> Linked(s, env, scopes[0].row, r) && Holds(s.pred, vals, at, env, r)
    {
      var inner := [Scope(s.relatedTable, r)] + scopes;
      JoinScope(s, env, vals, scopes, r);
      if s.pred.Some? {
        TreeMeaning(s.pred.value, vals, at, env, inner);
        SpliceHolds(JoinOf(s), Tree(s.pred.value, at + 1), vals, env, inner);
      }
    }
  }

  lemma {:induction false} InSubqueryMeaning(s: InSubquerySpec, vals: seq<DbValue>, at: nat, env: Env,
                                             scopes: seq<Scope>)
    requires scopes != [] && (s.pred.Some? ==> Faithful(s.pred.value, s.sourceTable))
    requires at + OptParamCount(s.pred) <= |vals|
    ensures Eval(InTree(s, at + 1), vals, env, scopes) == InMeaning(s, vals, at, env, scopes[0].row)
    decreases s
  {
    if s.pred.Some? {
      forall r
        ensures Eval(Tree(s.pred.value, at + 1), vals, env, [Scope(s.sourceTable, r)] + scopes)
             == Meaning(s.pred.value, vals, at, env, r)
      {
        TreeMeaning(s.pred.value, vals, at, env, [Scope(s.sourceTable, r)] + scopes);
      }
    }
  }

  // ---------------------------------------------------------------------------
  // Main results
  // ---------------------------------------------------------------------------

  /** Compile, read back, evaluate: the database computes what the tree means, for every
      faithful tree, every continuation of the statement and every binding. */
  lemma CompiledMeaning(e: BoolExpr, rest: Text, vals: seq<DbValue>, at: nat, env: Env, scopes: seq<Scope>)
    requires WellFormed(e) && Stops(rest) && scopes != [] && ReadAsMeant(e, scopes[0].table)
    requires at + TotalParamCount(e) <= |vals|
    ensures var p := ParseOr(CompileBoolExpr(e, at + 1, rest));
      p.Parsed? && p.rest == rest && Eval(p.x, vals, env, scopes) == Meaning(e, vals, at, env, scopes[0].row)
  {
    ReadBack(e, at + 1, rest);
    TreeMeaning(e, vals, at, env, scopes);
  }

  /** `(where) AND (filter)` means conjunction whatever the two fragments are, a top-level
      OR included. */
  lemma WrappedFilter(where_: BoolExpr, i: nat, filter: BoolExpr, j: nat, vals: seq<DbValue>, env: Env,
                      scopes: seq<Scope>)
    requires Readable(where_) && Readable(filter) && scopes != []
    ensures var p := ParseOr(Tok(LParen, CompileBoolExpr(where_, i, Tok(RParen, Tok(AndKw, Tok(LParen,
                       CompileBoolExpr(filter, j, Tok(RParen, End))))))));
      && p.Parsed? && p.rest == End
      && Eval(p.x, vals, env, scopes)
         == And3(Eval(Tree(where_, i), vals, env, scopes), Eval(Tree(filter, j), vals, env, scopes))
  {
    var second := Tok(LParen, CompileBoolExpr(filter, j, Tok(RParen, End)));
    var all := Tok(LParen, CompileBoolExpr(where_, i, Tok(RParen, Tok(AndKw, second))));
    ParenBack(where_, i, Tok(AndKw, second));
    ParenBack(filter, j, End);
    ChainBack(all, Tree(where_, i), AndKw, second, Tree(filter, j), End);
  }

  /** The right disjunct of an EXISTS predicate holds of a related row. */
  ghost predicate RightHolds(s: SubquerySpec, vals: seq<DbValue>, at: nat, env: Env, r: Row)
    requires s.pred.Some? && s.pred.value.Or? && at + TotalParamCount(s.pred.value) <= |vals|
  {
    Meaning(s.pred.value.right, vals, at + TotalParamCount(s.pred.value.left), env, r) == T
  }

  lemma SpliceDisjunction(join: SqlExpr, a: SqlExpr, b: SqlExpr, vals: seq<DbValue>, env: Env, scopes: seq<Scope>)
    requires scopes != []
    ensures Eval(Splice(join, Disj(a, b)), vals, env, scopes) == T
       <==> (Eval(join, vals, env, scopes) == T && Eval(a, vals, env, scopes) == T) || Eval(b, vals, env, scopes) == T
  {
    assert Splice(join, Disj(a, b)) == Disj(Conj(join, a), b);
  }

  lemma DisjunctionRow(s: SubquerySpec, a: BoolExpr, b: BoolExpr, vals: seq<DbValue>, at: nat, env: Env,
                       scopes: seq<Scope>, r: Row)
    requires scopes != [] && s.outerTable == scopes[0].table && s.relatedTable != s.outerTable
    requires s.pred == Some(Or(a, b)) && Faithful(a, s.relatedTable) && Faithful(b, s.relatedTable)
    requires at + TotalParamCount(a) + TotalParamCount(b) <= |vals|
    ensures Eval(ExistsTree(s, at + 1).cond, vals, env, [Scope(s.relatedTable, r)] + scopes) == T
       <==> (Linked(s, env, scopes[0].row, r) && Holds(s.pred, vals, at, env, r)) || RightHolds(s, vals, at, env, r)
  {
    hide HavingMeaning, InRows;
    var n := TotalParamCount(a);
    var inner := [Scope(s.relatedTable, r)] + scopes;
    JoinScope(s, env, vals, scopes, r);
    TreeMeaning(a, vals, at, env, inner);
    TreeMeaning(b, vals, at + n, env, inner);
    SpliceDisjunction(JoinOf(s), Tree(a, at + 1), Tree(b, at + n + 1), vals, env, inner);
    assert Tree(Or(a, b), at + 1) == Disj(Tree(a, at + 1), Tree(b, at + n + 1));
    assert Holds(s.pred, vals, at, env, r)
        <==> Meaning(a, vals, at, env, r) == T || Meaning(b, vals, at + n, env, r) == T;
  }

  /** An EXISTS whose predicate is `a OR b` is read as `(link AND a) OR b`: it holds as
      soon as any row at all satisfies `b`. It still has its intended value exactly when
      a linked row satisfies the predicate or no row satisfies `b`. */
  lemma ExistsWithDisjunction(s: SubquerySpec, vals: seq<DbValue>, at: nat, env: Env, scopes: seq<Scope>)
    requires scopes != [] && s.outerTable == scopes[0].table && s.relatedTable != s.outerTable
    requires s.pred.Some? && s.pred.value.Or? && Faithful(s.pred.value, s.relatedTable)
    requires at + TotalParamCount(s.pred.value) <= |vals|
    ensures Eval(ExistsTree(s, at + 1), vals, env, scopes) == Meaning(Exists(s), vals, at, env, scopes[0].row)
       <==> || AnyRelated(s, vals, at, env, scopes[0].row)
            || forall r :: r in Rows(env, s.relatedTable) ==> !RightHolds(s, vals, at, env, r)
  {
    var cond := ExistsTree(s, at + 1).cond;
    forall r
      ensures Eval(cond, vals, env, [Scope(s.relatedTable, r)] + scopes) == T
         <==> (Linked(s, env, scopes[0].row, r) && Holds(s.pred, vals, at, env, r)) || RightHolds(s, vals, at, env, r)
    {
      DisjunctionRow(s, s.pred.value.left, s.pred.value.right, vals, at, env, scopes, r);
    }
  }

  /** An EXISTS over the table it is asked of names that table on both sides of its link,
      so the link compares each inner row with itself and the outer row has no say. */
  lemma SelfExists(s: SubquerySpec, i: nat, vals: seq<DbValue>, env: Env, scopes: seq<Scope>)
    requires scopes != [] && s.relatedTable == s.outerTable && s.pred.None?
    ensures Eval(ExistsTree(s, i), vals, env, scopes) == T
       <==> exists r :: r in Rows(env, s.relatedTable) && Linked(s, env, r, r)
  {
    forall r
      ensures Eval(JoinOf(s), vals, env, [Scope(s.relatedTable, r)] + scopes) == T <==> Linked(s, env, r, r)
    {
      assert Lookup([Scope(s.relatedTable, r)] + scopes, s.relatedTable, s.fkColumn) == Cell(r, s.fkColumn);
    }
  }

  // ---------------------------------------------------------------------------
  // HAVING
  // ---------------------------------------------------------------------------

  function HavingTree(h: HavingExpr, i: nat): SqlExpr {
    match h
    case Compare(g, c, op, _) => AggValue(g, c, op, i)
    case HAnd(a, b) => Conj(HavingTree(a, i), HavingTree(b, i + HavingParamCount(a)))
    case HOr(a, b) => Disj(HavingTree(a, i), HavingTree(b, i + HavingParamCount(a)))
    case HNot(x) => Neg(HavingTree(x, i))
    case CompareAgg(g, c, op, g2, c2) => AggAgg(g, c, op, g2, c2)
  }

  /** The intended value of a HAVING tree; its values are in the tree. */
  function HavingMeaning(h: HavingExpr, env: Env): TV {
    match h
    case Compare(g, c, op, v) => env.cmp(op, env.agg(g, c), v)
    case HAnd(a, b) => And3(HavingMeaning(a, env), HavingMeaning(b, env))
    case HOr(a, b) => Or3(HavingMeaning(a, env), HavingMeaning(b, env))
    case HNot(x) => Not3(HavingMeaning(x, env))
    case CompareAgg(g, c, op, g2, c2) => env.cmp(op, env.agg(g, c), env.agg(g2, c2))
  }

  /** A compiled HAVING tree is always one boolean factor, so joining several with AND is safe. */
  lemma {:induction false} HavingBack(h: HavingExpr, i: nat, rest: Text)
    ensures ParseFactor(CompileHaving(h, i, rest)) == Parsed(HavingTree(h, i), rest)
    decreases h, 1
  {
    var close := Tok(RParen, rest);
    match h
    case Compare(_, _, _, _) =>
    case CompareAgg(_, _, _, _, _) =>
    case HNot(x) =>
      HavingBack(x, i, close);
      FactorAlone(CompileHaving(x, i, close), HavingTree(x, i), close);
    case _ => HavingBinaryBack(h, i, rest);
  }

  lemma {:induction false} HavingBinaryBack(h: HavingExpr, i: nat, rest: Text)
    requires h.HAnd? || h.HOr?
    ensures ParseFactor(CompileHaving(h, i, rest)) == Parsed(HavingTree(h, i), rest)
    decreases h, 0
  {
    var j := i + HavingParamCount(h.left);
    var kw := if h.HAnd? then AndKw else OrKw;
    var close := Tok(RParen, rest);
    var second := CompileHaving(h.right, j, close);
    var first := CompileHaving(h.left, i, Tok(kw, second));
    HavingBack(h.right, j, close);
    HavingBack(h.left, i, Tok(kw, second));
    ChainBack(first, HavingTree(h.left, i), kw, second, HavingTree(h.right, j), close);
    assert CompileHaving(h, i, rest) == Tok(LParen, first);
  }

  /** The values of a HAVING tree occur in `vals` from position `at`. */
  predicate BoundAt(vals: seq<DbValue>, at: nat, own: seq<DbValue>) {
    at + |own| <= |vals| && forall k :: 0 <= k < |own| ==> vals[at + k] == own[k]
  }

  lemma {:induction false} HavingTreeMeaning(h: HavingExpr, vals: seq<DbValue>, at: nat, env: Env, scopes: seq<Scope>)
    requires scopes != [] && BoundAt(vals, at, CollectParams(h))
    ensures Eval(HavingTree(h, at + 1), vals, env, scopes) == HavingMeaning(h, env)
    decreases h
  {
    match h
    case Compare(_, _, _, v) => assert CollectParams(h)[0] == v; assert vals[at + 0] == v;
    case CompareAgg(_, _, _, _, _) =>
    case HNot(x) => HavingTreeMeaning(x, vals, at, env, scopes);
    case _ =>
      BoundConcat(vals, at, CollectParams(h.left), CollectParams(h.right));
      HavingTreeMeaning(h.left, vals, at, env, scopes);
      HavingTreeMeaning(h.right, vals, at + HavingParamCount(h.left), env, scopes);
  }

  lemma BoundConcat(vals: seq<DbValue>, at: nat, a: seq<DbValue>, b: seq<DbValue>)
    requires BoundAt(vals, at, a + b)
    ensures BoundAt(vals, at, a) && BoundAt(vals, at + |a|, b)
  {
    forall k | 0 <= k < |a| ensures vals[at + k] == a[k] {
      assert (a + b)[k] == a[k];
    }
    forall k | 0 <= k < |b| ensures vals[at + |a| + k] == b[k] {
      assert (a + b)[|a| + k] == b[k];
      assert vals[at + (|a| + k)] == b[k];
    }
  }
}
