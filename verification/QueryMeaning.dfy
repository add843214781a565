/** The meaning of whole queries: what a run of builder calls asks of a row, and what the
    database computes for the compiled statement under the executed parameter vector. */
module QueryMeaning {
  import opened Wrappers
  import opened SqlAst
  import opened SqlCompile
  import opened SqlGrammar
  import opened SqlParseBack
  import opened SqlMeaning
  import opened QueryState
  import opened QueryBinding

  // ---------------------------------------------------------------------------
  // The meaning of a run of calls
  // ---------------------------------------------------------------------------

  /** What one call asks of a row, from the values it was given. */
  ghost function CallMeaning(c: Call, env: Env, row: Row): TV
    requires GoodCall(c)
    decreases c, 0
  {
    match c
    case FilterColumn(col, op, v) => EvalPred(env, op, Cell(row, col), [v])
    case FilterNot(col, op, v) => Not3(EvalPred(env, op, Cell(row, col), [v]))
    case FilterIn(col, vs) => EvalPred(env, "IN", Cell(row, col), vs)
    case FilterNotIn(col, vs) => Not3(EvalPred(env, "IN", Cell(row, col), vs))
    case FilterIsNull(col) => if Cell(row, col) == Null then T else F
    case FilterIsNotNull(col) => if Cell(row, col) == Null then F else T
    case FilterBetween(col, lo, hi) => EvalPred(env, "BETWEEN", Cell(row, col), [lo, hi])
    case WhereExists(s, negated) => Unless(negated, if OwnRelated(s, env, row) then T else F)
    case WhereInSubquery(s, negated) => Unless(negated, OwnIn(s, env, row))
    case ApplyQueryFilter(e) => OwnMeaning(e, env, row)
    case OrWhere(sub) => (match CallsMeaning(None, sub, env, row) case None => U case Some(m) => m)
    case _ => T
  }

  function Unless(negated: bool, v: TV): TV {
    if negated then Not3(v) else v
  }

  /** What a tree asks of a row when each condition compares with the values it carries itself. */
  ghost function OwnMeaning(e: BoolExpr, env: Env, row: Row): TV
    decreases e, 0
  {
    match e
    case Filter(f) => EvalPred(env, f.operator, Cell(row, f.column), f.values)
    case And(a, b) => And3(OwnMeaning(a, env, row), OwnMeaning(b, env, row))
    case Or(a, b) => Or3(OwnMeaning(a, env, row), OwnMeaning(b, env, row))
    case Not(x) => Not3(OwnMeaning(x, env, row))
    case Exists(s) => if OwnRelated(s, env, row) then T else F
    case NotExists(s) => if OwnRelated(s, env, row) then F else T
    case InSubquery(s) => OwnIn(s, env, row)
    case NotInSubquery(s) => Not3(OwnIn(s, env, row))
  }

  ghost predicate OwnHolds(p: Option<BoolExpr>, env: Env, row: Row)
    decreases p
  {
    match p
    case None => true
    case Some(x) => OwnMeaning(x, env, row) == T
  }

  /** Some row of the related table that points to this one satisfies the predicate. */
  ghost predicate OwnRelated(s: SubquerySpec, env: Env, row: Row)
    decreases s
  {
    exists r :: r in Rows(env, s.relatedTable) && Linked(s, env, row, r) && OwnHolds(s.pred, env, r)
  }

  /** The column's value is among the projected ones of the rows that satisfy the predicate. */
  ghost function OwnIn(s: InSubquerySpec, env: Env, row: Row): TV
    decreases s
  {
    InRows(env, Cell(row, s.outerColumn), s.projection, Rows(env, s.sourceTable), r => OwnHolds(s.pred, env, r))
  }

  /** Calls AND their condition to what came before, except that an OR-ed sub-query ORs it. */
  ghost function CallsMeaning(m: Option<TV>, calls: seq<Call>, env: Env, row: Row): Option<TV>
    requires GoodCalls(calls)
    decreases calls
  {
    if calls == [] then m
    else CallsMeaning(Combine(m, calls[0], env, row), calls[1..], env, row)
  }

  ghost function Combine(m: Option<TV>, c: Call, env: Env, row: Row): Option<TV>
    requires GoodCall(c)
    decreases c, 1
  {
    if !AddsWhere(c) then m
    else
      match m
      case None => Some(CallMeaning(c, env, row))
      case Some(x) => Some(if c.OrWhere? then Or3(x, CallMeaning(c, env, row)) else And3(x, CallMeaning(c, env, row)))
  }

  // ---------------------------------------------------------------------------
  // The WHERE tree has that meaning
  // ---------------------------------------------------------------------------

  /** `v` and `w` hold the same `n` values from `i` and `j`. */
  predicate SameValues(v: seq<DbValue>, i: nat, w: seq<DbValue>, j: nat, n: nat) {
    i + n <= |v| && j + n <= |w| && v[i..i + n] == w[j..j + n]
  }

  lemma SameSplit(v: seq<DbValue>, i: nat, w: seq<DbValue>, j: nat, m: nat, n: nat)
    requires SameValues(v, i, w, j, m + n)
    ensures SameValues(v, i, w, j, m) && SameValues(v, i + m, w, j + m, n)
  {
    var a, b := v[i..i + m + n], w[j..j + m + n];
    assert v[i..i + m] == a[..m] && w[j..j + m] == b[..m];
    assert v[i + m..i + m + n] == a[m..] && w[j + m..j + m + n] == b[m..];
  }

  /** The meaning of a tree depends only on its own values. */
  lemma {:induction false} MeaningShift(e: BoolExpr, v: seq<DbValue>, i: nat, w: seq<DbValue>, j: nat, env: Env,
                                        row: Row)
    requires SameValues(v, i, w, j, TotalParamCount(e))
    ensures Meaning(e, v, i, env, row) == Meaning(e, w, j, env, row)
    decreases e, 1
  {
    match e
    case Filter(_) =>
    case And(_, _) => ShiftBoth(e, v, i, w, j, env, row);
    case Or(_, _) => ShiftBoth(e, v, i, w, j, env, row);
    case Not(x) => MeaningShift(x, v, i, w, j, env, row);
    case Exists(s) => ShiftRelated(s, v, i, w, j, env, row);
    case NotExists(s) => ShiftRelated(s, v, i, w, j, env, row);
    case InSubquery(s) => ShiftIn(s, v, i, w, j, env, row);
    case NotInSubquery(s) => ShiftIn(s, v, i, w, j, env, row);
  }

  lemma {:induction false} ShiftBoth(e: BoolExpr, v: seq<DbValue>, i: nat, w: seq<DbValue>, j: nat, env: Env, row: Row)
    requires (e.And? || e.Or?) && SameValues(v, i, w, j, TotalParamCount(e))
    ensures Meaning(e, v, i, env, row) == Meaning(e, w, j, env, row)
    decreases e, 0
  {
    var n := TotalParamCount(e.left);
    SameSplit(v, i, w, j, n, TotalParamCount(e.right));
    MeaningShift(e.left, v, i, w, j, env, row);
    MeaningShift(e.right, v, i + n, w, j + n, env, row);
  }

  lemma {:induction false} ShiftRelated(s: SubquerySpec, v: seq<DbValue>, i: nat, w: seq<DbValue>, j: nat, env: Env,
                                        row: Row)
    requires SameValues(v, i, w, j, OptParamCount(s.pred))
    ensures AnyRelated(s, v, i, env, row) <==> AnyRelated(s, w, j, env, row)
    decreases s
  {
    ShiftHolds(s.pred, v, i, w, j, env);
    if AnyRelated(s, v, i, env, row) {
      var r :| r in Rows(env, s.relatedTable) && Linked(s, env, row, r) && Holds(s.pred, v, i, env, r);
      assert Holds(s.pred, w, j, env, r);
    }
    if AnyRelated(s, w, j, env, row) {
      var r :| r in Rows(env, s.relatedTable) && Linked(s, env, row, r) && Holds(s.pred, w, j, env, r);
      assert Holds(s.pred, v, i, env, r);
    }
  }

  lemma {:induction false} ShiftIn(s: InSubquerySpec, v: seq<DbValue>, i: nat, w: seq<DbValue>, j: nat, env: Env,
                                   row: Row)
    requires SameValues(v, i, w, j, OptParamCount(s.pred))
    ensures InMeaning(s, v, i, env, row) == InMeaning(s, w, j, env, row)
    decreases s
  {
    ShiftHolds(s.pred, v, i, w, j, env);
    InRowsSame(env, Cell(row, s.outerColumn), s.projection, Rows(env, s.sourceTable),
               r => Holds(s.pred, v, i, env, r), r => Holds(s.pred, w, j, env, r));
  }

  lemma InRowsSame(env: Env, v: DbValue, proj: string, rows: seq<Row>, p: Row -> bool, q: Row -> bool)
    requires forall r :: p(r) == q(r)
    ensures InRows(env, v, proj, rows, p) == InRows(env, v, proj, rows, q)
  {
  }

  lemma {:induction false} ShiftHolds(p: Option<BoolExpr>, v: seq<DbValue>, i: nat, w: seq<DbValue>, j: nat, env: Env)
    requires SameValues(v, i, w, j, OptParamCount(p))
    ensures forall r :: Holds(p, v, i, env, r) <==> Holds(p, w, j, env, r)
    decreases p
  {
    if p.Some? {
      forall r ensures Holds(p, v, i, env, r) <==> Holds(p, w, j, env, r) {
        MeaningShift(p.value, v, i, w, j, env, r);
      }
    }
  }

  /** `v` holds the values a tree carries, from `i` on. */
  predicate Carried(v: seq<DbValue>, i: nat, own: seq<DbValue>) {
    i + |own| <= |v| && v[i..i + |own|] == own
  }

  lemma CarriedSplit(v: seq<DbValue>, i: nat, a: seq<DbValue>, b: seq<DbValue>)
    requires Carried(v, i, a + b)
    ensures Carried(v, i, a) && Carried(v, i + |a|, b)
  {
    var w := v[i..i + |a + b|];
    assert v[i..i + |a|] == w[..|a|] == a;
    assert v[i + |a|..i + |a| + |b|] == w[|a|..] == b;
  }

  /** A tree means what each of its conditions asks with the values it carries, when the vector lists those
      in the order they are collected. */
  lemma {:induction false} OwnIs(e: BoolExpr, v: seq<DbValue>, i: nat, env: Env, row: Row)
    requires AllFilters(e, CarriesValues) && Carried(v, i, CollectValues(e))
    ensures i + TotalParamCount(e) <= |v| && Meaning(e, v, i, env, row) == OwnMeaning(e, env, row)
    decreases e, 1
  {
    CollectedCount(e);
    match e
    case Filter(_) =>
    case And(_, _) => OwnBoth(e, v, i, env, row);
    case Or(_, _) => OwnBoth(e, v, i, env, row);
    case Not(x) => OwnIs(x, v, i, env, row);
    case Exists(s) => OwnRelatedIs(s, v, i, env, row);
    case NotExists(s) => OwnRelatedIs(s, v, i, env, row);
    case InSubquery(s) => OwnInIs(s, v, i, env, row);
    case NotInSubquery(s) => OwnInIs(s, v, i, env, row);
  }

  lemma {:induction false} OwnBoth(e: BoolExpr, v: seq<DbValue>, i: nat, env: Env, row: Row)
    requires (e.And? || e.Or?) && AllFilters(e, CarriesValues) && Carried(v, i, CollectValues(e))
    ensures i + TotalParamCount(e) <= |v|
    ensures Meaning(e.left, v, i, env, row) == OwnMeaning(e.left, env, row)
    ensures Meaning(e.right, v, i + TotalParamCount(e.left), env, row) == OwnMeaning(e.right, env, row)
    decreases e, 0
  {
    CollectedCount(e.left);
    CollectedCount(e.right);
    CarriedSplit(v, i, CollectValues(e.left), CollectValues(e.right));
    OwnIs(e.left, v, i, env, row);
    OwnIs(e.right, v, i + TotalParamCount(e.left), env, row);
  }

  lemma {:induction false} OwnHoldsIs(p: Option<BoolExpr>, v: seq<DbValue>, i: nat, env: Env)
    requires (p.Some? ==> AllFilters(p.value, CarriesValues)) && Carried(v, i, OptValues(p))
    ensures i + OptParamCount(p) <= |v|
    ensures forall r :: Holds(p, v, i, env, r) <==> OwnHolds(p, env, r)
    decreases p
  {
    if p.Some? {
      CollectedCount(p.value);
      forall r ensures Holds(p, v, i, env, r) <==> OwnHolds(p, env, r) { OwnIs(p.value, v, i, env, r); }
    }
  }

  lemma {:induction false} OwnRelatedIs(s: SubquerySpec, v: seq<DbValue>, i: nat, env: Env, row: Row)
    requires (s.pred.Some? ==> AllFilters(s.pred.value, CarriesValues)) && Carried(v, i, OptValues(s.pred))
    ensures i + OptParamCount(s.pred) <= |v|
    ensures AnyRelated(s, v, i, env, row) <==> OwnRelated(s, env, row)
    decreases s
  {
    OwnHoldsIs(s.pred, v, i, env);
    if AnyRelated(s, v, i, env, row) {
      var r :| r in Rows(env, s.relatedTable) && Linked(s, env, row, r) && Holds(s.pred, v, i, env, r);
      assert OwnHolds(s.pred, env, r);
    }
    if OwnRelated(s, env, row) {
      var r :| r in Rows(env, s.relatedTable) && Linked(s, env, row, r) && OwnHolds(s.pred, env, r);
      assert Holds(s.pred, v, i, env, r);
    }
  }

  lemma {:induction false} OwnInIs(s: InSubquerySpec, v: seq<DbValue>, i: nat, env: Env, row: Row)
    requires (s.pred.Some? ==> AllFilters(s.pred.value, CarriesValues)) && Carried(v, i, OptValues(s.pred))
    ensures i + OptParamCount(s.pred) <= |v|
    ensures InMeaning(s, v, i, env, row) == OwnIn(s, env, row)
    decreases s
  {
    OwnHoldsIs(s.pred, v, i, env);
    InRowsSame(env, Cell(row, s.outerColumn), s.projection, Rows(env, s.sourceTable),
               r => Holds(s.pred, v, i, env, r), r => OwnHolds(s.pred, env, r));
  }

  /** `m` is the meaning of the WHERE tree `w` under the values `vs`. */
  ghost predicate Tracks(w: Option<BoolExpr>, vs: seq<DbValue>, m: Option<TV>, env: Env, row: Row) {
    && |vs| == OptParamCount(w) && (w.Some? <==> m.Some?)
    && (w.Some? ==> m.value == Meaning(w.value, vs, 0, env, row))
  }

  /** Joining a tree on the right appends its values and combines the meanings. */
  lemma TrackJoined(w: Option<BoolExpr>, vs: seq<DbValue>, m: Option<TV>, t: BoolExpr, us: seq<DbValue>, env: Env,
                    row: Row)
    requires Tracks(w, vs, m, env, row) && |us| == TotalParamCount(t)
    ensures w.None? ==> Tracks(Some(t), vs + us, Some(Meaning(t, us, 0, env, row)), env, row)
    ensures w.Some? ==> Tracks(AndWhere(w, t), vs + us, Some(And3(m.value, Meaning(t, us, 0, env, row))), env, row)
    ensures w.Some? ==> Tracks(OrRight(w, t), vs + us, Some(Or3(m.value, Meaning(t, us, 0, env, row))), env, row)
  {
    var n := |vs|;
    assert (vs + us)[n..n + |us|] == us == us[0..0 + |us|];
    MeaningShift(t, vs + us, n, us, 0, env, row);
    if w.Some? {
      assert (vs + us)[0..0 + n] == vs == vs[0..0 + n];
      MeaningShift(w.value, vs + us, 0, vs, 0, env, row);
    }
  }

  /** A call's tree has as many parameters as it has values, and the call's meaning. */
  lemma CallTreeMeaning(c: Call, env: Env, row: Row)
    requires GoodCall(c) && AddsWhere(c) && !c.OrWhere?
    ensures TotalParamCount(CallTree(c).value) == |CallValues(c)|
    ensures Meaning(CallTree(c).value, CallValues(c), 0, env, row) == CallMeaning(c, env, row)
  {
    match c
    case WhereExists(s, _) =>
      CollectedCount(CallTree(c).value);
      OwnIs(CallTree(c).value, CallValues(c), 0, env, row);
    case WhereInSubquery(s, _) =>
      CollectedCount(CallTree(c).value);
      OwnIs(CallTree(c).value, CallValues(c), 0, env, row);
    case ApplyQueryFilter(e) =>
      CollectedCount(e);
      OwnIs(e, CallValues(c), 0, env, row);
    case FilterIn(_, vs) => assert vs[0..|vs|] == vs;
    case FilterNotIn(_, vs) => assert vs[0..|vs|] == vs;
    case FilterColumn(_, _, v) => assert [v][0..1] == [v];
    case FilterNot(_, _, v) => assert [v][0..1] == [v];
    case FilterBetween(_, lo, hi) => assert [lo, hi][0..2] == [lo, hi];
    case FilterIsNull(_) =>
    case FilterIsNotNull(_) =>
  }

  lemma {:induction false} CallTracks(s: State, vs: seq<DbValue>, m: Option<TV>, c: Call, env: Env, row: Row)
    requires GoodCall(c) && Tracks(s.where_, vs, m, env, row)
    ensures Tracks(Apply(s, c).where_, vs + Only(Pushes(c), ForWhere), Combine(m, c, env, row), env, row)
    decreases c, 0
  {
    if !AddsWhere(c) {
      NoWhereValues(c);
      assert vs + [] == vs;
      AppliedUnchanged(s, c);
    } else if c.OrWhere? {
      RunTracks(EMPTY, [], None, c.sub, env, row);
      RunParameters(EMPTY, c.sub);
      OnlyLose(AllPushes(c.sub));
      var us := Only(AllPushes(c.sub), ForWhere);
      assert [] + us == us;
      TrackJoined(s.where_, vs, m, Run(EMPTY, c.sub).where_.value, us, env, row);
    } else {
      CallTreeMeaning(c, env, row);
      OnlyTagged(ForWhere, CallValues(c), ForWhere);
      TrackJoined(s.where_, vs, m, CallTree(c).value, CallValues(c), env, row);
    }
  }

  lemma NoWhereValues(c: Call)
    requires !AddsWhere(c)
    ensures Only(Pushes(c), ForWhere) == []
  {
    if c.Having? { OnlyTagged(ForHaving, CollectParams(c.expr), ForWhere); }
  }

  lemma AppliedUnchanged(s: State, c: Call)
    requires !AddsWhere(c)
    ensures Apply(s, c).where_ == s.where_
  {
    if c.OrWhere? { RunParameters(EMPTY, c.sub); }
  }

  /** After any run, the WHERE tree means what the calls mean, under the values pushed for WHERE. */
  lemma {:induction false} RunTracks(s: State, vs: seq<DbValue>, m: Option<TV>, calls: seq<Call>, env: Env, row: Row)
    requires GoodCalls(calls) && Tracks(s.where_, vs, m, env, row)
    ensures Tracks(Run(s, calls).where_, vs
         + Only(AllPushes(calls), ForWhere), CallsMeaning(m, calls, env, row), env, row)
    decreases calls, 0
  {
    if calls == [] {
      assert vs + [] == vs;
    } else {
      var c := calls[0];
      var own, more := Only(Pushes(c), ForWhere), Only(AllPushes(calls[1..]), ForWhere);
      CallTracks(s, vs, m, c, env, row);
      RunTracks(Apply(s, c), vs + own, Combine(m, c, env, row), calls[1..], env, row);
      OnlyConcat(Pushes(c), AllPushes(calls[1..]), ForWhere);
      assert (vs + own) + more == vs + (own + more);
    }
  }

  // ---------------------------------------------------------------------------
  // Numbering of the statement
  // ---------------------------------------------------------------------------

  function TextsCount(ts: Texts): nat {
    match ts
    case NoTexts => 0
    case Push(before, t) => TextsCount(before) + PhCount(t)
  }

  /** Consecutive texts numbered contiguously from `i`. */
  predicate TextsContiguous(ts: Texts, i: nat) {
    match ts
    case NoTexts => true
    case Push(before, t) => TextsContiguous(before, i) && Contiguous(t, i + TextsCount(before))
  }

  function OptCount(t: Option<Text>): nat {
    match t
    case None => 0
    case Some(x) => PhCount(x)
  }

  function StatementCount(st: Statement): nat {
    TextsCount(st.ctes) + OptCount(st.where_) + TextsCount(st.havings)
  }

  /** In text order (CTE bodies, WHERE, HAVING) the placeholders are numbered `1, 2, ...`. */
  predicate StatementContiguous(st: Statement) {
    var w := 1 + TextsCount(st.ctes);
    && TextsContiguous(st.ctes, 1)
    && (st.where_.Some? ==> Contiguous(st.where_.value, w))
    && TextsContiguous(st.havings, w + OptCount(st.where_))
  }

  /** CTEs as the builder makes them: self-contained bodies with their values extracted. */
  predicate GoodCtes(ctes: seq<Cte>) {
    forall k :: 0 <= k < |ctes| ==> GoodCte(ctes[k])
  }

  predicate GoodCte(c: Cte) {
    SelfContained(c.where_) && c.params == CollectValues(c.where_)
  }

  lemma {:induction false} CteNumbering(ctes: seq<Cte>, n: nat)
    requires GoodCtes(ctes) && n <= |ctes|
    ensures TextsContiguous(CteTexts(ctes, n, 1), 1)
    ensures TextsCount(CteTexts(ctes, n, 1)) == CteParamCount(ctes, n) == |CteParams(ctes, n)|
    ensures CteNext(ctes, n, 1) == 1 + CteParamCount(ctes, n)
  {
    hide CompileBoolExpr, CollectValues, TotalParamCount, NextIndex;
    if n > 0 {
      var c := ctes[n - 1];
      CteNumbering(ctes, n - 1);
      CompiledNumbering(c.where_, CteNext(ctes, n - 1, 1), End);
      NextIndexCounts(c.where_, CteNext(ctes, n - 1, 1));
      CollectedCount(c.where_);
    }
  }

  lemma {:induction false} HavingsNumbering(hs: seq<HavingExpr>, n: nat, j: nat)
    requires n <= |hs|
    ensures TextsContiguous(HavingTexts(hs, n, j), j)
    ensures j + TextsCount(HavingTexts(hs, n, j)) == HavingNext(hs, n, j) == j + |HavingParams(hs, n)|
  {
    hide CompileHaving, CollectParams;
    if n > 0 {
      HavingsNumbering(hs, n - 1, j);
      HavingNumbering(hs[n - 1], HavingNext(hs, n - 1, j), End);
    }
  }

  lemma WhereNumbering(w: Option<BoolExpr>, start: nat)
    requires WellFormedWhere(w)
    ensures w.Some? ==> Contiguous(CompileBoolExpr(w.value, start, End), start)
    ensures w.Some? ==> PhCount(CompileBoolExpr(w.value, start, End)) == OptParamCount(w)
    ensures WhereNext(w, start) == start + OptParamCount(w)
  {
    if w.Some? {
      CompiledNumbering(w.value, start, End);
      NextIndexCounts(w.value, start);
    }
  }

  predicate WellFormedWhere(w: Option<BoolExpr>) {
    w.Some? ==> WellFormed(w.value)
  }

  lemma WherePart(s: State, m: nat)
    requires WellFormedWhere(s.where_) && m == CteParamCount(s.ctes, |s.ctes|)
    ensures StatementOf(s).where_.Some? ==> Contiguous(StatementOf(s).where_.value, 1 + m)
    ensures OptCount(StatementOf(s).where_) == OptParamCount(s.where_)
  {
    WhereNumbering(s.where_, 1 + m);
  }

  lemma HavingPart(s: State, m: nat)
    requires WellFormedWhere(s.where_) && m == CteParamCount(s.ctes, |s.ctes|)
    ensures TextsContiguous(StatementOf(s).havings, 1 + m + OptParamCount(s.where_))
    ensures TextsCount(StatementOf(s).havings) == |HavingParams(s.havings, |s.havings|)|
  {
    hide Contiguous, TextsContiguous, TextsCount, CompileBoolExpr, CompileHaving, PhCount, HavingParams;
    WhereNumbering(s.where_, 1 + m);
    var j := WhereNext(s.where_, 1 + m);
    HavingsNumbering(s.havings, |s.havings|, j);
    assert StatementOf(s).havings == HavingTexts(s.havings, |s.havings|, j);
  }

  /** The whole statement is numbered `1, 2, ...` in text order and has one placeholder for
      each CTE, WHERE and HAVING value. */
  lemma StatementNumbering(s: State)
    requires GoodCtes(s.ctes) && WellFormedWhere(s.where_)
    ensures StatementContiguous(StatementOf(s))
    ensures StatementCount(StatementOf(s))
         == CteParamCount(s.ctes, |s.ctes|) + OptParamCount(s.where_) + |HavingParams(s.havings, |s.havings|)|
  {
    hide TextsContiguous, Contiguous, TextsCount, PhCount, CompileBoolExpr, HavingTexts;
    var m := CteParamCount(s.ctes, |s.ctes|);
    CteNumbering(s.ctes, |s.ctes|);
    WherePart(s, m);
    HavingPart(s, m);
  }

  // ---------------------------------------------------------------------------
  // Main results
  // ---------------------------------------------------------------------------

  lemma {:induction false} AppliedWellFormed(s: State, c: Call)
    requires GoodCall(c) && WellFormedWhere(s.where_)
    ensures WellFormedWhere(Apply(s, c).where_)
    decreases c, 0
  {
    if c.OrWhere? {
      RunWellFormed(EMPTY, c.sub);
    } else if AddsWhere(c) {
      assert WellFormed(CallTree(c).value);
    }
  }

  lemma {:induction false} RunWellFormed(s: State, calls: seq<Call>)
    requires GoodCalls(calls) && WellFormedWhere(s.where_)
    ensures WellFormedWhere(Run(s, calls).where_)
    decreases calls, 0
  {
    if calls != [] {
      AppliedWellFormed(s, calls[0]);
      RunWellFormed(Apply(s, calls[0]), calls[1..]);
    }
  }

  lemma {:induction false} GoodCteSpecs(calls: seq<Call>)
    requires GoodCalls(calls)
    ensures GoodCtes(CteSpecs(calls))
    decreases |calls|
  {
    if calls != [] { GoodCteSpecs(calls[1..]); }
  }

  /** The values given to the conditions of a run, in the order the conditions stand in the text. */
  function TextOrderValues(calls: seq<Call>): seq<DbValue> {
    var ctes := CteSpecs(calls);
    CteParams(ctes, |ctes|) + (Only(AllPushes(calls), ForWhere) + Only(AllPushes(calls), ForHaving))
  }

  lemma RunState(calls: seq<Call>)
    requires GoodCalls(calls)
    ensures var s := Run(EMPTY, calls);
      && s.parameters == ValuesOf(AllPushes(calls))
      && s.havings == HavingExprs(calls) && s.ctes == CteSpecs(calls)
      && GoodCtes(s.ctes) && WellFormedWhere(s.where_)
      && OptParamCount(s.where_) == |Only(AllPushes(calls), ForWhere)|
      && HavingParams(s.havings, |s.havings|) == Only(AllPushes(calls), ForHaving)
  {
    RunParameters(EMPTY, calls);
    RunClauses(EMPTY, calls);
    RunWellFormed(EMPTY, calls);
    GoodCteSpecs(calls);
    PushedHavings(calls);
    var env := Env(map[], (op, a, b) => U, (g, c) => Null);
    RunTracks(EMPTY, [], None, calls, env, map[]);
    var w := Only(AllPushes(calls), ForWhere);
    assert [] + w == w;
    assert [] + HavingExprs(calls) == HavingExprs(calls);
    assert [] + CteSpecs(calls) == CteSpecs(calls);
    assert [] + ValuesOf(AllPushes(calls)) == ValuesOf(AllPushes(calls));
  }

  /** Binding of whole queries, for every run of builder calls. The statement has one
      placeholder per given value, numbered by position. The parameter vector lists the
      values in text order if the calls are in order (no WHERE value pushed after a HAVING
      value, none lost in an OR-ed sub-query); when the pushed values all differ, only then. */
  lemma WholeQueryBinding(calls: seq<Call>)
    requires GoodCalls(calls)
    ensures var s, ps := Run(EMPTY, calls), AllPushes(calls);
      && StatementContiguous(StatementOf(s))
      && StatementCount(StatementOf(s)) == |TextOrderValues(calls)|
      && (InOrder(ps) ==> AllParamsOf(s) == TextOrderValues(calls))
      && (AllDifferent(ps) ==> (AllParamsOf(s) == TextOrderValues(calls) <==> InOrder(ps)))
  {
    var s, ps := Run(EMPTY, calls), AllPushes(calls);
    var c, v, u := CteParams(s.ctes, |s.ctes|), ValuesOf(ps), Only(ps, ForWhere) + Only(ps, ForHaving);
    RunState(calls);
    StatementNumbering(s);
    CteNumbering(s.ctes, |s.ctes|);
    if InOrder(ps) {
      OrderedPushes(ps);
    } else if AllDifferent(ps) {
      DisorderedPushes(ps);
      SameTail(c, v, u);
    }
  }

  lemma SameTail(front: seq<DbValue>, a: seq<DbValue>, b: seq<DbValue>)
    ensures front + a == front + b <==> a == b
  {
    assert (front + a)[|front|..] == a && (front + b)[|front|..] == b;
  }

  /** A tree whose values stand in the middle of a vector. */
  lemma MiddleMeaning(e: BoolExpr, c: seq<DbValue>, w: seq<DbValue>, h: seq<DbValue>, env: Env, row: Row)
    requires |w| == TotalParamCount(e)
    ensures Meaning(e, c + (w + h), |c|, env, row) == Meaning(e, w, 0, env, row)
  {
    assert (c + (w + h))[|c|..|c| + |w|] == w == w[0..0 + |w|];
    MeaningShift(e, c + (w + h), |c|, w, 0, env, row);
  }

  /** The WHERE clause the database reads means what the calls asked for, under the
      executed parameter vector, for every ordered run and every row. */
  lemma WholeQueryMeaning(calls: seq<Call>, env: Env, table: string, row: Row)
    requires GoodCalls(calls) && InOrder(AllPushes(calls)) && HasWhere(calls)
    requires Run(EMPTY, calls).where_.Some? ==> ReadAsMeant(Run(EMPTY, calls).where_.value, table)
    ensures var s := Run(EMPTY, calls);
      && StatementOf(s).where_.Some?
      && var p := ParseOr(StatementOf(s).where_.value);
      && p.Parsed? && p.rest == End
      && CallsMeaning(None, calls, env, row) == Some(Eval(p.x, AllParamsOf(s), env, [Scope(table, row)]))
  {
    var s, ps := Run(EMPTY, calls), AllPushes(calls);
    var w := Only(ps, ForWhere);
    RunState(calls);
    RunParameters(EMPTY, calls);
    WholeQueryBinding(calls);
    CteNumbering(s.ctes, |s.ctes|);
    RunTracks(EMPTY, [], None, calls, env, row);
    assert [] + w == w;
    MiddleMeaning(s.where_.value, CteParams(s.ctes, |s.ctes|), w, Only(ps, ForHaving), env, row);
    CompiledMeaning(s.where_.value, End, AllParamsOf(s), CteParamCount(s.ctes, |s.ctes|), env, [Scope(table, row)]);
  }

  /** Index of the first placeholder of the `k`-th HAVING condition. */
  function HavingIndex(s: State, k: nat): nat
    requires k <= |s.havings|
  {
    HavingNext(s.havings, k, WhereNext(s.where_, 1 + CteParamCount(s.ctes, |s.ctes|)))
  }

  /** CTE and WHERE values, in front of the HAVING values. */
  function BeforeHaving(calls: seq<Call>): seq<DbValue> {
    var ctes := CteSpecs(calls);
    CteParams(ctes, |ctes|) + Only(AllPushes(calls), ForWhere)
  }

  lemma ParameterVector(calls: seq<Call>)
    requires GoodCalls(calls) && InOrder(AllPushes(calls))
    ensures var s := Run(EMPTY, calls);
      && AllParamsOf(s) == BeforeHaving(calls) + HavingParams(s.havings, |s.havings|)
      && WhereNext(s.where_, 1 + CteParamCount(s.ctes, |s.ctes|)) == 1 + |BeforeHaving(calls)|
  {
    var s, ps := Run(EMPTY, calls), AllPushes(calls);
    RunState(calls);
    WholeQueryBinding(calls);
    CteNumbering(s.ctes, |s.ctes|);
    WhereNumbering(s.where_, 1 + CteParamCount(s.ctes, |s.ctes|));
    Associative(CteParams(s.ctes, |s.ctes|), Only(ps, ForWhere), Only(ps, ForHaving));
  }

  lemma HavingPosition(calls: seq<Call>, k: nat)
    requires GoodCalls(calls) && InOrder(AllPushes(calls)) && k < |Run(EMPTY, calls).havings|
    ensures var s := Run(EMPTY, calls);
      HavingIndex(s, k) >= 1 && BoundAt(AllParamsOf(s), HavingIndex(s, k) - 1, CollectParams(s.havings[k]))
  {
    hide Run, Only, AllPushes, TextsContiguous, CompileHaving;
    var s := Run(EMPTY, calls);
    ParameterVector(calls);
    HavingsNumbering(s.havings, k, 1 + |BeforeHaving(calls)|);
    OwnHavingParams(s.havings, |s.havings|, k);
    MoreBound(BeforeHaving(calls), HavingParams(s.havings, |s.havings|), [],
              |HavingParams(s.havings, k)|, CollectParams(s.havings[k]));
    assert HavingParams(s.havings, |s.havings|) + [] == HavingParams(s.havings, |s.havings|);
  }

  function TextsLength(ts: Texts): nat {
    match ts
    case NoTexts => 0
    case Push(before, _) => TextsLength(before) + 1
  }

  /** The text at position `k`. */
  function TextAt(ts: Texts, k: nat): Text
    requires k < TextsLength(ts)
  {
    if k == TextsLength(ts.before) then ts.last else TextAt(ts.before, k)
  }

  lemma {:induction false} HavingTextAt(hs: seq<HavingExpr>, n: nat, i: nat, k: nat)
    requires n <= |hs|
    ensures TextsLength(HavingTexts(hs, n, i)) == n
    ensures k < n ==> TextAt(HavingTexts(hs, n, i), k) == CompileHaving(hs[k], HavingNext(hs, k, i), End)
  {
    hide CompileHaving;
    if n > 0 { HavingTextAt(hs, n - 1, i, k); }
  }

  lemma {:induction false} CteTextAt(ctes: seq<Cte>, n: nat, i: nat, k: nat)
    requires n <= |ctes|
    ensures TextsLength(CteTexts(ctes, n, i)) == n
    ensures k < n ==> TextAt(CteTexts(ctes, n, i), k) == CompileBoolExpr(ctes[k].where_, CteNext(ctes, k, i), End)
  {
    hide CompileBoolExpr;
    if n > 0 { CteTextAt(ctes, n - 1, i, k); }
  }

  /** The statement has one HAVING text for each HAVING call, in call order; each is one factor of the clause
      and means the condition of its call under that call's own values. */
  lemma WholeQueryHaving(calls: seq<Call>, k: nat, env: Env, scopes: seq<Scope>)
    requires GoodCalls(calls) && InOrder(AllPushes(calls)) && k < |HavingExprs(calls)| && scopes != []
    ensures var s := Run(EMPTY, calls);
      && TextsLength(StatementOf(s).havings) == |HavingExprs(calls)|
      && var p := ParseFactor(TextAt(StatementOf(s).havings, k));
      && p.Parsed? && p.rest == End
      && Eval(p.x, AllParamsOf(s), env, scopes) == HavingMeaning(HavingExprs(calls)[k], env)
  {
    hide CompileHaving, ParseFactor, Eval, AllPushes, AllParamsOf, InOrder, TextAt, TextsLength, CompileBoolExpr;
    var s := Run(EMPTY, calls);
    RunState(calls);
    var i := HavingIndex(s, k);
    HavingTextAt(s.havings, |s.havings|, HavingIndex(s, 0), k);
    HavingPosition(calls, k);
    HavingBack(s.havings[k], i, End);
    HavingTreeMeaning(s.havings[k], AllParamsOf(s), i - 1, env, scopes);
  }

  lemma {:induction false} OwnCteParams(ctes: seq<Cte>, n: nat, k: nat)
    requires k < n <= |ctes|
    ensures BoundAt(CteParams(ctes, n), |CteParams(ctes, k)|, ctes[k].params)
  {
    if k < n - 1 {
      OwnCteParams(ctes, n - 1, k);
      MoreBound([], CteParams(ctes, n - 1), ctes[n - 1].params, |CteParams(ctes, k)|, ctes[k].params);
      assert [] + CteParams(ctes, n) == CteParams(ctes, n);
    }
  }

  /** The statement has one CTE body for each CTE call, in call order; each means the condition of its call
      under that call's own values, whatever else the builder was given. */
  lemma WholeQueryCte(calls: seq<Call>, k: nat, env: Env, row: Row)
    requires GoodCalls(calls) && k < |CteSpecs(calls)|
    requires ReadAsMeant(CteSpecs(calls)[k].where_, CteSpecs(calls)[k].table)
    ensures SelfContained(CteSpecs(calls)[k].where_)
    ensures var s, cte := Run(EMPTY, calls), CteSpecs(calls)[k];
      && TextsLength(StatementOf(s).ctes) == |CteSpecs(calls)|
      && var p := ParseOr(TextAt(StatementOf(s).ctes, k));
      && p.Parsed? && p.rest == End
      && Eval(p.x, AllParamsOf(s), env, [Scope(cte.table, row)]) == OwnMeaning(cte.where_, env, row)
  {
    hide CompileBoolExpr, ParseOr, Eval, AllPushes, TextAt, TextsLength, Meaning, CollectValues, AllFilters, Faithful;
    hide Run, CteSpecs, CteTexts, AllParamsOf, Carried, CteParamCount, CteNext, WellFormed;
    var s, cte := Run(EMPTY, calls), CteSpecs(calls)[k];
    RunState(calls);
    assert GoodCte(s.ctes[k]);
    CteTextAt(s.ctes, |s.ctes|, 1, k);
    CteNumbering(s.ctes, k);
    var at := CteParamCount(s.ctes, k);
    CtePosition(s, k);
    OwnIs(cte.where_, AllParamsOf(s), at, env, row);
    CompiledMeaning(cte.where_, End, AllParamsOf(s), at, env, [Scope(cte.table, row)]);
  }

  /** A CTE's values stand in the vector at their place. */
  lemma CtePosition(s: State, k: nat)
    requires k < |s.ctes| && GoodCtes(s.ctes)
    ensures Carried(AllParamsOf(s), CteParamCount(s.ctes, k), s.ctes[k].params)
  {
    hide CteParams, CteParamCount, CteTexts, TextsContiguous, TextsCount, CteNext;
    var at, own, all := CteParamCount(s.ctes, k), s.ctes[k].params, AllParamsOf(s);
    CteNumbering(s.ctes, k);
    OwnCteParams(s.ctes, |s.ctes|, k);
    MoreBound([], CteParams(s.ctes, |s.ctes|), s.parameters, at, own);
    assert [] + all == all;
    assert all[at..at + |own|] == own;
  }

  lemma {:induction false} OwnHavingParams(hs: seq<HavingExpr>, n: nat, k: nat)
    requires k < n <= |hs|
    ensures BoundAt(HavingParams(hs, n), |HavingParams(hs, k)|, CollectParams(hs[k]))
  {
    if k < n - 1 {
      OwnHavingParams(hs, n - 1, k);
      MoreBound([], HavingParams(hs, n - 1), CollectParams(hs[n - 1]), |HavingParams(hs, k)|, CollectParams(hs[k]));
      assert [] + HavingParams(hs, n) == HavingParams(hs, n);
    }
  }

  lemma MoreBound(front: seq<DbValue>, vals: seq<DbValue>, more: seq<DbValue>, at: nat, own: seq<DbValue>)
    requires BoundAt(vals, at, own)
    ensures BoundAt(front + (vals + more), |front| + at, own)
  {
    forall k | 0 <= k < |own| ensures (front + (vals + more))[|front| + at + k] == own[k] {
      assert (front + (vals + more))[|front| + (at + k)] == (vals + more)[at + k] == vals[at + k];
    }
  }

  /** A HAVING call followed by a filter: the filter's placeholder comes first and binds the HAVING value. */
  lemma FilterAfterHaving(calls: seq<Call>)
    requires calls == [Having(Compare("COUNT", "id", ">", Int(1))), FilterColumn("age", "=", Int(2))]
    ensures AllParamsOf(Run(EMPTY, calls)) == [Int(1), Int(2)] && TextOrderValues(calls) == [Int(2), Int(1)]
  {
    hide TextOrderValues, AndWhere;
    assert calls[1..] == [calls[1]] && calls[1..][1..] == [];
    var s := Apply(EMPTY, calls[0]);
    assert s.parameters == [Int(1)];
    assert Run(EMPTY, calls) == Run(Apply(s, calls[1]), []);
    WhereComesFirst(calls);
  }

  lemma WhereComesFirst(calls: seq<Call>)
    requires calls == [Having(Compare("COUNT", "id", ">", Int(1))), FilterColumn("age", "=", Int(2))]
    ensures TextOrderValues(calls) == [Int(2), Int(1)]
  {
    hide Run, Apply, CallTree;
    var having, filter := calls[0], calls[1];
    var h, w := Parameter(ForHaving, Int(1)), Parameter(ForWhere, Int(2));
    assert calls[1..] == [filter] && [filter][1..] == [];
    assert Pushes(having) == [h] && Pushes(filter) == [w];
    assert AllPushes([filter]) == [w] + AllPushes([]) == [w];
    assert AllPushes(calls) == [h] + [w] == [h, w];
    assert [h, w][1..] == [w] && [w][1..] == [];
    assert Only([w], ForWhere) == [Int(2)] && Only([w], ForHaving) == [];
    assert CteSpecs([filter]) == [] && CteSpecs(calls) == [];
  }
}
