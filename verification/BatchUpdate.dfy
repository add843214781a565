/** The batched UPDATE statement: its placeholders, its parameters and what it does to the table. */
module BatchUpdate {
  import opened Wrappers
  import opened SqlAst
  import opened RowModel

  /** `UPDATE SET c = CASE pk WHEN ?k THEN ?v ... END, ... WHERE pk IN (?...) AND (filter)`: per column
      the placeholder pairs, then those of the list, then the first one of the filter. */
  datatype Statement = Statement(sets: seq<Prop>, whens: seq<seq<(nat, nat)>>, inList: seq<nat>, filterAt: nat)

  /** The value bound to placeholder `k`, counted in text order. */
  function Bound(params: seq<DbValue>, k: nat): DbValue {
    if 1 <= k <= |params| then params[k - 1] else Null
  }

  // ---------------------------------------------------------------------------
  // What the database does
  // ---------------------------------------------------------------------------

  predicate KeyIs(key: Key, v: DbValue) {
    v != Null && key == [v]
  }

  /** The first WHEN that matches from position `r` on; NULL when none does. */
  function FirstMatch(params: seq<DbValue>, whens: seq<(nat, nat)>, r: nat, key: Key): DbValue
    decreases |whens| - r
  {
    if r >= |whens| then Null
    else if KeyIs(key, Bound(params, whens[r].0)) then Bound(params, whens[r].1)
    else FirstMatch(params, whens, r + 1, key)
  }

  function SetRow(st: Statement, params: seq<DbValue>, key: Key, row: Row, n: nat): Row
    requires n <= |st.sets| == |st.whens|
  {
    if n == 0 then row
    else SetRow(st, params, key, row, n - 1)[st.sets[n - 1].column := FirstMatch(params, st.whens[n - 1], 0, key)]
  }

  function BoundFrom(params: seq<DbValue>, at: nat, n: nat): (r: seq<DbValue>)
    ensures |r| == n
  {
    seq(n, i requires 0 <= i => Bound(params, at + i))
  }

  predicate Selects(st: Statement, params: seq<DbValue>, f: Option<RowFilter>, key: Key, row: Row) {
    && (exists r :: 0 <= r < |st.inList| && KeyIs(key, Bound(params, st.inList[r])))
    && (f.Some? ==> f.value.holds(BoundFrom(params, st.filterAt, |f.value.values|), row))
  }

  function RunStatement(st: Statement, params: seq<DbValue>, f: Option<RowFilter>, t: Table): Table
    requires |st.sets| == |st.whens|
  {
    map k | k in t :: if Selects(st, params, f, k, t[k]) then SetRow(st, params, k, t[k], |st.sets|) else t[k]
  }

  function Affected(st: Statement, params: seq<DbValue>, f: Option<RowFilter>, t: Table): set<Key> {
    set k | k in t && Selects(st, params, f, k, t[k])
  }

  /** Rows are keyed by non-NULL values. */
  predicate ValidTable(t: Table) {
    forall k :: k in t ==> k != [] && forall i :: 0 <= i < |k| ==> k[i] != Null
  }

  // ---------------------------------------------------------------------------
  // Layout
  // ---------------------------------------------------------------------------

  /** Parameters before column `ci` when each column takes two per row. */
  function Base(ci: nat, rows: nat): nat {
    if ci == 0 then 0 else Base(ci - 1, rows) + 2 * rows
  }

  lemma {:induction false} BaseIs(ci: nat, rows: nat)
    ensures Base(ci, rows) == 2 * ci * rows
  {
    if ci > 0 {
      BaseIs(ci - 1, rows);
      assert 2 * ci * rows == 2 * (ci - 1) * rows + 2 * rows;
    }
  }

  /** Parameters of `rows` rows, each taking two per column and one in the list. */
  function Params(cols: nat, rows: nat): nat {
    if rows == 0 then 0 else Params(cols, rows - 1) + 2 * cols + 1
  }

  lemma {:induction false} ParamsAre(cols: nat, rows: nat)
    ensures Params(cols, rows) == (2 * cols + 1) * rows == 2 * cols * rows + rows
  {
    if rows > 0 {
      ParamsAre(cols, rows - 1);
      assert (2 * cols + 1) * rows == (2 * cols + 1) * (rows - 1) + (2 * cols + 1);
    }
  }

  lemma {:induction false} ParamsGrow(cols: nat, rows: nat, more: nat)
    requires rows <= more
    ensures Params(cols, rows) <= Params(cols, more)
  {
    if rows < more { ParamsGrow(cols, rows, more - 1); }
  }

  /** Placeholder pairs of one column, counted on from `idx`. */
  method WhenPairs(rows: nat, idx0: nat) returns (pairs: seq<(nat, nat)>, idx: nat)
    ensures |pairs| == rows && idx == idx0 + 2 * rows
    ensures forall r :: 0 <= r < rows ==> pairs[r] == (idx0 + 2 * r, idx0 + 2 * r + 1)
  {
    pairs, idx := [], idx0;
    for r := 0 to rows
      invariant |pairs| == r && idx == idx0 + 2 * r
      invariant forall q :: 0 <= q < r ==> pairs[q] == (idx0 + 2 * q, idx0 + 2 * q + 1)
    {
      var pk := idx;
      idx := idx + 1;
      var val := idx;
      idx := idx + 1;
      pairs := pairs + [(pk, val)];
    }
  }

  ghost predicate PairsAt(pairs: seq<(nat, nat)>, base: nat, rows: nat) {
    |pairs| == rows && forall r :: 0 <= r < rows ==> pairs[r] == (base + 2 * r + 1, base + 2 * r + 2)
  }

  /** The SET clause numbers its placeholders from 1 on. */
  method SetClause(cols: seq<Prop>, rows: nat) returns (whens: seq<seq<(nat, nat)>>)
    ensures |whens| == |cols| && forall ci :: 0 <= ci < |cols| ==> PairsAt(whens[ci], Base(ci, rows), rows)
  {
    whens := [];
    var idx := 1;
    for ci := 0 to |cols|
      invariant |whens| == ci && idx == Base(ci, rows) + 1
      invariant forall q :: 0 <= q < ci ==> PairsAt(whens[q], Base(q, rows), rows)
    {
      var pairs;
      pairs, idx := WhenPairs(rows, idx);
      whens := whens + [pairs];
    }
  }

  function KeyValue(e: Entity): DbValue {
    if |e.key| == 1 then e.key[0] else Null
  }

  /** The parameters from `base` on are key and value of each entity for one column. */
  ghost predicate PairedAt(params: seq<DbValue>, base: nat, p: Prop, batch: seq<Entity>) {
    && base + 2 * |batch| <= |params|
    && forall r :: 0 <= r < |batch| ==>
         params[base + 2 * r] == KeyValue(batch[r]) && params[base + 2 * r + 1] == ValueOf(batch[r], p)
  }

  method PushColumn(params0: seq<DbValue>, p: Prop, batch: seq<Entity>) returns (params: seq<DbValue>)
    ensures params0 <= params && |params| == |params0| + 2 * |batch| && PairedAt(params, |params0|, p, batch)
  {
    params := params0;
    ghost var base := |params0|;
    for r := 0 to |batch|
      invariant params0 <= params && |params| == base + 2 * r
      invariant forall q :: 0 <= q < r ==>
        params[base + 2 * q] == KeyValue(batch[q]) && params[base + 2 * q + 1] == ValueOf(batch[q], p)
    {
      params := params + [KeyValue(batch[r])];
      params := params + [ValueOf(batch[r], p)];
    }
  }

  lemma PairedPrefix(a: seq<DbValue>, b: seq<DbValue>, base: nat, p: Prop, batch: seq<Entity>)
    requires a <= b && PairedAt(a, base, p, batch)
    ensures PairedAt(b, base, p, batch)
  {
  }

  ghost predicate SetParams(params: seq<DbValue>, ps: seq<Prop>, n: nat, batch: seq<Entity>)
    requires n <= |ps|
  {
    forall ci :: 0 <= ci < n ==> PairedAt(params, Base(ci, |batch|), ps[ci], batch)
  }

  method PushSetParams(ps: seq<Prop>, batch: seq<Entity>) returns (params: seq<DbValue>)
    ensures |params| == Base(|ps|, |batch|) && SetParams(params, ps, |ps|, batch)
  {
    params := [];
    for ci := 0 to |ps|
      invariant |params| == Base(ci, |batch|) && SetParams(params, ps, ci, batch)
    {
      ghost var was := params;
      params := PushColumn(params, ps[ci], batch);
      forall q | 0 <= q < ci ensures PairedAt(params, Base(q, |batch|), ps[q], batch) {
        PairedPrefix(was, params, Base(q, |batch|), ps[q], batch);
      }
    }
  }

  /** The keys of the batch from `base` on. */
  ghost predicate KeysAt(params: seq<DbValue>, base: nat, batch: seq<Entity>) {
    && base + |batch| <= |params|
    && forall r :: 0 <= r < |batch| ==> params[base + r] == KeyValue(batch[r])
  }

  method PushKeys(params0: seq<DbValue>, batch: seq<Entity>) returns (params: seq<DbValue>)
    ensures params0 <= params && |params| == |params0| + |batch| && KeysAt(params, |params0|, batch)
  {
    params := params0;
    for r := 0 to |batch|
      invariant params0 <= params && |params| == |params0| + r
      invariant forall q :: 0 <= q < r ==> params[|params0| + q] == KeyValue(batch[q])
    {
      params := params + [KeyValue(batch[r])];
    }
  }

  /** Statement and parameters fit together: every placeholder binds the value meant for it. */
  ghost predicate Fitting(st: Statement, params: seq<DbValue>, ps: seq<Prop>, batch: seq<Entity>,
                          f: Option<RowFilter>) {
    && st.sets == ps && |st.whens| == |ps| && |st.inList| == |batch|
    && (forall ci, r :: 0 <= ci < |ps| && 0 <= r < |batch| ==> BindsPair(st, params, ps, batch, ci, r))
    && (forall r :: 0 <= r < |batch| ==> Bound(params, st.inList[r]) == KeyValue(batch[r]))
    && (f.Some? ==> st.filterAt >= 1 && st.filterAt - 1 + |f.value.values| == |params|)
    && (f.Some? ==> params[st.filterAt - 1..] == f.value.values)
  }

  ghost predicate BindsPair(st: Statement, params: seq<DbValue>, ps: seq<Prop>, batch: seq<Entity>, ci: nat, r: nat)
    requires ci < |ps| && r < |batch|
  {
    && ci < |st.whens| && |st.whens[ci]| == |batch|
    && Bound(params, st.whens[ci][r].0) == KeyValue(batch[r])
    && Bound(params, st.whens[ci][r].1) == ValueOf(batch[r], ps[ci])
  }

  lemma PairBinds(st: Statement, params: seq<DbValue>, ps: seq<Prop>, batch: seq<Entity>, ci: nat, r: nat, base: nat)
    requires ci < |ps| == |st.whens| && r < |batch|
    requires PairsAt(st.whens[ci], base, |batch|) && PairedAt(params, base, ps[ci], batch)
    ensures BindsPair(st, params, ps, batch, ci, r)
  {
  }

  /** Each placeholder carries its position in the statement's text, so `?` and `$n` bind alike. */
  ghost predicate TextOrder(st: Statement, rows: nat) {
    && (forall ci :: 0 <= ci < |st.whens| ==> PairsAt(st.whens[ci], Base(ci, rows), rows))
    && (forall r :: 0 <= r < |st.inList| ==> st.inList[r] == Base(|st.whens|, rows) + 1 + r)
    && st.filterAt == Base(|st.whens|, rows) + |st.inList| + 1
  }

  method BuildBatch(ps: seq<Prop>, batch: seq<Entity>, f: Option<RowFilter>)
    returns (st: Statement, params: seq<DbValue>)
    ensures Fitting(st, params, ps, batch, f) && TextOrder(st, |batch|)
    ensures |params| == Params(|ps|, |batch|) + |FilterValues(f)|
  {
    var rows := |batch|;
    var whens := SetClause(ps, rows);
    var setParams := PushSetParams(ps, batch);
    BaseIs(|ps|, rows);
    var idx := 2 * |ps| * rows + 1;
    var inList := seq(rows, r requires 0 <= r < rows => idx + r);
    params := PushKeys(setParams, batch);
    st := Statement(ps, whens, inList, idx + rows);
    ghost var unfiltered := params;
    if f.Some? { params := params + f.value.values; }
    forall ci, r | 0 <= ci < |ps| && 0 <= r < rows ensures BindsPair(st, params, ps, batch, ci, r) {
      PairedPrefix(setParams, params, Base(ci, rows), ps[ci], batch);
      PairBinds(st, params, ps, batch, ci, r, Base(ci, rows));
    }
    ParamsAre(|ps|, rows);
  }

  // ---------------------------------------------------------------------------
  // The effect of a fitting statement
  // ---------------------------------------------------------------------------

  ghost predicate KeyedBatch(batch: seq<Entity>, t: Table) {
    DistinctKeys(batch) && ValidTable(t) && forall i :: 0 <= i < |batch| ==> |batch[i].key| == 1
  }

  lemma KeyIsOf(t: Table, k: Key, e: Entity)
    requires ValidTable(t) && k in t && |e.key| == 1
    ensures KeyIs(k, KeyValue(e)) <==> k == e.key
  {
    if k == e.key { assert k[0] != Null; }
  }

  lemma {:induction false} MatchIs(st: Statement, params: seq<DbValue>, ps: seq<Prop>, batch: seq<Entity>,
                                   f: Option<RowFilter>,
                                   t: Table, ci: nat, r: nat, i: nat)
    requires Fitting(st, params, ps, batch, f) && KeyedBatch(batch, t) && ci < |ps| && r <= i < |batch|
    requires batch[i].key in t
    ensures FirstMatch(params, st.whens[ci], r, batch[i].key) == ValueOf(batch[i], ps[ci])
    decreases i - r
  {
    assert BindsPair(st, params, ps, batch, ci, r);
    KeyIsOf(t, batch[i].key, batch[r]);
    if r < i { MatchIs(st, params, ps, batch, f, t, ci, r + 1, i); }
  }

  /** A selected row gets the values of the entity with its key. */
  lemma {:induction false} RowIsSet(st: Statement, params: seq<DbValue>, ps: seq<Prop>, batch: seq<Entity>,
                                    f: Option<RowFilter>,
                                    t: Table, i: nat, n: nat)
    requires Fitting(st, params, ps, batch, f) && KeyedBatch(batch, t) && i < |batch| && batch[i].key in t && n <= |ps|
    ensures SetRow(st, params, batch[i].key, t[batch[i].key], n) == t[batch[i].key] + Assignments(ps, batch[i], n)
  {
    if n > 0 {
      RowIsSet(st, params, ps, batch, f, t, i, n - 1);
      MatchIs(st, params, ps, batch, f, t, n - 1, 0, i);
    }
  }

  lemma BoundTail(params: seq<DbValue>, at: nat, values: seq<DbValue>)
    requires at >= 1 && at - 1 + |values| == |params| && params[at - 1..] == values
    ensures BoundFrom(params, at, |values|) == values
  {
    forall i | 0 <= i < |values| ensures Bound(params, at + i) == values[i] {
      assert params[at - 1..][i] == params[at - 1 + i];
    }
  }

  /** Exactly the rows of the batch's keys that pass the filter are selected. */
  lemma SelectedAre(st: Statement, params: seq<DbValue>, ps: seq<Prop>, batch: seq<Entity>, f: Option<RowFilter>,
                    t: Table, k: Key)
    requires Fitting(st, params, ps, batch, f) && KeyedBatch(batch, t) && k in t
    ensures Selects(st, params, f, k, t[k]) <==> Passes(f, t[k]) && exists i :: 0 <= i < |batch| && batch[i].key == k
  {
    forall r | 0 <= r < |batch| ensures KeyIs(k, Bound(params, st.inList[r])) <==> k == batch[r].key {
      KeyIsOf(t, k, batch[r]);
    }
    if f.Some? {
      BoundTail(params, st.filterAt, f.value.values);
    }
  }

  /** One batch applied to entities `start` up to `end`. */
  ghost predicate BatchApplied(t: Table, u: Table, es: seq<Entity>, changes: seq<Row>, start: nat, end: nat,
                               f: Option<RowFilter>)
    requires start <= end <= |es| == |changes|
  {
    && u.Keys == t.Keys
    && (forall i :: start <= i < end && es[i].key in t ==>
         u[es[i].key] == if Passes(f, t[es[i].key]) then t[es[i].key] + changes[i] else t[es[i].key])
    && forall k :: k in t && (forall i :: start <= i < end ==> es[i].key != k) ==> u[k] == t[k]
  }

  lemma RowApplied(st: Statement, params: seq<DbValue>, ps: seq<Prop>, batch: seq<Entity>, f: Option<RowFilter>,
                   t: Table, i: nat)
    requires Fitting(st, params, ps, batch, f) && KeyedBatch(batch, t) && i < |batch| && batch[i].key in t
    ensures var row := t[batch[i].key];
      RunStatement(st, params, f, t)[batch[i].key]
          == if Passes(f, row) then row + Assignments(ps, batch[i], |ps|) else row
  {
    SelectedAre(st, params, ps, batch, f, t, batch[i].key);
    RowIsSet(st, params, ps, batch, f, t, i, |ps|);
  }

  lemma OthersKept(st: Statement, params: seq<DbValue>, ps: seq<Prop>, batch: seq<Entity>, f: Option<RowFilter>,
                   t: Table, k: Key)
    requires Fitting(st, params, ps, batch, f) && KeyedBatch(batch, t)
    requires k in t && forall i :: 0 <= i < |batch| ==> batch[i].key != k
    ensures RunStatement(st, params, f, t)[k] == t[k]
  {
    SelectedAre(st, params, ps, batch, f, t, k);
  }

  lemma StatementApplies(st: Statement, params: seq<DbValue>, ps: seq<Prop>, es: seq<Entity>, batch: seq<Entity>,
                         changes: seq<Row>,
                         start: nat, end: nat, f: Option<RowFilter>, t: Table)
    requires start <= end <= |es| == |changes| && batch == es[start..end] && KeyedBatch(batch, t)
    requires Fitting(st, params, ps, batch, f)
    requires forall i :: 0 <= i < |es| ==> changes[i] == Assignments(ps, es[i], |ps|)
    ensures BatchApplied(t, RunStatement(st, params, f, t), es, changes, start, end, f)
  {
    forall i | start <= i < end && es[i].key in t
      ensures RunStatement(st, params, f, t)[es[i].key]
           == if Passes(f, t[es[i].key]) then t[es[i].key] + changes[i] else t[es[i].key] {
      ReachedApplied(st, params, ps, es, batch, start, end, f, t, i);
    }
    forall k | k in t && (forall i :: start <= i < end ==> es[i].key != k)
      ensures RunStatement(st, params, f, t)[k] == t[k] {
      OthersKept(st, params, ps, batch, f, t, k);
    }
  }

  lemma ReachedApplied(st: Statement, params: seq<DbValue>, ps: seq<Prop>, es: seq<Entity>, batch: seq<Entity>,
                       start: nat, end: nat, f: Option<RowFilter>, t: Table, i: nat)
    requires start <= i < end <= |es| && batch == es[start..end] && KeyedBatch(batch, t)
    requires Fitting(st, params, ps, batch, f)
    requires es[i].key in t
    ensures var row := t[es[i].key];
      RunStatement(st, params, f, t)[es[i].key] == if Passes(f, row) then row + Assignments(ps, es[i], |ps|) else row
  {
    hide RunStatement, Fitting, Assignments;
    assert batch[i - start] == es[i];
    RowApplied(st, params, ps, batch, f, t, i - start);
  }

  /** Batches add up. */
  lemma BatchExtends(t0: Table, t: Table, u: Table, es: seq<Entity>, changes: seq<Row>, start: nat, end: nat,
                     f: Option<RowFilter>)
    requires start <= end <= |es| == |changes| && DistinctKeys(es)
    requires Applied(t0, t, es, changes, start, f) && BatchApplied(t, u, es, changes, start, end, f)
    ensures Applied(t0, u, es, changes, end, f)
  {
    forall i | 0 <= i < end && es[i].key in t0
      ensures u[es[i].key] == if Passes(f, t0[es[i].key]) then t0[es[i].key] + changes[i] else t0[es[i].key] {
      if i < start {
        assert u[es[i].key] == t[es[i].key];
      } else {
        assert t[es[i].key] == t0[es[i].key];
      }
    }
    forall k | k in t0 && (forall i :: 0 <= i < end ==> es[i].key != k) ensures u[k] == t0[k] {
      assert u[k] == t[k];
    }
  }

  // ---------------------------------------------------------------------------
  // Counting
  // ---------------------------------------------------------------------------

  function CountReached(t: Table, es: seq<Entity>, start: nat, end: nat, f: Option<RowFilter>): nat
    requires start <= end <= |es|
    decreases end
  {
    if start == end then 0
    else CountReached(t, es, start, end - 1, f) + (if Reaches(t, es[end - 1], f) then 1 else 0)
  }

  ghost function ReachedKeys(t: Table, es: seq<Entity>, start: nat, end: nat, f: Option<RowFilter>): set<Key>
    requires start <= end <= |es|
  {
    set i | start <= i < end && Reaches(t, es[i], f) :: es[i].key
  }

  lemma LastReached(t: Table, es: seq<Entity>, start: nat, end: nat, f: Option<RowFilter>)
    requires start < end <= |es| && DistinctKeys(es)
    ensures es[end - 1].key !in ReachedKeys(t, es, start, end - 1, f)
    ensures ReachedKeys(t, es, start, end, f)
         == ReachedKeys(t, es, start, end - 1, f) + (if Reaches(t, es[end - 1], f) then {es[end - 1].key} else {})
  {
  }

  lemma {:induction false} ReachedCount(t: Table, es: seq<Entity>, start: nat, end: nat, f: Option<RowFilter>)
    requires start <= end <= |es| && DistinctKeys(es)
    ensures |ReachedKeys(t, es, start, end, f)| == CountReached(t, es, start, end, f) <= end - start
  {
    if start < end {
      ReachedCount(t, es, start, end - 1, f);
      LastReached(t, es, start, end, f);
    } else {
      assert ReachedKeys(t, es, start, end, f) == {};
    }
  }

  lemma AffectedCount(st: Statement, params: seq<DbValue>, ps: seq<Prop>, es: seq<Entity>, start: nat, end: nat,
                      f: Option<RowFilter>, t: Table)
    requires start <= end <= |es| && KeyedBatch(es, t) && Fitting(st, params, ps, es[start..end], f)
    ensures |Affected(st, params, f, t)| == CountReached(t, es, start, end, f)
  {
    var batch := es[start..end];
    forall k ensures k in Affected(st, params, f, t) <==> k in ReachedKeys(t, es, start, end, f) {
      if k in t {
        SelectedAre(st, params, ps, batch, f, t, k);
        if i :| 0 <= i < |batch| && batch[i].key == k { assert es[start + i].key == k; }
        if i :| start <= i < end && es[i].key == k { assert batch[i - start].key == k; }
      }
    }
    assert Affected(st, params, f, t) == ReachedKeys(t, es, start, end, f);
    ReachedCount(t, es, start, end, f);
  }

  /** Earlier batches do not change whether later entities reach their rows. */
  lemma {:induction false} StillReached(t0: Table, t: Table, es: seq<Entity>, changes: seq<Row>, start: nat, end: nat,
                                        f: Option<RowFilter>)
    requires start <= end <= |es| == |changes| && DistinctKeys(es) && Applied(t0, t, es, changes, start, f)
    ensures CountReached(t, es, start, end, f) == CountReached(t0, es, start, end, f)
    decreases end
  {
    if start < end {
      StillReached(t0, t, es, changes, start, end - 1, f);
      if es[end - 1].key in t0 { assert t[es[end - 1].key] == t0[es[end - 1].key]; }
    }
  }

  lemma {:induction false} CountSplit(t: Table, es: seq<Entity>, a: nat, b: nat, c: nat, f: Option<RowFilter>)
    requires a <= b <= c <= |es|
    ensures CountReached(t, es, a, c, f) == CountReached(t, es, a, b, f) + CountReached(t, es, b, c, f)
    decreases c
  {
    if b < c { CountSplit(t, es, a, b, c - 1, f); }
  }
}
