/** UPDATE execution: batched statements, the per-row fallback, and when they agree. */
module Executor {
  import opened Wrappers
  import opened SqlAst
  import opened RowModel
  import opened BatchUpdate

  datatype Error = Conflict | MissingToken

  const MAX_PARAMS := 900

  predicate HasTokens(props: seq<Prop>) {
    exists i :: 0 <= i < |props| && props[i].isToken
  }

  function KeyCount(props: seq<Prop>, n: nat): nat
    requires n <= |props|
  {
    if n == 0 then 0 else KeyCount(props, n - 1) + (if props[n - 1].isKey then 1 else 0)
  }

  /** Fields modified by any of the first `n` entities. */
  function ModifiedUnion(es: seq<Entity>, n: nat): set<string>
    requires n <= |es|
  {
    if n == 0 then {} else ModifiedUnion(es, n - 1) + Fields(es[n - 1].modified)
  }

  function AllModified(es: seq<Entity>): set<string> {
    ModifiedUnion(es, |es|)
  }

  /** Entities of one table: keys distinct and as long as the table's key. */
  ghost predicate Loaded(props: seq<Prop>, es: seq<Entity>, t: Table) {
    && UniqueProps(props) && DistinctKeys(es) && ValidTable(t)
    && forall i :: 0 <= i < |es| ==> |es[i].key| == KeyCount(props, |props|)
  }

  /** What a batched UPDATE sets: for every entity the columns any entity modified. */
  ghost function BatchChanges(props: seq<Prop>, es: seq<Entity>): (r: seq<Row>)
    ensures |r| == |es|
  {
    seq(|es|, i requires 0 <= i < |es| => Changes(props, AllModified(es), es[i]))
  }

  /** What the per-row UPDATE sets: the columns the entity itself modified. */
  ghost function OwnChanges(props: seq<Prop>, es: seq<Entity>): (r: seq<Row>)
    ensures |r| == |es|
  {
    seq(|es|, i requires 0 <= i < |es| => Changes(props, Fields(es[i].modified), es[i]))
  }

  /** From `start` on, every batch of `size` entities reaches some row. */
  ghost predicate BatchesReach(t: Table, es: seq<Entity>, start: nat, size: nat, f: Option<RowFilter>)
    requires size > 0 && start <= |es|
    decreases |es| - start
  {
    var end := Min(start + size, |es|);
    start == |es| || (CountReached(t, es, start, end, f) > 0 && BatchesReach(t, es, end, size, f))
  }

  function Min(a: nat, b: nat): nat {
    if a < b then a else b
  }

  /** One row's parameters and the filter's stay within the limit. */
  predicate RowFits(cols: nat, extra: nat) {
    2 * cols + 1 + extra <= MAX_PARAMS
  }

  /** Rows per batch for `cols` set columns and `extra` filter values. */
  function BatchSize(cols: nat, extra: nat): (n: nat)
    ensures n > 0
  {
    var room := if extra > MAX_PARAMS then 0 else MAX_PARAMS - extra;
    var n := room / (2 * cols + 1);
    if n == 0 then 1 else n
  }

  lemma Quotient(room: nat, each: nat)
    requires 0 < each <= room
    ensures room / each > 0 && each * (room / each) <= room < each * (room / each + 1)
  {
  }

  /** A batch fits the limit, and one of one row more would not. */
  lemma BatchSizeFits(cols: nat, extra: nat)
    requires RowFits(cols, extra)
    ensures Params(cols, BatchSize(cols, extra)) + extra <= MAX_PARAMS
    ensures Params(cols, BatchSize(cols, extra) + 1) + extra > MAX_PARAMS
  {
    var room, each, n := MAX_PARAMS - extra, 2 * cols + 1, BatchSize(cols, extra);
    Quotient(room, each);
    assert n == room / each;
    ParamsAre(cols, n);
    ParamsAre(cols, n + 1);
  }

  /** The first `start` entities are done, `updated` rows counted; the run fails exactly if a later batch does. */
  ghost predicate Progress(t0: Table, t: Table, es: seq<Entity>, changes: seq<Row>, start: nat, updated: nat, size: nat,
                           f: Option<RowFilter>)
    requires start <= |es| == |changes| && size > 0
  {
    && Applied(t0, t, es, changes, start, f) && updated == CountReached(t0, es, 0, start, f)
    && (BatchesReach(t0, es, 0, size, f) <==> BatchesReach(t0, es, start, size, f))
  }

  // ---------------------------------------------------------------------------
  // One UPDATE per row
  // ---------------------------------------------------------------------------

  /** `UPDATE SET c = ?... WHERE key = ?... AND token = ?... [AND filter]`, by first placeholders. */
  datatype RowStatement = RowStatement(sets: seq<Prop>, keyAt: nat, keyCount: nat, tokens: seq<Prop>, tokenAt: nat,
                                       filterAt: nat)

  predicate RowSelects(st: RowStatement, params: seq<DbValue>, f: Option<RowFilter>, key: Key, row: Row) {
    && key == BoundFrom(params, st.keyAt, st.keyCount)
    && (forall i :: 0 <= i < |st.tokens| ==> CellIs(row, st.tokens[i].column, Bound(params, st.tokenAt + i)))
    && (f.Some? ==> f.value.holds(BoundFrom(params, st.filterAt, |f.value.values|), row))
  }

  /** SQL equality with a bound value: NULL equals nothing. */
  predicate CellIs(row: Row, column: string, v: DbValue) {
    v != Null && column in row && row[column] == v
  }

  function SetCells(sets: seq<Prop>, params: seq<DbValue>, row: Row, n: nat): Row
    requires n <= |sets|
  {
    if n == 0 then row else SetCells(sets, params, row, n - 1)[sets[n - 1].column := Bound(params, n)]
  }

  function RunRowStatement(st: RowStatement, params: seq<DbValue>, f: Option<RowFilter>, t: Table): Table {
    map k | k in t :: if RowSelects(st, params, f, k, t[k]) then SetCells(st.sets, params, t[k], |st.sets|) else t[k]
  }

  function Tokens(props: seq<Prop>, n: nat): seq<Prop>
    requires n <= |props|
  {
    if n == 0 then [] else Tokens(props, n - 1) + (if props[n - 1].isToken then [props[n - 1]] else [])
  }

  function AllTokens(props: seq<Prop>): seq<Prop> {
    Tokens(props, |props|)
  }

  function OriginalOf(e: Entity, field: string): DbValue {
    if e.original.Some? && field in e.original.value then e.original.value[field] else Null
  }

  predicate TokensKnown(props: seq<Prop>, e: Entity) {
    var ts := AllTokens(props);
    forall i :: 0 <= i < |ts| ==> e.original.Some? && ts[i].field in e.original.value
  }

  /** The row still carries the token values the entity was loaded with. */
  predicate TokensHold(props: seq<Prop>, e: Entity, row: Row) {
    var ts := AllTokens(props);
    forall i :: 0 <= i < |ts| ==> CellIs(row, ts[i].column, OriginalOf(e, ts[i].field))
  }

  /** Nothing to set, or no key to find the row by. */
  predicate Skipped(props: seq<Prop>, e: Entity) {
    SetProps(props, Fields(e.modified), |props|) == [] || e.key == []
  }

  predicate RowSucceeds(props: seq<Prop>, t: Table, e: Entity, f: Option<RowFilter>) {
    Skipped(props, e) || (TokensKnown(props, e) && Reaches(t, e, f) && TokensHold(props, e, t[e.key]))
  }

  predicate RowsSucceed(props: seq<Prop>, t: Table, es: seq<Entity>, n: nat, f: Option<RowFilter>)
    requires n <= |es|
  {
    forall i :: 0 <= i < n ==> RowSucceeds(props, t, es[i], f)
  }

  // ---------------------------------------------------------------------------
  // Optimistic concurrency, by the properties themselves
  // ---------------------------------------------------------------------------

  /** No column but the key's is to be set, or there is no key to find the row by. */
  predicate Idle(props: seq<Prop>, e: Entity) {
    || e.key == []
    || forall i :: 0 <= i < |props| ==> props[i].isKey || (e.modified != [] && props[i].field !in e.modified)
  }

  /** The original value of some token property is not known. */
  predicate LacksToken(props: seq<Prop>, e: Entity) {
    exists i :: 0 <= i < |props| && props[i].isToken && (e.original.None? || props[i].field !in e.original.value)
  }

  /** The row is there, passes the filter, and has in every token property's column the value the entity was
      loaded with, which is not NULL. */
  predicate Fresh(props: seq<Prop>, t: Table, e: Entity, f: Option<RowFilter>) {
    && !LacksToken(props, e) && e.key in t && Passes(f, t[e.key])
    && forall i :: 0 <= i < |props| && props[i].isToken ==>
         && props[i].column in t[e.key] && t[e.key][props[i].column] == e.original.value[props[i].field]
         && e.original.value[props[i].field] != Null
  }

  lemma {:induction false} TokensAre(props: seq<Prop>, n: nat)
    requires n <= |props|
    ensures forall p :: p in Tokens(props, n) <==> exists i :: 0 <= i < n && props[i] == p && p.isToken
  {
    if n > 0 { TokensAre(props, n - 1); }
  }

  lemma KnownExactly(props: seq<Prop>, e: Entity)
    ensures TokensKnown(props, e) <==> !LacksToken(props, e)
  {
    TokensAre(props, |props|);
    var ts := AllTokens(props);
    if LacksToken(props, e) {
      var i :| 0 <= i < |props| && props[i].isToken && (e.original.None? || props[i].field !in e.original.value);
      assert props[i] in ts;
    }
    if !TokensKnown(props, e) {
      var i :| 0 <= i < |ts| && !(e.original.Some? && ts[i].field in e.original.value);
      assert ts[i] in ts;
    }
  }

  /** What the per-row statement checks is exactly that the row is as it was loaded. */
  lemma FreshExactly(props: seq<Prop>, t: Table, e: Entity, f: Option<RowFilter>)
    ensures TokensKnown(props, e) && Reaches(t, e, f) && TokensHold(props, e, t[e.key]) <==> Fresh(props, t, e, f)
  {
    TokensAre(props, |props|);
    KnownExactly(props, e);
    var ts := AllTokens(props);
    if TokensKnown(props, e) && Reaches(t, e, f) {
      forall i | 0 <= i < |props| && props[i].isToken ensures exists k :: 0 <= k < |ts| && ts[k] == props[i] {
        assert props[i] in ts;
      }
      forall i | 0 <= i < |ts| ensures exists k :: 0 <= k < |props| && props[k] == ts[i] && props[k].isToken {
        assert ts[i] in ts;
      }
    }
  }

  lemma IdleExactly(props: seq<Prop>, e: Entity)
    ensures Skipped(props, e) <==> Idle(props, e)
  {
    var ps, fields := SetProps(props, Fields(e.modified), |props|), Fields(e.modified);
    SetPropsAre(props, fields, |props|);
    assert fields == {} <==> e.modified == [] by {
      if e.modified != [] { assert e.modified[0] in fields; }
    }
    forall i | 0 <= i < |props| ensures Selected(props[i], fields) ==> ps != [] {
      if Selected(props[i], fields) { assert props[i] in ps; }
    }
    if ps != [] { assert ps[0] in ps; }
  }

  /** Every entity with something to set finds its row as it was loaded. */
  predicate AllFresh(props: seq<Prop>, t: Table, es: seq<Entity>, n: nat, f: Option<RowFilter>)
    requires n <= |es|
  {
    forall i :: 0 <= i < n && !Idle(props, es[i]) ==> Fresh(props, t, es[i], f)
  }

  lemma AllFreshExactly(props: seq<Prop>, t: Table, es: seq<Entity>, n: nat, f: Option<RowFilter>)
    requires n <= |es|
    ensures RowsSucceed(props, t, es, n, f) <==> AllFresh(props, t, es, n, f)
  {
    hide TokensKnown, TokensHold, Fresh, Idle, Skipped;
    forall i | 0 <= i < n
      ensures RowSucceeds(props, t, es[i], f) <==> (Idle(props, es[i]) || Fresh(props, t, es[i], f)) {
      FreshExactly(props, t, es[i], f);
      IdleExactly(props, es[i]);
    }
  }

  /** The first entity whose row is not as it was loaded decides the error: a token without original value, or
      a conflict. */
  predicate FailsAt(props: seq<Prop>, t: Table, es: seq<Entity>, n: nat, f: Option<RowFilter>, error: Error)
    requires n < |es|
  {
    && AllFresh(props, t, es, n, f) && !Idle(props, es[n]) && !Fresh(props, t, es[n], f)
    && error == if LacksToken(props, es[n]) then MissingToken else Conflict
  }

  /** What one per-row statement must do. */
  ghost predicate RowFitting(st: RowStatement, params: seq<DbValue>, ps: seq<Prop>, props: seq<Prop>, e: Entity,
                             f: Option<RowFilter>) {
    && st.sets == ps && |ps| <= |params| && (forall i :: 0 <= i < |ps| ==> params[i] == ValueOf(e, ps[i]))
    && BoundFrom(params, st.keyAt, st.keyCount) == e.key
    && st.tokens == AllTokens(props)
    && (forall i :: 0 <= i < |AllTokens(props)| ==>
         Bound(params, st.tokenAt + i) == OriginalOf(e, AllTokens(props)[i].field))
    && (f.Some? ==> BoundFrom(params, st.filterAt, |f.value.values|) == f.value.values)
  }

  lemma BoundSlice(params: seq<DbValue>, a: seq<DbValue>, b: seq<DbValue>, c: seq<DbValue>)
    requires params == a + b + c
    ensures BoundFrom(params, |a| + 1, |b|) == b
    ensures forall i :: 0 <= i < |b| ==> Bound(params, |a| + 1 + i) == b[i]
  {
    forall i | 0 <= i < |b| ensures Bound(params, |a| + 1 + i) == b[i] {
      assert params[|a| + i] == b[i];
    }
  }

  function Values(ps: seq<Prop>, e: Entity): seq<DbValue> {
    seq(|ps|, i requires 0 <= i < |ps| => ValueOf(e, ps[i]))
  }

  function OriginalTokens(props: seq<Prop>, e: Entity): seq<DbValue> {
    var ts := AllTokens(props);
    seq(|ts|, i requires 0 <= i < |ts| => OriginalOf(e, ts[i].field))
  }

  /** SET values first, then key, tokens and filter values; fails when a token's original value is unknown. */
  method BuildRow(props: seq<Prop>, ps: seq<Prop>, e: Entity, f: Option<RowFilter>)
    returns (r: Result<(RowStatement, seq<DbValue>), Error>)
    ensures r.Ok? <==> TokensKnown(props, e)
    ensures r.Err? ==> r.error == MissingToken
    ensures r.Ok? ==> RowFitting(r.value.0, r.value.1, ps, props, e, f)
  {
    if !TokensKnown(props, e) { return Err(MissingToken); }
    var set_, tokens, extra := Values(ps, e), OriginalTokens(props, e), FilterValues(f);
    var keyAt := |set_| + 1;
    var tokenAt := keyAt + |e.key|;
    var filterAt := tokenAt + |tokens|;
    var params := set_ + e.key + tokens + extra;
    var st := RowStatement(ps, keyAt, |e.key|, AllTokens(props), tokenAt, filterAt);
    LayoutFits(st, params, ps, props, e, f);
    return Ok((st, params));
  }

  lemma LayoutFits(st: RowStatement, params: seq<DbValue>, ps: seq<Prop>, props: seq<Prop>, e: Entity,
                   f: Option<RowFilter>)
    requires params == Values(ps, e) + e.key + OriginalTokens(props, e) + FilterValues(f)
    requires st == RowStatement(ps, |ps| + 1, |e.key|, AllTokens(props), |ps| + |e.key| + 1, |ps| + |e.key|
         + |AllTokens(props)| + 1)
    ensures RowFitting(st, params, ps, props, e, f)
  {
    KeyPart(Values(ps, e), e.key, OriginalTokens(props, e), FilterValues(f));
    TokenPart(Values(ps, e), e.key, OriginalTokens(props, e), FilterValues(f));
    FilterPart(Values(ps, e), e.key, OriginalTokens(props, e), FilterValues(f));
  }

  lemma TokenPart(a: seq<DbValue>, b: seq<DbValue>, c: seq<DbValue>, d: seq<DbValue>)
    ensures forall i :: 0 <= i < |c| ==> Bound(a + b + c + d, |a| + |b| + 1 + i) == c[i]
  {
    BoundSlice(a + b + c + d, a + b, c, d);
  }

  lemma KeyPart(a: seq<DbValue>, b: seq<DbValue>, c: seq<DbValue>, d: seq<DbValue>)
    ensures BoundFrom(a + b + c + d, |a| + 1, |b|) == b
    ensures forall i :: 0 <= i < |a| ==> (a + b + c + d)[i] == a[i]
  {
    assert a + b + c + d == a + b + (c + d);
    BoundSlice(a + b + c + d, a, b, c + d);
  }

  lemma FilterPart(a: seq<DbValue>, b: seq<DbValue>, c: seq<DbValue>, d: seq<DbValue>)
    ensures BoundFrom(a + b + c + d, |a| + |b| + |c| + 1, |d|) == d
  {
    assert a + b + c + d == (a + b + c) + d + [];
    BoundSlice(a + b + c + d, a + b + c, d, []);
  }

  lemma {:induction false} CellsAre(params: seq<DbValue>, ps: seq<Prop>, e: Entity, row: Row, n: nat)
    requires n <= |ps| <= |params| && forall i :: 0 <= i < |ps| ==> params[i] == ValueOf(e, ps[i])
    ensures SetCells(ps, params, row, n) == row + Assignments(ps, e, n)
  {
    if n > 0 { CellsAre(params, ps, e, row, n - 1); }
  }

  lemma RowEffect(st: RowStatement, params: seq<DbValue>, ps: seq<Prop>, props: seq<Prop>, e: Entity,
                  f: Option<RowFilter>, t: Table)
    requires RowFitting(st, params, ps, props, e, f)
    ensures var u := RunRowStatement(st, params, f, t);
      && u.Keys == t.Keys && (forall k :: k in t && k != e.key ==> u[k] == t[k])
      && (e.key in t && TokensHold(props, e, t[e.key]) && Passes(f, t[e.key]) ==>
           u[e.key] == t[e.key] + Assignments(ps, e, |ps|))
      && (RowAffected(st, params, f, t) != {} <==> e.key in t && TokensHold(props, e, t[e.key]) && Passes(f, t[e.key]))
  {
    forall k | k in t
      ensures RowSelects(st, params, f, k, t[k]) <==> k == e.key && TokensHold(props, e, t[k]) && Passes(f, t[k]) {
      RowSelected(st, params, ps, props, e, f, k, t[k]);
    }
    if e.key in t {
      CellsAre(params, ps, e, t[e.key], |ps|);
      assert RowSelects(st, params, f, e.key, t[e.key]) ==> e.key in RowAffected(st, params, f, t);
    }
  }

  lemma RowSelected(st: RowStatement, params: seq<DbValue>, ps: seq<Prop>, props: seq<Prop>, e: Entity,
                    f: Option<RowFilter>, k: Key, row: Row)
    requires RowFitting(st, params, ps, props, e, f)
    ensures RowSelects(st, params, f, k, row) <==> k == e.key && TokensHold(props, e, row) && Passes(f, row)
  {
  }

  function RowAffected(st: RowStatement, params: seq<DbValue>, f: Option<RowFilter>, t: Table): set<Key> {
    set k | k in t && RowSelects(st, params, f, k, t[k])
  }

  function CountSet(props: seq<Prop>, es: seq<Entity>, n: nat): nat
    requires n <= |es|
  {
    if n == 0 then 0 else CountSet(props, es, n - 1) + (if Skipped(props, es[n - 1]) then 0 else 1)
  }

  class Connection {
    var table: Table
    /** Parameters of the largest statement so far. */
    ghost var widest: nat

    constructor (t: Table)
      ensures table == t && widest == 0
    {
      table, widest := t, 0;
    }

    /** The database runs an UPDATE and reports the number of rows it selected. */
    method Execute(st: Statement, params: seq<DbValue>, f: Option<RowFilter>) returns (rows: nat)
      requires |st.sets| == |st.whens|
      modifies this
      ensures table == RunStatement(st, params, f, old(table)) && rows == |Affected(st, params, f, old(table))|
      ensures widest == if |params| > old(widest) then |params| else old(widest)
    {
      rows := |Affected(st, params, f, table)|;
      table := RunStatement(st, params, f, table);
      widest := if |params| > widest then |params| else widest;
    }

    /** Runs one batch of entities. */
    method RunBatch(props: seq<Prop>, ps: seq<Prop>, es: seq<Entity>, start: nat, end: nat, f: Option<RowFilter>,
                    ghost t0: Table, ghost changes: seq<Row>)
      returns (rows: nat)
      requires start <= end <= |es| == |changes| && Loaded(props, es, t0) && KeyCount(props, |props|) == 1
      requires Applied(t0, table, es, changes, start, f)
      requires forall i :: 0 <= i < |es| ==> changes[i] == Assignments(ps, es[i], |ps|)
      modifies this
      ensures Applied(t0, table, es, changes, end, f) && rows == CountReached(t0, es, start, end, f)
      ensures widest <= old(widest) || widest == Params(|ps|, end - start) + |FilterValues(f)|
    {
      ghost var t := table;
      var batch := es[start..end];
      var st, params := BuildBatch(ps, batch, f);
      rows := Execute(st, params, f);
      KeyedSlice(props, es, start, end, t0, t);
      StatementApplies(st, params, ps, es, batch, changes, start, end, f, t);
      BatchExtends(t0, t, table, es, changes, start, end, f);
      AffectedCount(st, params, ps, es, start, end, f, t);
      StillReached(t0, t, es, changes, start, end, f);
    }

    /** One round: the batch from `start` on. */
    method RunNext(props: seq<Prop>, ps: seq<Prop>, es: seq<Entity>, start: nat, updated0: nat, f: Option<RowFilter>,
                   size: nat,
                   ghost t0: Table, ghost changes: seq<Row>)
      returns (ok: bool, end: nat, updated: nat)
      requires start < |es| == |changes| && size > 0 && Loaded(props, es, t0) && KeyCount(props, |props|) == 1
      requires Progress(t0, table, es, changes, start, updated0, size, f)
      requires forall i :: 0 <= i < |es| ==> changes[i] == Assignments(ps, es[i], |ps|)
      modifies this
      ensures start < end <= |es|
      ensures if ok then Progress(t0, table, es, changes, end, updated, size, f) else !BatchesReach(t0, es, 0, size, f)
      ensures widest <= old(widest) || widest <= Params(|ps|, size) + |FilterValues(f)|
    {
      end := Min(start + size, |es|);
      var rows := RunBatch(props, ps, es, start, end, f, t0, changes);
      ParamsGrow(|ps|, end - start, size);
      BatchesStep(t0, es, start, size, f);
      CountNext(t0, es, start, end, f);
      ok := rows > 0;
      updated := updated0 + Min(rows, end - start);
    }

    /** All batches of `size` entities. */
    method RunBatches(props: seq<Prop>, ps: seq<Prop>, es: seq<Entity>, f: Option<RowFilter>, size: nat,
                      ghost changes: seq<Row>)
      returns (r: Result<nat, Error>)
      requires size > 0 && |changes| == |es| && Loaded(props, es, table) && KeyCount(props, |props|) == 1
      requires forall i :: 0 <= i < |es| ==> changes[i] == Assignments(ps, es[i], |ps|)
      modifies this
      ensures r.Ok? <==> BatchesReach(old(table), es, 0, size, f)
      ensures r.Ok? ==> Progress(old(table), table, es, changes, |es|, r.value, size, f)
      ensures widest <= old(widest) || widest <= Params(|ps|, size) + |FilterValues(f)|
    {
      ghost var t0, w0 := table, widest;
      var updated, start, ok := 0, 0, true;
      while start < |es|
        invariant start <= |es| && Progress(t0, table, es, changes, start, updated, size, f)
        invariant widest <= w0 || widest <= Params(|ps|, size) + |FilterValues(f)|
      {
        ok, start, updated := RunNext(props, ps, es, start, updated, f, size, t0, changes);
        if !ok { return Err(Conflict); }
      }
      r := Ok(updated);
    }

    /** The rows reached get the columns of the union of modified fields; fails on the first batch
        that reaches no row. No statement binds more than the limit when one row fits. */
    method UpdateInBatches(props: seq<Prop>, es: seq<Entity>, f: Option<RowFilter>) returns (r: Result<nat, Error>)
      requires Loaded(props, es, table) && KeyCount(props, |props|) == 1
      modifies this
      ensures var cols := |SetProps(props, AllModified(es), |props|)|;
        && (r.Ok? <==> BatchesReach(old(table), es, 0, BatchSize(cols, |FilterValues(f)|), f))
        && (RowFits(cols, |FilterValues(f)|) ==> widest <= old(widest) || widest <= MAX_PARAMS)
      ensures r.Ok? ==> Applied(old(table), table, es, BatchChanges(props, es), |es|, f)
      ensures r.Ok? ==> r.value == CountReached(old(table), es, 0, |es|, f)
    {
      var ps := SetProps(props, AllModified(es), |props|);
      var size := BatchSize(|ps|, |FilterValues(f)|);
      if RowFits(|ps|, |FilterValues(f)|) { BatchSizeFits(|ps|, |FilterValues(f)|); }
      r := RunBatches(props, ps, es, f, size, BatchChanges(props, es));
    }

    method ExecuteRow(st: RowStatement, params: seq<DbValue>, f: Option<RowFilter>) returns (rows: nat)
      modifies this
      ensures table == RunRowStatement(st, params, f, old(table)) && rows == |RowAffected(st, params, f, old(table))|
    {
      rows := |RowAffected(st, params, f, table)|;
      table := RunRowStatement(st, params, f, table);
    }

    /** One entity of the fallback. */
    method UpdateRow(props: seq<Prop>, es: seq<Entity>, n: nat, f: Option<RowFilter>, ghost t0: Table)
      returns (r: Result<nat, Error>)
      requires n < |es| && Loaded(props, es, t0) && Applied(t0, table, es, OwnChanges(props, es), n, f)
      modifies this
      ensures r.Ok? <==> RowSucceeds(props, t0, es[n], f)
      ensures r.Err? ==> r.error == if TokensKnown(props, es[n]) then Conflict else MissingToken
      ensures r.Ok? ==> r.value == (if Skipped(props, es[n]) then 0 else 1)
      ensures r.Ok? ==> Applied(t0, table, es, OwnChanges(props, es), n + 1, f)
    {
      var e := es[n];
      var ps := SetProps(props, Fields(e.modified), |props|);
      if |ps| == 0 || |e.key| == 0 {
        SkippedApplied(props, t0, table, es, n, f);
        return Ok(0);
      }
      var built := BuildRow(props, ps, e, f);
      if built.Err? { return Err(built.error); }
      ghost var t := table;
      var rows := ExecuteRow(built.value.0, built.value.1, f);
      RowEffect(built.value.0, built.value.1, ps, props, e, f, t);
      NextUntouched(props, t0, t, es, n, f);
      if rows == 0 { return Err(Conflict); }
      RowExtends(props, t0, t, table, es, n, f);
      return Ok(1);
    }

    method UpdateNextRow(props: seq<Prop>, es: seq<Entity>, n: nat, updated0: nat, f: Option<RowFilter>,
                         ghost t0: Table)
      returns (error: Option<Error>, updated: nat)
      requires n < |es| && Loaded(props, es, t0) && RowProgress(props, t0, table, es, n, updated0, f)
      modifies this
      ensures if error.None? then RowProgress(props, t0, table, es, n + 1, updated, f)
           else !RowsSucceed(props, t0, es, |es|, f) && FailsAt(props, t0, es, n, f, error.value)
    {
      hide FailsAt, TokensKnown, TokensHold, Skipped, Applied, Reaches;
      var one := UpdateRow(props, es, n, f, t0);
      if one.Err? {
        RowFails(props, t0, es, n, f);
        return Some(one.error), updated0;
      }
      return None, updated0 + one.value;
    }

    /** One UPDATE per entity; fails on the first row that is gone, filtered out or has another token. */
    method UpdatePerRow(props: seq<Prop>, es: seq<Entity>, f: Option<RowFilter>) returns (r: Result<nat, Error>)
      requires Loaded(props, es, table)
      modifies this
      ensures r.Ok? <==> AllFresh(props, old(table), es, |es|, f)
      ensures r.Err? ==> exists n :: 0 <= n < |es| && FailsAt(props, old(table), es, n, f, r.error)
      ensures r.Ok? ==> Applied(old(table), table, es, OwnChanges(props, es), |es|, f)
      ensures r.Ok? ==> r.value == CountSet(props, es, |es|)
    {
      hide AllFresh, FailsAt;
      AllFreshExactly(props, table, es, |es|, f);
      ghost var t0 := table;
      var updated := 0;
      for n := 0 to |es|
        invariant RowProgress(props, t0, table, es, n, updated, f)
      {
        var error;
        error, updated := UpdateNextRow(props, es, n, updated, f, t0);
        if error.Some? { return Err(error.value); }
      }
      r := Ok(updated);
    }

    /** Batches when the key is one column, there are no tokens and something is set. */
    method ExecuteUpdates(props: seq<Prop>, es: seq<Entity>, f: Option<RowFilter>) returns (r: Result<nat, Error>)
      requires Loaded(props, es, table)
      modifies this
      ensures Batched(props, es) ==>
        var cols := |SetProps(props, AllModified(es), |props|)|;
        && (r.Ok? <==> BatchesReach(old(table), es, 0, BatchSize(cols, |FilterValues(f)|), f))
        && (r.Ok? ==> Applied(old(table), table, es, BatchChanges(props, es), |es|, f))
        && (r.Ok? ==> r.value == CountReached(old(table), es, 0, |es|, f))
      ensures !Batched(props, es) ==>
        && (r.Ok? <==> AllFresh(props, old(table), es, |es|, f))
        && (r.Ok? ==> Applied(old(table), table, es, OwnChanges(props, es), |es|, f))
        && (r.Ok? ==> r.value == CountSet(props, es, |es|))
      ensures r.Ok? && (exists i :: 0 <= i < |props| && props[i].isToken) ==>
        AllFresh(props, old(table), es, |es|, f)
    {
      if Batched(props, es) {
        r := UpdateInBatches(props, es, f);
      } else {
        r := UpdatePerRow(props, es, f);
      }
    }
  }

  lemma RowFails(props: seq<Prop>, t: Table, es: seq<Entity>, n: nat, f: Option<RowFilter>)
    requires n < |es| && RowsSucceed(props, t, es, n, f) && !RowSucceeds(props, t, es[n], f)
    ensures FailsAt(props, t, es, n, f, if TokensKnown(props, es[n]) then Conflict else MissingToken)
  {
    hide AllFresh, Fresh, Idle, LacksToken, TokensKnown, TokensHold, Skipped;
    AllFreshExactly(props, t, es, n, f);
    FreshExactly(props, t, es[n], f);
    IdleExactly(props, es[n]);
    KnownExactly(props, es[n]);
  }

  ghost predicate RowProgress(props: seq<Prop>, t0: Table, t: Table, es: seq<Entity>, n: nat, updated: nat,
                              f: Option<RowFilter>)
    requires n <= |es|
  {
    && Applied(t0, t, es, OwnChanges(props, es), n, f)
    && RowsSucceed(props, t0, es, n, f) && updated == CountSet(props, es, n)
  }

  predicate Batched(props: seq<Prop>, es: seq<Entity>) {
    !HasTokens(props) && KeyCount(props, |props|) == 1 && SetProps(props, AllModified(es), |props|) != []
  }

  lemma SkippedApplied(props: seq<Prop>, t0: Table, t: Table, es: seq<Entity>, n: nat, f: Option<RowFilter>)
    requires n < |es| && Loaded(props, es, t0) && Applied(t0, t, es, OwnChanges(props, es), n, f)
    requires Skipped(props, es[n])
    ensures Applied(t0, t, es, OwnChanges(props, es), n + 1, f)
  {
    NextUntouched(props, t0, t, es, n, f);
    if es[n].key != [] {
      assert OwnChanges(props, es)[n] == map[];
      if es[n].key in t0 { assert t0[es[n].key] + map[] == t0[es[n].key]; }
    }
  }

  lemma NextUntouched(props: seq<Prop>, t0: Table, t: Table, es: seq<Entity>, n: nat, f: Option<RowFilter>)
    requires n < |es| && Loaded(props, es, t0) && Applied(t0, t, es, OwnChanges(props, es), n, f)
    ensures (es[n].key in t <==> es[n].key in t0) && (es[n].key in t0 ==> t[es[n].key] == t0[es[n].key])
  {
  }

  lemma RowExtends(props: seq<Prop>, t0: Table, t: Table, u: Table, es: seq<Entity>, n: nat, f: Option<RowFilter>)
    requires n < |es| && Loaded(props, es, t0) && Applied(t0, t, es, OwnChanges(props, es), n, f)
    requires u.Keys == t.Keys && (forall k :: k in t && k != es[n].key ==> u[k] == t[k])
    requires Reaches(t0, es[n], f) && u[es[n].key] == t0[es[n].key] + OwnChanges(props, es)[n]
    ensures Applied(t0, u, es, OwnChanges(props, es), n + 1, f)
  {
    var changes := OwnChanges(props, es);
    forall i | 0 <= i < n + 1 && es[i].key in t0
      ensures u[es[i].key] == if Passes(f, t0[es[i].key]) then t0[es[i].key] + changes[i] else t0[es[i].key] {
      if i < n { assert u[es[i].key] == t[es[i].key]; }
    }
    forall k | k in t0 && (forall i :: 0 <= i < n + 1 ==> es[i].key != k) ensures u[k] == t0[k] {
      assert u[k] == t[k];
    }
  }

  lemma CountNext(t: Table, es: seq<Entity>, start: nat, end: nat, f: Option<RowFilter>)
    requires start <= end <= |es| && DistinctKeys(es)
    ensures CountReached(t, es, 0, end, f)
         == CountReached(t, es, 0, start, f) + Min(CountReached(t, es, start, end, f), end - start)
  {
    ReachedCount(t, es, start, end, f);
    CountSplit(t, es, 0, start, end, f);
  }

  lemma BatchesStep(t: Table, es: seq<Entity>, start: nat, size: nat, f: Option<RowFilter>)
    requires size > 0 && start < |es|
    ensures var end := Min(start + size, |es|);
      && (BatchesReach(t, es, start, size, f) <==>
           CountReached(t, es, start, end, f) > 0 && BatchesReach(t, es, end, size, f))
  {
  }

  lemma KeyedSlice(props: seq<Prop>, es: seq<Entity>, start: nat, end: nat, t0: Table, t: Table)
    requires start <= end <= |es| && Loaded(props, es, t0) && KeyCount(props, |props|) == 1 && t.Keys == t0.Keys
    ensures KeyedBatch(es, t) && KeyedBatch(es[start..end], t)
  {
  }

  // ---------------------------------------------------------------------------
  // What an update leaves in a row
  // ---------------------------------------------------------------------------

  lemma {:induction false} ModifiedUnionAre(es: seq<Entity>, n: nat)
    requires n <= |es|
    ensures forall m :: m in ModifiedUnion(es, n) <==> exists h :: 0 <= h < n && m in es[h].modified
  {
    if n > 0 { ModifiedUnionAre(es, n - 1); }
  }

  /** Whether the property's column is set in the row of entity `i`: never the key's; in batches what any entity
      has as modified, otherwise what the entity itself has; where nothing is listed, all. */
  ghost predicate SetFor(props: seq<Prop>, es: seq<Entity>, i: nat, p: Prop, batches: bool)
    requires i < |es|
  {
    && !p.isKey
    && if batches
       then (exists h :: 0 <= h < |es| && p.field in es[h].modified)
         || (forall h :: 0 <= h < |es| ==> es[h].modified == [])
       else p.field in es[i].modified || es[i].modified == []
  }

  /** After an update, in either form, a row it reaches has the entity's current value in the columns set, NULL
      where it has none, and its old one in every other; a row the filter excludes is as before. */
  lemma UpdatedCell(props: seq<Prop>, es: seq<Entity>, t0: Table, t: Table, f: Option<RowFilter>, i: nat, p: Prop,
                    batches: bool)
    requires Loaded(props, es, t0) && p in props && i < |es| && es[i].key in t0
    requires Applied(t0, t, es, if batches then BatchChanges(props, es) else OwnChanges(props, es), |es|, f)
    ensures es[i].key in t
    ensures var was, now := t0[es[i].key], t[es[i].key];
      if Passes(f, was) && SetFor(props, es, i, p, batches)
      then p.column in now && now[p.column] == if p.field in es[i].current then es[i].current[p.field] else Null
      else (p.column in now <==> p.column in was) && (p.column in was ==> now[p.column] == was[p.column])
  {
    hide Changes;
    ModifiedUnionAre(es, |es|);
    ChangesAt(props, AllModified(es), es[i], p);
    ChangesAt(props, Fields(es[i].modified), es[i], p);
    assert Fields(es[i].modified) == {} <==> es[i].modified == [] by {
      if es[i].modified != [] { assert es[i].modified[0] in Fields(es[i].modified); }
    }
    assert AllModified(es) == {} <==> forall h :: 0 <= h < |es| ==> es[h].modified == [] by {
      if h :| 0 <= h < |es| && es[h].modified != [] { assert es[h].modified[0] in AllModified(es); }
    }
  }

  // ---------------------------------------------------------------------------
  // Batches against rows
  // ---------------------------------------------------------------------------

  lemma {:induction false} CountAll(t: Table, props: seq<Prop>, es: seq<Entity>, a: nat, b: nat, f: Option<RowFilter>)
    requires a <= b <= |es| && forall i :: a <= i < b ==> Reaches(t, es[i], f)
    ensures CountReached(t, es, a, b, f) == b - a
    decreases b
  {
    if a < b { CountAll(t, props, es, a, b - 1, f); }
  }

  lemma {:induction false} AllSet(props: seq<Prop>, es: seq<Entity>, n: nat)
    requires n <= |es| && forall i :: 0 <= i < n ==> !Skipped(props, es[i])
    ensures CountSet(props, es, n) == n
  {
    if n > 0 { AllSet(props, es, n - 1); }
  }

  lemma {:induction false} AllBatchesReach(t: Table, props: seq<Prop>, es: seq<Entity>, start: nat, size: nat,
                                           f: Option<RowFilter>)
    requires start <= |es| && size > 0 && forall i :: 0 <= i < |es| ==> Reaches(t, es[i], f)
    ensures BatchesReach(t, es, start, size, f)
    decreases |es| - start
  {
    if start < |es| {
      var end := Min(start + size, |es|);
      CountAll(t, props, es, start, end, f);
      AllBatchesReach(t, props, es, end, size, f);
    }
  }

  /** Every column the union sets and the entity's own list does not, or the other way round,
      already holds the entity's value, in every row the run reaches. */
  predicate NothingOverwritten(props: seq<Prop>, es: seq<Entity>, t0: Table, f: Option<RowFilter>) {
    forall i :: 0 <= i < |es| && Reaches(t0, es[i], f) ==>
      UnsetAgree(props, AllModified(es), Fields(es[i].modified), es[i], t0[es[i].key])
  }

  /** When one UPDATE per row succeeds and sets something for each, the batches succeed with the
      same count; they leave the same table exactly when the columns set by only one of the two
      forms already hold the entity's value. */
  lemma BatchRefinesRows(props: seq<Prop>, es: seq<Entity>, t0: Table, rows: Table, batched: Table,
                         f: Option<RowFilter>, size: nat)
    requires Loaded(props, es, t0) && FullRows(t0, props) && size > 0
    requires AllFresh(props, t0, es, |es|, f) && forall i :: 0 <= i < |es| ==> !Idle(props, es[i])
    requires Applied(t0, rows, es, OwnChanges(props, es), |es|, f)
    ensures BatchesReach(t0, es, 0, size, f) && CountReached(t0, es, 0, |es|, f) == CountSet(props, es, |es|)
    ensures Applied(t0, batched, es, BatchChanges(props, es), |es|, f) ==>
      (batched == rows <==> NothingOverwritten(props, es, t0, f))
  {
    forall i | 0 <= i < |es| ensures Reaches(t0, es[i], f) && !Skipped(props, es[i]) {
      assert Fresh(props, t0, es[i], f);
      IdleExactly(props, es[i]);
    }
    AllBatchesReach(t0, props, es, 0, size, f);
    CountAll(t0, props, es, 0, |es|, f);
    AllSet(props, es, |es|);
    if Applied(t0, batched, es, BatchChanges(props, es), |es|, f) {
      SameOutcome(props, es, t0, rows, batched, f);
    }
  }

  lemma SameOutcome(props: seq<Prop>, es: seq<Entity>, t0: Table, rows: Table, batched: Table, f: Option<RowFilter>)
    requires UniqueProps(props) && FullRows(t0, props)
    requires Applied(t0, rows, es, OwnChanges(props, es), |es|, f)
    requires Applied(t0, batched, es, BatchChanges(props, es), |es|, f)
    ensures batched == rows <==> NothingOverwritten(props, es, t0, f)
  {
    SameTable(t0, batched, rows, es, BatchChanges(props, es), OwnChanges(props, es), f);
    forall i | 0 <= i < |es| && Reaches(t0, es[i], f)
      ensures t0[es[i].key] + BatchChanges(props, es)[i] == t0[es[i].key] + OwnChanges(props, es)[i]
        <==> UnsetAgree(props, AllModified(es), Fields(es[i].modified), es[i], t0[es[i].key]) {
      SameRow(props, AllModified(es), Fields(es[i].modified), es[i], t0[es[i].key]);
    }
  }

  /** Lists all empty leave nothing to differ. */
  lemma {:induction false} NoModifiedLists(es: seq<Entity>, n: nat)
    requires n <= |es| && forall i :: 0 <= i < n ==> es[i].modified == []
    ensures ModifiedUnion(es, n) == {}
  {
    if n > 0 {
      NoModifiedLists(es, n - 1);
      assert Fields(es[n - 1].modified) == {};
    }
  }

  /** The row holds another value in the property's column than the entity. */
  predicate HoldsOther(row: Row, e: Entity, p: Prop) {
    p.column in row && row[p.column] != ValueOf(e, p)
  }

  /** An empty list among non-empty ones stands for all columns, so the batch loses the columns
      no other entity modified; lists that are all empty lose nothing. */
  lemma MixedListsLose(props: seq<Prop>, es: seq<Entity>, i: nat, p: Prop, t0: Table, f: Option<RowFilter>)
    requires i < |es| && es[i].modified == [] && Reaches(t0, es[i], f) && p in props && !p.isKey
    ensures (forall j :: 0 <= j < |es| ==> es[j].modified == []) ==> NothingOverwritten(props, es, t0, f)
    ensures AllModified(es) != {} && p.field !in AllModified(es) && HoldsOther(t0[es[i].key], es[i], p)
      ==> !NothingOverwritten(props, es, t0, f)
  {
    assert Fields(es[i].modified) == {};
    if forall j :: 0 <= j < |es| ==> es[j].modified == [] {
      NoModifiedLists(es, |es|);
      forall j | 0 <= j < |es| ensures Fields(es[j].modified) == {} { }
    }
  }

  /** Rows of other keys and rows failing the filter are never touched, by either form. */
  lemma OthersUntouched(t0: Table, t: Table, es: seq<Entity>, changes: seq<Row>, f: Option<RowFilter>, k: Key)
    requires |changes| == |es| && Applied(t0, t, es, changes, |es|, f) && k in t0
    requires !Passes(f, t0[k]) || forall i :: 0 <= i < |es| ==> es[i].key != k
    ensures t[k] == t0[k]
  {
    if i :| 0 <= i < |es| && es[i].key == k {
      assert t[es[i].key] == t0[es[i].key];
    }
  }
}
