/** DELETE execution: batched statements and the per-row fallback leave the same table. */
module DeleteBatch {
  import opened Wrappers
  import opened SqlAst
  import opened RowModel
  import opened BatchUpdate
  import opened Executor

  // ---------------------------------------------------------------------------
  // Statements
  // ---------------------------------------------------------------------------

  /** The rows `key IN (...) [AND filter]` selects are gone. */
  function RunDelete(st: Statement, params: seq<DbValue>, f: Option<RowFilter>, t: Table): Table {
    t - Affected(st, params, f, t)
  }

  /** The rows one per-row statement selects are gone. */
  function RunRowDelete(st: RowStatement, params: seq<DbValue>, f: Option<RowFilter>, t: Table): Table {
    t - RowAffected(st, params, f, t)
  }

  /** The table without the rows the first `n` entities reach. */
  ghost function Without(t: Table, es: seq<Entity>, n: nat, f: Option<RowFilter>): Table
    requires n <= |es|
  {
    t - ReachedKeys(t, es, 0, n, f)
  }

  lemma ReachedIn(t: Table, es: seq<Entity>, start: nat, end: nat, f: Option<RowFilter>, i: nat)
    requires start <= end <= |es| && DistinctKeys(es) && i < |es|
    ensures es[i].key in ReachedKeys(t, es, start, end, f) <==> start <= i < end && Reaches(t, es[i], f)
  {
  }

  /** Entities not yet deleted reach their rows as before. */
  lemma StillThere(t: Table, es: seq<Entity>, n: nat, f: Option<RowFilter>, i: nat)
    requires n <= i < |es| && DistinctKeys(es)
    ensures Reaches(Without(t, es, n, f), es[i], f) <==> Reaches(t, es[i], f)
    ensures es[i].key in Without(t, es, n, f) <==> es[i].key in t
    ensures es[i].key in t ==> Without(t, es, n, f)[es[i].key] == t[es[i].key]
  {
    ReachedIn(t, es, 0, n, f, i);
  }

  lemma {:induction false} CountStill(t: Table, es: seq<Entity>, n: nat, a: nat, b: nat, f: Option<RowFilter>)
    requires n <= a <= b <= |es| && DistinctKeys(es)
    ensures CountReached(Without(t, es, n, f), es, a, b, f) == CountReached(t, es, a, b, f)
    decreases b
  {
    if a < b {
      CountStill(t, es, n, a, b - 1, f);
      StillThere(t, es, n, f, b - 1);
    }
  }

  /** Deleting what the next entities reach goes on from what the first ones left. */
  lemma WithoutMore(t: Table, es: seq<Entity>, n: nat, m: nat, f: Option<RowFilter>)
    requires n <= m <= |es| && DistinctKeys(es)
    ensures Without(t, es, n, f) - ReachedKeys(Without(t, es, n, f), es, n, m, f) == Without(t, es, m, f)
  {
    var u := Without(t, es, n, f);
    forall i: nat | n <= i < m ensures Reaches(u, es[i], f) <==> Reaches(t, es[i], f) {
      StillThere(t, es, n, f, i);
    }
    assert ReachedKeys(t, es, 0, m, f) == ReachedKeys(t, es, 0, n, f) + ReachedKeys(u, es, n, m, f);
  }

  lemma {:induction false} AllCounted(t: Table, es: seq<Entity>, n: nat, f: Option<RowFilter>)
    requires n <= |es|
    ensures CountReached(t, es, 0, n, f) == n <==> forall i :: 0 <= i < n ==> Reaches(t, es[i], f)
    ensures CountReached(t, es, 0, n, f) <= n
  {
    if n > 0 { AllCounted(t, es, n - 1, f); }
  }

  // ---------------------------------------------------------------------------
  // One DELETE per row
  // ---------------------------------------------------------------------------

  /** An entity without a key is skipped; any other must be there, pass the filter and hold its tokens. */
  predicate DeleteSucceeds(props: seq<Prop>, t: Table, e: Entity, f: Option<RowFilter>) {
    e.key == [] || (TokensKnown(props, e) && Reaches(t, e, f) && TokensHold(props, e, t[e.key]))
  }

  predicate DeletesSucceed(props: seq<Prop>, t: Table, es: seq<Entity>, n: nat, f: Option<RowFilter>)
    requires n <= |es|
  {
    forall i :: 0 <= i < n ==> DeleteSucceeds(props, t, es[i], f)
  }

  /** Every entity with a key finds its row as it was loaded. */
  predicate AllFreshKeyed(props: seq<Prop>, t: Table, es: seq<Entity>, n: nat, f: Option<RowFilter>)
    requires n <= |es|
  {
    forall i :: 0 <= i < n && es[i].key != [] ==> Fresh(props, t, es[i], f)
  }

  lemma AllFreshKeyedExactly(props: seq<Prop>, t: Table, es: seq<Entity>, n: nat, f: Option<RowFilter>)
    requires n <= |es|
    ensures DeletesSucceed(props, t, es, n, f) <==> AllFreshKeyed(props, t, es, n, f)
  {
    hide TokensKnown, TokensHold, Fresh;
    forall i | 0 <= i < n
      ensures DeleteSucceeds(props, t, es[i], f) <==> (es[i].key == [] || Fresh(props, t, es[i], f)) {
      FreshExactly(props, t, es[i], f);
    }
  }

  /** The first entity whose row is not as it was loaded decides the error. */
  predicate DeleteFailsAt(props: seq<Prop>, t: Table, es: seq<Entity>, n: nat, f: Option<RowFilter>, error: Error)
    requires n < |es|
  {
    && AllFreshKeyed(props, t, es, n, f) && es[n].key != [] && !Fresh(props, t, es[n], f)
    && error == if LacksToken(props, es[n]) then MissingToken else Conflict
  }

  lemma DeleteFails(props: seq<Prop>, t: Table, es: seq<Entity>, n: nat, f: Option<RowFilter>)
    requires n < |es| && DeletesSucceed(props, t, es, n, f) && !DeleteSucceeds(props, t, es[n], f)
    ensures DeleteFailsAt(props, t, es, n, f, if TokensKnown(props, es[n]) then Conflict else MissingToken)
  {
    hide AllFreshKeyed, Fresh, LacksToken, TokensKnown, TokensHold;
    AllFreshKeyedExactly(props, t, es, n, f);
    FreshExactly(props, t, es[n], f);
    KnownExactly(props, es[n]);
  }

  function CountKeyed(es: seq<Entity>, n: nat): nat
    requires n <= |es|
  {
    if n == 0 then 0 else CountKeyed(es, n - 1) + (if es[n - 1].key == [] then 0 else 1)
  }

  ghost predicate RowsDeleted(props: seq<Prop>, t0: Table, t: Table, es: seq<Entity>, n: nat, deleted: nat,
                              f: Option<RowFilter>)
    requires n <= |es|
  {
    t == Without(t0, es, n, f) && DeletesSucceed(props, t0, es, n, f) && deleted == CountKeyed(es, n)
  }

  /** A per-row statement for a key the table holds removes just that row. */
  lemma OneRowGone(st: RowStatement, params: seq<DbValue>, props: seq<Prop>, e: Entity, f: Option<RowFilter>, t: Table)
    requires RowFitting(st, params, [], props, e, f)
    ensures RowAffected(st, params, f, t) == if Reaches(t, e, f) && TokensHold(props, e, t[e.key]) then {e.key} else {}
  {
    forall k | k in t
      ensures RowSelects(st, params, f, k, t[k]) <==> k == e.key && TokensHold(props, e, t[k]) && Passes(f, t[k]) {
      RowSelected(st, params, [], props, e, f, k, t[k]);
    }
  }

  lemma NextGone(t: Table, es: seq<Entity>, n: nat, f: Option<RowFilter>)
    requires n < |es| && DistinctKeys(es)
    ensures Without(t, es, n + 1, f) == Without(t, es, n, f) - (if Reaches(t, es[n], f) then {es[n].key} else {})
  {
    assert ReachedKeys(t, es, 0, n + 1, f) == ReachedKeys(t, es, 0, n,
                                                          f) + (if Reaches(t, es[n], f) then {es[n].key} else {});
  }

  // ---------------------------------------------------------------------------
  // The connection
  // ---------------------------------------------------------------------------

  /** Keys per batch, with room for the filter's values. */
  function KeysPerBatch(extra: nat): (n: nat)
    ensures n > 0 && (extra < MAX_PARAMS ==> n + extra == MAX_PARAMS)
  {
    if extra < MAX_PARAMS then MAX_PARAMS - extra else 1
  }

  ghost predicate BatchesDeleted(t0: Table, t: Table, es: seq<Entity>, start: nat, deleted: nat, size: nat,
                                 f: Option<RowFilter>)
    requires start <= |es| && size > 0
  {
    && t == Without(t0, es, start, f) && deleted == CountReached(t0, es, 0, start, f)
    && (BatchesReach(t0, es, 0, size, f) <==> BatchesReach(t0, es, start, size, f))
  }

  predicate InBatches(props: seq<Prop>) {
    !HasTokens(props) && KeyCount(props, |props|) == 1
  }

  lemma KeyedSlices(props: seq<Prop>, es: seq<Entity>, start: nat, end: nat, t0: Table, n: nat, f: Option<RowFilter>)
    requires start <= end <= |es| && n <= |es| && Loaded(props, es, t0) && KeyCount(props, |props|) == 1
    ensures KeyedBatch(es, Without(t0, es, n, f)) && KeyedBatch(es[start..end], Without(t0, es, n, f))
  {
  }

  /** A fitting statement without SET selects the rows its entities reach. */
  lemma AffectedAre(st: Statement, params: seq<DbValue>, es: seq<Entity>, start: nat, end: nat, f: Option<RowFilter>,
                    t: Table)
    requires start <= end <= |es| && KeyedBatch(es, t) && KeyedBatch(es[start..end], t)
    requires Fitting(st, params, [], es[start..end], f)
    ensures Affected(st, params, f, t) == ReachedKeys(t, es, start, end, f)
  {
    var batch := es[start..end];
    forall k | k in t ensures k in Affected(st, params, f, t) <==> k in ReachedKeys(t, es, start, end, f) {
      SelectedAre(st, params, [], batch, f, t, k);
      if i :| 0 <= i < |batch| && batch[i].key == k { assert es[start + i].key == k; }
      if i :| start <= i < end && es[i].key == k { assert batch[i - start].key == k; }
    }
  }

  class Connection {
    var table: Table
    /** Parameters of the largest statement so far. */
    ghost var widest: nat

    constructor (t: Table)
      ensures table == t && widest == 0
    {
      table, widest := t, 0;
    }

    /** The database runs a DELETE and reports how many rows are gone. */
    method Execute(st: Statement, params: seq<DbValue>, f: Option<RowFilter>) returns (rows: nat)
      modifies this
      ensures table == RunDelete(st, params, f, old(table)) && rows == |Affected(st, params, f, old(table))|
      ensures widest == if |params| > old(widest) then |params| else old(widest)
    {
      rows := |Affected(st, params, f, table)|;
      table := RunDelete(st, params, f, table);
      widest := if |params| > widest then |params| else widest;
    }

    method ExecuteRow(st: RowStatement, params: seq<DbValue>, f: Option<RowFilter>) returns (rows: nat)
      modifies this`table
      ensures table == RunRowDelete(st, params, f, old(table)) && rows == |RowAffected(st, params, f, old(table))|
    {
      rows := |RowAffected(st, params, f, table)|;
      table := RunRowDelete(st, params, f, table);
    }

    /** One batch of entities. */
    method DeleteNext(props: seq<Prop>, es: seq<Entity>, start: nat, deleted0: nat, f: Option<RowFilter>, size: nat,
                      ghost t0: Table)
      returns (ok: bool, end: nat, deleted: nat)
      requires start < |es| && size > 0 && Loaded(props, es, t0) && KeyCount(props, |props|) == 1
      requires BatchesDeleted(t0, table, es, start, deleted0, size, f)
      modifies this
      ensures start < end <= |es|
      ensures if ok then BatchesDeleted(t0, table, es, end, deleted, size, f) else !BatchesReach(t0, es, 0, size, f)
      ensures widest <= old(widest) || widest <= size + |FilterValues(f)|
    {
      hide Fitting, TextOrder, Loaded, KeyedBatch, CountReached, BatchesReach, Without, Affected, ReachedKeys, Reaches;
      end := Min(start + size, |es|);
      ghost var t := table;
      var st, params := BuildBatch([], es[start..end], f);
      ParamsAre(0, end - start);
      var rows := Execute(st, params, f);
      KeyedSlices(props, es, start, end, t0, start, f);
      AffectedAre(st, params, es, start, end, f, t);
      WithoutMore(t0, es, start, end, f);
      AffectedCount(st, params, [], es, start, end, f, t);
      CountStill(t0, es, start, start, end, f);
      BatchesStep(t0, es, start, size, f);
      CountNext(t0, es, start, end, f);
      ok := rows > 0;
      deleted := deleted0 + Min(rows, end - start);
    }

    /** The rows reached are gone; fails on the first batch that reaches none. No statement binds more
        than the limit when one key fits. */
    method DeleteInBatches(props: seq<Prop>, es: seq<Entity>, f: Option<RowFilter>) returns (r: Result<nat, Error>)
      requires Loaded(props, es, table) && KeyCount(props, |props|) == 1
      modifies this
      ensures r.Ok? <==> BatchesReach(old(table), es, 0, KeysPerBatch(|FilterValues(f)|), f)
      ensures r.Ok? ==> table == Without(old(table), es, |es|, f) && r.value == CountReached(old(table), es, 0, |es|, f)
      ensures |FilterValues(f)| < MAX_PARAMS ==> widest <= old(widest) || widest <= MAX_PARAMS
    {
      ghost var t0, w0 := table, widest;
      var size := KeysPerBatch(|FilterValues(f)|);
      var deleted, start, ok := 0, 0, true;
      while start < |es|
        invariant start <= |es| && BatchesDeleted(t0, table, es, start, deleted, size, f)
        invariant widest <= w0 || widest <= size + |FilterValues(f)|
      {
        ok, start, deleted := DeleteNext(props, es, start, deleted, f, size, t0);
        if !ok { return Err(Conflict); }
      }
      r := Ok(deleted);
    }

    /** One entity of the fallback. */
    method DeleteRow(props: seq<Prop>, es: seq<Entity>, n: nat, f: Option<RowFilter>, ghost t0: Table)
      returns (r: Result<nat, Error>)
      requires n < |es| && Loaded(props, es, t0) && table == Without(t0, es, n, f)
      modifies this`table
      ensures r.Ok? <==> DeleteSucceeds(props, t0, es[n], f)
      ensures r.Err? ==> r.error == if TokensKnown(props, es[n]) then Conflict else MissingToken
      ensures r.Ok? ==> r.value == (if es[n].key == [] then 0 else 1) && table == Without(t0, es, n + 1, f)
    {
      var e := es[n];
      StillThere(t0, es, n, f, n);
      NextGone(t0, es, n, f);
      if e.key == [] {
        assert [] !in t0;
        return Ok(0);
      }
      var built := BuildRow(props, [], e, f);
      if built.Err? { return Err(built.error); }
      OneRowGone(built.value.0, built.value.1, props, e, f, table);
      var rows := ExecuteRow(built.value.0, built.value.1, f);
      if rows == 0 { return Err(Conflict); }
      return Ok(1);
    }

    /** One DELETE per entity; fails on the first row that is gone, filtered out or has another token. */
    method DeletePerRow(props: seq<Prop>, es: seq<Entity>, f: Option<RowFilter>) returns (r: Result<nat, Error>)
      requires Loaded(props, es, table)
      modifies this`table
      ensures r.Ok? <==> AllFreshKeyed(props, old(table), es, |es|, f)
      ensures r.Err? ==> exists n :: 0 <= n < |es| && DeleteFailsAt(props, old(table), es, n, f, r.error)
      ensures r.Ok? ==> table == Without(old(table), es, |es|, f) && r.value == CountKeyed(es, |es|)
    {
      hide AllFreshKeyed, DeleteFailsAt;
      AllFreshKeyedExactly(props, table, es, |es|, f);
      ghost var t0 := table;
      var deleted := 0;
      for n := 0 to |es|
        invariant RowsDeleted(props, t0, table, es, n, deleted, f)
      {
        var one := DeleteRow(props, es, n, f, t0);
        if one.Err? {
          DeleteFails(props, t0, es, n, f);
          return Err(one.error);
        }
        deleted := deleted + one.value;
      }
      r := Ok(deleted);
    }

    /** Batches when the key is one column and there are no tokens. */
    method ExecuteDeletes(props: seq<Prop>, es: seq<Entity>, f: Option<RowFilter>) returns (r: Result<nat, Error>)
      requires Loaded(props, es, table)
      modifies this
      ensures r.Ok? <==> if InBatches(props) then BatchesReach(old(table), es, 0, KeysPerBatch(|FilterValues(f)|), f)
                         else AllFreshKeyed(props, old(table), es, |es|, f)
      ensures r.Ok? ==> table == Without(old(table), es, |es|, f)
      ensures r.Ok? ==>
        r.value == if InBatches(props) then CountReached(old(table), es, 0, |es|, f) else CountKeyed(es, |es|)
      ensures r.Ok? && (exists i :: 0 <= i < |props| && props[i].isToken) ==>
        AllFreshKeyed(props, old(table), es, |es|, f)
    {
      if InBatches(props) {
        r := DeleteInBatches(props, es, f);
      } else {
        r := DeletePerRow(props, es, f);
      }
    }
  }

  // ---------------------------------------------------------------------------
  // Batches against rows
  // ---------------------------------------------------------------------------

  lemma {:induction false} AllKeyed(es: seq<Entity>, n: nat)
    requires n <= |es| && forall i :: 0 <= i < n ==> es[i].key != []
    ensures CountKeyed(es, n) == n
  {
    if n > 0 { AllKeyed(es, n - 1); }
  }

  lemma NoTokens(props: seq<Prop>, n: nat)
    requires n <= |props| && !HasTokens(props)
    ensures Tokens(props, n) == []
  {
    if n > 0 { NoTokens(props, n - 1); }
  }

  /** Where both forms apply, one DELETE per row succeeds exactly when the batches, run to their end, would
      count every entity; then the batches succeed too, and leave the same table. Otherwise the batches
      may still succeed, and then only the rows reached are gone. */
  lemma BatchesRefineRows(props: seq<Prop>, es: seq<Entity>, t0: Table, f: Option<RowFilter>, size: nat)
    requires Loaded(props, es, t0) && InBatches(props) && size > 0
    ensures AllFreshKeyed(props, t0, es, |es|, f) <==> CountReached(t0, es, 0, |es|, f) == |es|
    ensures AllFreshKeyed(props, t0, es, |es|, f) ==> BatchesReach(t0, es, 0, size, f) && CountKeyed(es, |es|) == |es|
  {
    AllFreshKeyedExactly(props, t0, es, |es|, f);
    NoTokens(props, |props|);
    AllCounted(t0, es, |es|, f);
    AllKeyed(es, |es|);
    forall i | 0 <= i < |es| ensures DeleteSucceeds(props, t0, es[i], f) <==> Reaches(t0, es[i], f) {
      assert es[i].key != [];
    }
    if DeletesSucceed(props, t0, es, |es|, f) { AllBatchesReach(t0, props, es, 0, size, f); }
  }
}
