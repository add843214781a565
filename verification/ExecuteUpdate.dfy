/** Bulk UPDATE built from a query's WHERE: SET values bound first, then the conditions. */
module ExecuteUpdate {
  import opened Wrappers
  import opened SqlAst
  import opened SqlCompile
  import opened SqlGrammar
  import opened SqlMeaning
  import opened QueryState
  import opened QueryBinding
  import opened QueryMeaning

  datatype Assignment = Assignment(column: string, value: DbValue)

  /** `UPDATE SET column = ?k, ... WHERE text`. */
  datatype BulkStatement = BulkStatement(sets: seq<(string, nat)>, where_: Option<Text>)

  function Values(updates: seq<Assignment>): (r: seq<DbValue>)
    ensures |r| == |updates|
  {
    seq(|updates|, i requires 0 <= i < |updates| => updates[i].value)
  }

  /** The parameters: SET values, then everything the query builder pushed. */
  function BulkParams(updates: seq<Assignment>, s: State): seq<DbValue> {
    Values(updates) + s.parameters
  }

  function BulkWhere(updates: seq<Assignment>, s: State): Option<Text> {
    if s.where_.Some? then Some(CompileBoolExpr(s.where_.value, |updates| + 1, End)) else None
  }

  class Builder {
    const state: State
    var updates: seq<Assignment>

    constructor (s: State)
      ensures state == s && updates == []
    {
      state, updates := s, [];
    }

    method SetColumn(column: string, value: DbValue)
      modifies this
      ensures updates == old(updates) + [Assignment(column, value)]
    {
      updates := updates + [Assignment(column, value)];
    }

    /** Numbers the SET placeholders from 1 and the WHERE placeholders on from there. */
    method ToSql() returns (st: BulkStatement)
      ensures |st.sets| == |updates| && forall i :: 0 <= i < |updates| ==> st.sets[i] == (updates[i].column, i + 1)
      ensures st.where_ == BulkWhere(updates, state)
    {
      var idx := 1;
      var sets: seq<(string, nat)> := [];
      for i := 0 to |updates|
        invariant idx == i + 1 && |sets| == i && forall j :: 0 <= j < i ==> sets[j] == (updates[j].column, j + 1)
      {
        sets := sets + [(updates[i].column, idx)];
        idx := idx + 1;
      }
      var where_ := if state.where_.Some? then Some(CompileBoolExpr(state.where_.value, idx, End)) else None;
      st := BulkStatement(sets, where_);
    }

    method Params() returns (params: seq<DbValue>)
      ensures params == BulkParams(updates, state)
      ensures forall i :: 0 <= i < |updates| ==> Bound(params, i + 1) == updates[i].value
    {
      params := Values(updates) + state.parameters;
    }
  }

  /** Each SET column's placeholder is bound to the value given for that column, in the order of the calls. */
  lemma SetsBound(updates: seq<Assignment>, s: State, i: nat)
    requires i < |updates|
    ensures Bound(BulkParams(updates, s), i + 1) == updates[i].value
    ensures BulkParams(updates, s)[|updates|..] == s.parameters
  {
  }

  function WherePlaceholders(w: Option<Text>): nat {
    if w.Some? then PhCount(w.value) else 0
  }

  /** The WHERE placeholders follow the SET placeholders without a gap. There are as many placeholders
      as parameters exactly when the builder pushed no value for a HAVING condition. */
  lemma BulkNumbering(calls: seq<Call>, updates: seq<Assignment>)
    requires GoodCalls(calls)
    ensures var s := Run(EMPTY, calls);
      && (s.where_.Some? ==> Contiguous(BulkWhere(updates, s).value, |updates| + 1))
      && (|updates| + WherePlaceholders(BulkWhere(updates, s)) == |BulkParams(updates, s)|
          <==> forall k :: 0 <= k < |AllPushes(calls)| ==> AllPushes(calls)[k].kind == ForWhere)
  {
    var s, ps := Run(EMPTY, calls), AllPushes(calls);
    RunState(calls);
    WhereNumbering(s.where_, |updates| + 1);
    OnlyCounts(ps);
  }

  lemma {:induction false} OnlyCounts(ps: seq<Parameter>)
    ensures |Only(ps, ForWhere)| <= |ps|
    ensures |Only(ps, ForWhere)| == |ps| <==> forall k :: 0 <= k < |ps| ==> ps[k].kind == ForWhere
  {
    if ps != [] {
      OnlyCounts(ps[1..]);
      assert forall k :: 0 < k < |ps| ==> ps[k] == ps[1..][k - 1];
    }
  }

  /** The bulk UPDATE touches the rows the calls asked for: for every ordered run and every row, the WHERE
      clause the database reads under the bulk parameters means what the calls mean. */
  lemma BulkMeaning(calls: seq<Call>, updates: seq<Assignment>, env: Env, table: string, row: Row)
    requires GoodCalls(calls) && InOrder(AllPushes(calls)) && HasWhere(calls)
    requires Run(EMPTY, calls).where_.Some? ==> ReadAsMeant(Run(EMPTY, calls).where_.value, table)
    ensures var s := Run(EMPTY, calls);
      && BulkWhere(updates, s).Some?
      && var p := ParseOr(BulkWhere(updates, s).value);
      && p.Parsed? && p.rest == End
      && CallsMeaning(None, calls, env, row) == Some(Eval(p.x, BulkParams(updates, s), env, [Scope(table, row)]))
  {
    var s, ps := Run(EMPTY, calls), AllPushes(calls);
    var w := Only(ps, ForWhere);
    RunState(calls);
    RunParameters(EMPTY, calls);
    OrderedPushes(ps);
    RunTracks(EMPTY, [], None, calls, env, row);
    assert [] + w == w;
    MiddleMeaning(s.where_.value, Values(updates), w, Only(ps, ForHaving), env, row);
    CompiledMeaning(s.where_.value, End, BulkParams(updates, s), |updates|, env, [Scope(table, row)]);
  }
}
