/** Batched INSERT: row-major placeholders and values, and the keys handed back to the entities. */
module InsertBatch {
  import opened SqlAst

  const MAX_PARAMS := 900

  /** One entity's values for the insert columns. */
  type Values = seq<DbValue>

  /** How the generated keys come back: all rows, the first id of the statement, its last id, or not at all. */
  datatype Dialect = Returning | FirstId | LastId | NoId

  /** Values before row `r`. */
  function Base(r: nat, cols: nat): nat {
    if r == 0 then 0 else Base(r - 1, cols) + cols
  }

  lemma {:induction false} BaseIs(r: nat, cols: nat)
    ensures Base(r, cols) == r * cols
  {
    if r > 0 {
      BaseIs(r - 1, cols);
      assert r * cols == (r - 1) * cols + cols;
    }
  }

  lemma {:induction false} BaseGrows(r: nat, s: nat, cols: nat)
    requires r <= s
    ensures Base(r, cols) <= Base(s, cols)
  {
    if r < s { BaseGrows(r, s - 1, cols); }
  }

  /** Placeholders of `VALUES (?,...), (?,...)`, numbered on across the rows. */
  method Placeholders(cols: nat, rows: nat) returns (groups: seq<seq<nat>>)
    ensures |groups| == rows
    ensures forall r :: 0 <= r < rows ==> |groups[r]| == cols && forall c :: 0 <= c < cols ==>
      groups[r][c] == Base(r, cols) + c + 1
  {
    groups := [];
    var idx := 1;
    for r := 0 to rows
      invariant |groups| == r && idx == Base(r, cols) + 1
      invariant forall q :: 0 <= q < r ==> |groups[q]| == cols && forall c :: 0 <= c < cols ==>
        groups[q][c] == Base(q, cols) + c + 1
    {
      var group := [];
      for c := 0 to cols
        invariant |group| == c && idx == Base(r, cols) + c + 1
        invariant forall d :: 0 <= d < c ==> group[d] == Base(r, cols) + d + 1
      {
        group := group + [idx];
        idx := idx + 1;
      }
      groups := groups + [group];
    }
  }

  ghost predicate RowsAt(params: seq<DbValue>, es: seq<Values>, start: nat, n: nat, cols: nat)
    requires start + n <= |es|
  {
    && |params| == Base(n, cols)
    && forall r :: 0 <= r < n ==> RowAt(params, es, start, r, cols)
  }

  /** The values of entity `start + r` are row `r` of the parameters. */
  ghost predicate RowAt(params: seq<DbValue>, es: seq<Values>, start: nat, r: nat, cols: nat)
    requires start + r < |es|
  {
    Base(r, cols) + cols <= |params| && params[Base(r, cols)..Base(r, cols) + cols] == es[start + r]
  }

  lemma RowKept(params: seq<DbValue>, more: seq<DbValue>, es: seq<Values>, start: nat, r: nat, cols: nat)
    requires start + r < |es| && RowAt(params, es, start, r, cols)
    ensures RowAt(params + more, es, start, r, cols)
  {
    assert (params + more)[Base(r, cols)..Base(r, cols) + cols] == params[Base(r, cols)..Base(r, cols) + cols];
  }

  method RowParams(es: seq<Values>, start: nat, end: nat, cols: nat) returns (params: seq<DbValue>)
    requires start <= end <= |es| && forall i :: 0 <= i < |es| ==> |es[i]| == cols
    ensures RowsAt(params, es, start, end - start, cols)
  {
    params := [];
    for k := start to end
      invariant RowsAt(params, es, start, k - start, cols)
    {
      forall r | 0 <= r < k - start ensures RowAt(params + es[k], es, start, r, cols) {
        RowKept(params, es[k], es, start, r, cols);
      }
      params := params + es[k];
    }
  }

  /** The row the placeholders of one group bind. */
  function BoundRow(group: seq<nat>, params: seq<DbValue>): Values {
    seq(|group|, c requires 0 <= c < |group| => if 1 <= group[c] <= |params| then params[group[c] - 1] else Null)
  }

  lemma BindsRow(group: seq<nat>, params: seq<DbValue>, es: seq<Values>, start: nat, r: nat, cols: nat)
    requires |group| == cols && (forall c :: 0 <= c < cols ==> group[c] == Base(r, cols) + c + 1)
    requires start + r < |es| && RowAt(params, es, start, r, cols)
    ensures BoundRow(group, params) == es[start + r]
  {
    var part := params[Base(r, cols)..Base(r, cols) + cols];
    assert forall c :: 0 <= c < cols ==> params[Base(r, cols) + c] == part[c];
  }

  type Rows = map<int, Values>

  /** Inserting entities one at a time from `start` on, the first under key `first`. */
  function OneByOne(rows: Rows, first: int, es: seq<Values>, start: nat, n: nat): Rows
    requires start + n <= |es|
  {
    if n == 0 then rows else OneByOne(rows, first, es, start, n - 1)[first + n - 1 := es[start + n - 1]]
  }

  lemma {:induction false} OneByOneJoins(rows: Rows, first: int, es: seq<Values>, start: nat, n: nat)
    requires start + n <= |es|
    ensures OneByOne(OneByOne(rows, first, es, 0, start), first + start, es, start, n)
         == OneByOne(rows, first, es, 0, start + n)
  {
    if n > 0 { OneByOneJoins(rows, first, es, start, n - 1); }
  }

  lemma {:induction false} SameInserts(rows: Rows, first: int, a: seq<Values>, es: seq<Values>, start: nat, n: nat)
    requires n <= |a| && start + n <= |es| && forall i :: 0 <= i < n ==> a[i] == es[start + i]
    ensures OneByOne(rows, first, a, 0, n) == OneByOne(rows, first, es, start, n)
  {
    if n > 0 { SameInserts(rows, first, a, es, start, n - 1); }
  }

  /** The key assigned to an entity holds that entity's values. */
  lemma {:induction false} OneByOneHolds(rows: Rows, first: int, es: seq<Values>, start: nat, n: nat, i: nat)
    requires i < n && start + n <= |es|
    ensures first + i in OneByOne(rows, first, es, start, n)
    ensures OneByOne(rows, first, es, start, n)[first + i] == es[start + i]
  {
    if i < n - 1 { OneByOneHolds(rows, first, es, start, n - 1, i); }
  }

  /** Every other row is as before. */
  lemma {:induction false} OneByOneKeeps(rows: Rows, first: int, es: seq<Values>, start: nat, n: nat, k: int)
    requires start + n <= |es| && (k < first || k >= first + n)
    ensures k in OneByOne(rows, first, es, start, n) <==> k in rows
    ensures k in rows ==> OneByOne(rows, first, es, start, n)[k] == rows[k]
  {
    if n > 0 { OneByOneKeeps(rows, first, es, start, n - 1, k); }
  }

  /** The keys handed to the callback. */
  function KeyAt(d: Dialect, first: int, i: int): int {
    if d == NoId then 0 else first + i
  }

  function BoundRows(groups: seq<seq<nat>>, params: seq<DbValue>): seq<Values> {
    seq(|groups|, r requires 0 <= r < |groups| => BoundRow(groups[r], params))
  }

  /** Keys computed from the first id of a batch. */
  method CountUp(first: int, n: nat) returns (keys: seq<int>)
    ensures |keys| == n && forall i :: 0 <= i < n ==> keys[i] == first + i
  {
    keys := [];
    for i := 0 to n
      invariant |keys| == i && forall j :: 0 <= j < i ==> keys[j] == first + j
    {
      keys := keys + [first + i];
    }
  }

  /** A table whose keys are assigned one after the other. */
  class Store {
    const dialect: Dialect
    var rows: Rows
    var next: int
    ghost var widest: nat

    constructor (d: Dialect, start: int)
      ensures dialect == d && rows == map[] && next == start && widest == 0
    {
      dialect, rows, next, widest := d, map[], start, 0;
    }

    /** The database inserts the bound rows in order. */
    method Execute(groups: seq<seq<nat>>, params: seq<DbValue>)
      modifies this
      ensures next == old(next) + |groups|
      ensures rows == OneByOne(old(rows), old(next), BoundRows(groups, params), 0, |groups|)
      ensures widest == if |params| > old(widest) then |params| else old(widest)
    {
      widest := if |params| > widest then |params| else widest;
      var first, bound := next, BoundRows(groups, params);
      for i := 0 to |groups|
        invariant next == first + i && first == old(next)
        invariant widest == if |params| > old(widest) then |params| else old(widest)
        invariant rows == OneByOne(old(rows), first, bound, 0, i)
      {
        rows := rows[next := bound[i]];
        next := next + 1;
      }
    }

    /** The keys of the `n` rows inserted last, read back or computed from the id the dialect reports. */
    method GeneratedKeys(n: nat) returns (keys: seq<int>)
      ensures |keys| == n && forall i :: 0 <= i < n ==> keys[i] == KeyAt(dialect, next - n, i)
    {
      match dialect {
        case Returning => keys := CountUp(next - n, n);
        case FirstId =>
          var reported := next - n;
          keys := CountUp(reported, n);
        case LastId =>
          var reported := next - 1;
          keys := CountUp(reported - n + 1, n);
        case NoId => keys := seq(n, i => 0);
      }
    }

    /** One statement for the entities `start` up to `end`. */
    method InsertRows(es: seq<Values>, start: nat, end: nat, cols: nat) returns (keys: seq<int>)
      requires start < end <= |es| && forall i :: 0 <= i < |es| ==> |es[i]| == cols
      modifies this
      ensures rows == OneByOne(old(rows), old(next), es, start, end - start) && next == old(next) + (end - start)
      ensures |keys| == end - start && forall i :: 0 <= i < |keys| ==> keys[i] == KeyAt(dialect, old(next), i)
      ensures widest <= old(widest) || widest == Base(end - start, cols)
    {
      var n := end - start;
      var groups := Placeholders(cols, n);
      var params := RowParams(es, start, end, cols);
      ghost var bound := BoundRows(groups, params);
      forall i | 0 <= i < n ensures bound[i] == es[start + i] {
        BindsRow(groups[i], params, es, start, i, cols);
      }
      Execute(groups, params);
      SameInserts(old(rows), old(next), bound, es, start, n);
      keys := GeneratedKeys(n);
    }

    /** The batches from `start` on of entities with insert columns. */
    method InsertBatches(es: seq<Values>, cols: nat) returns (inserted: nat, keys: seq<int>)
      requires cols > 0 && forall i :: 0 <= i < |es| ==> |es[i]| == cols
      modifies this
      ensures rows == OneByOne(old(rows), old(next), es, 0, |es|) && next == old(next) + |es|
      ensures inserted == |es| == |keys| && forall i :: 0 <= i < |es| ==> keys[i] == KeyAt(dialect, old(next), i)
      ensures cols <= MAX_PARAMS ==> widest <= old(widest) || widest <= MAX_PARAMS
    {
      ghost var rows0, first, w0 := rows, next, widest;
      var size := BatchSize(cols);
      if cols <= MAX_PARAMS { BatchSizeFits(cols); }
      inserted, keys := 0, [];
      var start := 0;
      while start < |es|
        invariant inserted == start == |keys| <= |es| && next == first + start
        invariant rows == OneByOne(rows0, first, es, 0, start)
        invariant forall i :: 0 <= i < start ==> keys[i] == KeyAt(dialect, first, i)
        invariant widest <= w0 || widest <= Base(size, cols)
      {
        var end := if start + size < |es| then start + size else |es|;
        OneByOneJoins(rows0, first, es, start, end - start);
        BaseGrows(end - start, size, cols);
        var batch := InsertRows(es, start, end, cols);
        keys := keys + batch;
        inserted := inserted + (end - start);
        start := end;
      }
    }

    /** Every entity is inserted exactly if the type has an insert column. Then each entity gets the key
        of its own row, if the dialect reports keys, and all other rows are as before; else no row changes. */
    method ExecuteInserts(es: seq<Values>, cols: nat) returns (inserted: nat, keys: seq<int>)
      requires forall i :: 0 <= i < |es| ==> |es[i]| == cols
      modifies this
      ensures inserted == |es| <==> cols > 0 || es == []
      ensures cols > 0 ==>
        rows == OneByOne(old(rows), old(next), es, 0, |es|) && next == old(next) + |es| && |keys| == |es|
      ensures cols > 0 && dialect != NoId ==> forall i :: 0 <= i < |es| ==> keys[i] in rows && rows[keys[i]] == es[i]
      ensures cols > 0 && dialect == NoId ==> forall i :: 0 <= i < |es| ==> keys[i] == 0
      ensures forall k :: k < old(next) || k >= next ==>
        (k in rows <==> k in old(rows)) && (k in rows ==> rows[k] == old(rows)[k])
      ensures cols == 0 ==> inserted == 0 && keys == [] && rows == old(rows) && next == old(next)
      ensures cols <= MAX_PARAMS ==> widest <= old(widest) || widest <= MAX_PARAMS
    {
      if es == [] || cols == 0 { return 0, []; }
      inserted, keys := InsertBatches(es, cols);
      forall i | 0 <= i < |es| && dialect != NoId ensures keys[i] in rows && rows[keys[i]] == es[i] {
        OneByOneHolds(old(rows), old(next), es, 0, |es|, i);
      }
      forall k | k < old(next) || k >= next
        ensures (k in rows <==> k in old(rows)) && (k in rows ==> rows[k] == old(rows)[k]) {
        OneByOneKeeps(old(rows), old(next), es, 0, |es|, k);
      }
    }
  }

  function BatchSize(cols: nat): (n: nat)
    requires cols > 0
    ensures n > 0
  {
    var n := MAX_PARAMS / cols;
    if n == 0 then 1 else n
  }

  /** A batch fits the limit, and one of one row more would not. */
  lemma BatchSizeFits(cols: nat)
    requires 0 < cols <= MAX_PARAMS
    ensures Base(BatchSize(cols), cols) <= MAX_PARAMS < Base(BatchSize(cols) + 1, cols)
  {
    var n := MAX_PARAMS / cols;
    BaseIs(BatchSize(cols), cols);
    BaseIs(BatchSize(cols) + 1, cols);
    assert n * cols <= MAX_PARAMS < (n + 1) * cols;
  }
}
