/** Tables as maps from key to row, the changes an UPDATE makes, and the row filter of a query. */
module RowModel {
  import opened Wrappers
  import opened SqlAst

  type Row = map<string, DbValue>

  /** The values of a row's primary key columns; none of them is NULL in a table. */
  type Key = seq<DbValue>

  type Table = map<Key, Row>

  datatype Prop = Prop(field: string, column: string, isKey: bool, isToken: bool)

  /** A tracked entity: its key, its current and original values and the fields found modified. */
  datatype Entity = Entity(key: Key, current: map<string, DbValue>, original: Option<map<string, DbValue>>,
                           modified: seq<string>)

  /** A filter is its bound values and its truth on a row given those values. */
  datatype RowFilter = RowFilter(values: seq<DbValue>, holds: (seq<DbValue>, Row) -> bool)

  function FilterValues(f: Option<RowFilter>): seq<DbValue> {
    if f.Some? then f.value.values else []
  }

  predicate Passes(f: Option<RowFilter>, row: Row) {
    f.None? || f.value.holds(f.value.values, row)
  }

  function ValueOf(e: Entity, p: Prop): DbValue {
    if p.field in e.current then e.current[p.field] else Null
  }

  predicate UniqueProps(props: seq<Prop>) {
    forall i, j :: 0 <= i < j < |props| ==> props[i].column != props[j].column
  }

  function Fields(modified: seq<string>): set<string> {
    set m | m in modified
  }

  /** The columns SET for a set of modified fields; an empty set means all but the key. */
  predicate Selected(p: Prop, fields: set<string>) {
    !p.isKey && (fields == {} || p.field in fields)
  }

  function SetProps(props: seq<Prop>, fields: set<string>, n: nat): seq<Prop>
    requires n <= |props|
  {
    if n == 0 then []
    else SetProps(props, fields, n - 1) + (if Selected(props[n - 1], fields) then [props[n - 1]] else [])
  }

  /** New column values, later columns after earlier ones. */
  function Assignments(ps: seq<Prop>, e: Entity, n: nat): Row
    requires n <= |ps|
  {
    if n == 0 then map[] else Assignments(ps, e, n - 1)[ps[n - 1].column := ValueOf(e, ps[n - 1])]
  }

  function Changes(props: seq<Prop>, fields: set<string>, e: Entity): Row {
    var ps := SetProps(props, fields, |props|);
    Assignments(ps, e, |ps|)
  }

  lemma {:induction false} SetPropsAre(props: seq<Prop>, fields: set<string>, n: nat)
    requires n <= |props|
    ensures forall p :: p in SetProps(props, fields, n) <==>
      exists i :: 0 <= i < n && props[i] == p && Selected(p, fields)
  {
    if n > 0 { SetPropsAre(props, fields, n - 1); }
  }

  lemma {:induction false} AssignedColumns(ps: seq<Prop>, e: Entity, n: nat)
    requires n <= |ps|
    ensures forall c :: c in Assignments(ps, e, n) <==> exists i :: 0 <= i < n && ps[i].column == c
    ensures forall c :: c in Assignments(ps, e, n) ==>
      exists i :: 0 <= i < n && ps[i].column == c && Assignments(ps, e, n)[c] == ValueOf(e, ps[i])
  {
    if n > 0 { AssignedColumns(ps, e, n - 1); }
  }

  lemma SameProp(props: seq<Prop>, p: Prop, q: Prop)
    requires UniqueProps(props) && p in props && q in props && p.column == q.column
    ensures p == q
  {
  }

  /** A column is changed exactly when its property is selected, to the entity's value. */
  lemma ChangesAt(props: seq<Prop>, fields: set<string>, e: Entity, p: Prop)
    requires UniqueProps(props) && p in props
    ensures p.column in Changes(props, fields, e) <==> !p.isKey && (fields == {} || p.field in fields)
    ensures p.column in Changes(props, fields, e) ==>
      Changes(props, fields, e)[p.column] == if p.field in e.current then e.current[p.field] else Null
  {
    var ps := SetProps(props, fields, |props|);
    SetPropsAre(props, fields, |props|);
    AssignedColumns(ps, e, |ps|);
    if p.column in Changes(props, fields, e) {
      var i :| 0 <= i < |ps| && ps[i].column == p.column && Assignments(ps, e, |ps|)[p.column] == ValueOf(e, ps[i]);
      assert ps[i] in ps;
      SameProp(props, p, ps[i]);
    }
    if Selected(p, fields) {
      assert p in ps;
      var i :| 0 <= i < |ps| && ps[i] == p;
      assert ps[i].column == p.column;
    }
  }

  lemma ChangedIsColumn(props: seq<Prop>, fields: set<string>, e: Entity, c: string) returns (p: Prop)
    requires c in Changes(props, fields, e)
    ensures p in props && p.column == c
  {
    var ps := SetProps(props, fields, |props|);
    SetPropsAre(props, fields, |props|);
    AssignedColumns(ps, e, |ps|);
    var i :| 0 <= i < |ps| && ps[i].column == c;
    p := ps[i];
    assert p in ps;
  }

  // ---------------------------------------------------------------------------
  // A table after a list of row changes
  // ---------------------------------------------------------------------------

  predicate DistinctKeys(es: seq<Entity>) {
    forall i, j :: 0 <= i < j < |es| ==> es[i].key != es[j].key
  }

  /** The first `n` entities have been applied to the rows they reach, entity `i` with `changes[i]`;
      a row not reached is as before. */
  ghost predicate Applied(t0: Table, t: Table, es: seq<Entity>, changes: seq<Row>, n: nat, f: Option<RowFilter>)
    requires n <= |es| == |changes|
  {
    && t.Keys == t0.Keys
    && (forall i :: 0 <= i < n && es[i].key in t0 ==>
         t[es[i].key] == if Passes(f, t0[es[i].key]) then t0[es[i].key] + changes[i] else t0[es[i].key])
    && forall k :: k in t0 && (forall i :: 0 <= i < n ==> es[i].key != k) ==> t[k] == t0[k]
  }

  predicate Reaches(t: Table, e: Entity, f: Option<RowFilter>) {
    e.key in t && Passes(f, t[e.key])
  }

  /** Two lists of changes leave the same table exactly when they change each reached row alike. */
  lemma SameTable(t0: Table, t: Table, u: Table, es: seq<Entity>, a: seq<Row>, b: seq<Row>, f: Option<RowFilter>)
    requires |es| == |a| == |b| && Applied(t0, t, es, a, |es|, f) && Applied(t0, u, es, b, |es|, f)
    ensures t == u <==> forall i :: 0 <= i < |es| && Reaches(t0, es[i], f) ==>
      t0[es[i].key] + a[i] == t0[es[i].key] + b[i]
  {
    if forall i :: 0 <= i < |es| && Reaches(t0, es[i], f) ==> t0[es[i].key] + a[i] == t0[es[i].key] + b[i] {
      forall k | k in t0 ensures t[k] == u[k] {
        if i :| 0 <= i < |es| && es[i].key == k {
          assert Reaches(t0, es[i], f) <==> Passes(f, t0[k]);
        }
      }
    } else {
      var i :| 0 <= i < |es| && Reaches(t0, es[i], f) && t0[es[i].key] + a[i] != t0[es[i].key] + b[i];
      assert t[es[i].key] != u[es[i].key];
    }
  }

  // ---------------------------------------------------------------------------
  // Union of modified fields against each entity's own
  // ---------------------------------------------------------------------------

  /** Rows hold a value for every column. */
  predicate FullRows(t: Table, props: seq<Prop>) {
    forall k, i :: k in t && 0 <= i < |props| ==> props[i].column in t[k]
  }

  /** Every column set by exactly one of two field sets already holds the entity's value. */
  predicate UnsetAgree(props: seq<Prop>, a: set<string>, b: set<string>, e: Entity, row: Row) {
    forall p :: p in props && Selected(p, a) != Selected(p, b) ==> p.column in row && row[p.column] == ValueOf(e, p)
  }

  /** Setting the columns of `a` or those of `b` gives the same row exactly when the difference is already stored. */
  lemma SameRow(props: seq<Prop>, a: set<string>, b: set<string>, e: Entity, row: Row)
    requires UniqueProps(props) && forall p :: p in props ==> p.column in row
    ensures row + Changes(props, a, e) == row + Changes(props, b, e) <==> UnsetAgree(props, a, b, e, row)
  {
    var x, y := row + Changes(props, a, e), row + Changes(props, b, e);
    if UnsetAgree(props, a, b, e, row) {
      forall c ensures c in x <==> c in y {
        ColumnsKept(props, a, e, row, c);
        ColumnsKept(props, b, e, row, c);
      }
      forall c | c in x ensures x[c] == y[c] {
        ColumnsKept(props, a, e, row, c);
        SameCell(props, a, b, e, row, c);
      }
    } else {
      var p :| p in props && Selected(p, a) != Selected(p, b) && row[p.column] != ValueOf(e, p);
      ChangesAt(props, a, e, p);
      ChangesAt(props, b, e, p);
      assert x[p.column] != y[p.column];
    }
  }

  lemma ColumnsKept(props: seq<Prop>, fields: set<string>, e: Entity, row: Row, c: string)
    requires forall p :: p in props ==> p.column in row
    ensures c in row + Changes(props, fields, e) <==> c in row
  {
    if c in Changes(props, fields, e) {
      var p := ChangedIsColumn(props, fields, e, c);
    }
  }

  lemma SameCell(props: seq<Prop>, a: set<string>, b: set<string>, e: Entity, row: Row, c: string)
    requires UniqueProps(props) && (forall p :: p in props ==> p.column in row) && UnsetAgree(props, a, b, e, row)
    requires c in row
    ensures (row + Changes(props, a, e))[c] == (row + Changes(props, b, e))[c]
  {
    if c in Changes(props, a, e) {
      var p := ChangedIsColumn(props, a, e, c);
      ChangesAt(props, a, e, p);
      ChangesAt(props, b, e, p);
    } else if c in Changes(props, b, e) {
      var p := ChangedIsColumn(props, b, e, c);
      ChangesAt(props, a, e, p);
      ChangesAt(props, b, e, p);
    }
  }
}
