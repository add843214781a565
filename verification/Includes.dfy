/** Batched loading of navigations against one lookup per entity, and nested loading of their children. */
module Includes {
  import opened Wrappers

  /** Integers of three widths, strings and NULL. */
  datatype Value = Null | I16(n: int) | I32(n: int) | I64(n: int) | Str(s: string)

  /** The hashable form: integers of any width are one. */
  datatype Key = NullKey | IntKey(n: int) | StrKey(s: string)

  type Row = seq<Value>

  /** A row filter, as the configured query filter of a table. */
  type RowFilter = Row -> bool

  function KeyOf(v: Value): Key {
    match v
    case Null => NullKey
    case I16(n) => IntKey(n)
    case I32(n) => IntKey(n)
    case I64(n) => IntKey(n)
    case Str(s) => StrKey(s)
  }

  /** SQL equality: true only between values of the same kind that are not NULL. */
  predicate SqlEq(a: Value, b: Value) {
    match a
    case Null => false
    case Str(s) => b == Str(s)
    case _ => (b.I16? || b.I32? || b.I64?) && a.n == b.n
  }

  // ---------------------------------------------------------------------------
  // Queries
  // ---------------------------------------------------------------------------

  /** The database's rows whose column is among the values and that pass the filter, over the first `n`. */
  function SelectIn(table: seq<Row>, col: nat, values: seq<Value>, pass: RowFilter, n: nat): seq<Row>
    requires n <= |table|
  {
    if n == 0 then []
    else
      var row := table[n - 1];
      SelectIn(table, col, values, pass, n - 1) + (if InList(row, col, values) && pass(row) then [row] else [])
  }

  predicate InList(row: Row, col: nat, values: seq<Value>) {
    col < |row| && exists i :: 0 <= i < |values| && SqlEq(row[col], values[i])
  }

  /** The simple form: one query for one value. */
  function Lookup(table: seq<Row>, col: nat, v: Value, pass: RowFilter, n: nat): seq<Row>
    requires n <= |table|
  {
    if n == 0 then []
    else
      var row := table[n - 1];
      Lookup(table, col, v, pass, n - 1) + (if col < |row| && SqlEq(row[col], v) && pass(row) then [row] else [])
  }

  function LookupAll(table: seq<Row>, col: nat, v: Value, pass: RowFilter): seq<Row> {
    Lookup(table, col, v, pass, |table|)
  }

  /** The rows with that key in a column, in order. */
  function WithKey(rows: seq<Row>, col: nat, k: Key, n: nat): seq<Row>
    requires n <= |rows|
  {
    if n == 0 then []
    else
      var row := rows[n - 1];
      WithKey(rows, col, k, n - 1) + (if col < |row| && KeyOf(row[col]) == k then [row] else [])
  }

  lemma {:induction false} WithKeyPush(rows: seq<Row>, row: Row, col: nat, k: Key, n: nat)
    requires n <= |rows|
    ensures WithKey(rows + [row], col, k, n) == WithKey(rows, col, k, n)
  {
    if n > 0 { WithKeyPush(rows, row, col, k, n - 1); }
  }

  lemma WithKeyNext(rows: seq<Row>, row: Row, col: nat, k: Key)
    ensures WithKey(rows + [row], col, k, |rows| + 1)
         == WithKey(rows, col, k, |rows|) + (if col < |row| && KeyOf(row[col]) == k then [row] else [])
    ensures rows + [] == rows
  {
    WithKeyPush(rows, row, col, k, |rows|);
    assert (rows + [row])[|rows|] == row;
  }

  /** Picking one key out of the batched result is the lookup of that value. */
  lemma {:induction false} BatchIsLookup(table: seq<Row>, col: nat, values: seq<Value>, pass: RowFilter, n: nat, i: nat)
    requires n <= |table| && i < |values|
    ensures var batch := SelectIn(table, col, values, pass, n);
      values[i] != Null ==> WithKey(batch, col, KeyOf(values[i]), |batch|) == Lookup(table, col, values[i], pass, n)
  {
    if n > 0 && values[i] != Null {
      BatchIsLookup(table, col, values, pass, n - 1, i);
      var row, before := table[n - 1], SelectIn(table, col, values, pass, n - 1);
      if col < |row| { EqSymmetric(row[col], values[i]); }
      WithKeyNext(before, row, col, KeyOf(values[i]));
    }
  }

  lemma EqSymmetric(a: Value, b: Value)
    requires b != Null
    ensures SqlEq(a, b) <==> KeyOf(a) == KeyOf(b)
  {
  }

  lemma {:induction false} NullFindsNothing(table: seq<Row>, col: nat, pass: RowFilter, n: nat)
    requires n <= |table|
    ensures Lookup(table, col, Null, pass, n) == []
  {
    if n > 0 { NullFindsNothing(table, col, pass, n - 1); }
  }

  lemma {:induction false} NoNullSelected(table: seq<Row>, col: nat, values: seq<Value>, pass: RowFilter, n: nat)
    requires n <= |table|
    ensures var batch := SelectIn(table, col, values, pass, n); WithKey(batch, col, NullKey, |batch|) == []
  {
    if n > 0 {
      NoNullSelected(table, col, values, pass, n - 1);
      var row, before := table[n - 1], SelectIn(table, col, values, pass, n - 1);
      WithKeyNext(before, row, col, NullKey);
    }
  }

  /** The batched result holds, per asked value, exactly what the lookup of it returns. */
  lemma BatchHolds(table: seq<Row>, col: nat, values: seq<Value>, pass: RowFilter, i: nat)
    requires i < |values|
    ensures var batch := SelectIn(table, col, values, pass, |table|);
      WithKey(batch, col, KeyOf(values[i]), |batch|) == LookupAll(table, col, values[i], pass)
  {
    BatchIsLookup(table, col, values, pass, |table|, i);
    if values[i] == Null {
      NullFindsNothing(table, col, pass, |table|);
      NoNullSelected(table, col, values, pass, |table|);
    }
  }

  // ---------------------------------------------------------------------------
  // Hash maps over the result
  // ---------------------------------------------------------------------------

  function Group(m: map<Key, seq<Row>>, k: Key): seq<Row> {
    if k in m then m[k] else []
  }

  method GroupRows(rows: seq<Row>, col: nat) returns (grouped: map<Key, seq<Row>>)
    ensures forall k :: Group(grouped, k) == WithKey(rows, col, k, |rows|)
    ensures forall k :: k in grouped ==> grouped[k] != []
  {
    grouped := map[];
    for n := 0 to |rows|
      invariant forall k :: Group(grouped, k) == WithKey(rows, col, k, n)
      invariant forall k :: k in grouped ==> grouped[k] != []
    {
      if col < |rows[n]| {
        var k := KeyOf(rows[n][col]);
        grouped := grouped[k := Group(grouped, k) + [rows[n]]];
      }
    }
  }

  function Last(rows: seq<Row>): Option<Row> {
    if rows == [] then None else Some(rows[|rows| - 1])
  }

  function At(m: map<Key, Row>, k: Key): Option<Row> {
    if k in m then Some(m[k]) else None
  }

  /** A later row with the same key replaces an earlier one. */
  method IndexRows(rows: seq<Row>, col: nat) returns (index: map<Key, Row>)
    ensures forall k :: At(index, k) == Last(WithKey(rows, col, k, |rows|))
  {
    index := map[];
    for n := 0 to |rows|
      invariant forall k :: At(index, k) == Last(WithKey(rows, col, k, n))
    {
      if col < |rows[n]| { index := index[KeyOf(rows[n][col]) := rows[n]]; }
    }
  }

  // ---------------------------------------------------------------------------
  // Entities
  // ---------------------------------------------------------------------------

  /** An entity's primary key (if it has one), its foreign key field, and what its navigation holds. */
  datatype Entity = Entity(pk: Option<Value>, fk: Option<Value>, children: seq<Row>, reference: Option<Row>)

  /** The keys present, in entity order. */
  function Pks(es: seq<Entity>, n: nat): seq<Value>
    requires n <= |es|
  {
    if n == 0 then [] else Pks(es, n - 1) + (if es[n - 1].pk.Some? then [es[n - 1].pk.value] else [])
  }

  function Fks(es: seq<Entity>, n: nat): seq<Value>
    requires n <= |es|
  {
    if n == 0 then [] else Fks(es, n - 1) + (if es[n - 1].fk.Some? then [es[n - 1].fk.value] else [])
  }

  lemma {:induction false} PkAt(es: seq<Entity>, n: nat, i: nat) returns (j: nat)
    requires i < n <= |es| && es[i].pk.Some?
    ensures j < |Pks(es, n)| && Pks(es, n)[j] == es[i].pk.value
  {
    if i == n - 1 { j := |Pks(es, n - 1)|; } else { j := PkAt(es, n - 1, i); }
  }

  lemma {:induction false} FkAt(es: seq<Entity>, n: nat, i: nat) returns (j: nat)
    requires i < n <= |es| && es[i].fk.Some?
    ensures j < |Fks(es, n)| && Fks(es, n)[j] == es[i].fk.value
  {
    if i == n - 1 { j := |Fks(es, n - 1)|; } else { j := FkAt(es, n - 1, i); }
  }

  lemma {:induction false} NoPks(es: seq<Entity>, n: nat)
    requires n <= |es| && Pks(es, n) == []
    ensures forall i :: 0 <= i < n ==> es[i].pk.None?
  {
    if n > 0 { NoPks(es, n - 1); }
  }

  lemma {:induction false} NoFks(es: seq<Entity>, n: nat)
    requires n <= |es| && Fks(es, n) == []
    ensures forall i :: 0 <= i < n ==> es[i].fk.None?
  {
    if n > 0 { NoFks(es, n - 1); }
  }

  /** An entity after its own lookup: its rows, or what it held when there are none. */
  function WithChildren(e: Entity, rows: seq<Row>): Entity {
    if rows == [] then e else e.(children := rows)
  }

  function WithReference(e: Entity, row: Option<Row>): Entity {
    if row.None? then e else e.(reference := row)
  }

  function LoadMany(e: Entity, table: seq<Row>, col: nat, pass: RowFilter): Entity {
    if e.pk.None? then e else WithChildren(e, LookupAll(table, col, e.pk.value, pass))
  }

  function LoadOne(e: Entity, table: seq<Row>, col: nat, pass: RowFilter): Entity {
    if e.fk.None? then e else WithReference(e, Last(LookupAll(table, col, e.fk.value, pass)))
  }

  /** HasMany: one query for all entities gives each the rows its own lookup would, in row order. */
  method LoadHasMany(es: seq<Entity>, table: seq<Row>, col: nat, pass: RowFilter) returns (loaded: seq<Entity>)
    ensures |loaded| == |es| && forall i :: 0 <= i < |es| ==> loaded[i] == LoadMany(es[i], table, col, pass)
  {
    loaded := es;
    var ids := Pks(es, |es|);
    if ids == [] {
      NoPks(es, |es|);
      return;
    }
    var rows := SelectIn(table, col, ids, pass, |table|);
    var grouped := GroupRows(rows, col);
    for i := 0 to |es|
      invariant |loaded| == |es| && forall j :: i <= j < |es| ==> loaded[j] == es[j]
      invariant forall j :: 0 <= j < i ==> loaded[j] == LoadMany(es[j], table, col, pass)
    {
      if es[i].pk.Some? {
        ghost var j := PkAt(es, |es|, i);
        BatchHolds(table, col, ids, pass, j);
        var key := KeyOf(es[i].pk.value);
        assert Group(grouped, key) == LookupAll(table, col, es[i].pk.value, pass);
        if key in grouped { loaded := loaded[i := es[i].(children := grouped[key])]; }
      }
    }
  }

  /** BelongsTo: each entity gets the row its own lookup would find (the last, should there be several). */
  method LoadBelongsTo(es: seq<Entity>, table: seq<Row>, col: nat, pass: RowFilter) returns (loaded: seq<Entity>)
    ensures |loaded| == |es| && forall i :: 0 <= i < |es| ==> loaded[i] == LoadOne(es[i], table, col, pass)
  {
    loaded := es;
    var ids := Fks(es, |es|);
    if ids == [] {
      NoFks(es, |es|);
      return;
    }
    var rows := SelectIn(table, col, ids, pass, |table|);
    var index := IndexRows(rows, col);
    for i := 0 to |es|
      invariant |loaded| == |es| && forall j :: i <= j < |es| ==> loaded[j] == es[j]
      invariant forall j :: 0 <= j < i ==> loaded[j] == LoadOne(es[j], table, col, pass)
    {
      if es[i].fk.Some? {
        ghost var j := FkAt(es, |es|, i);
        BatchHolds(table, col, ids, pass, j);
        var key := KeyOf(es[i].fk.value);
        assert At(index, key) == Last(LookupAll(table, col, es[i].fk.value, pass));
        if key in index { loaded := loaded[i := es[i].(reference := Some(index[key]))]; }
      }
    }
  }

  // ---------------------------------------------------------------------------
  // Many-to-many
  // ---------------------------------------------------------------------------

  predicate NoFilter(row: Row) {
    true
  }

  /** The related values of join rows with that parent key, in row order. */
  function RelatedOf(rows: seq<Row>, pcol: nat, rcol: nat, k: Key, n: nat): seq<Value>
    requires n <= |rows|
  {
    if n == 0 then []
    else
      var row := rows[n - 1];
      RelatedOf(rows, pcol, rcol, k, n - 1)
        + (if pcol < |row| && rcol < |row| && KeyOf(row[pcol]) == k then [row[rcol]] else [])
  }

  /** The related row of each value that has one, in order. */
  function Resolve(values: seq<Value>, table: seq<Row>, col: nat, pass: RowFilter, n: nat): seq<Row>
    requires n <= |values|
  {
    if n == 0 then []
    else
      var row := Last(LookupAll(table, col, values[n - 1], pass));
      Resolve(values, table, col, pass, n - 1) + (if row.Some? then [row.value] else [])
  }

  /** The simple form: an entity's own join rows, then one lookup per join row. */
  function LoadThrough(e: Entity, join_: seq<Row>, pcol: nat, rcol: nat, table: seq<Row>, col: nat,
                       pass: RowFilter): Entity {
    if e.pk.None? then e
    else
      var own := LookupAll(join_, pcol, e.pk.value, NoFilter);
      var related := AllValues(own, rcol, |own|);
      WithChildren(e, Resolve(related, table, col, pass, |related|))
  }

  /** The values of one column, of the rows that have it. */
  function AllValues(rows: seq<Row>, col: nat, n: nat): seq<Value>
    requires n <= |rows|
  {
    if n == 0 then [] else AllValues(rows, col, n - 1) + (if col < |rows[n - 1]| then [rows[n - 1][col]] else [])
  }

  lemma {:induction false} ValuesPush(rows: seq<Row>, row: Row, col: nat, n: nat)
    requires n <= |rows|
    ensures AllValues(rows + [row], col, n) == AllValues(rows, col, n)
  {
    if n > 0 { ValuesPush(rows, row, col, n - 1); }
  }

  /** The related values of a parent are those of its own join rows. */
  lemma {:induction false} RelatedAreOwn(rows: seq<Row>, pcol: nat, rcol: nat, k: Key, n: nat)
    requires n <= |rows|
    ensures var own := WithKey(rows, pcol, k, n); RelatedOf(rows, pcol, rcol, k, n) == AllValues(own, rcol, |own|)
  {
    if n > 0 {
      RelatedAreOwn(rows, pcol, rcol, k, n - 1);
      var own := WithKey(rows, pcol, k, n - 1);
      ValuesPush(own, rows[n - 1], rcol, |own|);
      assert (own + [rows[n - 1]])[|own|] == rows[n - 1] && own + [] == own;
    }
  }

  /** Join rows grouped by parent. */
  method GroupJoinRows(rows: seq<Row>, pcol: nat, rcol: nat) returns (grouped: map<Key, seq<Value>>)
    ensures forall k :: Values(grouped, k) == RelatedOf(rows, pcol, rcol, k, |rows|)
  {
    grouped := map[];
    for n := 0 to |rows|
      invariant forall k :: Values(grouped, k) == RelatedOf(rows, pcol, rcol, k, n)
    {
      if pcol < |rows[n]| && rcol < |rows[n]| {
        var k := KeyOf(rows[n][pcol]);
        grouped := grouped[k := Values(grouped, k) + [rows[n][rcol]]];
      }
    }
  }

  function Values(m: map<Key, seq<Value>>, k: Key): seq<Value> {
    if k in m then m[k] else []
  }

  /** Some listed value has the key. */
  ghost predicate HasKey(ids: seq<Value>, k: Key) {
    exists i :: 0 <= i < |ids| && KeyOf(ids[i]) == k
  }

  lemma HasKeyPush(ids: seq<Value>, v: Value, k: Key)
    ensures HasKey(ids + [v], k) <==> HasKey(ids, k) || KeyOf(v) == k
  {
    if HasKey(ids, k) {
      var i :| 0 <= i < |ids| && KeyOf(ids[i]) == k;
      assert (ids + [v])[i] == ids[i];
    }
    assert (ids + [v])[|ids|] == v;
  }

  /** The related values of all join rows, one per key. */
  method DistinctRelated(rows: seq<Row>, rcol: nat) returns (ids: seq<Value>)
    ensures forall n :: 0 <= n < |rows| && rcol < |rows[n]| ==> HasKey(ids, KeyOf(rows[n][rcol]))
    ensures forall i, j :: 0 <= i < j < |ids| ==> KeyOf(ids[i]) != KeyOf(ids[j])
  {
    ids := [];
    var seen: set<Key> := {};
    for n := 0 to |rows|
      invariant forall k :: HasKey(ids, k) <==> k in seen
      invariant forall m :: 0 <= m < n && rcol < |rows[m]| ==> KeyOf(rows[m][rcol]) in seen
      invariant forall i, j :: 0 <= i < j < |ids| ==> KeyOf(ids[i]) != KeyOf(ids[j])
    {
      if rcol < |rows[n]| {
        var v := rows[n][rcol];
        if KeyOf(v) !in seen {
          forall k ensures HasKey(ids + [v], k) <==> HasKey(ids, k) || KeyOf(v) == k {
            HasKeyPush(ids, v, k);
          }
          assert forall i :: 0 <= i < |ids| ==> HasKey(ids, KeyOf(ids[i]));
          ids := ids + [v];
          seen := seen + {KeyOf(v)};
        }
      }
    }
  }

  /** A value with the key of a listed one finds in the batched rows what its own lookup finds. */
  lemma ResolvedAlike(ids: seq<Value>, v: Value, table: seq<Row>, col: nat, pass: RowFilter)
    requires HasKey(ids, KeyOf(v))
    ensures var batch := SelectIn(table, col, ids, pass, |table|);
      WithKey(batch, col, KeyOf(v), |batch|) == LookupAll(table, col, v, pass)
  {
    var i :| 0 <= i < |ids| && KeyOf(ids[i]) == KeyOf(v);
    BatchHolds(table, col, ids, pass, i);
    SameLookup(table, col, ids[i], v, pass, |table|);
  }

  lemma {:induction false} SameLookup(table: seq<Row>, col: nat, v: Value, u: Value, pass: RowFilter, n: nat)
    requires n <= |table| && KeyOf(u) == KeyOf(v)
    ensures Lookup(table, col, v, pass, n) == Lookup(table, col, u, pass, n)
  {
    if n > 0 {
      SameLookup(table, col, v, u, pass, n - 1);
      var row := table[n - 1];
      if col < |row| && v != Null {
        EqSymmetric(row[col], v);
        EqSymmetric(row[col], u);
      }
    }
  }

  /** The related rows of one entity, looked up in the index. */
  method CollectRelated(values: seq<Value>, index: map<Key, Row>, ghost table: seq<Row>, ghost col: nat,
                        ghost pass: RowFilter)
    returns (rows: seq<Row>)
    requires forall i :: 0 <= i < |values| ==>
      At(index, KeyOf(values[i])) == Last(LookupAll(table, col, values[i], pass))
    ensures rows == Resolve(values, table, col, pass, |values|)
  {
    rows := [];
    for i := 0 to |values|
      invariant rows == Resolve(values, table, col, pass, i)
    {
      var k := KeyOf(values[i]);
      assert At(index, k) == Last(LookupAll(table, col, values[i], pass));
      if k in index { rows := rows + [index[k]]; }
    }
  }

  lemma {:induction false} RelatedListed(rows: seq<Row>, pcol: nat, rcol: nat, k: Key, n: nat, ids: seq<Value>)
    requires n <= |rows| && forall m :: 0 <= m < |rows| && rcol < |rows[m]| ==> HasKey(ids, KeyOf(rows[m][rcol]))
    ensures forall i :: 0 <= i < |RelatedOf(rows, pcol, rcol, k, n)| ==>
      HasKey(ids, KeyOf(RelatedOf(rows, pcol, rcol, k, n)[i]))
  {
    if n > 0 { RelatedListed(rows, pcol, rcol, k, n - 1, ids); }
  }

  /** The related values of one entity: those of its own join rows. */
  lemma OwnRelated(es: seq<Entity>, i: nat, join_: seq<Row>, pcol: nat, rcol: nat)
    requires i < |es| && es[i].pk.Some?
    ensures var own := LookupAll(join_, pcol, es[i].pk.value, NoFilter);
      var rows := SelectIn(join_, pcol, Pks(es, |es|), NoFilter, |join_|);
      RelatedOf(rows, pcol, rcol, KeyOf(es[i].pk.value), |rows|) == AllValues(own, rcol, |own|)
  {
    var j := PkAt(es, |es|, i);
    BatchHolds(join_, pcol, Pks(es, |es|), NoFilter, j);
    var rows := SelectIn(join_, pcol, Pks(es, |es|), NoFilter, |join_|);
    RelatedAreOwn(rows, pcol, rcol, KeyOf(es[i].pk.value), |rows|);
  }

  /** One entity of a many-to-many load. */
  method LoadEntityThrough(es: seq<Entity>, i: nat, rows: seq<Row>, ids: seq<Value>, grouped: map<Key, seq<Value>>,
                           index: map<Key, Row>,
                           ghost join_: seq<Row>, ghost pcol: nat, ghost rcol: nat,
                           ghost table: seq<Row>, ghost col: nat, ghost pass: RowFilter)
    returns (e: Entity)
    requires i < |es| && rows == SelectIn(join_, pcol, Pks(es, |es|), NoFilter, |join_|)
    requires forall k :: Values(grouped, k) == RelatedOf(rows, pcol, rcol, k, |rows|)
    requires forall m :: 0 <= m < |rows| && rcol < |rows[m]| ==> HasKey(ids, KeyOf(rows[m][rcol]))
    requires var found := SelectIn(table, col, ids, pass, |table|);
      forall k :: HasKey(ids, k) ==> At(index, k) == Last(WithKey(found, col, k, |found|))
    ensures e == LoadThrough(es[i], join_, pcol, rcol, table, col, pass)
  {
    e := es[i];
    if e.pk.Some? {
      var k := KeyOf(e.pk.value);
      var related := if k in grouped then grouped[k] else [];
      OwnRelated(es, i, join_, pcol, rcol);
      RelatedListed(rows, pcol, rcol, k, |rows|, ids);
      assert related == Values(grouped, k);
      forall h | 0 <= h < |related|
        ensures At(index, KeyOf(related[h])) == Last(LookupAll(table, col, related[h], pass)) {
        ResolvedAlike(ids, related[h], table, col, pass);
      }
      var found := CollectRelated(related, index, table, col, pass);
      if found != [] { e := e.(children := found); }
    }
  }

  /** Many-to-many: two queries for all entities give each the rows its own join rows lead to, in the
      order of the join rows. */
  method LoadManyToMany(es: seq<Entity>, join_: seq<Row>, pcol: nat, rcol: nat, table: seq<Row>, col: nat,
                        pass: RowFilter)
    returns (loaded: seq<Entity>)
    ensures |loaded| == |es|
    ensures forall i :: 0 <= i < |es| ==> loaded[i] == LoadThrough(es[i], join_, pcol, rcol, table, col, pass)
  {
    var rows := SelectIn(join_, pcol, Pks(es, |es|), NoFilter, |join_|);
    var grouped := GroupJoinRows(rows, pcol, rcol);
    var ids := DistinctRelated(rows, rcol);
    var relatedRows := SelectIn(table, col, ids, pass, |table|);
    var index := IndexRows(relatedRows, col);
    loaded := [];
    for i := 0 to |es|
      invariant |loaded| == i
      invariant forall j :: 0 <= j < i ==> loaded[j] == LoadThrough(es[j], join_, pcol, rcol, table, col, pass)
    {
      var e := LoadEntityThrough(es, i, rows, ids, grouped, index, join_, pcol, rcol, table, col, pass);
      loaded := loaded + [e];
    }
  }

  // ---------------------------------------------------------------------------
  // Nested loading
  // ---------------------------------------------------------------------------

  /** Children of the first `n` parents, one after the other. */
  function Flat<T>(parents: seq<seq<T>>, n: nat): seq<T>
    requires n <= |parents|
  {
    if n == 0 then [] else Flat(parents, n - 1) + parents[n - 1]
  }

  /** Where the children of parent `n` start. */
  function Offset<T>(parents: seq<seq<T>>, n: nat): nat
    requires n <= |parents|
  {
    if n == 0 then 0 else Offset(parents, n - 1) + |parents[n - 1]|
  }

  lemma {:induction false} FlatLength<T>(parents: seq<seq<T>>, n: nat)
    requires n <= |parents|
    ensures |Flat(parents, n)| == Offset(parents, n)
  {
    if n > 0 { FlatLength(parents, n - 1); }
  }

  lemma {:induction false} OffsetGrows<T>(parents: seq<seq<T>>, k: nat, n: nat)
    requires k <= n <= |parents|
    ensures Offset(parents, k) <= Offset(parents, n)
  {
    if k < n { OffsetGrows(parents, k, n - 1); }
  }

  /** Child `j` of parent `k` stands at `Offset(k) + j`. */
  lemma {:induction false} FlatAt<T>(parents: seq<seq<T>>, n: nat, k: nat, j: nat)
    requires k < n <= |parents| && j < |parents[k]|
    ensures Offset(parents, k) + j < |Flat(parents, n)| && Flat(parents, n)[Offset(parents, k) + j] == parents[k][j]
  {
    FlatLength(parents, n - 1);
    if k < n - 1 { FlatAt(parents, n - 1, k, j); }
  }

  /** Takes all children out, remembering how many each parent had. */
  method TakeAll<T>(parents: seq<seq<T>>) returns (counts: seq<nat>, all: seq<T>)
    ensures |counts| == |parents| && (forall k :: 0 <= k < |parents| ==> counts[k] == |parents[k]|)
    ensures all == Flat(parents, |parents|)
  {
    counts, all := [], [];
    for k := 0 to |parents|
      invariant |counts| == k && (forall i :: 0 <= i < k ==> counts[i] == |parents[i]|)
      invariant all == Flat(parents, k)
    {
      counts := counts + [|parents[k]|];
      all := all + parents[k];
    }
  }

  /** Hands the loaded children back: each parent gets its own, in their original positions. */
  method GiveBack<T>(counts: seq<nat>, loaded: seq<T>, ghost parents: seq<seq<T>>) returns (after: seq<seq<T>>)
    requires |counts| == |parents| && (forall k :: 0 <= k < |parents| ==> counts[k] == |parents[k]|)
    requires |loaded| == Offset(parents, |parents|)
    ensures |after| == |parents|
    ensures forall k :: 0 <= k < |parents| ==> OwnChildren(parents, loaded, k, after[k])
  {
    after := [];
    var rest := loaded;
    for k := 0 to |counts|
      invariant |after| == k && Offset(parents, k) <= |loaded| && rest == loaded[Offset(parents, k)..]
      invariant forall i :: 0 <= i < k ==> OwnChildren(parents, loaded, i, after[i])
    {
      OffsetGrows(parents, k + 1, |parents|);
      after := after + [rest[..counts[k]]];
      rest := rest[counts[k]..];
    }
  }

  /** `mine` are the loaded forms of parent `k`'s children. */
  ghost predicate OwnChildren<T>(parents: seq<seq<T>>, loaded: seq<T>, k: nat, mine: seq<T>)
    requires k < |parents|
  {
    && |mine| == |parents[k]|
    && forall j :: 0 <= j < |mine| ==> Offset(parents, k) + j < |loaded| && mine[j] == loaded[Offset(parents, k) + j]
  }

  /** Loading that treats each child by itself gives each parent its own children, loaded: nothing moves
      from one parent to another. */
  lemma NestedKeepsPlaces<T>(parents: seq<seq<T>>, load: T -> T, loaded: seq<T>, k: nat, mine: seq<T>)
    requires k < |parents| && OwnChildren(parents, loaded, k, mine)
    requires |loaded| == |Flat(parents, |parents|)|
    requires forall i :: 0 <= i < |loaded| ==> loaded[i] == load(Flat(parents, |parents|)[i])
    ensures |mine| == |parents[k]| && forall j :: 0 <= j < |mine| ==> mine[j] == load(parents[k][j])
  {
    forall j | 0 <= j < |mine| ensures mine[j] == load(parents[k][j]) {
      FlatAt(parents, |parents|, k, j);
    }
  }

  /** The references that are set, over the first `n` entities. */
  function Found<T>(slots: seq<Option<T>>, n: nat): seq<T>
    requires n <= |slots|
  {
    if n == 0 then [] else Found(slots, n - 1) + (if slots[n - 1].Some? then [slots[n - 1].value] else [])
  }

  lemma {:induction false} FoundBefore<T>(slots: seq<Option<T>>, k: nat, n: nat)
    requires k <= n <= |slots|
    ensures Found(slots, k) <= Found(slots, n)
  {
    if k < n { FoundBefore(slots, k, n - 1); }
  }

  /** Takes the references out of their entities, remembering who had one. */
  method TakeReferences<T>(slots: seq<Option<T>>) returns (positions: seq<Option<nat>>, all: seq<T>)
    ensures |positions| == |slots| && all == Found(slots, |slots|)
    ensures forall k :: 0 <= k < |slots| ==> (positions[k].Some? <==> slots[k].Some?)
    ensures forall k :: 0 <= k < |slots| && slots[k].Some? ==>
      positions[k].value < |all| && all[positions[k].value] == slots[k].value
  {
    positions, all := [], [];
    for k := 0 to |slots|
      invariant |positions| == k && all == Found(slots, k)
      invariant forall i :: 0 <= i < k ==> (positions[i].Some? <==> slots[i].Some?)
      invariant forall i :: 0 <= i < k && slots[i].Some? ==>
        positions[i].value < |all| && all[positions[i].value] == slots[i].value
    {
      if slots[k].Some? {
        positions := positions + [Some(|all|)];
        all := all + [slots[k].value];
      } else {
        positions := positions + [None];
      }
    }
  }

  /** Hands the loaded references back by counting through them: every entity that had one gets the
      loaded form of its own. */
  method GiveReferences<T>(positions: seq<Option<nat>>, loaded: seq<T>, ghost slots: seq<Option<T>>, ghost load: T -> T)
    returns (after: seq<Option<T>>)
    requires |positions| == |slots| && forall k :: 0 <= k < |slots| ==> (positions[k].Some? <==> slots[k].Some?)
    requires |loaded| == |Found(slots, |slots|)|
    requires forall i :: 0 <= i < |loaded| ==> loaded[i] == load(Found(slots, |slots|)[i])
    ensures |after| == |slots|
    ensures forall k :: 0 <= k < |slots| ==> after[k] == if slots[k].Some? then Some(load(slots[k].value)) else None
  {
    after := [];
    var next := 0;
    for k := 0 to |positions|
      invariant |after| == k && next == |Found(slots, k)|
      invariant forall i :: 0 <= i < k ==> after[i] == if slots[i].Some? then Some(load(slots[i].value)) else None
    {
      FoundBefore(slots, k + 1, |slots|);
      if positions[k].Some? {
        assert Found(slots, k + 1)[next] == slots[k].value;
        after := after + [Some(loaded[next])];
        next := next + 1;
      } else {
        after := after + [None];
      }
    }
  }

  /** Nested HasMany: the children of all parents are loaded by one query, and each parent gets its own
      back, each with what its own lookup finds. */
  method LoadNested(parents: seq<seq<Entity>>, table: seq<Row>, col: nat, pass: RowFilter)
    returns (after: seq<seq<Entity>>)
    ensures |after| == |parents|
    ensures forall k :: 0 <= k < |parents| ==> LoadedAlike(parents[k], after[k], table, col, pass)
  {
    var counts, all := TakeAll(parents);
    var loaded := LoadHasMany(all, table, col, pass);
    FlatLength(parents, |parents|);
    after := GiveBack(counts, loaded, parents);
    forall k | 0 <= k < |parents| ensures LoadedAlike(parents[k], after[k], table, col, pass) {
      NestedKeepsPlaces(parents, e => LoadMany(e, table, col, pass), loaded, k, after[k]);
    }
  }

  /** The same children in the same order, each loaded by itself. */
  ghost predicate LoadedAlike(es: seq<Entity>, after: seq<Entity>, table: seq<Row>, col: nat, pass: RowFilter) {
    |after| == |es| && forall j :: 0 <= j < |es| ==> after[j] == LoadMany(es[j], table, col, pass)
  }

  /** The same below references: every entity that has one keeps it, loaded. */
  method LoadNestedReferences(slots: seq<Option<Entity>>, table: seq<Row>, col: nat, pass: RowFilter)
    returns (after: seq<Option<Entity>>)
    ensures |after| == |slots|
    ensures forall k :: 0 <= k < |slots| ==>
      after[k] == if slots[k].Some? then Some(LoadMany(slots[k].value, table, col, pass)) else None
  {
    var positions, all := TakeReferences(slots);
    var loaded := LoadHasMany(all, table, col, pass);
    after := GiveReferences(positions, loaded, slots, e => LoadMany(e, table, col, pass));
  }
}
