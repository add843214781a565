/** Snapshots of the model, the schema they stand for, and the effect of schema changes. */
module MigrationSchema {
  import opened Wrappers

  type Name = string

  /** A column as stored in a model snapshot. */
  datatype Column = Column(
    fieldName: Name, name: Name, typeName: string, isPrimaryKey: bool, isRequired: bool, isForeignKey: bool,
    maxLength: Option<nat>, isAutoIncrement: bool, isSequence: bool, sequenceName: Option<Name>,
    fkTable: Option<Name>, fkColumn: Option<Name>, hasIndex: bool, isUnique: bool, onDelete: Option<string>)

  datatype EntityType = EntityType(typeName: string, table: Name, columns: seq<Column>)

  type Columns = map<Name, Column>

  /** What the database keeps of a column; sequences are not part of it. */
  datatype ColDef = ColDef(typeName: string, isPrimaryKey: bool, isRequired: bool, maxLength: Option<nat>,
                           isAutoIncrement: bool)

  datatype ForeignKey = ForeignKey(table: Name, column: Name, onDelete: Option<string>)

  datatype IndexKind = NonUnique | Unique

  datatype Table = Table(cols: map<Name, ColDef>, fks: map<Name, ForeignKey>, ixs: map<Name, IndexKind>)

  type Schema = map<Name, Table>

  datatype Change =
    | CreateTable(table: Name, columns: seq<Column>)
    | DropTable(table: Name)
    | AddColumn(table: Name, added: Column)
    | DropColumn(table: Name, column: Name)
    | AlterColumn(table: Name, column: Name, was: Column, becomes: Column)
    | AddForeignKey(table: Name, column: Name, fk: ForeignKey)
    | DropForeignKey(table: Name, column: Name, referenced: Name)
    | CreateIndex(table: Name, column: Name, kind: IndexKind)
    | DropIndex(table: Name, column: Name, kind: IndexKind)

  // ---------------------------------------------------------------------------
  // The schema of a snapshot
  // ---------------------------------------------------------------------------

  function Get<K, V>(m: map<K, V>, k: K): Option<V> {
    if k in m then Some(m[k]) else None
  }

  /** The first `n` columns by name, as collected into a hash map. */
  function ByName(cols: seq<Column>, n: nat): Columns
    requires n <= |cols|
  {
    if n == 0 then map[] else ByName(cols, n - 1)[cols[n - 1].name := cols[n - 1]]
  }

  function ByTable(ets: seq<EntityType>, n: nat): map<Name, seq<Column>>
    requires n <= |ets|
  {
    if n == 0 then map[] else ByTable(ets, n - 1)[ets[n - 1].table := ets[n - 1].columns]
  }

  predicate UniqueColumns(cols: seq<Column>) {
    forall i, j :: 0 <= i < j < |cols| ==> cols[i].name != cols[j].name
  }

  predicate ValidSnapshot(ets: seq<EntityType>) {
    && (forall i, j :: 0 <= i < j < |ets| ==> ets[i].table != ets[j].table)
    && forall i :: 0 <= i < |ets| ==> UniqueColumns(ets[i].columns)
  }

  function Def(c: Column): ColDef {
    ColDef(c.typeName, c.isPrimaryKey, c.isRequired, c.maxLength, c.isAutoIncrement)
  }

  /** The foreign key of a column, when it is marked as one and its target is known. */
  function FkOf(c: Column): Option<ForeignKey> {
    if c.isForeignKey && c.fkTable.Some? && c.fkColumn.Some? then
      Some(ForeignKey(c.fkTable.value, c.fkColumn.value, c.onDelete))
    else None
  }

  function IndexOf(c: Column): Option<IndexKind> {
    if c.isUnique then Some(Unique) else if c.hasIndex then Some(NonUnique) else None
  }

  function FkAt(m: Columns, n: Name): Option<ForeignKey> {
    if n in m then FkOf(m[n]) else None
  }

  function IndexAt(m: Columns, n: Name): Option<IndexKind> {
    if n in m then IndexOf(m[n]) else None
  }

  function Defs(m: Columns): map<Name, ColDef> {
    map n | n in m :: Def(m[n])
  }

  function Fks(m: Columns): map<Name, ForeignKey> {
    map n | n in m && FkOf(m[n]).Some? :: FkOf(m[n]).value
  }

  function Indexes(m: Columns): map<Name, IndexKind> {
    map n | n in m && IndexOf(m[n]).Some? :: IndexOf(m[n]).value
  }

  function TableOf(m: Columns): Table {
    Table(Defs(m), Fks(m), Indexes(m))
  }

  function ColumnMap(cols: seq<Column>): Columns {
    ByName(cols, |cols|)
  }

  function SchemaOf(tables: map<Name, seq<Column>>): Schema {
    map t | t in tables :: TableOf(ColumnMap(tables[t]))
  }

  /** The schema a snapshot describes. */
  function SnapshotSchema(ets: seq<EntityType>): Schema {
    SchemaOf(ByTable(ets, |ets|))
  }

  // ---------------------------------------------------------------------------
  // Applying changes
  // ---------------------------------------------------------------------------

  predicate TableFits(x: Table, c: Change) {
    match c
    case AddColumn(_, col) => col.name !in x.cols
    case DropColumn(_, n) => n in x.cols && n !in x.fks
    case AlterColumn(_, n, was, _) => n in x.cols && x.cols[n] == Def(was)
    case AddForeignKey(_, n, _) => n in x.cols && n !in x.fks
    case DropForeignKey(_, n, r) => n in x.fks && x.fks[n].table == r
    case CreateIndex(_, n, _) => n in x.cols && n !in x.ixs
    case DropIndex(_, n, k) => n in x.ixs && x.ixs[n] == k
    case _ => false
  }

  /** The change finds the schema as it expects it. */
  predicate Fits(s: Schema, c: Change) {
    if c.CreateTable? then c.table !in s
    else if c.DropTable? then c.table in s
    else c.table in s && TableFits(s[c.table], c)
  }

  /** Dropping a column takes its index with it. */
  function TableEffect(x: Table, c: Change): Table {
    match c
    case AddColumn(_, col) => x.(cols := x.cols[col.name := Def(col)])
    case DropColumn(_, n) => x.(cols := x.cols - {n}, ixs := x.ixs - {n})
    case AlterColumn(_, n, _, becomes) => x.(cols := x.cols[n := Def(becomes)])
    case AddForeignKey(_, n, fk) => x.(fks := x.fks[n := fk])
    case DropForeignKey(_, n, _) => x.(fks := x.fks - {n})
    case CreateIndex(_, n, k) => x.(ixs := x.ixs[n := k])
    case DropIndex(_, n, _) => x.(ixs := x.ixs - {n})
    case _ => x
  }

  function Effect(s: Schema, c: Change): Schema
    requires Fits(s, c)
  {
    if c.CreateTable? then s[c.table := Table(Defs(ColumnMap(c.columns)), map[], map[])]
    else if c.DropTable? then s - {c.table}
    else s[c.table := TableEffect(s[c.table], c)]
  }

  /** Runs the first `n` changes; a change that does not fit is a database error. */
  function RunUp(s: Schema, cs: seq<Change>, n: nat): Option<Schema>
    requires n <= |cs|
  {
    if n == 0 then Some(s)
    else
      match RunUp(s, cs, n - 1)
      case None => None
      case Some(u) => if Fits(u, cs[n - 1]) then Some(Effect(u, cs[n - 1])) else None
  }

  lemma {:induction false} RunUpPrefix(s: Schema, cs: seq<Change>, c: Change, n: nat)
    requires n <= |cs|
    ensures RunUp(s, cs + [c], n) == RunUp(s, cs, n)
  {
    if n > 0 {
      RunUpPrefix(s, cs, c, n - 1);
      assert (cs + [c])[n - 1] == cs[n - 1];
    }
  }

  /** Foreign keys and indexes sit on existing columns. */
  predicate TableOk(x: Table) {
    x.fks.Keys <= x.cols.Keys && x.ixs.Keys <= x.cols.Keys
  }

  predicate SchemaOk(s: Schema) {
    forall t :: t in s ==> TableOk(s[t])
  }

  lemma EffectOk(s: Schema, c: Change)
    requires SchemaOk(s) && Fits(s, c)
    ensures SchemaOk(Effect(s, c))
  {
    if !c.CreateTable? && !c.DropTable? {
      TableEffectOk(s[c.table], c);
    }
  }

  lemma TableEffectOk(x: Table, c: Change)
    requires TableOk(x) && TableFits(x, c)
    ensures TableOk(TableEffect(x, c))
  {
  }

  lemma SchemaOfOk(tables: map<Name, seq<Column>>)
    ensures SchemaOk(SchemaOf(tables))
  {
  }

  lemma {:induction false} RunUpOk(s: Schema, cs: seq<Change>, n: nat)
    requires n <= |cs| && SchemaOk(s)
    ensures RunUp(s, cs, n).Some? ==> SchemaOk(RunUp(s, cs, n).value)
  {
    if n > 0 && RunUp(s, cs, n).Some? {
      RunUpOk(s, cs, n - 1);
      EffectOk(RunUp(s, cs, n - 1).value, cs[n - 1]);
    }
  }

  // ---------------------------------------------------------------------------
  // Down
  // ---------------------------------------------------------------------------

  datatype Dialect = Postgres | MySql | Sqlite

  /** The down statement of a change; a dropped table, column or foreign key leaves only a warning. */
  function Inverse(c: Change): Option<Change> {
    match c
    case CreateTable(t, _) => Some(DropTable(t))
    case DropTable(_) => None
    case AddColumn(t, col) => Some(DropColumn(t, col.name))
    case DropColumn(_, _) => None
    case AlterColumn(t, n, was, becomes) => Some(AlterColumn(t, n, becomes, was))
    case AddForeignKey(t, n, fk) => Some(DropForeignKey(t, n, fk.table))
    case DropForeignKey(_, _, _) => None
    case CreateIndex(t, n, k) => Some(DropIndex(t, n, k))
    case DropIndex(t, n, k) => Some(CreateIndex(t, n, k))
  }

  predicate Lossy(c: Change) {
    c.DropTable? || c.DropColumn? || c.DropForeignKey?
  }

  /** Statements written with IF EXISTS do nothing where there is nothing to drop. */
  predicate Tolerated(d: Dialect, c: Change) {
    c.DropTable? || c.DropColumn? || (d != MySql && (c.DropForeignKey? || c.DropIndex?))
  }

  /** Undoes the first `n` changes, the last one first. */
  function RunDown(d: Dialect, s: Schema, cs: seq<Change>, n: nat): Option<Schema>
    requires n <= |cs|
  {
    if n == 0 then Some(s)
    else
      match Inverse(cs[n - 1])
      case None => RunDown(d, s, cs, n - 1)
      case Some(c) =>
        if Fits(s, c) then RunDown(d, Effect(s, c), cs, n - 1)
        else if Tolerated(d, c) then RunDown(d, s, cs, n - 1)
        else None
  }

  lemma InverseUndoes(s: Schema, c: Change)
    requires SchemaOk(s) && Fits(s, c) && !Lossy(c)
    ensures Fits(Effect(s, c), Inverse(c).value) && Effect(Effect(s, c), Inverse(c).value) == s
  {
    if !c.CreateTable? {
      var x := s[c.table];
      assert TableOk(x);
      TableInverseUndoes(x, c);
    }
  }

  lemma TableInverseUndoes(x: Table, c: Change)
    requires TableOk(x) && TableFits(x, c) && !Lossy(c)
    ensures TableFits(TableEffect(x, c), Inverse(c).value) && TableEffect(TableEffect(x, c), Inverse(c).value) == x
  {
    match c
    case AddColumn(_, col) =>
      assert x.cols[col.name := Def(col)] - {col.name} == x.cols;
      assert x.ixs - {col.name} == x.ixs;
    case AlterColumn(_, n, was, becomes) => assert x.cols[n := Def(becomes)][n := Def(was)] == x.cols;
    case AddForeignKey(_, n, fk) => assert x.fks[n := fk] - {n} == x.fks;
    case CreateIndex(_, n, k) => assert x.ixs[n := k] - {n} == x.ixs;
    case DropIndex(_, n, k) => assert (x.ixs - {n})[n := k] == x.ixs;
  }

  /** Running the changes and then their inverses in reverse restores the schema when nothing
      was dropped: for every change list, every dialect. */
  lemma {:induction false} LosslessUndone(d: Dialect, s: Schema, cs: seq<Change>, n: nat)
    requires n <= |cs| && SchemaOk(s) && RunUp(s, cs, n).Some? && (forall i :: 0 <= i < n ==> !Lossy(cs[i]))
    ensures RunDown(d, RunUp(s, cs, n).value, cs, n) == Some(s)
  {
    if n > 0 {
      var u := RunUp(s, cs, n - 1).value;
      RunUpOk(s, cs, n - 1);
      InverseUndoes(u, cs[n - 1]);
      LosslessUndone(d, s, cs, n - 1);
    }
  }

  predicate TableWithin(x: Table, y: Table) {
    && x.cols.Keys <= y.cols.Keys
    && forall n :: n in x.fks ==> n in y.fks && x.fks[n] == y.fks[n]
  }

  /** Every table, column and foreign key of `s` is in `u`, foreign keys unchanged. */
  predicate Within(s: Schema, u: Schema) {
    forall t :: t in s ==> t in u && TableWithin(s[t], u[t])
  }

  lemma InverseWithin(s: Schema, c: Change)
    requires Inverse(c).Some? && Fits(s, Inverse(c).value)
    ensures Within(Effect(s, Inverse(c).value), s)
  {
  }

  /** Down statements never bring a table, a column or a foreign key back. */
  lemma {:induction false} DownWithin(d: Dialect, s: Schema, cs: seq<Change>, n: nat)
    requires n <= |cs| && RunDown(d, s, cs, n).Some?
    ensures Within(RunDown(d, s, cs, n).value, s)
  {
    if n > 0 {
      var c := Inverse(cs[n - 1]);
      if c.Some? && Fits(s, c.value) {
        InverseWithin(s, cs[n - 1]);
        DownWithin(d, Effect(s, c.value), cs, n - 1);
      } else {
        DownWithin(d, s, cs, n - 1);
      }
    }
  }
}
