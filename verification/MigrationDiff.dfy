/** Diffing two snapshots into schema changes, and creating a schema from nothing. */
module MigrationDiff {
  import opened Wrappers
  import opened MigrationSchema

  type Tables = map<Name, Columns>

  /** The column of a table that does not exist yet. */
  const DEFAULT_COLUMN :=
    Column("", "", "", false, false, false, None, false, false, None, None, None, false, false, None)

  /** Equal apart from index state, ON DELETE clause and sequence. */
  predicate StructurallyEqual(a: Column, b: Column) {
    && a.fieldName == b.fieldName && a.name == b.name && a.typeName == b.typeName
    && a.isPrimaryKey == b.isPrimaryKey && a.isRequired == b.isRequired && a.isForeignKey == b.isForeignKey
    && a.maxLength == b.maxLength && a.isAutoIncrement == b.isAutoIncrement
    && a.fkTable == b.fkTable && a.fkColumn == b.fkColumn
  }

  /** The change answers a difference between a table's columns in the two models. */
  predicate Answers(was: Option<Columns>, becomes: Option<Columns>, c: Change) {
    var prev, next := was.UnwrapOr(map[]), becomes.UnwrapOr(map[]);
    match c
    case CreateTable(_, cols) => was.None? && becomes == Some(ColumnMap(cols))
    case DropTable(_) => was.Some? && becomes.None?
    case AddColumn(_, col) => was.Some? && col.name !in prev && Get(next, col.name) == Some(col)
    case DropColumn(_, n) => was.Some? && becomes.Some? && n in prev && n !in next
    case AlterColumn(_, n, a, b) => Get(prev, n) == Some(a) && Get(next, n) == Some(b) && !StructurallyEqual(a, b)
    case AddForeignKey(_, n, fk) => FkAt(next, n) == Some(fk) && FkAt(prev, n) != Some(fk)
    case DropForeignKey(_, n, r) => becomes.Some? && FkAt(prev, n).Some? && FkAt(next, n) != FkAt(prev, n)
    case CreateIndex(_, n, k) => IndexAt(next, n) == Some(k) && IndexAt(prev, n) != Some(k)
    case DropIndex(_, n, k) => IndexAt(prev, n) == Some(k) && IndexAt(next, n) != Some(k)
  }

  predicate Justified(om: Tables, nm: Tables, c: Change) {
    Answers(Get(om, c.table), Get(nm, c.table), c)
  }

  // ---------------------------------------------------------------------------
  // A table half-way between two column maps
  // ---------------------------------------------------------------------------

  /** Columns as in `c`, foreign keys as in `f`, indexes as in `i`. */
  ghost function Mix(c: Columns, f: Columns, i: Columns): Table {
    Table(Defs(c), Fks(f), Indexes(i))
  }

  lemma MixAddColumn(c: Columns, f: Columns, i: Columns, t: Name, col: Column)
    requires col.name !in c
    ensures TableFits(Mix(c, f, i), AddColumn(t, col))
    ensures TableEffect(Mix(c, f, i), AddColumn(t, col)) == Mix(c[col.name := col], f, i)
  {
    assert Defs(c)[col.name := Def(col)] == Defs(c[col.name := col]);
  }

  lemma MixDropColumn(c: Columns, f: Columns, t: Name, n: Name)
    requires n in c && FkAt(f, n).None?
    ensures TableFits(Mix(c, f, c), DropColumn(t, n))
    ensures TableEffect(Mix(c, f, c), DropColumn(t, n)) == Mix(c - {n}, f, c - {n})
  {
    assert Defs(c) - {n} == Defs(c - {n});
    assert Indexes(c) - {n} == Indexes(c - {n});
  }

  lemma MixAlterColumn(c: Columns, f: Columns, i: Columns, t: Name, n: Name, becomes: Column)
    requires n in c
    ensures TableFits(Mix(c, f, i), AlterColumn(t, n, c[n], becomes))
    ensures TableEffect(Mix(c, f, i), AlterColumn(t, n, c[n], becomes)) == Mix(c[n := becomes], f, i)
    ensures StructurallyEqual(c[n], becomes) ==> Mix(c, f, i) == Mix(c[n := becomes], f, i)
  {
    assert Defs(c)[n := Def(becomes)] == Defs(c[n := becomes]);
    assert StructurallyEqual(c[n], becomes) ==> Defs(c) == Defs(c[n := becomes]);
  }

  lemma MixAddFk(c: Columns, f: Columns, i: Columns, t: Name, n: Name, col: Column)
    requires n in c && FkAt(f, n).None? && FkOf(col).Some?
    ensures TableFits(Mix(c, f, i), AddForeignKey(t, n, FkOf(col).value))
    ensures TableEffect(Mix(c, f, i), AddForeignKey(t, n, FkOf(col).value)) == Mix(c, f[n := col], i)
  {
    assert Fks(f)[n := FkOf(col).value] == Fks(f[n := col]);
  }

  lemma MixDropFk(c: Columns, f: Columns, i: Columns, t: Name, n: Name)
    requires FkAt(f, n).Some?
    ensures TableFits(Mix(c, f, i), DropForeignKey(t, n, FkAt(f, n).value.table))
    ensures TableEffect(Mix(c, f, i), DropForeignKey(t, n, FkAt(f, n).value.table)) == Mix(c, f - {n}, i)
  {
    assert Fks(f) - {n} == Fks(f - {n});
  }

  lemma MixSameFk(f: Columns, n: Name, col: Column)
    requires FkAt(f, n) == FkOf(col)
    ensures Fks(f) == Fks(f[n := col])
  {
  }

  lemma SameFks(f: Columns, g: Columns)
    requires forall n :: FkAt(f, n) == FkAt(g, n)
    ensures Fks(f) == Fks(g)
  {
    forall n ensures n in Fks(f) <==> n in Fks(g) {
      assert FkAt(f, n) == FkAt(g, n);
    }
    forall n | n in Fks(f) ensures Fks(f)[n] == Fks(g)[n] {
      assert FkAt(f, n) == FkAt(g, n);
    }
  }

  lemma MixCreateIndex(c: Columns, f: Columns, i: Columns, t: Name, n: Name, col: Column)
    requires n in c && IndexAt(i, n).None? && IndexOf(col).Some?
    ensures TableFits(Mix(c, f, i), CreateIndex(t, n, IndexOf(col).value))
    ensures TableEffect(Mix(c, f, i), CreateIndex(t, n, IndexOf(col).value)) == Mix(c, f, i[n := col])
  {
    assert Indexes(i)[n := IndexOf(col).value] == Indexes(i[n := col]);
  }

  lemma MixDropIndex(c: Columns, f: Columns, i: Columns, t: Name, n: Name)
    requires IndexAt(i, n).Some?
    ensures TableFits(Mix(c, f, i), DropIndex(t, n, IndexAt(i, n).value))
    ensures TableEffect(Mix(c, f, i), DropIndex(t, n, IndexAt(i, n).value)) == Mix(c, f, i - {n})
  {
    assert Indexes(i) - {n} == Indexes(i - {n});
  }

  lemma MixSameIndex(i: Columns, n: Name, col: Column)
    requires IndexAt(i, n) == IndexOf(col)
    ensures Indexes(i) == Indexes(i[n := col])
  {
  }

  // ---------------------------------------------------------------------------
  // The list of changes
  // ---------------------------------------------------------------------------

  /** The growing list of changes, with the schema reached by running them from `start`. */
  class ChangeLog {
    var changes: seq<Change>
    ghost const start: Schema
    ghost const om: Tables
    ghost const nm: Tables
    ghost var at: Schema

    ghost predicate Valid()
      reads this
    {
      && RunUp(start, changes, |changes|) == Some(at)
      && forall k :: 0 <= k < |changes| ==> Justified(om, nm, changes[k])
    }

    constructor (ghost s: Schema, ghost o: Tables, ghost n: Tables)
      ensures Valid() && changes == [] && start == s && om == o && nm == n && at == s
    {
      changes := [];
      start, om, nm, at := s, o, n, s;
    }

    method Push(c: Change)
      requires Valid() && Fits(at, c) && Justified(om, nm, c)
      modifies this
      ensures Valid() && changes == old(changes) + [c] && at == Effect(old(at), c)
    {
      RunUpPrefix(start, changes, c, |changes|);
      at := Effect(at, c);
      changes := changes + [c];
    }

    /** A change to table `t`, which looks like `x` while the others are as in `base`. */
    method PushOn(c: Change, ghost base: Schema, ghost x: Table)
      requires Valid() && at == base[c.table := x] && !c.CreateTable? && !c.DropTable?
      requires TableFits(x, c) && Justified(om, nm, c)
      modifies this
      ensures Valid() && changes == old(changes) + [c] && at == base[c.table := TableEffect(x, c)]
    {
      Push(c);
      assert base[c.table := x][c.table := TableEffect(x, c)] == base[c.table := TableEffect(x, c)];
    }

    /** The list is about a table with columns `prev` before and `next` after. */
    ghost predicate Between(t: Name, prev: Columns, next: Columns)
      reads this
    {
      Valid() && Get(om, t) == Some(prev) && Get(nm, t) == Some(next)
    }
  }

  predicate KeyedByName(m: Columns) {
    forall n :: n in m ==> m[n].name == n
  }

  /** Index changes from `was` to `becomes` on the column of `becomes`. */
  method PushIndexes(log: ChangeLog, t: Name, was: Column, becomes: Column,
                     ghost base: Schema, ghost prev: Columns, ghost next: Columns,
                     ghost c: Columns, ghost f: Columns, ghost i: Columns)
    requires log.Between(t, prev, next) && log.at == base[t := Mix(c, f, i)]
    requires becomes.name in c && IndexAt(i, becomes.name) == IndexAt(prev, becomes.name) == IndexOf(was)
    requires IndexAt(next, becomes.name) == IndexOf(becomes)
    modifies log
    ensures log.Between(t, prev, next) && log.at == base[t := Mix(c, f, i[becomes.name := becomes])]
  {
    var n := becomes.name;
    if IndexOf(was) == IndexOf(becomes) {
      MixSameIndex(i, n, becomes);
      return;
    }
    ghost var j := i;
    if IndexOf(was).Some? {
      MixDropIndex(c, f, i, t, n);
      log.PushOn(DropIndex(t, n, IndexOf(was).value), base, Mix(c, f, i));
      j := i - {n};
    }
    assert j[n := becomes] == i[n := becomes];
    if IndexOf(becomes).Some? {
      MixCreateIndex(c, f, j, t, n, becomes);
      log.PushOn(CreateIndex(t, n, IndexOf(becomes).value), base, Mix(c, f, j));
    } else {
      MixSameIndex(j, n, becomes);
    }
  }

  method PushAddedColumn(log: ChangeLog, t: Name, col: Column,
                         ghost base: Schema, ghost prev: Columns, ghost next: Columns, ghost c: Columns)
    requires log.Between(t, prev, next) && log.at == base[t := Mix(c, prev, c)]
    requires col.name !in c && col.name !in prev && Get(next, col.name) == Some(col)
    modifies log
    ensures log.Between(t, prev, next) && log.at == base[t := Mix(c[col.name := col], prev, c[col.name := col])]
  {
    MixAddColumn(c, prev, c, t, col);
    log.PushOn(AddColumn(t, col), base, Mix(c, prev, c));
    PushIndexes(log, t, DEFAULT_COLUMN, col, base, prev, next, c[col.name := col], prev, c);
  }

  /** Columns only the new model has, each with its index. */
  method PushAddedColumns(log: ChangeLog, t: Name, prev: Columns, next: Columns, ghost base: Schema)
    returns (ghost c: Columns)
    requires log.Between(t, prev, next) && log.at == base[t := Mix(prev, prev, prev)] && KeyedByName(next)
    modifies log
    ensures log.Between(t, prev, next) && log.at == base[t := Mix(c, prev, c)]
    ensures c.Keys == prev.Keys + next.Keys && forall n :: n in c ==> c[n] == if n in prev then prev[n] else next[n]
  {
    var pending := next.Keys - prev.Keys;
    c := prev;
    while pending != {}
      invariant pending <= next.Keys - prev.Keys
      invariant log.Between(t, prev, next) && log.at == base[t := Mix(c, prev, c)]
      invariant c.Keys == prev.Keys + (next.Keys - pending)
      invariant forall n :: n in c ==> c[n] == if n in prev then prev[n] else next[n]
    {
      var n :| n in pending;
      PushAddedColumn(log, t, next[n], base, prev, next, c);
      c := c[n := next[n]];
      pending := pending - {n};
    }
  }

  /** Foreign keys only the new model has. */
  method PushAddedFks(log: ChangeLog, t: Name, prev: Columns, next: Columns, names: set<Name>,
                      ghost base: Schema, ghost c: Columns) returns (ghost f: Columns)
    requires log.Between(t, prev, next) && log.at == base[t := Mix(c, prev, c)] && next.Keys <= c.Keys
    requires forall n :: n in names ==> FkAt(next, n).Some? && FkAt(prev, n).None?
    modifies log
    ensures log.Between(t, prev, next) && log.at == base[t := Mix(c, f, c)]
    ensures forall n :: FkAt(f, n) == if n in names then FkAt(next, n) else FkAt(prev, n)
  {
    var pending := names;
    f := prev;
    while pending != {}
      invariant pending <= names
      invariant log.Between(t, prev, next) && log.at == base[t := Mix(c, f, c)]
      invariant forall n :: FkAt(f, n) == if n in names - pending then FkAt(next, n) else FkAt(prev, n)
    {
      var n :| n in pending;
      assert FkAt(next, n).Some?;
      MixAddFk(c, f, c, t, n, next[n]);
      log.PushOn(AddForeignKey(t, n, FkOf(next[n]).value), base, Mix(c, f, c));
      f := f[n := next[n]];
      pending := pending - {n};
    }
  }

  /** Foreign keys only the old model has. */
  method PushDroppedFks(log: ChangeLog, t: Name, prev: Columns, next: Columns, names: set<Name>,
                        ghost base: Schema, ghost c: Columns, ghost f0: Columns) returns (ghost f: Columns)
    requires log.Between(t, prev, next) && log.at == base[t := Mix(c, f0, c)]
    requires forall n :: n in names ==> FkAt(f0, n) == FkAt(prev, n) && FkAt(prev, n).Some? && FkAt(next, n).None?
    modifies log
    ensures log.Between(t, prev, next) && log.at == base[t := Mix(c, f, c)]
    ensures forall n :: FkAt(f, n) == if n in names then None else FkAt(f0, n)
  {
    var pending := names;
    f := f0;
    while pending != {}
      invariant pending <= names
      invariant log.Between(t, prev, next) && log.at == base[t := Mix(c, f, c)]
      invariant forall n :: FkAt(f, n) == if n in names - pending then None else FkAt(f0, n)
    {
      var n :| n in pending;
      assert FkAt(prev, n).Some? && FkAt(f, n) == FkAt(prev, n);
      MixDropFk(c, f, c, t, n);
      log.PushOn(DropForeignKey(t, n, FkOf(prev[n]).value.table), base, Mix(c, f, c));
      f := f - {n};
      pending := pending - {n};
    }
  }

  method PushReplacedFk(log: ChangeLog, t: Name, prev: Columns, next: Columns, n: Name,
                        ghost base: Schema, ghost c: Columns, ghost f: Columns)
    requires log.Between(t, prev, next) && log.at == base[t := Mix(c, f, c)] && n in c
    requires FkAt(f, n) == FkAt(prev, n) && FkAt(prev, n).Some? && FkAt(next, n).Some?
    modifies log
    ensures log.Between(t, prev, next) && log.at == base[t := Mix(c, f[n := next[n]], c)]
  {
    if FkOf(prev[n]) != FkOf(next[n]) {
      MixDropFk(c, f, c, t, n);
      log.PushOn(DropForeignKey(t, n, FkOf(prev[n]).value.table), base, Mix(c, f, c));
      MixAddFk(c, f - {n}, c, t, n, next[n]);
      log.PushOn(AddForeignKey(t, n, FkOf(next[n]).value), base, Mix(c, f - {n}, c));
      assert (f - {n})[n := next[n]] == f[n := next[n]];
    } else {
      MixSameFk(f, n, next[n]);
    }
  }

  /** Foreign keys both models have: replaced when target or ON DELETE differ. */
  method PushReplacedFks(log: ChangeLog, t: Name, prev: Columns, next: Columns, names: set<Name>,
                         ghost base: Schema, ghost c: Columns, ghost f0: Columns) returns (ghost f: Columns)
    requires log.Between(t, prev, next) && log.at == base[t := Mix(c, f0, c)] && next.Keys <= c.Keys
    requires forall n :: n in names ==> FkAt(f0, n) == FkAt(prev, n) && FkAt(prev, n).Some? && FkAt(next, n).Some?
    modifies log
    ensures log.Between(t, prev, next) && log.at == base[t := Mix(c, f, c)]
    ensures forall n :: FkAt(f, n) == if n in names then FkAt(next, n) else FkAt(f0, n)
  {
    var pending := names;
    f := f0;
    while pending != {}
      invariant pending <= names
      invariant log.Between(t, prev, next) && log.at == base[t := Mix(c, f, c)]
      invariant forall n :: FkAt(f, n) == if n in names - pending then FkAt(next, n) else FkAt(f0, n)
    {
      var n :| n in pending;
      assert FkAt(prev, n).Some? && FkAt(next, n).Some? && FkAt(f, n) == FkAt(prev, n);
      PushReplacedFk(log, t, prev, next, n, base, c, f);
      f := f[n := next[n]];
      pending := pending - {n};
    }
  }

  function FkNames(m: Columns): set<Name> {
    set n | n in m && FkOf(m[n]).Some?
  }

  /** Foreign keys are added, then dropped, then replaced, each group in any order. */
  method PushForeignKeys(log: ChangeLog, t: Name, prev: Columns, next: Columns, ghost base: Schema, ghost c: Columns)
    requires log.Between(t, prev, next) && log.at == base[t := Mix(c, prev, c)] && next.Keys <= c.Keys
    modifies log
    ensures log.Between(t, prev, next) && log.at == base[t := Mix(c, next, c)]
  {
    var oldNames, newNames := FkNames(prev), FkNames(next);
    ghost var f := PushAddedFks(log, t, prev, next, newNames - oldNames, base, c);
    f := PushDroppedFks(log, t, prev, next, oldNames - newNames, base, c, f);
    f := PushReplacedFks(log, t, prev, next, oldNames * newNames, base, c, f);
    SameFks(f, next);
  }

  /** Columns only the old model has. */
  method PushDroppedColumns(log: ChangeLog, t: Name, prev: Columns, next: Columns, ghost base: Schema,
                            ghost c0: Columns)
    returns (ghost c: Columns)
    requires log.Between(t, prev, next) && log.at == base[t := Mix(c0, next, c0)] && prev.Keys <= c0.Keys
    modifies log
    ensures log.Between(t, prev, next) && log.at == base[t := Mix(c, next, c)]
    ensures c == c0 - (prev.Keys - next.Keys)
  {
    var pending := prev.Keys - next.Keys;
    c := c0;
    assert c == c0 - {};
    while pending != {}
      invariant pending <= prev.Keys - next.Keys
      invariant log.Between(t, prev, next) && log.at == base[t := Mix(c, next, c)]
      invariant c == c0 - ((prev.Keys - next.Keys) - pending)
    {
      var n :| n in pending;
      MixDropColumn(c, next, t, n);
      log.PushOn(DropColumn(t, n), base, Mix(c, next, c));
      c := c - {n};
      pending := pending - {n};
    }
    assert (prev.Keys - next.Keys) - {} == prev.Keys - next.Keys;
  }

  method PushCommonColumn(log: ChangeLog, t: Name, prev: Columns, next: Columns, n: Name, ghost base: Schema,
                          ghost c: Columns)
    requires log.Between(t, prev, next) && log.at == base[t := Mix(c, next, c)]
    requires n in prev && n in next && next[n].name == n && n in c && c[n] == prev[n]
    modifies log
    ensures log.Between(t, prev, next) && log.at == base[t := Mix(c[n := next[n]], next, c[n := next[n]])]
  {
    PushIndexes(log, t, prev[n], next[n], base, prev, next, c, next, c);
    MixAlterColumn(c, next, c[n := next[n]], t, n, next[n]);
    if !StructurallyEqual(prev[n], next[n]) {
      log.PushOn(AlterColumn(t, n, prev[n], next[n]), base, Mix(c, next, c[n := next[n]]));
    }
  }

  /** Columns both models have: index changes, then structural ones. */
  method PushCommonColumns(log: ChangeLog, t: Name, prev: Columns, next: Columns, ghost base: Schema, ghost c0: Columns)
    requires log.Between(t, prev, next) && log.at == base[t := Mix(c0, next, c0)] && KeyedByName(next)
    requires c0.Keys == next.Keys && forall n :: n in next ==> c0[n] == if n in prev then prev[n] else next[n]
    modifies log
    ensures log.Between(t, prev, next) && log.at == base[t := TableOf(next)]
  {
    var pending := prev.Keys * next.Keys;
    ghost var c := c0;
    while pending != {}
      invariant pending <= prev.Keys * next.Keys
      invariant log.Between(t, prev, next) && log.at == base[t := Mix(c, next, c)]
      invariant c.Keys == next.Keys
      invariant forall n :: n in next ==> c[n] == if n in pending then prev[n] else next[n]
    {
      var n :| n in pending;
      PushCommonColumn(log, t, prev, next, n, base, c);
      c := c[n := next[n]];
      pending := pending - {n};
    }
    assert c == next;
  }

  /** One table that both models have. */
  method PushCommonTable(log: ChangeLog, t: Name, prev: Columns, next: Columns)
    requires log.Between(t, prev, next) && Get(log.at, t) == Some(TableOf(prev)) && KeyedByName(next)
    modifies log
    ensures log.Valid() && log.at == old(log.at)[t := TableOf(next)]
  {
    ghost var base := log.at;
    assert base == base[t := Mix(prev, prev, prev)];
    ghost var c := PushAddedColumns(log, t, prev, next, base);
    PushForeignKeys(log, t, prev, next, base, c);
    c := PushDroppedColumns(log, t, prev, next, base, c);
    PushCommonColumns(log, t, prev, next, base, c);
  }

  // ---------------------------------------------------------------------------
  // New tables
  // ---------------------------------------------------------------------------

  lemma {:induction false} ByNameAt(cols: seq<Column>, n: nat)
    requires n <= |cols| && UniqueColumns(cols)
    ensures forall k :: 0 <= k < n ==> Get(ByName(cols, n), cols[k].name) == Some(cols[k])
    ensures forall m :: m in ByName(cols, n) ==> exists k :: 0 <= k < n && cols[k].name == m
    ensures KeyedByName(ByName(cols, n))
  {
    if n > 0 { ByNameAt(cols, n - 1); }
  }

  /** Column `k` of a new table comes as a fresh entry of the columns before it. */
  lemma ByNameNext(cols: seq<Column>, k: nat)
    requires k < |cols| && UniqueColumns(cols)
    ensures cols[k].name !in ByName(cols, k) && Get(ColumnMap(cols), cols[k].name) == Some(cols[k])
    ensures ByName(cols, k + 1) == ByName(cols, k)[cols[k].name := cols[k]]
  {
    ByNameAt(cols, k);
    ByNameAt(cols, |cols|);
  }

  /** The list is about a table only the new model has. */
  ghost predicate Creating(log: ChangeLog, t: Name, cols: seq<Column>)
    reads log
  {
    log.Valid() && Get(log.om, t) == None && Get(log.nm, t) == Some(ColumnMap(cols)) && UniqueColumns(cols)
  }

  method PushTableFk(log: ChangeLog, t: Name, cols: seq<Column>, k: nat, ghost base: Schema)
    requires k < |cols| && Creating(log, t, cols)
    requires log.at == base[t := Mix(ColumnMap(cols), ByName(cols, k), map[])]
    modifies log
    ensures Creating(log, t, cols) && log.at == base[t := Mix(ColumnMap(cols), ByName(cols, k + 1), map[])]
  {
    ghost var c, f := ColumnMap(cols), ByName(cols, k);
    ByNameNext(cols, k);
    if FkOf(cols[k]).Some? {
      MixAddFk(c, f, map[], t, cols[k].name, cols[k]);
      log.PushOn(AddForeignKey(t, cols[k].name, FkOf(cols[k]).value), base, Mix(c, f, map[]));
    } else {
      MixSameFk(f, cols[k].name, cols[k]);
    }
  }

  /** Foreign keys of a created table, in column order. */
  method PushTableFks(log: ChangeLog, t: Name, cols: seq<Column>, ghost base: Schema)
    requires Creating(log, t, cols) && log.at == base[t := Mix(ColumnMap(cols), map[], map[])]
    modifies log
    ensures Creating(log, t, cols) && log.at == base[t := Mix(ColumnMap(cols), ColumnMap(cols), map[])]
  {
    for k := 0 to |cols|
      invariant Creating(log, t, cols) && log.at == base[t := Mix(ColumnMap(cols), ByName(cols, k), map[])]
    {
      PushTableFk(log, t, cols, k, base);
    }
  }

  method PushTableIndex(log: ChangeLog, t: Name, cols: seq<Column>, k: nat, ghost base: Schema)
    requires k < |cols| && Creating(log, t, cols)
    requires log.at == base[t := Mix(ColumnMap(cols), ColumnMap(cols), ByName(cols, k))]
    modifies log
    ensures Creating(log, t, cols) && log.at == base[t := Mix(ColumnMap(cols), ColumnMap(cols), ByName(cols, k + 1))]
  {
    ghost var c, i := ColumnMap(cols), ByName(cols, k);
    ByNameNext(cols, k);
    if IndexOf(cols[k]).Some? { MixCreateIndex(c, c, i, t, cols[k].name, cols[k]); }
    if cols[k].isUnique {
      log.PushOn(CreateIndex(t, cols[k].name, Unique), base, Mix(c, c, i));
    } else if cols[k].hasIndex {
      log.PushOn(CreateIndex(t, cols[k].name, NonUnique), base, Mix(c, c, i));
    } else {
      MixSameIndex(i, cols[k].name, cols[k]);
    }
  }

  method PushTableIndexes(log: ChangeLog, t: Name, cols: seq<Column>, ghost base: Schema)
    requires Creating(log, t, cols) && log.at == base[t := Mix(ColumnMap(cols), ColumnMap(cols), map[])]
    modifies log
    ensures Creating(log, t, cols) && log.at == base[t := TableOf(ColumnMap(cols))]
  {
    for k := 0 to |cols|
      invariant Creating(log, t, cols) && log.at == base[t := Mix(ColumnMap(cols), ColumnMap(cols), ByName(cols, k))]
    {
      PushTableIndex(log, t, cols, k, base);
    }
  }

  method PushNewTable(log: ChangeLog, t: Name, cols: seq<Column>)
    requires Creating(log, t, cols) && t !in log.at
    modifies log
    ensures log.Valid() && log.at == old(log.at)[t := TableOf(ColumnMap(cols))]
  {
    ghost var base := log.at;
    log.Push(CreateTable(t, cols));
    PushTableFks(log, t, cols, base);
    PushTableIndexes(log, t, cols, base);
  }

  // ---------------------------------------------------------------------------
  // Whole snapshots
  // ---------------------------------------------------------------------------

  lemma {:induction false} ByTableAt(ets: seq<EntityType>, n: nat)
    requires n <= |ets| && ValidSnapshot(ets)
    ensures forall k :: 0 <= k < n ==> Get(ByTable(ets, n), ets[k].table) == Some(ets[k].columns)
    ensures forall t :: t in ByTable(ets, n) ==> exists k :: 0 <= k < n && ets[k].table == t
    ensures forall t :: t in ByTable(ets, n) ==> UniqueColumns(ByTable(ets, n)[t])
  {
    if n > 0 { ByTableAt(ets, n - 1); }
  }

  function ModelOf(ets: seq<EntityType>): Tables {
    ColumnMaps(ByTable(ets, |ets|))
  }

  function ColumnMaps(ts: map<Name, seq<Column>>): Tables {
    map t | t in ts :: ColumnMap(ts[t])
  }

  lemma SchemaAt(ts: map<Name, seq<Column>>, t: Name)
    ensures t in ts ==>
      Get(SchemaOf(ts), t) == Some(TableOf(ColumnMap(ts[t]))) && Get(ColumnMaps(ts), t) == Some(ColumnMap(ts[t]))
    ensures t !in ts ==> Get(SchemaOf(ts), t) == None && Get(ColumnMaps(ts), t) == None
  {
  }

  lemma SameSchema(s: Schema, u: Schema)
    requires forall t :: Get(s, t) == Get(u, t)
    ensures s == u
  {
    forall t ensures (t in s <==> t in u) && (t in s ==> s[t] == u[t]) {
      assert Get(s, t) == Get(u, t);
    }
  }

  /** The list is about going from the model `ots` to the model `nts`. */
  ghost predicate Diffing(log: ChangeLog, ots: map<Name, seq<Column>>, nts: map<Name, seq<Column>>)
    reads log
  {
    log.Valid() && log.start == SchemaOf(ots) && log.om == ColumnMaps(ots) && log.nm == ColumnMaps(nts)
  }

  /** Tables in `done` are as in the new schema, the others as in the old one. */
  ghost predicate Reached(s: Schema, ots: map<Name, seq<Column>>, nts: map<Name, seq<Column>>, done: set<Name>) {
    forall t :: Get(s, t) == if t in done then Get(SchemaOf(nts), t) else Get(SchemaOf(ots), t)
  }

  lemma ReachedStep(s: Schema, u: Schema, ots: map<Name, seq<Column>>, nts: map<Name, seq<Column>>, done: set<Name>,
                    t: Name)
    requires Reached(s, ots, nts, done) && t in nts && u == s[t := TableOf(ColumnMap(nts[t]))]
    ensures Reached(u, ots, nts, done + {t})
  {
    SchemaAt(nts, t);
    forall x ensures Get(u, x) == if x in done + {t} then Get(SchemaOf(nts), x) else Get(SchemaOf(ots), x) {
      if x != t { assert Get(u, x) == Get(s, x); }
    }
  }

  lemma ReachedDrop(s: Schema, u: Schema, ots: map<Name, seq<Column>>, nts: map<Name, seq<Column>>, done: set<Name>,
                    t: Name)
    requires Reached(s, ots, nts, done) && t !in nts && u == s - {t}
    ensures Reached(u, ots, nts, done + {t})
  {
    SchemaAt(nts, t);
    forall x ensures Get(u, x) == if x in done + {t} then Get(SchemaOf(nts), x) else Get(SchemaOf(ots), x) {
      if x != t { assert Get(u, x) == Get(s, x); }
    }
  }

  method PushDroppedTables(log: ChangeLog, ots: map<Name, seq<Column>>, nts: map<Name, seq<Column>>)
    requires Diffing(log, ots, nts) && Reached(log.at, ots, nts, {})
    modifies log
    ensures Diffing(log, ots, nts) && Reached(log.at, ots, nts, ots.Keys - nts.Keys)
  {
    var pending := ots.Keys - nts.Keys;
    ghost var done: set<Name> := {};
    while pending != {}
      invariant pending + done == ots.Keys - nts.Keys && pending !! done
      invariant Diffing(log, ots, nts) && Reached(log.at, ots, nts, done)
    {
      var t :| t in pending;
      SchemaAt(ots, t);
      SchemaAt(nts, t);
      assert Get(log.at, t) == Get(SchemaOf(ots), t);
      ghost var s := log.at;
      log.Push(DropTable(t));
      ReachedDrop(s, log.at, ots, nts, done, t);
      done := done + {t};
      pending := pending - {t};
    }
  }

  method PushNewTables(log: ChangeLog, ots: map<Name, seq<Column>>, nts: map<Name, seq<Column>>)
    requires Diffing(log, ots, nts) && Reached(log.at, ots, nts, ots.Keys - nts.Keys)
    requires forall t :: t in nts ==> UniqueColumns(nts[t])
    modifies log
    ensures Diffing(log, ots, nts) && Reached(log.at, ots, nts, (ots.Keys - nts.Keys) + (nts.Keys - ots.Keys))
  {
    var pending := nts.Keys - ots.Keys;
    ghost var done := ots.Keys - nts.Keys;
    while pending != {}
      invariant pending + done == (ots.Keys - nts.Keys) + (nts.Keys - ots.Keys) && pending !! done
      invariant Diffing(log, ots, nts) && Reached(log.at, ots, nts, done)
    {
      var t :| t in pending;
      assert t in nts && t !in ots;
      SchemaAt(ots, t);
      SchemaAt(nts, t);
      assert Get(log.at, t) == Get(SchemaOf(ots), t);
      ghost var s := log.at;
      PushNewTable(log, t, nts[t]);
      ReachedStep(s, log.at, ots, nts, done, t);
      done := done + {t};
      pending := pending - {t};
    }
  }

  method PushSharedTable(log: ChangeLog, ots: map<Name, seq<Column>>, nts: map<Name, seq<Column>>, t: Name,
                         ghost done: set<Name>)
    requires Diffing(log, ots, nts) && Reached(log.at, ots, nts, done)
    requires t in ots && t in nts && t !in done && UniqueColumns(nts[t])
    modifies log
    ensures Diffing(log, ots, nts) && Reached(log.at, ots, nts, done + {t})
  {
    ghost var s := log.at;
    SchemaAt(ots, t);
    SchemaAt(nts, t);
    assert Get(s, t) == Get(SchemaOf(ots), t);
    ByNameAt(nts[t], |nts[t]|);
    PushCommonTable(log, t, ColumnMap(ots[t]), ColumnMap(nts[t]));
    ReachedStep(s, log.at, ots, nts, done, t);
  }

  method PushCommonTables(log: ChangeLog, ots: map<Name, seq<Column>>, nts: map<Name, seq<Column>>, both: set<Name>,
                          ghost rest: set<Name>)
    requires Diffing(log, ots, nts) && Reached(log.at, ots, nts, rest)
    requires both !! rest && both <= ots.Keys && both <= nts.Keys && forall t :: t in both ==> UniqueColumns(nts[t])
    modifies log
    ensures Diffing(log, ots, nts) && Reached(log.at, ots, nts, rest + both)
  {
    var pending := both;
    ghost var done := rest;
    while pending != {}
      invariant pending <= both && pending !! done && pending + done == both + rest
      invariant Diffing(log, ots, nts) && Reached(log.at, ots, nts, done)
    {
      var t :| t in pending;
      PushSharedTable(log, ots, nts, t, done);
      done := done + {t};
      pending := pending - {t};
    }
  }

  /** A list of changes that turns one snapshot's schema into the other's, each change answering a difference. */
  ghost predicate IsDiff(prev: seq<EntityType>, next: seq<EntityType>, changes: seq<Change>) {
    && RunUp(SnapshotSchema(prev), changes, |changes|) == Some(SnapshotSchema(next))
    && forall k :: 0 <= k < |changes| ==> Justified(ModelOf(prev), ModelOf(next), changes[k])
  }

  /** The diff of two snapshots, for any iteration order of the hash sets. */
  method Diff(prev: seq<EntityType>, next: seq<EntityType>) returns (changes: seq<Change>)
    requires ValidSnapshot(prev) && ValidSnapshot(next)
    ensures IsDiff(prev, next, changes)
  {
    var ots, nts := ByTable(prev, |prev|), ByTable(next, |next|);
    ByTableAt(next, |next|);
    var log := new ChangeLog(SchemaOf(ots), ColumnMaps(ots), ColumnMaps(nts));
    PushDroppedTables(log, ots, nts);
    PushNewTables(log, ots, nts);
    PushCommonTables(log, ots, nts, ots.Keys * nts.Keys, (ots.Keys - nts.Keys) + (nts.Keys - ots.Keys));
    forall t ensures Get(log.at, t) == Get(SchemaOf(nts), t) {
      SchemaAt(ots, t);
      SchemaAt(nts, t);
    }
    SameSchema(log.at, SchemaOf(nts));
    changes := log.changes;
  }

  // ---------------------------------------------------------------------------
  // What the new snapshot declares
  // ---------------------------------------------------------------------------

  /** The table has exactly these columns, each with the type, key, nullability, length and increment declared; the
      foreign key with table, column and ON DELETE clause exactly where one is declared in full; an index exactly
      where one is declared, unique or not. */
  ghost predicate Declares(x: Table, cols: seq<Column>) {
    && (forall n :: n in x.cols <==> exists j :: 0 <= j < |cols| && cols[j].name == n)
    && x.fks.Keys <= x.cols.Keys && x.ixs.Keys <= x.cols.Keys
    && forall j :: 0 <= j < |cols| ==> ColumnDeclared(x, cols[j])
  }

  ghost predicate ColumnDeclared(x: Table, c: Column) {
    && Get(x.cols, c.name) == Some(ColDef(c.typeName, c.isPrimaryKey, c.isRequired, c.maxLength, c.isAutoIncrement))
    && (c.name in x.fks <==> c.isForeignKey && c.fkTable.Some? && c.fkColumn.Some?)
    && (c.name in x.fks ==>
         && c.fkTable == Some(x.fks[c.name].table) && c.fkColumn == Some(x.fks[c.name].column)
         && c.onDelete == x.fks[c.name].onDelete)
    && (c.name in x.ixs <==> c.hasIndex || c.isUnique)
    && (c.name in x.ixs ==> (x.ixs[c.name] == Unique <==> c.isUnique))
  }

  lemma TableDeclared(cols: seq<Column>)
    requires UniqueColumns(cols)
    ensures Declares(TableOf(ColumnMap(cols)), cols)
  {
    hide TableOf, ColumnDeclared;
    ByNameAt(cols, |cols|);
    KeysDeclared(ColumnMap(cols));
    forall j | 0 <= j < |cols| ensures ColumnDeclared(TableOf(ColumnMap(cols)), cols[j]) {
      DefinedColumn(ColumnMap(cols), cols[j]);
    }
  }

  lemma KeysDeclared(m: Columns)
    ensures var x := TableOf(m); x.cols.Keys == m.Keys && x.fks.Keys <= x.cols.Keys && x.ixs.Keys <= x.cols.Keys
  {
  }

  lemma DefinedColumn(m: Columns, c: Column)
    requires Get(m, c.name) == Some(c)
    ensures ColumnDeclared(TableOf(m), c)
  {
  }

  lemma SnapshotDeclared(ets: seq<EntityType>)
    requires ValidSnapshot(ets)
    ensures forall i :: 0 <= i < |ets| ==>
      ets[i].table in SnapshotSchema(ets) && Declares(SnapshotSchema(ets)[ets[i].table], ets[i].columns)
    ensures forall t :: t in SnapshotSchema(ets) ==> exists i :: 0 <= i < |ets| && ets[i].table == t
  {
    hide Declares, TableOf, ColumnMap;
    ByTableAt(ets, |ets|);
    forall i | 0 <= i < |ets|
      ensures ets[i].table in SnapshotSchema(ets) && Declares(SnapshotSchema(ets)[ets[i].table], ets[i].columns) {
      TableDeclared(ets[i].columns);
    }
  }

  /** Running a diff from a database with what one snapshot declares gives one with what the other declares:
      exactly its tables, columns, foreign keys and indexes. */
  lemma DiffDeclares(prev: seq<EntityType>, next: seq<EntityType>, changes: seq<Change>, x: Schema)
    requires ValidSnapshot(prev) && ValidSnapshot(next) && IsDiff(prev, next, changes)
    requires forall i :: 0 <= i < |prev| ==> prev[i].table in x && Declares(x[prev[i].table], prev[i].columns)
    requires forall t :: t in x ==> exists i :: 0 <= i < |prev| && prev[i].table == t
    ensures var r := RunUp(x, changes, |changes|);
      && r.Some?
      && (forall i :: 0 <= i < |next| ==> next[i].table in r.value && Declares(r.value[next[i].table], next[i].columns))
      && forall t :: t in r.value ==> exists i :: 0 <= i < |next| && next[i].table == t
  {
    hide Declares, SnapshotSchema;
    SnapshotDeclared(prev);
    SnapshotDeclared(next);
    forall t | t in x ensures t in SnapshotSchema(prev) && x[t] == SnapshotSchema(prev)[t] {
      var i :| 0 <= i < |prev| && prev[i].table == t;
      DeclaredAlike(x[t], SnapshotSchema(prev)[t], prev[i].columns);
    }
    forall t | t in SnapshotSchema(prev) ensures t in x {
      var i :| 0 <= i < |prev| && prev[i].table == t;
    }
    assert x == SnapshotSchema(prev);
  }

  /** A table is determined by what it declares. */
  lemma DeclaredAlike(x: Table, y: Table, cols: seq<Column>)
    requires Declares(x, cols) && Declares(y, cols)
    ensures x == y
  {
    hide ColumnDeclared;
    forall n
      ensures Get(x.cols, n) == Get(y.cols, n) && Get(x.fks, n) == Get(y.fks, n) && Get(x.ixs, n) == Get(y.ixs, n) {
      if n in x.cols || n in y.cols {
        var j :| 0 <= j < |cols| && cols[j].name == n;
        ColumnAlike(x, y, cols[j]);
      }
    }
    SameMap(x.fks, y.fks);
    SameMap(x.ixs, y.ixs);
    SameMap(x.cols, y.cols);
  }

  lemma ColumnAlike(x: Table, y: Table, c: Column)
    requires ColumnDeclared(x, c) && ColumnDeclared(y, c)
    ensures Get(x.cols, c.name) == Get(y.cols, c.name) && Get(x.fks, c.name) == Get(y.fks, c.name)
    ensures Get(x.ixs, c.name) == Get(y.ixs, c.name)
  {
  }

  lemma SameMap<V>(a: map<Name, V>, b: map<Name, V>)
    requires forall n :: Get(a, n) == Get(b, n)
    ensures a == b
  {
    forall n ensures n in a <==> n in b { assert Get(a, n) == Get(b, n); }
    forall n | n in a ensures a[n] == b[n] { assert Get(a, n) == Get(b, n); }
  }

  // ---------------------------------------------------------------------------
  // Initial creation
  // ---------------------------------------------------------------------------

  ghost function Bare(cols: seq<Column>): Table {
    Mix(ColumnMap(cols), map[], map[])
  }

  /** The first `m` tables, of which the first `k` have their foreign keys and indexes. */
  ghost function Built(ets: seq<EntityType>, k: nat, m: nat): Schema
    requires m <= |ets|
  {
    if m == 0 then map[]
    else
      var cols := ets[m - 1].columns;
      Built(ets, k, m - 1)[ets[m - 1].table := if m - 1 < k then TableOf(ColumnMap(cols)) else Bare(cols)]
  }

  lemma {:induction false} BuiltAt(ets: seq<EntityType>, k: nat, m: nat)
    requires m <= |ets| && ValidSnapshot(ets)
    ensures forall j :: 0 <= j < m ==>
      Get(Built(ets, k, m),
          ets[j].table) == Some(if j < k then TableOf(ColumnMap(ets[j].columns)) else Bare(ets[j].columns))
    ensures forall t :: t in Built(ets, k, m) ==> exists j :: 0 <= j < m && ets[j].table == t
  {
    if m > 0 { BuiltAt(ets, k, m - 1); }
  }

  lemma {:induction false} BuiltMore(ets: seq<EntityType>, k: nat, m: nat)
    requires k < |ets| && m <= |ets| && ValidSnapshot(ets)
    ensures m <= k ==> Built(ets, k + 1, m) == Built(ets, k, m)
    ensures m > k ==> Built(ets, k + 1, m) == Built(ets, k, m)[ets[k].table := TableOf(ColumnMap(ets[k].columns))]
  {
    if m > 0 {
      BuiltMore(ets, k, m - 1);
      if m - 1 > k { assert ets[m - 1].table != ets[k].table; }
    }
  }

  /** Finishing table `k` finishes one more. */
  lemma BuiltNext(ets: seq<EntityType>, k: nat)
    requires k < |ets| && ValidSnapshot(ets)
    ensures Get(Built(ets, k, |ets|), ets[k].table) == Some(Bare(ets[k].columns))
    ensures Built(ets, k + 1, |ets|) == Built(ets, k, |ets|)[ets[k].table := TableOf(ColumnMap(ets[k].columns))]
  {
    BuiltAt(ets, k, |ets|);
    BuiltMore(ets, k, |ets|);
  }

  lemma {:induction false} AllBuilt(ets: seq<EntityType>, k: nat, m: nat)
    requires m <= k <= |ets|
    ensures Built(ets, k, m) == SchemaOf(ByTable(ets, m))
  {
    if m > 0 {
      AllBuilt(ets, k, m - 1);
      var a, b := ByTable(ets, m - 1), ByTable(ets, m);
      forall t ensures Get(SchemaOf(b), t) == Get(Built(ets, k, m), t) {
        SchemaAt(a, t);
        SchemaAt(b, t);
      }
      SameSchema(SchemaOf(b), Built(ets, k, m));
    }
  }

  ghost predicate CreatingAll(log: ChangeLog, ets: seq<EntityType>)
    reads log
  {
    log.Valid() && log.start == map[] && log.om == map[] && log.nm == ModelOf(ets) && ValidSnapshot(ets)
  }

  lemma NewModelAt(ets: seq<EntityType>, k: nat)
    requires k < |ets| && ValidSnapshot(ets)
    ensures Get(ModelOf(ets), ets[k].table) == Some(ColumnMap(ets[k].columns))
  {
    ByTableAt(ets, |ets|);
    SchemaAt(ByTable(ets, |ets|), ets[k].table);
  }

  method PushBareTables(log: ChangeLog, ets: seq<EntityType>)
    requires CreatingAll(log, ets) && log.at == map[]
    modifies log
    ensures CreatingAll(log, ets) && log.at == Built(ets, 0, |ets|)
  {
    for k := 0 to |ets|
      invariant CreatingAll(log, ets) && log.at == Built(ets, 0, k)
    {
      BuiltAt(ets, 0, k);
      NewModelAt(ets, k);
      log.Push(CreateTable(ets[k].table, ets[k].columns));
    }
  }

  method FinishTable(log: ChangeLog, ets: seq<EntityType>, k: nat)
    requires k < |ets| && CreatingAll(log, ets) && log.at == Built(ets, k, |ets|)
    modifies log
    ensures CreatingAll(log, ets) && log.at == Built(ets, k + 1, |ets|)
  {
    ghost var base := log.at;
    var et := ets[k];
    BuiltNext(ets, k);
    NewModelAt(ets, k);
    assert base == base[et.table := Mix(ColumnMap(et.columns), map[], map[])];
    PushTableFks(log, et.table, et.columns, base);
    PushTableIndexes(log, et.table, et.columns, base);
  }

  /** Creates every table first, then the foreign keys and indexes of each. */
  method InitialCreateWithFks(ets: seq<EntityType>) returns (changes: seq<Change>)
    requires ValidSnapshot(ets)
    ensures IsDiff([], ets, changes)
  {
    var log := new ChangeLog(map[], map[], ModelOf(ets));
    PushBareTables(log, ets);
    for k := 0 to |ets|
      invariant CreatingAll(log, ets) && log.at == Built(ets, k, |ets|)
    {
      FinishTable(log, ets, k);
    }
    AllBuilt(ets, |ets|, |ets|);
    changes := log.changes;
  }

  // ---------------------------------------------------------------------------
  // Down undoes up
  // ---------------------------------------------------------------------------

  /** Nothing of the old schema is dropped: tables and columns stay, foreign keys stay as they are. */
  predicate Keeps(prev: seq<EntityType>, next: seq<EntityType>) {
    Within(SnapshotSchema(prev), SnapshotSchema(next))
  }

  lemma DroppedIsLost(prev: seq<EntityType>, next: seq<EntityType>, c: Change)
    requires Justified(ModelOf(prev), ModelOf(next), c) && Keeps(prev, next)
    ensures !Lossy(c)
  {
    var ots, nts := ByTable(prev, |prev|), ByTable(next, |next|);
    SchemaAt(ots, c.table);
    SchemaAt(nts, c.table);
    if Lossy(c) {
      assert c.table in SchemaOf(ots);
      assert c.table in nts && TableWithin(TableOf(ColumnMap(ots[c.table])), TableOf(ColumnMap(nts[c.table])));
      LostInTable(ColumnMap(ots[c.table]), ColumnMap(nts[c.table]), c);
    }
  }

  lemma WithinMeans(prev: Columns, next: Columns)
    requires TableWithin(TableOf(prev), TableOf(next))
    ensures forall n :: n in prev ==> n in next
    ensures forall n :: FkAt(prev, n).Some? ==> FkAt(next, n) == FkAt(prev, n)
  {
    forall n | n in prev ensures n in next {
      assert n in Defs(prev);
    }
    forall n | FkAt(prev, n).Some? ensures FkAt(next, n) == FkAt(prev, n) {
      assert n in Fks(prev);
    }
  }

  lemma LostInTable(prev: Columns, next: Columns, c: Change)
    requires TableWithin(TableOf(prev), TableOf(next)) && Answers(Some(prev), Some(next), c)
    ensures !Lossy(c)
  {
    WithinMeans(prev, next);
  }

  /** Reverting a diff brings the old schema back exactly when the new model keeps every table,
      column and foreign key of the old one. */
  lemma DownUndoesUp(d: Dialect, prev: seq<EntityType>, next: seq<EntityType>, changes: seq<Change>)
    requires IsDiff(prev, next, changes)
    ensures RunDown(d, SnapshotSchema(next), changes, |changes|) == Some(SnapshotSchema(prev)) <==> Keeps(prev, next)
  {
    if Keeps(prev, next) {
      forall k | 0 <= k < |changes| ensures !Lossy(changes[k]) {
        DroppedIsLost(prev, next, changes[k]);
      }
      SchemaOfOk(ByTable(prev, |prev|));
      LosslessUndone(d, SnapshotSchema(prev), changes, |changes|);
    } else if RunDown(d, SnapshotSchema(next), changes, |changes|) == Some(SnapshotSchema(prev)) {
      DownWithin(d, SnapshotSchema(next), changes, |changes|);
    }
  }

  /** Reverting an initial create leaves no table. */
  lemma InitialCreateUndone(d: Dialect, ets: seq<EntityType>, changes: seq<Change>)
    requires IsDiff([], ets, changes)
    ensures RunDown(d, SnapshotSchema(ets), changes, |changes|) == Some(map[])
  {
    DownUndoesUp(d, [], ets, changes);
  }

  /** The models agree on everything but sequence fields and unset foreign keys' ON DELETE. */
  predicate Alike(om: Tables, nm: Tables) {
    && om.Keys == nm.Keys
    && forall t :: t in om ==> ColumnsAlike(om[t], nm[t])
  }

  predicate ColumnsAlike(prev: Columns, next: Columns) {
    && prev.Keys == next.Keys
    && forall n :: n in prev ==> SameButSequence(prev[n], next[n])
  }

  /** The same declaration: sequences aside, ON DELETE only where a foreign key is declared in full. */
  predicate SameButSequence(a: Column, b: Column) {
    && a.fieldName == b.fieldName && a.name == b.name && a.typeName == b.typeName
    && a.isPrimaryKey == b.isPrimaryKey && a.isRequired == b.isRequired && a.isForeignKey == b.isForeignKey
    && a.maxLength == b.maxLength && a.isAutoIncrement == b.isAutoIncrement
    && a.fkTable == b.fkTable && a.fkColumn == b.fkColumn
    && (a.isForeignKey && a.fkTable.Some? && a.fkColumn.Some? ==> a.onDelete == b.onDelete)
    && a.isUnique == b.isUnique && (a.hasIndex || a.isUnique <==> b.hasIndex || b.isUnique)
  }

  /** A diff is empty when the models are alike, even if they differ in sequences, and only
      when the schemas are the same. */
  lemma EmptyDiff(prev: seq<EntityType>, next: seq<EntityType>, changes: seq<Change>)
    requires IsDiff(prev, next, changes)
    ensures Alike(ModelOf(prev), ModelOf(next)) ==> changes == []
    ensures changes == [] ==> SnapshotSchema(prev) == SnapshotSchema(next)
  {
    if Alike(ModelOf(prev), ModelOf(next)) && changes != [] {
      var c := changes[0];
      NothingToAnswer(Get(ModelOf(prev), c.table), Get(ModelOf(next), c.table), c);
    }
  }

  lemma NothingToAnswer(was: Option<Columns>, becomes: Option<Columns>, c: Change)
    requires was.Some? <==> becomes.Some?
    requires was.Some? ==> ColumnsAlike(was.value, becomes.value)
    ensures !Answers(was, becomes, c)
  {
    if was.Some? && !c.CreateTable? && !c.DropTable? {
      SameAnswers(was.value, becomes.value, c);
    }
  }

  lemma SameAnswers(prev: Columns, next: Columns, c: Change)
    requires ColumnsAlike(prev, next) && !c.CreateTable? && !c.DropTable?
    ensures !Answers(Some(prev), Some(next), c)
  {
    var n := if c.AddColumn? then c.added.name else c.column;
    if n in prev {
      assert SameButSequence(prev[n], next[n]) && StructurallyEqual(prev[n], next[n]);
      assert FkOf(prev[n]) == FkOf(next[n]) && IndexOf(prev[n]) == IndexOf(next[n]);
    }
  }
}
