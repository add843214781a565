/** The snapshot file: its printer, its parser, and what survives the round trip. */
module SnapshotIo {
  import opened Wrappers
  import opened MigrationSchema
  import opened SnapshotText

  datatype Snapshot = Snapshot(migrationId: string, entities: seq<EntityType>)

  // ---------------------------------------------------------------------------
  // Keys and values
  // ---------------------------------------------------------------------------

  const FIELDS := 15
  const KEYS := 19
  const MIGRATION_ID := 15
  const ENTITY_TYPES := 16
  const TABLE_NAME := 17
  const COLUMNS := 18

  /** The keys of the file: those of a column in printing order, then the others. */
  function Key(i: nat): (k: string)
    requires i < KEYS
  {
    if i == 0 then "field_name" else if i == 1 then "column_name" else if i == 2 then "type_name"
    else if i == 3 then "is_primary_key" else if i == 4 then "is_required" else if i == 5 then "is_foreign_key"
    else if i == 6 then "max_length" else if i == 7 then "is_auto_increment" else if i == 8 then "is_sequence"
    else if i == 9 then "sequence_name" else if i == 10 then "fk_referenced_table"
    else if i == 11 then "fk_referenced_column" else if i == 12 then "has_index" else if i == 13 then "is_unique"
    else if i == 14 then "fk_on_delete" else if i == 15 then "migration_id" else if i == 16 then "entity_types"
    else if i == 17 then "table_name" else "columns"
  }

  predicate KeyFree(v: string) {
    forall i :: 0 <= i < KEYS ==> Key(i) != v
  }

  predicate Clean(v: string) {
    NoQuote(v) && KeyFree(v)
  }

  predicate OptionFree(v: Option<string>) {
    v.Some? ==> KeyFree(v.value)
  }

  predicate OptionPlain(v: Option<string>) {
    v.Some? ==> NoQuote(v.value)
  }

  predicate ColumnFree(c: Column) {
    && KeyFree(c.fieldName) && KeyFree(c.name) && KeyFree(c.typeName) && OptionFree(c.sequenceName)
    && OptionFree(c.fkTable) && OptionFree(c.fkColumn) && OptionFree(c.onDelete)
  }

  predicate ColumnPlain(c: Column) {
    && NoQuote(c.fieldName) && NoQuote(c.name) && NoQuote(c.typeName) && OptionPlain(c.sequenceName)
    && OptionPlain(c.fkTable) && OptionPlain(c.fkColumn) && OptionPlain(c.onDelete)
  }

  /** No name in the snapshot is one of the file's keys; the entities' type names, which are not read
      back, hold no quote either. */
  predicate SnapshotFree(s: Snapshot) {
    KeyFree(s.migrationId) && forall i :: 0 <= i < |s.entities| ==> EntityFree(s.entities[i])
  }

  predicate EntityFree(e: EntityType) {
    Clean(e.typeName) && KeyFree(e.table) && forall j :: 0 <= j < |e.columns| ==> ColumnFree(e.columns[j])
  }

  predicate SnapshotPlain(s: Snapshot) {
    NoQuote(s.migrationId) && forall i :: 0 <= i < |s.entities| ==> EntityPlain(s.entities[i])
  }

  predicate EntityPlain(e: EntityType) {
    NoQuote(e.table) && forall j :: 0 <= j < |e.columns| ==> ColumnPlain(e.columns[j])
  }

  datatype Value = Text(v: string) | Bare(b: string)

  function Bool(b: bool): Value {
    Bare(if b then "true" else "false")
  }

  function Nullable(v: Option<string>): Value {
    if v.Some? then Text(v.value) else Bare("null")
  }

  function Digits(n: nat): (d: string)
    ensures |d| > 0 && forall i :: 0 <= i < |d| ==> '0' <= d[i] <= '9'
  {
    (if n < 10 then "" else Digits(n / 10)) + [('0' as int + n % 10) as char]
  }

  function Length(v: Option<nat>): Value {
    Bare(if v.Some? then Digits(v.value) else "null")
  }

  /** The value printed for the column's `i`-th key. */
  function Val(c: Column, i: nat): Value
    requires i < FIELDS
  {
    if i == 0 then Text(c.fieldName) else if i == 1 then Text(c.name) else if i == 2 then Text(c.typeName)
    else if i == 3 then Bool(c.isPrimaryKey) else if i == 4 then Bool(c.isRequired)
    else if i == 5 then Bool(c.isForeignKey) else if i == 6 then Length(c.maxLength)
    else if i == 7 then Bool(c.isAutoIncrement) else if i == 8 then Bool(c.isSequence)
    else if i == 9 then Nullable(c.sequenceName)
    else if i == 10 then Nullable(c.fkTable) else if i == 11 then Nullable(c.fkColumn)
    else if i == 12 then Bool(c.hasIndex) else if i == 13 then Bool(c.isUnique) else Nullable(c.onDelete)
  }

  // ---------------------------------------------------------------------------
  // Printing
  // ---------------------------------------------------------------------------

  /** Quotes are escaped with a backslash; nothing else is. */
  function Escape(v: string): string {
    if v == "" then "" else (if v[0] == Q then ['\\', Q] else [v[0]]) + Escape(v[1..])
  }

  function Literal(v: string): string {
    Quoted(Escape(v))
  }

  function ValueText(v: Value): string {
    match v
    case Text(t) => Literal(t)
    case Bare(b) => b
  }

  function FieldsText(c: Column, i: nat): string
    requires i < FIELDS
    decreases c, FIELDS - i
  {
    Quoted(Key(i)) + (":" + (ValueText(Val(c, i)) + (if i == FIELDS - 1 then "" else "," + FieldsText(c, i + 1))))
  }

  function Comma(i: nat): string {
    if i > 0 then "," else ""
  }

  function ColumnText(cols: seq<Column>, j: nat): string
    requires j < |cols|
  {
    (Comma(j) + "        {") + (FieldsText(cols[j], 0) + "}\n")
  }

  /** The text of the first `n` columns. */
  function ColumnsText(cols: seq<Column>, n: nat): string
    requires n <= |cols|
  {
    if n == 0 then "" else ColumnsText(cols, n - 1) + ColumnText(cols, n - 1)
  }

  /** An entity up to its columns. */
  function HeadText(e: EntityType, i: nat): string {
    (Comma(i) + "    {\n      ") + (Quoted("type_name") + (": " + (Literal(e.typeName) + (",\n      " +
      (Quoted("table_name") + (": " + (Literal(e.table) + (",\n      " + (Quoted("columns") + ": [\n")))))))))
  }

  function EntityText(ets: seq<EntityType>, i: nat): string
    requires i < |ets|
  {
    HeadText(ets[i], i) + (ColumnsText(ets[i].columns, |ets[i].columns|) + "      ]\n    }\n")
  }

  function EntitiesText(ets: seq<EntityType>, n: nat): string
    requires n <= |ets|
  {
    if n == 0 then "" else EntitiesText(ets, n - 1) + EntityText(ets, n - 1)
  }

  function OpeningText(id: string): string {
    "{\n  " + (Quoted("migration_id") + (": " + (Literal(id) + (",\n  " + (Quoted("entity_types") + ": [\n")))))
  }

  /** The whole file. */
  function FileText(s: Snapshot): string {
    OpeningText(s.migrationId) + (EntitiesText(s.entities, |s.entities|) + "  ]\n}\n")
  }

  lemma Assoc(a: string, b: string, c: string)
    ensures (a + b) + c == a + (b + c)
  {
  }

  method PrintColumn(before: string, cols: seq<Column>, j: nat) returns (out: string)
    requires j < |cols|
    ensures out == before + ColumnText(cols, j)
  {
    out := before;
    if j > 0 { out := out + ","; }
    assert out == before + Comma(j);
    out := out + "        {";
    Assoc(before, Comma(j), "        {");
    var fields := FieldsText(cols[j], 0) + "}\n";
    out := out + fields;
    Assoc(before, Comma(j) + "        {", fields);
  }

  method PrintColumns(before: string, cols: seq<Column>) returns (out: string)
    ensures out == before + ColumnsText(cols, |cols|)
  {
    out := before;
    var j := 0;
    while j < |cols|
      invariant 0 <= j <= |cols|
      invariant out == before + ColumnsText(cols, j)
    {
      out := PrintColumn(out, cols, j);
      Assoc(before, ColumnsText(cols, j), ColumnText(cols, j));
      j := j + 1;
    }
  }

  method PrintEntity(before: string, ets: seq<EntityType>, i: nat) returns (out: string)
    requires i < |ets|
    ensures out == before + EntityText(ets, i)
  {
    var head, columns := HeadText(ets[i], i), ets[i].columns;
    out := before + head;
    out := PrintColumns(out, columns);
    out := out + "      ]\n    }\n";
    Assoc(before + head, ColumnsText(columns, |columns|), "      ]\n    }\n");
    Assoc(before, head, ColumnsText(columns, |columns|) + "      ]\n    }\n");
  }

  method PrintSnapshot(s: Snapshot) returns (out: string)
    ensures out == FileText(s)
  {
    hide OpeningText, EntityText;
    out := OpeningText(s.migrationId);
    var i := 0;
    while i < |s.entities|
      invariant 0 <= i <= |s.entities|
      invariant out == OpeningText(s.migrationId) + EntitiesText(s.entities, i)
    {
      out := PrintEntity(out, s.entities, i);
      Assoc(OpeningText(s.migrationId), EntitiesText(s.entities, i), EntityText(s.entities, i));
      i := i + 1;
    }
    out := out + "  ]\n}\n";
    Assoc(OpeningText(s.migrationId), EntitiesText(s.entities, i), "  ]\n}\n");
  }

  // ---------------------------------------------------------------------------
  // Parsing
  // ---------------------------------------------------------------------------

  predicate Flag(chunk: string, key: string) {
    Contains(chunk, Quoted(key) + ":true")
  }

  /** The column of one piece of the text after a `field_name` key. */
  function ParseColumn(chunk: string): (r: Option<Column>)
  {
    match QuotedAfterColon(chunk)
    case None => None
    case Some(field) =>
      Some(Column(field, JsonString(chunk, "column_name").UnwrapOr(field),
                  JsonString(chunk, "type_name").UnwrapOr("String"),
                  Flag(chunk, "is_primary_key"), Flag(chunk, "is_required"), Flag(chunk, "is_foreign_key"), None,
                  Flag(chunk, "is_auto_increment"), Flag(chunk, "is_sequence"), JsonString(chunk, "sequence_name"),
                  JsonString(chunk, "fk_referenced_table"), JsonString(chunk, "fk_referenced_column"),
                  Flag(chunk, "has_index"), Flag(chunk, "is_unique"), JsonString(chunk, "fk_on_delete")))
  }

  function ColumnsOf(chunks: seq<string>): seq<Column> {
    if chunks == [] then []
    else Pushed([], ParseColumn(chunks[0])) + ColumnsOf(chunks[1..])
  }

  /** The text from the first occurrence on. */
  function TextFrom(t: string, needle: string): Option<string> {
    match Find(t, needle, 0)
    case None => None
    case Some(p) => Some(t[p..])
  }

  function BlockColumns(block: string): seq<Column> {
    match TextFrom(block, Quoted("columns"))
    case None => []
    case Some(rest) => ColumnsOf(Pieces(rest, Quoted("field_name")))
  }

  /** The entity of one piece of the text after a `table_name` key; none for an empty table name. */
  function EntityOf(block: string): seq<EntityType> {
    var table := QuotedAfterColon(block).UnwrapOr("");
    if table == "" then [] else [EntityType(table, table, BlockColumns(block))]
  }

  function EntitiesOf(blocks: seq<string>): seq<EntityType> {
    if blocks == [] then [] else EntityOf(blocks[0]) + EntitiesOf(blocks[1..])
  }

  function ReadEntities(t: string): seq<EntityType> {
    match TextFrom(t, Quoted("entity_types"))
    case None => []
    case Some(rest) => EntitiesOf(Pieces(rest, Quoted("table_name")))
  }

  /** What the parser returns. */
  function Read(t: string): Option<Snapshot> {
    if ReadEntities(t) == [] then None
    else Some(Snapshot(JsonString(t, "migration_id").UnwrapOr("__snapshot__"), ReadEntities(t)))
  }

  function Pushed(columns: seq<Column>, c: Option<Column>): seq<Column> {
    if c.Some? then columns + [c.value] else columns
  }

  lemma ColumnsOfStep(columns: seq<Column>, chunks: seq<string>, i: nat)
    requires i < |chunks|
    ensures columns + ColumnsOf(chunks[i..]) == Pushed(columns, ParseColumn(chunks[i])) + ColumnsOf(chunks[i + 1..])
  {
    assert chunks[i..][1..] == chunks[i + 1..];
    assert ColumnsOf(chunks[i..]) == Pushed([], ParseColumn(chunks[i])) + ColumnsOf(chunks[i + 1..]);
  }

  lemma EntitiesOfStep(blocks: seq<string>, i: nat)
    requires i < |blocks|
    ensures EntitiesOf(blocks[i..]) == EntityOf(blocks[i]) + EntitiesOf(blocks[i + 1..])
  {
    assert blocks[i..][1..] == blocks[i + 1..];
  }

  method ParseColumns(chunks: seq<string>) returns (columns: seq<Column>)
    ensures columns == ColumnsOf(chunks)
  {
    columns := [];
    var i := 0;
    while i < |chunks|
      invariant 0 <= i <= |chunks|
      invariant columns + ColumnsOf(chunks[i..]) == ColumnsOf(chunks)
    {
      var c := ParseColumn(chunks[i]);
      ColumnsOfStep(columns, chunks, i);
      if c.Some? { columns := columns + [c.value]; }
      i := i + 1;
    }
  }

  method ParseBlock(block: string) returns (entity: seq<EntityType>)
    ensures entity == EntityOf(block)
  {
    var table := QuotedAfterColon(block).UnwrapOr("");
    var columns := [];
    var rest := TextFrom(block, Quoted("columns"));
    if rest.Some? { columns := ParseColumns(Pieces(rest.value, Quoted("field_name"))); }
    entity := if table == "" then [] else [EntityType(table, table, columns)];
  }

  method ParseEntities(blocks: seq<string>) returns (entities: seq<EntityType>)
    ensures entities == EntitiesOf(blocks)
  {
    entities := [];
    var i := 0;
    while i < |blocks|
      invariant 0 <= i <= |blocks|
      invariant entities + EntitiesOf(blocks[i..]) == EntitiesOf(blocks)
    {
      EntitiesOfStep(blocks, i);
      var entity := ParseBlock(blocks[i]);
      entities := entities + entity;
      i := i + 1;
    }
  }

  method ParseSnapshot(t: string) returns (r: Option<Snapshot>)
    ensures r == Read(t)
  {
    var id := JsonString(t, "migration_id").UnwrapOr("__snapshot__");
    var entities := [];
    var rest := TextFrom(t, Quoted("entity_types"));
    if rest.Some? { entities := ParseEntities(Pieces(rest.value, Quoted("table_name"))); }
    r := if entities == [] then None else Some(Snapshot(id, entities));
  }
}
