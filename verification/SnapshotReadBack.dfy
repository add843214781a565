/** A printed snapshot file as segments, and the round trip of the whole file. */
module SnapshotReadBack {
  import opened Wrappers
  import opened MigrationSchema
  import opened SnapshotText
  import opened SnapshotIo
  import opened SnapshotRoundTrip

  // ---------------------------------------------------------------------------
  // The columns of one entity
  // ---------------------------------------------------------------------------

  /** A column's fields and the end of its object. */
  function RowS(c: Column, tail: Segs): Segs {
    FieldsS(c, 0, Prepend("}\n", tail))
  }

  /** The columns from the `j`-th on, then `tail`. */
  function ColsS(cols: seq<Column>, j: nat, tail: Segs): Segs
    requires j <= |cols|
    decreases cols, |cols| - j
  {
    if j == |cols| then tail else Prepend(Comma(j) + "        {", RowS(cols[j], ColsS(cols, j + 1, tail)))
  }

  /** The columns from the `j`-th on, cut before the next field name. */
  function RestS(cols: seq<Column>, j: nat, tail: Segs): Segs
    requires j <= |cols|
  {
    if j == |cols| then tail else One(Comma(j) + "        {")
  }

  predicate AllFree(cols: seq<Column>) {
    forall j :: 0 <= j < |cols| ==> ColumnFree(cols[j])
  }

  predicate AllPlain(cols: seq<Column>) {
    forall j :: 0 <= j < |cols| ==> ColumnPlain(cols[j])
  }

  lemma CommaPlain(j: nat)
    ensures NoQuote(Comma(j) + "        {") && Comma(j) + "        {" != ""
    ensures !('a' <= (Comma(j) + "        {")[0] <= 'z')
    ensures NoQuote(Comma(j) + "    {\n      ") && NoQuote("}\n") && NoQuote("      ]\n    }\n")
  {
  }

  lemma {:induction false} ColsPass(cols: seq<Column>, j: nat, tail: Segs, k: nat)
    requires j <= |cols| && AllFree(cols) && FIELDS <= k < KEYS
    ensures After(ColsS(cols, j, tail), Key(k)) == After(tail, Key(k))
    decreases |cols| - j
  {
    if j < |cols| {
      var rest := ColsS(cols, j + 1, tail);
      FieldsPass(cols[j], 0, Prepend("}\n", rest), k, "");
      PrependPass("}\n", rest, Key(k), "");
      PrependPass(Comma(j) + "        {", RowS(cols[j], rest), Key(k), "");
      ColsPass(cols, j + 1, tail, k);
    }
  }

  lemma {:induction false} ColsUpTo(cols: seq<Column>, j: nat, tail: Segs, k: nat)
    requires j <= |cols| && AllFree(cols) && FIELDS <= k < KEYS
    ensures UpTo(ColsS(cols, j, tail), Key(k)) == ColsS(cols, j, UpTo(tail, Key(k)))
    decreases |cols| - j
  {
    if j < |cols| {
      var rest := ColsS(cols, j + 1, tail);
      FieldsUpTo(cols[j], 0, Prepend("}\n", rest), k);
      PrependPass("}\n", rest, Key(k), "");
      PrependPass(Comma(j) + "        {", RowS(cols[j], rest), Key(k), "");
      ColsUpTo(cols, j + 1, tail, k);
    }
  }

  lemma {:induction false} ColsPlain(cols: seq<Column>, j: nat, tail: Segs)
    requires j <= |cols| && AllPlain(cols) && Plain(tail)
    ensures Plain(ColsS(cols, j, tail))
    decreases |cols| - j
  {
    if j < |cols| {
      var rest := ColsS(cols, j + 1, tail);
      ColsPlain(cols, j + 1, tail);
      CommaPlain(j);
      PrependJoins("}\n", rest);
      FieldsPlain(cols[j], 0, Prepend("}\n", rest));
      PrependJoins(Comma(j) + "        {", RowS(cols[j], rest));
    }
  }

  /** The text after a column's first key. */
  lemma ChunkFound(cols: seq<Column>, j: nat, tail: Segs)
    requires j < |cols| && AllFree(cols)
    ensures After(ColsS(cols, j, tail), Key(0)) == Some(ChunkS(cols[j], Prepend("}\n", ColsS(cols, j + 1, tail))))
  {
    var rest := ColsS(cols, j + 1, tail);
    PrependPass(Comma(j) + "        {", RowS(cols[j], rest), Key(0), "");
    FieldFirst(cols[j], 0, Prepend("}\n", rest));
  }

  lemma RestCut(cols: seq<Column>, j: nat, tail: Segs)
    requires j <= |cols| && UpTo(tail, Key(0)) == tail
    ensures UpTo(ColsS(cols, j, tail), Key(0)) == RestS(cols, j, tail)
  {
    if j < |cols| {
      var row := RowS(cols[j], ColsS(cols, j + 1, tail));
      PrependPass(Comma(j) + "        {", row, Key(0), "");
      FieldsNext(cols[j], 0, Prepend("}\n", ColsS(cols, j + 1, tail)));
      LitHit(Prepend(":", ValueS(Val(cols[j], 0), Next(cols[j], 0, Prepend("}\n", ColsS(cols, j + 1, tail))))), Key(0));
    }
  }

  lemma ChunkCut(c: Column, rest: Segs)
    requires ColumnFree(c)
    ensures UpTo(ChunkS(c, Prepend("}\n", rest)), Key(0)) == ChunkS(c, Prepend("}\n", UpTo(rest, Key(0))))
    ensures After(ChunkS(c, Prepend("}\n", rest)), Key(0)) == After(rest, Key(0))
  {
    var tail := Prepend("}\n", rest);
    ChunkPass(c, tail, 0, "");
    FieldsPass(c, 1, tail, 0, "");
    FieldsUpTo(c, 1, tail, 0);
    PrependPass("}\n", rest, Key(0), "");
  }

  lemma SameAfter(g: Segs, h: Segs, key: string)
    requires After(g, key) == After(h, key)
    ensures SegPieces(g, key) == SegPieces(h, key)
  {
  }

  lemma ColsPieces(cols: seq<Column>, j: nat, tail: Segs)
    requires j < |cols| && AllFree(cols) && UpTo(tail, Key(0)) == tail
    ensures SegPieces(ColsS(cols, j, tail), Key(0))
      == [ChunkS(cols[j], Prepend("}\n", RestS(cols, j + 1, tail)))] + SegPieces(ColsS(cols, j + 1, tail), Key(0))
  {
    var rest := ColsS(cols, j + 1, tail);
    ChunkFound(cols, j, tail);
    ChunkCut(cols[j], rest);
    RestCut(cols, j + 1, tail);
    SameAfter(ChunkS(cols[j], Prepend("}\n", rest)), rest, Key(0));
  }

  /** A tail that ends the columns of an entity. */
  ghost predicate Ending(tail: Segs) {
    Plain(tail) && Quiet(tail) && UpTo(tail, Key(0)) == tail && After(tail, Key(0)) == None
  }

  lemma RestEnds(cols: seq<Column>, j: nat, tail: Segs)
    requires j <= |cols| && Ending(tail)
    ensures Plain(Prepend("}\n", RestS(cols, j, tail))) && Gap(Prepend("}\n", RestS(cols, j, tail)))
    ensures Quiet(Prepend("}\n", RestS(cols, j, tail)))
  {
    CommaPlain(j);
    PrependJoins("}\n", RestS(cols, j, tail));
    forall k: nat | k < KEYS
      ensures !Followed(Prepend("}\n", RestS(cols, j, tail)), Key(k), ":true")
    {
      PrependPass("}\n", RestS(cols, j, tail), Key(k), ":true");
    }
  }

  /** The columns read back: the maximal lengths are lost, everything else is kept. */
  function Erased(cols: seq<Column>): (r: seq<Column>)
    ensures |r| == |cols| && forall i :: 0 <= i < |r| ==> r[i] == cols[i].(maxLength := None)
  {
    if cols == [] then [] else [cols[0].(maxLength := None)] + Erased(cols[1..])
  }

  lemma ErasedFrom(cols: seq<Column>, j: nat)
    requires j < |cols|
    ensures Erased(cols[j..]) == [cols[j].(maxLength := None)] + Erased(cols[j + 1..])
  {
    assert cols[j..][1..] == cols[j + 1..];
  }

  lemma ReadFirst(chunk: string, chunks: seq<string>, c: Column)
    requires ParseColumn(chunk) == Some(c)
    ensures ColumnsOf([chunk] + chunks) == [c] + ColumnsOf(chunks)
  {
    assert ([chunk] + chunks)[1..] == chunks;
  }

  lemma {:induction false} ColsRead(cols: seq<Column>, j: nat, tail: Segs)
    requires j <= |cols| && AllFree(cols) && AllPlain(cols) && Ending(tail)
    ensures ColumnsOf(Texts(SegPieces(ColsS(cols, j, tail), Key(0)))) == Erased(cols[j..])
    decreases |cols| - j
  {
    if j < |cols| {
      var chunk := ChunkS(cols[j], Prepend("}\n", RestS(cols, j + 1, tail)));
      var more := SegPieces(ColsS(cols, j + 1, tail), Key(0));
      ColsPieces(cols, j, tail);
      TextsCons(chunk, more);
      RestEnds(cols, j + 1, tail);
      ColumnRead(cols[j], Prepend("}\n", RestS(cols, j + 1, tail)));
      ReadFirst(Join(chunk), Texts(more), cols[j].(maxLength := None));
      ColsRead(cols, j + 1, tail);
      ErasedFrom(cols, j);
    }
  }

  // ---------------------------------------------------------------------------
  // Entities
  // ---------------------------------------------------------------------------

  /** An entity's text from after its columns key. */
  function ListS(e: EntityType, tail: Segs): Segs {
    Prepend(": [\n", ColsS(e.columns, 0, Prepend("      ]\n    }\n", tail)))
  }

  /** An entity's text from after its table name key. */
  function BodyS(e: EntityType, tail: Segs): Segs {
    Prepend(": ", Lit(e.table, Prepend(",\n      ", Lit("columns", ListS(e, tail)))))
  }

  /** An entity's text before its table name key. */
  function HeadS(e: EntityType, i: nat, tail: Segs): Segs {
    Prepend(Comma(i) + "    {\n      ", Lit("type_name", Prepend(": ", Lit(e.typeName, Prepend(",\n      ", tail)))))
  }

  function EntitiesS(ets: seq<EntityType>, i: nat): Segs
    requires i <= |ets|
    decreases ets, |ets| - i
  {
    if i == |ets| then One("  ]\n}\n") else HeadS(ets[i], i, Lit("table_name", BodyS(ets[i], EntitiesS(ets, i + 1))))
  }

  /** The entities from the `i`-th on, cut before the next table name. */
  function CutS(ets: seq<EntityType>, i: nat): Segs
    requires i <= |ets|
  {
    if i == |ets| then One("  ]\n}\n") else HeadS(ets[i], i, One(""))
  }

  predicate AllEntitiesFree(ets: seq<EntityType>) {
    forall i :: 0 <= i < |ets| ==> EntityFree(ets[i])
  }

  predicate AllEntitiesPlain(ets: seq<EntityType>) {
    forall i :: 0 <= i < |ets| ==> EntityPlain(ets[i])
  }

  lemma HeadPass(e: EntityType, i: nat, tail: Segs, k: nat, t: string)
    requires EntityFree(e) && k < KEYS && k != 2
    ensures After(HeadS(e, i, tail), Key(k)) == After(tail, Key(k))
    ensures UpTo(HeadS(e, i, tail), Key(k)) == HeadS(e, i, UpTo(tail, Key(k)))
    ensures Followed(HeadS(e, i, tail), Key(k), t) == Followed(tail, Key(k), t)
  {
    KeysDiffer(2, k);
    var a := Prepend(",\n      ", tail);
    var b := Prepend(": ", Lit(e.typeName, a));
    PrependPass(",\n      ", tail, Key(k), t);
    LitPass(e.typeName, a, k, t);
    PrependPass(": ", Lit(e.typeName, a), Key(k), t);
    LitPass("type_name", b, k, t);
    PrependPass(Comma(i) + "    {\n      ", Lit("type_name", b), Key(k), t);
  }

  lemma BodyPass(e: EntityType, tail: Segs)
    requires EntityFree(e)
    ensures After(BodyS(e, tail), Key(TABLE_NAME)) == After(tail, Key(TABLE_NAME))
  {
    var end := Prepend("      ]\n    }\n", tail);
    PrependPass("      ]\n    }\n", tail, Key(TABLE_NAME), "");
    ColsPass(e.columns, 0, end, TABLE_NAME);
    PrependPass(": [\n", ColsS(e.columns, 0, end), Key(TABLE_NAME), "");
    BodyFront(e, ListS(e, tail), TABLE_NAME);
  }

  lemma BodyUpTo(e: EntityType, tail: Segs)
    requires EntityFree(e)
    ensures UpTo(BodyS(e, tail), Key(TABLE_NAME)) == BodyS(e, UpTo(tail, Key(TABLE_NAME)))
  {
    var end := Prepend("      ]\n    }\n", tail);
    PrependPass("      ]\n    }\n", tail, Key(TABLE_NAME), "");
    ColsUpTo(e.columns, 0, end, TABLE_NAME);
    PrependPass(": [\n", ColsS(e.columns, 0, end), Key(TABLE_NAME), "");
    BodyFront(e, ListS(e, tail), TABLE_NAME);
  }

  lemma BodyFront(e: EntityType, list: Segs, k: nat)
    requires EntityFree(e) && k < COLUMNS && Gap(list)
    ensures var g := Prepend(": ", Lit(e.table, Prepend(",\n      ", Lit("columns", list))));
      && After(g, Key(k)) == After(list, Key(k))
      && UpTo(g, Key(k)) == Prepend(": ", Lit(e.table, Prepend(",\n      ", Lit("columns", UpTo(list, Key(k))))))
  {
    KeysDiffer(COLUMNS, k);
    var a := Prepend(",\n      ", Lit("columns", list));
    LitPass("columns", list, k, "");
    PrependPass(",\n      ", Lit("columns", list), Key(k), "");
    LitPass(e.table, a, k, "");
    PrependPass(": ", Lit(e.table, a), Key(k), "");
  }

  lemma ListFound(e: EntityType, tail: Segs)
    requires EntityFree(e)
    ensures After(BodyS(e, tail), Key(COLUMNS)) == Some(ListS(e, tail))
  {
    var a := Prepend(",\n      ", Lit("columns", ListS(e, tail)));
    LitHit(ListS(e, tail), "columns");
    PrependPass(",\n      ", Lit("columns", ListS(e, tail)), "columns", "");
    LitPass(e.table, a, COLUMNS, "");
    PrependPass(": ", Lit(e.table, a), "columns", "");
  }

  lemma ListPlain(e: EntityType, tail: Segs)
    requires EntityPlain(e) && Plain(tail)
    ensures Plain(ListS(e, tail))
  {
    CommaPlain(0);
    PrependJoins("      ]\n    }\n", tail);
    ColsPlain(e.columns, 0, Prepend("      ]\n    }\n", tail));
    PrependJoins(": [\n", ColsS(e.columns, 0, Prepend("      ]\n    }\n", tail)));
  }

  lemma BodyPlain(e: EntityType, tail: Segs)
    requires EntityPlain(e) && Plain(tail)
    ensures Plain(BodyS(e, tail))
  {
    ListPlain(e, tail);
    LitJoins("columns", ListS(e, tail));
    PrependJoins(",\n      ", Lit("columns", ListS(e, tail)));
    LitJoins(e.table, Prepend(",\n      ", Lit("columns", ListS(e, tail))));
    PrependJoins(": ", Lit(e.table, Prepend(",\n      ", Lit("columns", ListS(e, tail)))));
  }

  lemma HeadPlain(e: EntityType, i: nat, tail: Segs)
    requires Clean(e.typeName) && Plain(tail)
    ensures Plain(HeadS(e, i, tail))
  {
    CommaPlain(i);
    var a := Prepend(",\n      ", tail);
    var b := Prepend(": ", Lit(e.typeName, a));
    PrependJoins(",\n      ", tail);
    LitJoins(e.typeName, a);
    PrependJoins(": ", Lit(e.typeName, a));
    LitJoins("type_name", b);
    PrependJoins(Comma(i) + "    {\n      ", Lit("type_name", b));
  }

  lemma {:induction false} EntitiesPlain(ets: seq<EntityType>, i: nat)
    requires i <= |ets| && AllEntitiesFree(ets) && AllEntitiesPlain(ets)
    ensures Plain(EntitiesS(ets, i))
    decreases |ets| - i
  {
    if i < |ets| {
      var body := BodyS(ets[i], EntitiesS(ets, i + 1));
      EntitiesPlain(ets, i + 1);
      BodyPlain(ets[i], EntitiesS(ets, i + 1));
      LitJoins("table_name", body);
      HeadPlain(ets[i], i, Lit("table_name", body));
    }
  }

  lemma {:induction false} FoundAt(t: string, needle: string, p: nat)
    requires Find(t, needle, p).Some?
    ensures At(t, Find(t, needle, p).value, needle)
    decreases |t| - p
  {
    if !At(t, p, needle) { FoundAt(t, needle, p + 1); }
  }

  lemma CutAt(t: string, p: nat, needle: string, after: string)
    requires At(t, p, needle) && t[p + |needle|..] == after
    ensures t[p..] == needle + after
  {
    assert t[p..] == t[p..p + |needle|] + t[p + |needle|..];
  }

  /** From a quoted key on. */
  lemma FromText(g: Segs, key: string, rest: Segs)
    requires Plain(g) && NoQuote(key) && After(g, key) == Some(rest)
    ensures TextFrom(Join(g), Quoted(key)) == Some(Join(Lit(key, rest)))
  {
    FindKey(g, key);
    LitJoins(key, rest);
    FoundAt(Join(g), Quoted(key), 0);
    CutAt(Join(g), Position(g, key), Quoted(key), Join(rest));
  }

  lemma LitPieces(key: string, rest: Segs, k: nat)
    requires k < KEYS && key != Key(k) && Gap(rest)
    ensures SegPieces(Lit(key, rest), Key(k)) == SegPieces(rest, Key(k))
  {
    LitPass(key, rest, k, "");
    SameAfter(Lit(key, rest), rest, Key(k));
  }

  /** What ends an entity's columns in a block: its own end, then the next entity's type name or the
      end of the file. */
  ghost predicate Trailing(tail: Segs) {
    Ending(Prepend("      ]\n    }\n", tail))
  }

  lemma ColumnsRead(e: EntityType, tail: Segs)
    requires EntityFree(e) && EntityPlain(e) && Trailing(tail)
    ensures ColumnsOf(Pieces(Join(Lit("columns", ListS(e, tail))), Quoted(Key(0)))) == Erased(e.columns)
  {
    var end := Prepend("      ]\n    }\n", tail);
    var g := Lit("columns", ListS(e, tail));
    ColsPlain(e.columns, 0, end);
    PrependJoins(": [\n", ColsS(e.columns, 0, end));
    LitJoins("columns", ListS(e, tail));
    PiecesAgree(g, Key(0));
    LitPieces("columns", ListS(e, tail), 0);
    PrependPass(": [\n", ColsS(e.columns, 0, end), Key(0), "");
    SameAfter(ListS(e, tail), ColsS(e.columns, 0, end), Key(0));
    ColsRead(e.columns, 0, end);
    assert e.columns[0..] == e.columns;
  }

  lemma TableRead(e: EntityType, tail: Segs)
    requires NoQuote(e.table)
    ensures QuotedAfterColon(Join(BodyS(e, tail))) == Some(e.table)
  {
    assert ":" + " " == ": ";
    ReadsValue(e.table, Prepend(",\n      ", Lit("columns", ListS(e, tail))), " ");
  }

  /** The entity read back: none when its table name is empty. */
  function Kept(e: EntityType): seq<EntityType> {
    if e.table == "" then [] else [EntityType(e.table, e.table, Erased(e.columns))]
  }

  lemma TrailingPlain(tail: Segs)
    requires Trailing(tail)
    ensures Plain(tail)
  {
    var p := "      ]\n    }\n";
    assert forall i :: 0 <= i < |tail.s| ==> tail.s[i] == (p + tail.s)[|p| + i];
  }

  lemma BlockRead(e: EntityType, tail: Segs)
    requires EntityFree(e) && EntityPlain(e) && Trailing(tail)
    ensures EntityOf(Join(BodyS(e, tail))) == Kept(e)
  {
    TrailingPlain(tail);
    TableRead(e, tail);
    BodyPlain(e, tail);
    ListFound(e, tail);
    FromText(BodyS(e, tail), "columns", ListS(e, tail));
    ColumnsRead(e, tail);
  }

  lemma HeadQuiet(e: EntityType, i: nat, k: nat)
    requires EntityFree(e) && k < KEYS
    ensures !Followed(HeadS(e, i, One("")), Key(k), ":true")
  {
    var a := Prepend(",\n      ", One(""));
    var b := Prepend(": ", Lit(e.typeName, a));
    if k == 2 {
      LitPass(e.typeName, a, k, ":true");
      PrependPass(": ", Lit(e.typeName, a), Key(k), ":true");
      GapPass(b, k, ":true");
      assert b.s[1] == ' ' && ":true"[1] == 't';
      PrependPass(Comma(i) + "    {\n      ", Lit("type_name", b), Key(k), ":true");
    } else {
      HeadPass(e, i, One(""), k, ":true");
    }
  }

  lemma CutTrails(ets: seq<EntityType>, i: nat)
    requires i <= |ets| && AllEntitiesFree(ets)
    ensures Trailing(CutS(ets, i))
  {
    var p, cut := "      ]\n    }\n", CutS(ets, i);
    if i < |ets| {
      HeadPlain(ets[i], i, One(""));
      HeadPass(ets[i], i, One(""), 0, "");
    }
    CommaPlain(i);
    PrependJoins(p, cut);
    PrependPass(p, cut, Key(0), "");
    forall k: nat | k < KEYS
      ensures !Followed(Prepend(p, cut), Key(k), ":true")
    {
      if i < |ets| { HeadQuiet(ets[i], i, k); }
      PrependPass(p, cut, Key(k), ":true");
    }
  }

  lemma BodyFound(ets: seq<EntityType>, i: nat)
    requires i < |ets| && AllEntitiesFree(ets)
    ensures After(EntitiesS(ets, i), Key(TABLE_NAME)) == Some(BodyS(ets[i], EntitiesS(ets, i + 1)))
  {
    var body := BodyS(ets[i], EntitiesS(ets, i + 1));
    HeadPass(ets[i], i, Lit("table_name", body), TABLE_NAME, "");
    LitHit(body, "table_name");
  }

  lemma EntitiesCut(ets: seq<EntityType>, i: nat)
    requires i <= |ets| && AllEntitiesFree(ets)
    ensures UpTo(EntitiesS(ets, i), Key(TABLE_NAME)) == CutS(ets, i)
  {
    if i < |ets| {
      var body := BodyS(ets[i], EntitiesS(ets, i + 1));
      HeadPass(ets[i], i, Lit("table_name", body), TABLE_NAME, "");
      LitHit(body, "table_name");
    }
  }

  lemma EntitiesPieces(ets: seq<EntityType>, i: nat)
    requires i < |ets| && AllEntitiesFree(ets)
    ensures SegPieces(EntitiesS(ets, i), Key(TABLE_NAME))
      == [BodyS(ets[i], CutS(ets, i + 1))] + SegPieces(EntitiesS(ets, i + 1), Key(TABLE_NAME))
  {
    var rest := EntitiesS(ets, i + 1);
    BodyFound(ets, i);
    BodyUpTo(ets[i], rest);
    BodyPass(ets[i], rest);
    EntitiesCut(ets, i + 1);
    SameAfter(BodyS(ets[i], rest), rest, Key(TABLE_NAME));
  }

  /** The entities read back. */
  function AllKept(ets: seq<EntityType>): seq<EntityType> {
    if ets == [] then [] else Kept(ets[0]) + AllKept(ets[1..])
  }

  lemma BlocksCons(block: string, blocks: seq<string>)
    ensures EntitiesOf([block] + blocks) == EntityOf(block) + EntitiesOf(blocks)
  {
    assert ([block] + blocks)[1..] == blocks;
  }

  lemma {:induction false} EntitiesRead(ets: seq<EntityType>, i: nat)
    requires i <= |ets| && AllEntitiesFree(ets) && AllEntitiesPlain(ets)
    ensures EntitiesOf(Texts(SegPieces(EntitiesS(ets, i), Key(TABLE_NAME)))) == AllKept(ets[i..])
    decreases |ets| - i
  {
    if i < |ets| {
      var body := BodyS(ets[i], CutS(ets, i + 1));
      var more := SegPieces(EntitiesS(ets, i + 1), Key(TABLE_NAME));
      EntitiesPieces(ets, i);
      TextsCons(body, more);
      CutTrails(ets, i + 1);
      BlockRead(ets[i], CutS(ets, i + 1));
      BlocksCons(Join(body), Texts(more));
      EntitiesRead(ets, i + 1);
      assert ets[i..][1..] == ets[i + 1..];
    }
  }

  // ---------------------------------------------------------------------------
  // The whole file
  // ---------------------------------------------------------------------------

  function FileS(s: Snapshot): Segs {
    TwoKeys("{\n  ", "migration_id", ": ", s.migrationId, ",\n  ", "entity_types", ": [\n", EntitiesS(s.entities, 0))
  }

  lemma EscapePlain(v: string)
    requires NoQuote(v)
    ensures Escape(v) == v
  {
    if v != "" {
      EscapePlain(v[1..]);
      assert [v[0]] + v[1..] == v;
    }
  }

  /** A literal and the gap after it. */
  lemma ItemText(v: string, p: string, g: Segs)
    requires NoQuote(v)
    ensures Join(Lit(v, Prepend(p, g))) == Literal(v) + (p + Join(g))
    ensures Join(Lit(v, Prepend(p, g))) == Quoted(v) + (p + Join(g))
  {
    EscapePlain(v);
    PrependJoins(p, g);
    LitJoins(v, Prepend(p, g));
  }

  lemma ValueJoins(c: Column, i: nat, h: Segs)
    requires i < FIELDS && ColumnPlain(c)
    ensures Join(ValueS(Val(c, i), h)) == ValueText(Val(c, i)) + Join(h)
  {
    match Val(c, i)
    case Text(v) => ValPlain(c, i); EscapePlain(v); LitJoins(v, h);
    case Bare(b) => PrependJoins(b, h);
  }

  lemma FieldJoins(c: Column, i: nat, h: Segs)
    requires i < FIELDS && ColumnPlain(c)
    ensures Join(FieldS(c, i, h)) == Quoted(Key(i)) + (":" + (ValueText(Val(c, i)) + Join(h)))
  {
    ValueJoins(c, i, h);
    KeyShape(i);
    ItemText(Key(i), ":", ValueS(Val(c, i), h));
  }

  lemma Regroup(a: string, b: string, c: string, d: string, e: string)
    ensures a + (b + (c + (d + e))) == (a + (b + (c + d))) + e
  {
    Assoc(c, d, e);
    Assoc(b, c + d, e);
    Assoc(a, b + (c + d), e);
  }

  function FollowingText(c: Column, i: nat): string
    requires i < FIELDS
  {
    if i == FIELDS - 1 then "" else "," + FieldsText(c, i + 1)
  }

  lemma FieldsTextNext(c: Column, i: nat)
    requires i < FIELDS
    ensures FieldsText(c, i) == Quoted(Key(i)) + (":" + (ValueText(Val(c, i)) + FollowingText(c, i)))
  {
  }

  lemma NextJoins(c: Column, i: nat, tail: Segs)
    requires i < FIELDS
    requires i < FIELDS - 1 ==> Join(FieldsS(c, i + 1, tail)) == FieldsText(c, i + 1) + Join(tail)
    ensures Join(Next(c, i, tail)) == FollowingText(c, i) + Join(tail)
  {
    if i == FIELDS - 1 {
      assert "" + Join(tail) == Join(tail);
    } else {
      PrependJoins(",", FieldsS(c, i + 1, tail));
      Assoc(",", FieldsText(c, i + 1), Join(tail));
    }
  }

  lemma FieldsJoinStep(c: Column, i: nat, tail: Segs)
    requires i < FIELDS && ColumnPlain(c) && Join(Next(c, i, tail)) == FollowingText(c, i) + Join(tail)
    ensures Join(FieldsS(c, i, tail)) == FieldsText(c, i) + Join(tail)
  {
    FieldsNext(c, i, tail);
    FieldJoins(c, i, Next(c, i, tail));
    FieldsTextNext(c, i);
    Regroup(Quoted(Key(i)), ":", ValueText(Val(c, i)), FollowingText(c, i), Join(tail));
  }

  /** The fields as segments are the printed fields. */
  lemma {:induction false} FieldsJoin(c: Column, i: nat, tail: Segs)
    requires i < FIELDS && ColumnPlain(c)
    ensures Join(FieldsS(c, i, tail)) == FieldsText(c, i) + Join(tail)
    decreases FIELDS - i
  {
    if i < FIELDS - 1 { FieldsJoin(c, i + 1, tail); }
    NextJoins(c, i, tail);
    FieldsJoinStep(c, i, tail);
  }

  lemma RowJoins(cols: seq<Column>, j: nat, rest: Segs)
    requires j < |cols| && ColumnPlain(cols[j])
    ensures Join(Prepend(Comma(j) + "        {", RowS(cols[j], rest))) == ColumnText(cols, j) + Join(rest)
  {
    var front, fields := Comma(j) + "        {", FieldsText(cols[j], 0);
    PrependJoins("}\n", rest);
    FieldsJoin(cols[j], 0, Prepend("}\n", rest));
    PrependJoins(front, RowS(cols[j], rest));
    Assoc(fields, "}\n", Join(rest));
    Assoc(front, fields + "}\n", Join(rest));
  }

  lemma {:induction false} ColsJoin(cols: seq<Column>, j: nat, tail: Segs)
    requires j <= |cols| && AllPlain(cols)
    ensures ColumnsText(cols, j) + Join(ColsS(cols, j, tail)) == ColumnsText(cols, |cols|) + Join(tail)
    decreases |cols| - j
  {
    if j < |cols| {
      var rest := ColsS(cols, j + 1, tail);
      RowJoins(cols, j, rest);
      Assoc(ColumnsText(cols, j), ColumnText(cols, j), Join(rest));
      ColsJoin(cols, j + 1, tail);
    }
  }

  lemma AppendInside(a: string, b: string, c: string, d: string, r: string, x: string)
    ensures a + (b + (c + (d + (r + x)))) == (a + (b + (c + (d + r)))) + x
  {
    Assoc(d, r, x);
    Regroup(a, b, c, d + r, x);
    Assoc(c, d + r, x);
  }

  /** An entity's head from the table name on. */
  function TableText(e: EntityType): string {
    Quoted("table_name") + (": " + (Literal(e.table) + (",\n      " + (Quoted("columns") + ": [\n"))))
  }

  lemma TableJoins(e: EntityType, tail: Segs)
    requires EntityPlain(e)
    ensures Join(Lit("table_name", BodyS(e, tail)))
      == TableText(e) + Join(ColsS(e.columns, 0, Prepend("      ]\n    }\n", tail)))
  {
    var cols := ColsS(e.columns, 0, Prepend("      ]\n    }\n", tail));
    ItemText("columns", ": [\n", cols);
    ItemText(e.table, ",\n      ", Lit("columns", ListS(e, tail)));
    ItemText("table_name", ": ", Lit(e.table, Prepend(",\n      ", Lit("columns", ListS(e, tail)))));
    Assoc(Quoted("columns"), ": [\n", Join(cols));
    AppendInside(Quoted("table_name"), ": ", Literal(e.table), ",\n      ", Quoted("columns") + ": [\n", Join(cols));
  }

  lemma HeadJoins(e: EntityType, i: nat, tail: Segs)
    requires NoQuote(e.typeName)
    ensures Join(HeadS(e, i, tail)) == (Comma(i) + "    {\n      ")
      + (Quoted("type_name") + (": " + (Literal(e.typeName) + (",\n      " + Join(tail)))))
  {
    var name := Lit(e.typeName, Prepend(",\n      ", tail));
    ItemText(e.typeName, ",\n      ", tail);
    ItemText("type_name", ": ", name);
    PrependJoins(Comma(i) + "    {\n      ", Lit("type_name", Prepend(": ", name)));
  }

  lemma HeadTextParts(e: EntityType, i: nat)
    ensures HeadText(e, i) == (Comma(i) + "    {\n      ")
      + (Quoted("type_name") + (": " + (Literal(e.typeName) + (",\n      " + TableText(e)))))
  {
  }

  lemma FrontJoins(e: EntityType, i: nat, tail: Segs)
    requires EntityPlain(e) && NoQuote(e.typeName)
    ensures Join(HeadS(e, i, Lit("table_name", BodyS(e, tail))))
      == HeadText(e, i) + Join(ColsS(e.columns, 0, Prepend("      ]\n    }\n", tail)))
  {
    var cols := Join(ColsS(e.columns, 0, Prepend("      ]\n    }\n", tail)));
    var lead := Quoted("type_name") + (": " + (Literal(e.typeName) + (",\n      " + TableText(e))));
    TableJoins(e, tail);
    HeadJoins(e, i, Lit("table_name", BodyS(e, tail)));
    HeadTextParts(e, i);
    AppendInside(Quoted("type_name"), ": ", Literal(e.typeName), ",\n      ", TableText(e), cols);
    Assoc(Comma(i) + "    {\n      ", lead, cols);
  }

  lemma EntityJoins(ets: seq<EntityType>, i: nat, rest: Segs)
    requires i < |ets| && EntityPlain(ets[i]) && NoQuote(ets[i].typeName)
    ensures Join(HeadS(ets[i], i, Lit("table_name", BodyS(ets[i], rest)))) == EntityText(ets, i) + Join(rest)
  {
    var e, end := ets[i], "      ]\n    }\n";
    var columns := ColumnsText(e.columns, |e.columns|);
    FrontJoins(e, i, rest);
    ColsJoin(e.columns, 0, Prepend(end, rest));
    PrependJoins(end, rest);
    assert "" + Join(ColsS(e.columns, 0, Prepend(end, rest))) == Join(ColsS(e.columns, 0, Prepend(end, rest)));
    Assoc(columns, end, Join(rest));
    Assoc(HeadText(e, i), columns + end, Join(rest));
  }

  /** The text of the entities and the end of the file, the first `i` of them already printed. */
  function PrintedFrom(ets: seq<EntityType>, i: nat): Option<string>
    requires i <= |ets|
  {
    Some(EntitiesText(ets, i) + Join(EntitiesS(ets, i)))
  }

  predicate Printable(e: EntityType) {
    EntityPlain(e) && NoQuote(e.typeName)
  }

  predicate AllPrintable(ets: seq<EntityType>) {
    forall i :: 0 <= i < |ets| ==> Printable(ets[i])
  }

  lemma PrintedStep(ets: seq<EntityType>, i: nat)
    requires i < |ets| && Printable(ets[i])
    ensures PrintedFrom(ets, i) == PrintedFrom(ets, i + 1)
  {
    var rest := EntitiesS(ets, i + 1);
    EntityJoins(ets, i, rest);
    Assoc(EntitiesText(ets, i), EntityText(ets, i), Join(rest));
    assert EntitiesText(ets, i) + Join(EntitiesS(ets, i)) == EntitiesText(ets, i + 1) + Join(rest);
  }

  lemma {:induction false} PrintedSame(ets: seq<EntityType>, i: nat)
    requires i <= |ets| && AllPrintable(ets)
    ensures PrintedFrom(ets, i) == PrintedFrom(ets, |ets|)
    decreases |ets| - i
  {
    hide PrintedFrom;
    if i < |ets| {
      PrintedSame(ets, i + 1);
      PrintedStep(ets, i);
    }
  }

  lemma EntitiesJoin(ets: seq<EntityType>)
    requires AllPrintable(ets)
    ensures Join(EntitiesS(ets, 0)) == EntitiesText(ets, |ets|) + "  ]\n}\n"
  {
    PrintedSame(ets, 0);
    assert PrintedFrom(ets, 0) == Some("" + Join(EntitiesS(ets, 0)));
  }

  /** A key with its value and a second key, as at the start of the file. */
  function TwoKeys(p: string, key: string, colon: string, v: string, gap: string, next: string, open: string,
                   g: Segs): Segs {
    Prepend(p, Lit(key, Prepend(colon, Lit(v, Prepend(gap, Lit(next, Prepend(open, g)))))))
  }

  lemma TwoKeysText(p: string, key: string, colon: string, v: string, gap: string, next: string, open: string, g: Segs)
    requires NoQuote(key) && NoQuote(v) && NoQuote(next)
    ensures Join(TwoKeys(p, key, colon, v, gap, next, open, g))
      == p + (Quoted(key) + (colon + (Literal(v) + (gap + (Quoted(next) + (open + Join(g)))))))
  {
    var second := Lit(next, Prepend(open, g));
    var first := Lit(v, Prepend(gap, second));
    ItemText(next, open, g);
    ItemText(v, gap, second);
    ItemText(key, colon, first);
    PrependJoins(p, Lit(key, Prepend(colon, first)));
  }

  lemma ItemPlain(v: string, p: string, g: Segs)
    requires NoQuote(v) && NoQuote(p) && Plain(g)
    ensures Plain(Lit(v, Prepend(p, g)))
  {
    PrependJoins(p, g);
    LitJoins(v, Prepend(p, g));
  }

  lemma TwoKeysPlain(p: string, key: string, colon: string, v: string, gap: string, next: string, open: string, g: Segs)
    requires NoQuote(p) && NoQuote(key) && NoQuote(colon) && NoQuote(v) && NoQuote(gap) && NoQuote(next)
    requires NoQuote(open) && Plain(g)
    ensures Plain(TwoKeys(p, key, colon, v, gap, next, open, g))
  {
    var second := Lit(next, Prepend(open, g));
    var first := Lit(v, Prepend(gap, second));
    ItemPlain(next, open, g);
    ItemPlain(v, gap, second);
    ItemPlain(key, colon, first);
    PrependJoins(p, Lit(key, Prepend(colon, first)));
  }

  lemma AppendSeven(p: string, a: string, b: string, c: string, d: string, e: string, f: string, x: string)
    ensures p + (a + (b + (c + (d + (e + (f + x)))))) == (p + (a + (b + (c + (d + (e + f)))))) + x
  {
    Assoc(e, f, x);
    AppendInside(a, b, c, d, e + f, x);
    Assoc(p, a + (b + (c + (d + (e + f)))), x);
  }

  lemma FrontOfFile(s: Snapshot)
    requires NoQuote(s.migrationId)
    ensures Join(FileS(s)) == OpeningText(s.migrationId) + Join(EntitiesS(s.entities, 0))
  {
    var list := EntitiesS(s.entities, 0);
    TwoKeysText("{\n  ", "migration_id", ": ", s.migrationId, ",\n  ", "entity_types", ": [\n", list);
    AppendSeven("{\n  ", Quoted("migration_id"), ": ", Literal(s.migrationId), ",\n  ", Quoted("entity_types"),
                  ": [\n", Join(list));
  }

  /** The file as segments is the printed file. */
  lemma FileJoins(s: Snapshot)
    requires SnapshotFree(s) && SnapshotPlain(s)
    ensures Join(FileS(s)) == FileText(s)
  {
    FrontOfFile(s);
    EntitiesJoin(s.entities);
  }

  lemma FilePlain(s: Snapshot)
    requires SnapshotFree(s) && SnapshotPlain(s)
    ensures Plain(FileS(s))
  {
    hide Plain, TwoKeys, EntitiesS, AllEntitiesFree, AllEntitiesPlain;
    EntitiesPlain(s.entities, 0);
    TwoKeysPlain("{\n  ", "migration_id", ": ", s.migrationId, ",\n  ", "entity_types",
                   ": [\n", EntitiesS(s.entities, 0));
  }

  lemma TypesFound(s: Snapshot)
    requires SnapshotFree(s)
    ensures After(FileS(s), Key(ENTITY_TYPES)) == Some(Prepend(": [\n", EntitiesS(s.entities, 0)))
  {
    hide EntitiesS, After, UpTo, Followed;
    var types := Prepend(": [\n", EntitiesS(s.entities, 0));
    var id := Prepend(",\n  ", Lit("entity_types", types));
    LitHit(types, "entity_types");
    PrependPass(",\n  ", Lit("entity_types", types), "entity_types", "");
    LitPass(s.migrationId, id, ENTITY_TYPES, "");
    PrependPass(": ", Lit(s.migrationId, id), "entity_types", "");
    KeysDiffer(MIGRATION_ID, ENTITY_TYPES);
    LitPass("migration_id", Prepend(": ", Lit(s.migrationId, id)), ENTITY_TYPES, "");
    PrependPass("{\n  ", Lit("migration_id", Prepend(": ", Lit(s.migrationId, id))), "entity_types", "");
  }

  /** Splitting a keyed text splits what follows the key. */
  lemma ItemPieces(v: string, p: string, g: Segs, k: nat)
    requires k < KEYS && NoQuote(v) && v != Key(k) && NoQuote(p) && Plain(g) && Gap(Prepend(p, g))
    ensures Pieces(Join(Lit(v, Prepend(p, g))), Quoted(Key(k))) == Texts(SegPieces(g, Key(k)))
  {
    ItemPlain(v, p, g);
    KeyShape(k);
    PiecesAgree(Lit(v, Prepend(p, g)), Key(k));
    LitPieces(v, Prepend(p, g), k);
    PrependPass(p, g, Key(k), "");
    SameAfter(Prepend(p, g), g, Key(k));
  }

  lemma ReadFrom(t: string, rest: string)
    requires TextFrom(t, Quoted("entity_types")) == Some(rest)
    ensures ReadEntities(t) == EntitiesOf(Pieces(rest, Quoted("table_name")))
  {
  }

  lemma ListPieces(list: Segs)
    requires Plain(list)
    ensures Pieces(Join(Lit("entity_types", Prepend(": [\n", list))), Quoted("table_name"))
      == Texts(SegPieces(list, Key(TABLE_NAME)))
  {
    hide Pieces, SegPieces, Join;
    KeysDiffer(ENTITY_TYPES, TABLE_NAME);
    ItemPieces("entity_types", ": [\n", list, TABLE_NAME);
  }

  lemma FileEntities(s: Snapshot)
    requires SnapshotFree(s) && SnapshotPlain(s)
    ensures ReadEntities(Join(FileS(s))) == AllKept(s.entities)
  {
    FilePlain(s);
    TypesFound(s);
    FromText(FileS(s), "entity_types", Prepend(": [\n", EntitiesS(s.entities, 0)));
    ReadFrom(Join(FileS(s)), Join(Lit("entity_types", Prepend(": [\n", EntitiesS(s.entities, 0)))));
    EntitiesPlain(s.entities, 0);
    ListPieces(EntitiesS(s.entities, 0));
    EntitiesRead(s.entities, 0);
    assert s.entities[0..] == s.entities;
  }

  lemma FileId(s: Snapshot)
    requires SnapshotFree(s) && SnapshotPlain(s)
    ensures JsonString(Join(FileS(s)), "migration_id") == Some(s.migrationId)
  {
    var id := Prepend(",\n  ", Lit("entity_types", Prepend(": [\n", EntitiesS(s.entities, 0))));
    FilePlain(s);
    AfterText(FileS(s), "migration_id");
    LitHit(Prepend(": ", Lit(s.migrationId, id)), "migration_id");
    PrependPass("{\n  ", Lit("migration_id", Prepend(": ", Lit(s.migrationId, id))), "migration_id", "");
    assert ":" + " " == ": ";
    ReadsValue(s.migrationId, id, " ");
  }

  /** Reading a printed snapshot whose names hold no quote and are no keys: the entities with a table
      name come back, their type names replaced by it and the maximal lengths lost; nothing comes back
      when there is none. */
  lemma FileRead(s: Snapshot)
    requires SnapshotFree(s) && SnapshotPlain(s)
    ensures Read(FileText(s))
         == if AllKept(s.entities) == [] then None else Some(Snapshot(s.migrationId, AllKept(s.entities)))
  {
    FileJoins(s);
    FileEntities(s);
    FileId(s);
  }

  // ---------------------------------------------------------------------------
  // When the round trip holds
  // ---------------------------------------------------------------------------

  /** The snapshot as it should come back. */
  function Renamed(ets: seq<EntityType>): (r: seq<EntityType>)
    ensures |r| == |ets|
    ensures forall i :: 0 <= i < |r| ==> r[i] == EntityType(ets[i].table, ets[i].table, Erased(ets[i].columns))
  {
    if ets == [] then [] else [EntityType(ets[0].table, ets[0].table, Erased(ets[0].columns))] + Renamed(ets[1..])
  }

  predicate AllNamed(ets: seq<EntityType>) {
    forall i :: 0 <= i < |ets| ==> ets[i].table != ""
  }

  lemma {:induction false} NamedKept(ets: seq<EntityType>)
    requires AllNamed(ets)
    ensures AllKept(ets) == Renamed(ets)
  {
    if ets != [] { NamedKept(ets[1..]); }
  }

  lemma LiteralPlain(t: string)
    ensures LeadingLiteral(t).Some? ==> NoQuote(LeadingLiteral(t).value)
  {
    if t != "" && t[0] == Q { UpToQuote(t[1..], 0); }
  }

  lemma {:induction false} UpToQuote(t: string, p: nat)
    ensures var r := Find(t, [Q], p); r.Some? ==> forall i :: p <= i < r.value ==> t[i] != Q
    decreases |t| - p
  {
    if p < |t| && !At(t, p, [Q]) {
      assert t[p..p + 1] == [t[p]];
      UpToQuote(t, p + 1);
    }
  }

  /** Whatever is read as a string holds no quote. */
  lemma ColonPlain(t: string)
    ensures QuotedAfterColon(t).Some? ==> NoQuote(QuotedAfterColon(t).value)
  {
    match Find(t, ":", 0)
    case None =>
    case Some(colon) => LiteralPlain(TrimStart(t[colon + 1..], 0));
  }

  lemma JsonPlain(t: string, key: string)
    ensures OptionPlain(JsonString(t, key))
  {
    match TextAfter(t, Quoted(key))
    case None =>
    case Some(rest) => ColonPlain(rest);
  }

  lemma ParsedPlain(t: string)
    ensures ParseColumn(t).Some? ==> ColumnPlain(ParseColumn(t).value)
  {
    ColonPlain(t);
    JsonPlain(t, "column_name");
    JsonPlain(t, "type_name");
    JsonPlain(t, "sequence_name");
    JsonPlain(t, "fk_referenced_table");
    JsonPlain(t, "fk_referenced_column");
    JsonPlain(t, "fk_on_delete");
  }

  lemma {:induction false} ColumnsPlain(chunks: seq<string>)
    ensures AllPlain(ColumnsOf(chunks))
  {
    if chunks != [] {
      ParsedPlain(chunks[0]);
      ColumnsPlain(chunks[1..]);
    }
  }

  predicate NamedAndPlain(e: EntityType) {
    e.table != "" && EntityPlain(e)
  }

  predicate AllNamedAndPlain(ets: seq<EntityType>) {
    forall i :: 0 <= i < |ets| ==> NamedAndPlain(ets[i])
  }

  lemma BlockNamed(block: string)
    ensures AllNamedAndPlain(EntityOf(block))
  {
    ColonPlain(block);
    match TextFrom(block, Quoted("columns"))
    case None =>
    case Some(rest) => ColumnsPlain(Pieces(rest, Quoted("field_name")));
  }

  lemma {:induction false} BlocksNamed(blocks: seq<string>)
    ensures AllNamedAndPlain(EntitiesOf(blocks))
  {
    if blocks != [] {
      BlockNamed(blocks[0]);
      BlocksNamed(blocks[1..]);
    }
  }

  /** Whatever is read has entities, all with a table name, and no quote in any name. */
  lemma ReadNamed(t: string)
    ensures var r := Read(t);
      r.Some? ==> r.value.entities != [] && NoQuote(r.value.migrationId) && AllNamedAndPlain(r.value.entities)
  {
    JsonPlain(t, "migration_id");
    match TextFrom(t, Quoted("entity_types"))
    case None =>
    case Some(rest) => BlocksNamed(Pieces(rest, Quoted("table_name")));
  }

  lemma ErasedPlain(cols: seq<Column>)
    requires AllPlain(Erased(cols))
    ensures AllPlain(cols)
  {
    forall j | 0 <= j < |cols|
      ensures ColumnPlain(cols[j])
    {
      assert ColumnPlain(Erased(cols)[j]);
    }
  }

  lemma RenamedPlain(ets: seq<EntityType>)
    requires AllNamedAndPlain(Renamed(ets))
    ensures AllNamed(ets) && AllEntitiesPlain(ets)
  {
    forall i | 0 <= i < |ets|
      ensures ets[i].table != "" && EntityPlain(ets[i])
    {
      assert NamedAndPlain(Renamed(ets)[i]);
      ErasedPlain(ets[i].columns);
    }
  }

  /** Among snapshots whose names are no keys, exactly those survive the round trip that have entities,
      all with a table name, and no quote in any name. */
  lemma RoundTrip(s: Snapshot)
    requires SnapshotFree(s)
    ensures Read(FileText(s)) == Some(Snapshot(s.migrationId, Renamed(s.entities)))
      <==> s.entities != [] && AllNamed(s.entities) && SnapshotPlain(s)
  {
    if Read(FileText(s)) == Some(Snapshot(s.migrationId, Renamed(s.entities))) {
      ReadNamed(FileText(s));
      RenamedPlain(s.entities);
    }
    if s.entities != [] && AllNamed(s.entities) && SnapshotPlain(s) {
      FileRead(s);
      NamedKept(s.entities);
    }
  }
}
