/** What reading a printed snapshot gives back. */
module SnapshotRoundTrip {
  import opened Wrappers
  import opened MigrationSchema
  import opened SnapshotText
  import opened SnapshotIo

  // ---------------------------------------------------------------------------
  // Keys
  // ---------------------------------------------------------------------------

  predicate KeyShaped(k: string) {
    k != "" && 'a' <= k[0] <= 'z' && NoQuote(k)
  }

  lemma FieldKeyShape(i: nat)
    requires i < 8
    ensures KeyShaped(Key(i))
  {
  }

  lemma LaterKeyShape(i: nat)
    requires 8 <= i < KEYS
    ensures KeyShaped(Key(i))
  {
  }

  lemma KeyShape(i: nat)
    requires i < KEYS
    ensures KeyShaped(Key(i))
  {
    if i < 8 { FieldKeyShape(i); } else { LaterKeyShape(i); }
  }

  lemma KeysDiffer(i: nat, k: nat)
    requires i < KEYS && k < KEYS && i != k
    ensures Key(i) != Key(k)
  {
    if |Key(i)| == |Key(k)| {
      assert Key(i)[0] != Key(k)[0] || Key(i)[3] != Key(k)[3];
    }
  }

  /** Text between literals never starts like a key. */
  predicate Gap(g: Segs) {
    g.s != "" && !('a' <= g.s[0] <= 'z')
  }

  // ---------------------------------------------------------------------------
  // Passing over a literal
  // ---------------------------------------------------------------------------

  lemma GapPass(h: Segs, k: nat, t: string)
    requires k < KEYS && Gap(h)
    ensures AfterQ(h, Key(k)) == After(h, Key(k)) && FollowedQ(h, Key(k), t) == Followed(h, Key(k), t) && h.s != Key(k)
  {
    KeyShape(k);
  }

  lemma LitPass(v: string, h: Segs, k: nat, t: string)
    requires k < KEYS && v != Key(k) && Gap(h)
    ensures After(Lit(v, h), Key(k)) == After(h, Key(k))
    ensures UpTo(Lit(v, h), Key(k)) == Lit(v, UpTo(h, Key(k)))
    ensures Followed(Lit(v, h), Key(k), t) == Followed(h, Key(k), t)
  {
    GapPass(h, k, t);
    assert AfterQ(More(v, h), Key(k)) == AfterQ(h, Key(k));
    assert FollowedQ(More(v, h), Key(k), t) == FollowedQ(h, Key(k), t);
  }

  lemma LitHit(h: Segs, key: string)
    ensures After(Lit(key, h), key) == Some(h)
    ensures UpTo(Lit(key, h), key) == One("")
  {
  }

  lemma PrependPass(p: string, h: Segs, key: string, t: string)
    ensures After(Prepend(p, h), key) == After(h, key)
    ensures UpTo(Prepend(p, h), key) == Prepend(p, UpTo(h, key))
    ensures Followed(Prepend(p, h), key, t) == Followed(h, key, t)
  {
  }

  // ---------------------------------------------------------------------------
  // A column's fields
  // ---------------------------------------------------------------------------

  function ValueS(v: Value, h: Segs): Segs {
    match v
    case Text(t) => Lit(t, h)
    case Bare(b) => Prepend(b, h)
  }

  function FieldS(c: Column, i: nat, h: Segs): Segs
    requires i < FIELDS
  {
    Lit(Key(i), Prepend(":", ValueS(Val(c, i), h)))
  }

  /** The fields from the `i`-th on, then `tail`. */
  function FieldsS(c: Column, i: nat, tail: Segs): Segs
    requires i < FIELDS
    decreases c, FIELDS - i
  {
    FieldS(c, i, if i == FIELDS - 1 then tail else Prepend(",", FieldsS(c, i + 1, tail)))
  }

  function Next(c: Column, i: nat, tail: Segs): Segs
    requires i < FIELDS
  {
    if i == FIELDS - 1 then tail else Prepend(",", FieldsS(c, i + 1, tail))
  }

  lemma ValFree(c: Column, i: nat)
    requires i < FIELDS && ColumnFree(c)
    ensures Val(c, i).Text? ==> KeyFree(Val(c, i).v)
  {
  }

  lemma ValPlain(c: Column, i: nat)
    requires i < FIELDS && ColumnPlain(c)
    ensures Val(c, i).Text? ==> NoQuote(Val(c, i).v)
  {
  }

  predicate BareWord(b: string) {
    b != "" && !Space(b[0]) && b[0] != Q && NoQuote(b) && (b == "true" || b[0] != 't')
  }

  lemma LengthShape(v: Option<nat>)
    ensures BareWord(Length(v).b)
  {
  }

  lemma BareShape(c: Column, i: nat)
    requires i < FIELDS && Val(c, i).Bare?
    ensures BareWord(Val(c, i).b)
  {
    if i == 6 { LengthShape(c.maxLength); }
  }

  lemma ValuePass(v: Value, h: Segs, k: nat, t: string)
    requires k < KEYS && Gap(h) && (v.Text? ==> v.v != Key(k))
    ensures After(ValueS(v, h), Key(k)) == After(h, Key(k))
    ensures UpTo(ValueS(v, h), Key(k)) == ValueS(v, UpTo(h, Key(k)))
    ensures Followed(ValueS(v, h), Key(k), t) == Followed(h, Key(k), t)
  {
    match v
    case Text(w) => LitPass(w, h, k, t);
    case Bare(b) => PrependPass(b, h, Key(k), t);
  }

  lemma FieldPass(c: Column, i: nat, h: Segs, k: nat, t: string)
    requires i < FIELDS && k < KEYS && k != i && Gap(h) && ColumnFree(c)
    ensures After(FieldS(c, i, h), Key(k)) == After(h, Key(k))
    ensures UpTo(FieldS(c, i, h), Key(k)) == FieldS(c, i, UpTo(h, Key(k)))
    ensures Followed(FieldS(c, i, h), Key(k), t) == Followed(h, Key(k), t)
  {
    KeysDiffer(i, k);
    ValFree(c, i);
    ValuePass(Val(c, i), h, k, t);
    PrependPass(":", ValueS(Val(c, i), h), Key(k), t);
    LitPass(Key(i), Prepend(":", ValueS(Val(c, i), h)), k, t);
  }

  lemma NextGap(c: Column, i: nat, tail: Segs)
    requires i < FIELDS && Gap(tail)
    ensures Gap(Next(c, i, tail))
  {
  }

  lemma NextPass(c: Column, i: nat, tail: Segs, key: string, t: string)
    requires i < FIELDS - 1
    ensures After(Next(c, i, tail), key) == After(FieldsS(c, i + 1, tail), key)
    ensures Followed(Next(c, i, tail), key, t) == Followed(FieldsS(c, i + 1, tail), key, t)
  {
    PrependPass(",", FieldsS(c, i + 1, tail), key, t);
  }

  lemma FieldsNext(c: Column, i: nat, tail: Segs)
    requires i < FIELDS
    ensures FieldsS(c, i, tail) == FieldS(c, i, Next(c, i, tail))
  {
  }

  lemma FieldStep(c: Column, i: nat, tail: Segs, k: nat, t: string)
    requires i < FIELDS - 1 && k < KEYS && k != i && Gap(tail) && ColumnFree(c)
    ensures After(FieldsS(c, i, tail), Key(k)) == After(FieldsS(c, i + 1, tail), Key(k))
    ensures Followed(FieldsS(c, i, tail), Key(k), t) == Followed(FieldsS(c, i + 1, tail), Key(k), t)
  {
    FieldsNext(c, i, tail);
    NextGap(c, i, tail);
    FieldPass(c, i, Next(c, i, tail), k, t);
    NextPass(c, i, tail, Key(k), t);
  }

  lemma FieldsEnd(c: Column, tail: Segs, k: nat, t: string)
    requires k < KEYS && k != FIELDS - 1 && Gap(tail) && ColumnFree(c)
    ensures After(FieldsS(c, FIELDS - 1, tail), Key(k)) == After(tail, Key(k))
    ensures UpTo(FieldsS(c, FIELDS - 1, tail), Key(k)) == FieldsS(c, FIELDS - 1, UpTo(tail, Key(k)))
    ensures Followed(FieldsS(c, FIELDS - 1, tail), Key(k), t) == Followed(tail, Key(k), t)
  {
    FieldPass(c, FIELDS - 1, tail, k, t);
  }

  lemma FieldUpTo(c: Column, i: nat, tail: Segs, k: nat)
    requires i < FIELDS - 1 && k < KEYS && k != i && Gap(tail) && ColumnFree(c)
    ensures UpTo(FieldsS(c, i, tail), Key(k)) == FieldS(c, i, Prepend(",", UpTo(FieldsS(c, i + 1, tail), Key(k))))
  {
    FieldsNext(c, i, tail);
    NextGap(c, i, tail);
    FieldPass(c, i, Next(c, i, tail), k, "");
    PrependPass(",", FieldsS(c, i + 1, tail), Key(k), "");
  }

  /** A key that is not among the remaining fields is looked for in the tail. */
  lemma {:induction false} FieldsPass(c: Column, i: nat, tail: Segs, k: nat, t: string)
    requires i < FIELDS && k < KEYS && (k < i || k >= FIELDS) && Gap(tail) && ColumnFree(c)
    ensures After(FieldsS(c, i, tail), Key(k)) == After(tail, Key(k))
    ensures Followed(FieldsS(c, i, tail), Key(k), t) == Followed(tail, Key(k), t)
    decreases FIELDS - i
  {
    if i == FIELDS - 1 {
      FieldsEnd(c, tail, k, t);
    } else {
      FieldStep(c, i, tail, k, t);
      FieldsPass(c, i + 1, tail, k, t);
    }
  }

  lemma LastUpTo(c: Column, i: nat, tail: Segs, k: nat)
    requires i == FIELDS - 1 && k < KEYS && k != i && Gap(tail) && ColumnFree(c)
    ensures UpTo(FieldsS(c, i, tail), Key(k)) == FieldsS(c, i, UpTo(tail, Key(k)))
  {
    FieldsEnd(c, tail, k, "");
  }

  lemma FieldsUpToStep(c: Column, i: nat, tail: Segs, k: nat, cut: Segs)
    requires i < FIELDS - 1 && k < KEYS && k != i && Gap(tail) && ColumnFree(c)
    requires UpTo(FieldsS(c, i + 1, tail), Key(k)) == FieldsS(c, i + 1, cut)
    ensures UpTo(FieldsS(c, i, tail), Key(k)) == FieldsS(c, i, cut)
  {
    FieldUpTo(c, i, tail, k);
    FieldsNext(c, i, cut);
  }

  lemma {:induction false} FieldsUpTo(c: Column, i: nat, tail: Segs, k: nat)
    requires i < FIELDS && k < KEYS && (k < i || k >= FIELDS) && Gap(tail) && ColumnFree(c)
    ensures UpTo(FieldsS(c, i, tail), Key(k)) == FieldsS(c, i, UpTo(tail, Key(k)))
    decreases FIELDS - i
  {
    hide UpTo, Key, FieldsS;
    if i == FIELDS - 1 {
      LastUpTo(c, i, tail, k);
    } else {
      FieldsUpTo(c, i + 1, tail, k);
      FieldsUpToStep(c, i, tail, k, UpTo(tail, Key(k)));
    }
  }

  lemma FieldFirst(c: Column, i: nat, tail: Segs)
    requires i < FIELDS
    ensures After(FieldsS(c, i, tail), Key(i)) == Some(Prepend(":", ValueS(Val(c, i), Next(c, i, tail))))
  {
    FieldsNext(c, i, tail);
    LitHit(Prepend(":", ValueS(Val(c, i), Next(c, i, tail))), Key(i));
  }

  /** The first occurrence of a column's key is its own field. */
  lemma {:induction false} FieldFound(c: Column, i: nat, j: nat, tail: Segs)
    requires i <= j < FIELDS && Gap(tail) && ColumnFree(c)
    ensures After(FieldsS(c, i, tail), Key(j)) == Some(Prepend(":", ValueS(Val(c, j), Next(c, j, tail))))
    decreases j - i
  {
    if i == j {
      FieldFirst(c, i, tail);
    } else {
      FieldStep(c, i, tail, j, "");
      FieldFound(c, i + 1, j, tail);
    }
  }

  lemma FlagHere(c: Column, j: nat, h: Segs)
    requires j < FIELDS && Gap(h) && ColumnFree(c)
    ensures Followed(FieldS(c, j, h), Key(j), ":true") <==> Val(c, j) == Bare("true") || Followed(h, Key(j), ":true")
  {
    var g := Prepend(":", ValueS(Val(c, j), h));
    ValFree(c, j);
    KeyShape(j);
    ValuePass(Val(c, j), h, j, ":true");
    PrependPass(":", ValueS(Val(c, j), h), Key(j), ":true");
    assert FollowedQ(g, Key(j), ":true") == Followed(g, Key(j), ":true");
    TruePrefix(c, j, h);
  }

  lemma TruePrefix(c: Column, j: nat, h: Segs)
    requires j < FIELDS
    ensures ":true" <= Prepend(":", ValueS(Val(c, j), h)).s <==> Val(c, j) == Bare("true")
  {
    var s := Prepend(":", ValueS(Val(c, j), h)).s;
    match Val(c, j)
    case Text(_) => assert |s| == 1;
    case Bare(b) =>
      BareShape(c, j);
      assert s == ":" + (b + h.s);
      if b != "true" { assert s[1] == b[0]; assert ":true"[1] == 't'; }
      else { assert s[..5] == ":true"; }
  }

  lemma FlagFirst(c: Column, j: nat, tail: Segs)
    requires j < FIELDS && Gap(tail) && ColumnFree(c)
    ensures Followed(FieldsS(c, j, tail), Key(j), ":true") <==>
      Val(c, j) == Bare("true") || Followed(tail, Key(j), ":true")
  {
    NextGap(c, j, tail);
    FieldsNext(c, j, tail);
    FlagHere(c, j, Next(c, j, tail));
    if j < FIELDS - 1 {
      NextPass(c, j, tail, Key(j), ":true");
      FieldsPass(c, j + 1, tail, j, ":true");
    }
  }

  /** A flag is seen exactly when its own field is true. */
  lemma {:induction false} FlagFound(c: Column, i: nat, j: nat, tail: Segs)
    requires i <= j < FIELDS && Gap(tail) && ColumnFree(c)
    ensures Followed(FieldsS(c, i, tail), Key(j), ":true") <==>
      Val(c, j) == Bare("true") || Followed(tail, Key(j), ":true")
    decreases j - i
  {
    if i == j {
      FlagFirst(c, j, tail);
    } else {
      FieldStep(c, i, tail, j, ":true");
      FlagFound(c, i + 1, j, tail);
    }
  }

  lemma FieldPlain(c: Column, i: nat, h: Segs)
    requires i < FIELDS && ColumnPlain(c) && Plain(h)
    ensures Plain(FieldS(c, i, h))
  {
    ValPlain(c, i);
    KeyShape(i);
    match Val(c, i)
    case Text(v) => LitJoins(v, h); PrependJoins(":", Lit(v, h)); LitJoins(Key(i), Prepend(":", Lit(v, h)));
    case Bare(b) =>
      BareShape(c, i);
      PrependJoins(b, h);
      PrependJoins(":", Prepend(b, h));
      LitJoins(Key(i), Prepend(":", Prepend(b, h)));
  }

  lemma {:induction false} FieldsPlain(c: Column, i: nat, tail: Segs)
    requires i < FIELDS && ColumnPlain(c) && Plain(tail)
    ensures Plain(FieldsS(c, i, tail)) && Plain(Next(c, i, tail))
    decreases FIELDS - i
  {
    if i < FIELDS - 1 {
      FieldsPlain(c, i + 1, tail);
      PrependJoins(",", FieldsS(c, i + 1, tail));
    }
    FieldPlain(c, i, Next(c, i, tail));
  }

  // ---------------------------------------------------------------------------
  // Reading one column
  // ---------------------------------------------------------------------------

  /** A column's text after its first key. */
  function ChunkS(c: Column, tail: Segs): Segs {
    Prepend(":", ValueS(Val(c, 0), Next(c, 0, tail)))
  }

  /** No key in `g` is followed by a true value. */
  ghost predicate Quiet(g: Segs) {
    forall k: nat :: k < KEYS ==> !Followed(g, Key(k), ":true")
  }

  predicate Good(c: Column) {
    ColumnFree(c) && ColumnPlain(c)
  }

  lemma ChunkPass(c: Column, tail: Segs, k: nat, t: string)
    requires ColumnFree(c) && Gap(tail) && k < KEYS
    ensures After(ChunkS(c, tail), Key(k)) == After(FieldsS(c, 1, tail), Key(k))
    ensures Followed(ChunkS(c, tail), Key(k), t) == Followed(FieldsS(c, 1, tail), Key(k), t)
    ensures UpTo(ChunkS(c, tail), Key(k))
         == Prepend(":", ValueS(Val(c, 0), Prepend(",", UpTo(FieldsS(c, 1, tail), Key(k)))))
  {
    ValFree(c, 0);
    NextGap(c, 0, tail);
    PrependPass(",", FieldsS(c, 1, tail), Key(k), t);
    ValuePass(Val(c, 0), Next(c, 0, tail), k, t);
    PrependPass(":", ValueS(Val(c, 0), Next(c, 0, tail)), Key(k), t);
  }

  lemma ChunkPlain(c: Column, tail: Segs)
    requires ColumnPlain(c) && Plain(tail)
    ensures Plain(ChunkS(c, tail))
  {
    FieldsPlain(c, 0, tail);
    LitJoins(c.fieldName, Next(c, 0, tail));
    PrependJoins(":", Lit(c.fieldName, Next(c, 0, tail)));
  }

  /** The string of a value, none for a bare one. */
  function StringOf(v: Value): Option<string> {
    if v.Text? then Some(v.v) else None
  }

  lemma ValueRead(c: Column, j: nat, h: Segs)
    requires j < FIELDS && ColumnPlain(c)
    ensures QuotedAfterColon(Join(Prepend(":", ValueS(Val(c, j), h)))) == StringOf(Val(c, j))
  {
    match Val(c, j)
    case Text(v) =>
      ValPlain(c, j);
      assert ":" + "" == ":";
      ReadsValue(v, h, "");
    case Bare(b) =>
      BareShape(c, j);
      BareJoined(b, h);
      ReadsNothing(b, h);
  }

  lemma BareJoined(b: string, h: Segs)
    ensures Prepend(":", Prepend(b, h)) == Prepend(":" + b, h)
  {
    assert ":" + (b + h.s) == (":" + b) + h.s;
  }

  lemma FieldRead(c: Column, j: nat, tail: Segs)
    requires 1 <= j < FIELDS && Good(c) && Plain(tail) && Gap(tail)
    ensures JsonString(Join(ChunkS(c, tail)), Key(j)) == StringOf(Val(c, j))
  {
    KeyShape(j);
    ChunkPlain(c, tail);
    AfterText(ChunkS(c, tail), Key(j));
    ChunkPass(c, tail, j, "");
    FieldFound(c, 1, j, tail);
    ValueRead(c, j, Next(c, j, tail));
  }

  lemma FlagRead(c: Column, j: nat, tail: Segs)
    requires 1 <= j < FIELDS && Good(c) && Plain(tail) && Gap(tail) && Quiet(tail)
    ensures Flag(Join(ChunkS(c, tail)), Key(j)) <==> Val(c, j) == Bare("true")
  {
    KeyShape(j);
    ChunkPlain(c, tail);
    ContainsKey(ChunkS(c, tail), Key(j), ":true");
    ChunkPass(c, tail, j, ":true");
    FlagFound(c, 1, j, tail);
  }

  /** Every field of the column is found in the text. */
  ghost predicate Readable(c: Column, t: string) {
    && QuotedAfterColon(t) == Some(c.fieldName)
    && (forall j: nat :: 1 <= j < FIELDS ==> JsonString(t, Key(j)) == StringOf(Val(c, j)))
    && forall j: nat :: 1 <= j < FIELDS ==> (Flag(t, Key(j)) <==> Val(c, j) == Bare("true"))
  }

  lemma ChunkReadable(c: Column, tail: Segs)
    requires Good(c) && Plain(tail) && Gap(tail) && Quiet(tail)
    ensures Readable(c, Join(ChunkS(c, tail)))
  {
    ValueRead(c, 0, Next(c, 0, tail));
    forall j: nat | 1 <= j < FIELDS
      ensures JsonString(Join(ChunkS(c, tail)), Key(j)) == StringOf(Val(c, j))
    {
      FieldRead(c, j, tail);
    }
    forall j: nat | 1 <= j < FIELDS
      ensures Flag(Join(ChunkS(c, tail)), Key(j)) <==> Val(c, j) == Bare("true")
    {
      FlagRead(c, j, tail);
    }
  }

  lemma NullableRead(c: Column, t: string, j: nat, v: Option<string>)
    requires Readable(c, t) && 1 <= j < FIELDS && Val(c, j) == Nullable(v)
    ensures JsonString(t, Key(j)) == v
  {
  }

  lemma NamesRead(c: Column, t: string)
    requires Readable(c, t)
    ensures JsonString(t, "column_name") == Some(c.name) && JsonString(t, "type_name") == Some(c.typeName)
  {
    assert JsonString(t, Key(1)) == StringOf(Val(c, 1)) && JsonString(t, Key(2)) == StringOf(Val(c, 2));
  }

  lemma StringsRead(c: Column, t: string)
    requires Readable(c, t)
    ensures JsonString(t, "sequence_name") == c.sequenceName && JsonString(t, "fk_on_delete") == c.onDelete
  {
    NullableRead(c, t, 9, c.sequenceName);
    DeleteRead(c, t);
  }

  lemma DeleteRead(c: Column, t: string)
    requires Readable(c, t)
    ensures JsonString(t, "fk_on_delete") == c.onDelete
  {
    NullableRead(c, t, 14, c.onDelete);
  }

  lemma TargetsRead(c: Column, t: string)
    requires Readable(c, t)
    ensures JsonString(t, "fk_referenced_table") == c.fkTable && JsonString(t, "fk_referenced_column") == c.fkColumn
  {
    NullableRead(c, t, 10, c.fkTable);
    NullableRead(c, t, 11, c.fkColumn);
  }

  lemma FlagRead1(c: Column, t: string, j: nat, b: bool)
    requires Readable(c, t) && 1 <= j < FIELDS && Val(c, j) == Bool(b)
    ensures Flag(t, Key(j)) == b
  {
    assert |"true"| == 4 && |"false"| == 5;
  }

  lemma ConstraintsRead(c: Column, t: string)
    requires Readable(c, t)
    ensures Flag(t, "is_primary_key") == c.isPrimaryKey && Flag(t, "is_required") == c.isRequired
    ensures Flag(t, "is_foreign_key") == c.isForeignKey
  {
    FlagRead1(c, t, 3, c.isPrimaryKey);
    FlagRead1(c, t, 4, c.isRequired);
    FlagRead1(c, t, 5, c.isForeignKey);
  }

  lemma KindsRead(c: Column, t: string)
    requires Readable(c, t)
    ensures Flag(t, "is_auto_increment") == c.isAutoIncrement && Flag(t, "is_sequence") == c.isSequence
  {
    FlagRead1(c, t, 7, c.isAutoIncrement);
    FlagRead1(c, t, 8, c.isSequence);
  }

  lemma IndexesRead(c: Column, t: string)
    requires Readable(c, t)
    ensures Flag(t, "has_index") == c.hasIndex && Flag(t, "is_unique") == c.isUnique
  {
    FlagRead1(c, t, 12, c.hasIndex);
    FlagRead1(c, t, 13, c.isUnique);
  }

  lemma Assembled(c: Column, t: string)
    requires Readable(c, t)
    ensures ParseColumn(t) == Some(c.(maxLength := None))
  {
    NamesRead(c, t);
    StringsRead(c, t);
    TargetsRead(c, t);
    ConstraintsRead(c, t);
    KindsRead(c, t);
    IndexesRead(c, t);
  }

  /** Reading a printed column gives it back, its maximal length erased. */
  lemma ColumnRead(c: Column, tail: Segs)
    requires Good(c) && Plain(tail) && Gap(tail) && Quiet(tail)
    ensures ParseColumn(Join(ChunkS(c, tail))) == Some(c.(maxLength := None))
  {
    ChunkReadable(c, tail);
    Assembled(c, Join(ChunkS(c, tail)));
  }
}
