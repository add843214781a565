/** The model builder: fluent configuration, and caches that no sequence of calls can observe. */
module ModelBuilder {
  import opened Wrappers
  import opened SqlAst

  type TypeId = nat
  type Row = map<string, DbValue>

  datatype Property = Property(field: string, column: string, isPrimaryKey: bool, isRequired: bool,
                               maxLength: Option<nat>, isUnique: bool, hasIndex: bool)

  datatype Meta = Meta(typeId: TypeId, table: string, properties: seq<Property>)

  datatype Override = Override(column: Option<string>, isRequired: Option<bool>, maxLength: Option<nat>,
                               isUnique: Option<bool>, hasIndex: Option<bool>)

  datatype Config = Config(table: Option<string>, keys: Option<seq<string>>, overrides: map<string, Override>,
                           filter: Option<BoolExpr>, seedRows: seq<Row>)

  /** A filter and the values bound in it. */
  datatype CompiledFilter = CompiledFilter(expr: BoolExpr, params: seq<DbValue>)

  const NO_OVERRIDE := Override(None, None, None, None, None)
  const NO_CONFIG := Config(None, None, map[], None, [])

  // ---------------------------------------------------------------------------
  // The model without caches
  // ---------------------------------------------------------------------------

  datatype Model = Model(metas: seq<Meta>, configs: map<TypeId, Config>)

  predicate Registered(metas: seq<Meta>, t: TypeId) {
    exists i :: 0 <= i < |metas| && metas[i].typeId == t
  }

  function Overridden(p: Property, o: Override): Property {
    p.(column := o.column.UnwrapOr(p.column), isRequired := o.isRequired.UnwrapOr(p.isRequired),
       maxLength := if o.maxLength.Some? then o.maxLength else p.maxLength,
       isUnique := o.isUnique.UnwrapOr(p.isUnique), hasIndex := o.hasIndex.UnwrapOr(p.hasIndex))
  }

  /** A property as configured: a key exactly when it is listed, if keys are; overridden where it is. */
  function Configured(c: Config, p: Property): Property {
    var keyed := if c.keys.Some? then p.(isPrimaryKey := p.field in c.keys.value) else p;
    if p.field in c.overrides then Overridden(keyed, c.overrides[p.field]) else keyed
  }

  function ConfiguredAll(c: Config, ps: seq<Property>, n: nat): (r: seq<Property>)
    requires n <= |ps|
    ensures |r| == n && forall i :: 0 <= i < n ==> r[i] == Configured(c, ps[i])
  {
    if n == 0 then [] else ConfiguredAll(c, ps, n - 1) + [Configured(c, ps[n - 1])]
  }

  function Applied(configs: map<TypeId, Config>, meta: Meta): Meta {
    if meta.typeId !in configs then meta
    else
      var c := configs[meta.typeId];
      meta.(table := c.table.UnwrapOr(meta.table), properties := ConfiguredAll(c, meta.properties, |meta.properties|))
  }

  /** The first `n` metas with their configuration. */
  function Built(m: Model, n: nat): (r: seq<Meta>)
    requires n <= |m.metas|
    ensures |r| == n && forall i :: 0 <= i < n ==> r[i] == Applied(m.configs, m.metas[i])
  {
    if n == 0 then [] else Built(m, n - 1) + [Applied(m.configs, m.metas[n - 1])]
  }

  function FilterOf(configs: map<TypeId, Config>, t: TypeId): Option<BoolExpr> {
    if t in configs then configs[t].filter else None
  }

  /** The filters of the first `n` metas under their compile-time table names. */
  function Filters(m: Model, n: nat): map<string, CompiledFilter>
    requires n <= |m.metas|
  {
    if n == 0 then map[]
    else
      match FilterOf(m.configs, m.metas[n - 1].typeId)
      case None => Filters(m, n - 1)
      case Some(f) => Filters(m, n - 1)[m.metas[n - 1].table := CompiledFilter(f, CollectValues(f))]
  }

  function WithDefault(configs: map<TypeId, Config>, t: TypeId): map<TypeId, Config> {
    if t in configs then configs else configs[t := NO_CONFIG]
  }

  function OverrideAt(c: Config, field: string): Override {
    if field in c.overrides then c.overrides[field] else NO_OVERRIDE
  }

  datatype PropertyCall = IsRequired | HasMaxLength(n: nat) | HasColumnName(name: string) | IsUnique | HasIndex

  function Set(o: Override, call: PropertyCall): Override {
    match call
    case IsRequired => o.(isRequired := Some(true))
    case HasMaxLength(n) => o.(maxLength := Some(n))
    case HasColumnName(name) => o.(column := Some(name))
    case IsUnique => o.(isUnique := Some(true))
    case HasIndex => o.(hasIndex := Some(true))
  }

  function SetProperty(c: Config, field: string, call: PropertyCall): Config {
    c.(overrides := c.overrides[field := Set(OverrideAt(c, field), call)])
  }

  /** Marks the first `n` columns as indexed. */
  function Indexed(c: Config, columns: seq<string>, n: nat): Config
    requires n <= |columns|
  {
    if n == 0 then c else SetProperty(Indexed(c, columns, n - 1), columns[n - 1], HasIndex)
  }

  datatype ConfigCall =
    | ToTable(table: string)
    | HasKeys(fields: seq<string>)
    | HasIndexes(columns: seq<string>)
    | HasData(rows: seq<Row>)
    | OnProperty(field: string, call: PropertyCall)

  /** A fluent call on an entity; only property calls create a missing configuration. */
  function ConfigAfter(configs: map<TypeId, Config>, t: TypeId, call: ConfigCall): map<TypeId, Config> {
    if call.OnProperty? then
      var all := WithDefault(configs, t);
      all[t := SetProperty(all[t], call.field, call.call)]
    else if t !in configs then configs
    else
      var c := configs[t];
      configs[t := match call
                   case ToTable(table) => c.(table := Some(table))
                   case HasKeys(fields) => c.(keys := Some(fields))
                   case HasIndexes(columns) => Indexed(c, columns, |columns|)
                   case HasData(rows) => c.(seedRows := rows)
                   case OnProperty(_, _) => c]
  }

  function ConfigsAfter(configs: map<TypeId, Config>, t: TypeId, calls: seq<ConfigCall>, n: nat): map<TypeId, Config>
    requires n <= |calls|
  {
    if n == 0 then configs else ConfigAfter(ConfigsAfter(configs, t, calls, n - 1), t, calls[n - 1])
  }

  function MetasWith(metas: seq<Meta>, meta: Meta): seq<Meta> {
    if Registered(metas, meta.typeId) then metas else metas + [meta]
  }

  datatype Call =
    | Register(meta: Meta)
    | ApplyConfiguration(meta: Meta, calls: seq<ConfigCall>)
    | Configure(t: TypeId, call: ConfigCall)
    | HasQueryFilter(meta: Meta, filter: BoolExpr)
    | Build
    | FiltersByTable

  datatype Answer = Done | Metas(metas: seq<Meta>) | FilterMap(filters: map<string, CompiledFilter>)

  /** The effect of a call on the model. `entity` and `register_entity_meta` change it alike. */
  function After(m: Model, call: Call): Model {
    match call
    case Register(meta) => Model(MetasWith(m.metas, meta), WithDefault(m.configs, meta.typeId))
    case ApplyConfiguration(meta, calls) =>
      Model(MetasWith(m.metas, meta), ConfigsAfter(m.configs, meta.typeId, calls, |calls|))
    case Configure(t, c) => m.(configs := ConfigAfter(m.configs, t, c))
    case HasQueryFilter(meta, filter) =>
      var all := WithDefault(m.configs, meta.typeId);
      Model(MetasWith(m.metas, meta), all[meta.typeId := all[meta.typeId].(filter := Some(filter))])
    case Build => m
    case FiltersByTable => m
  }

  /** What a call returns when everything is computed anew. */
  function Fresh(m: Model, call: Call): Answer {
    match call
    case Build => Metas(Built(m, |m.metas|))
    case FiltersByTable => FilterMap(Filters(m, |m.metas|))
    case _ => Done
  }

  function ModelAfter(m: Model, calls: seq<Call>, n: nat): Model
    requires n <= |calls|
  {
    if n == 0 then m else After(ModelAfter(m, calls, n - 1), calls[n - 1])
  }

  function FreshAnswers(m: Model, calls: seq<Call>, n: nat): (r: seq<Answer>)
    requires n <= |calls|
    ensures |r| == n && forall i :: 0 <= i < n ==> r[i] == FreshAt(m, calls, i)
  {
    hide FreshAt;
    if n == 0 then [] else FreshAnswers(m, calls, n - 1) + [FreshAt(m, calls, n - 1)]
  }

  /** The answer to call `i`, with the model as the calls before it leave it. */
  function FreshAt(m: Model, calls: seq<Call>, i: nat): Answer
    requires i < |calls|
  {
    Fresh(ModelAfter(m, calls, i), calls[i])
  }

  // ---------------------------------------------------------------------------
  // An empty configuration changes nothing
  // ---------------------------------------------------------------------------

  lemma {:induction false} NeutralProperties(ps: seq<Property>, n: nat)
    requires n <= |ps|
    ensures ConfiguredAll(NO_CONFIG, ps, n) == ps[..n]
  {
    if n > 0 {
      NeutralProperties(ps, n - 1);
      assert ps[..n] == ps[..n - 1] + [ps[n - 1]];
    }
  }

  lemma NeutralApplied(configs: map<TypeId, Config>, t: TypeId, meta: Meta)
    ensures Applied(WithDefault(configs, t), meta) == Applied(configs, meta)
  {
    if meta.typeId == t && t !in configs {
      NeutralProperties(meta.properties, |meta.properties|);
      assert meta.properties[..|meta.properties|] == meta.properties;
    }
  }

  /** Adding an empty configuration for a type leaves both results as they were. */
  lemma {:induction false} DefaultIsNeutral(m: Model, t: TypeId, n: nat)
    requires n <= |m.metas|
    ensures Built(m.(configs := WithDefault(m.configs, t)), n) == Built(m, n)
    ensures Filters(m.(configs := WithDefault(m.configs, t)), n) == Filters(m, n)
  {
    if n > 0 {
      DefaultIsNeutral(m, t, n - 1);
      NeutralApplied(m.configs, t, m.metas[n - 1]);
    }
  }

  // ---------------------------------------------------------------------------
  // What a fluent call reaches
  // ---------------------------------------------------------------------------

  predicate UniqueTypes(metas: seq<Meta>) {
    forall i, j :: 0 <= i < j < |metas| ==> metas[i].typeId != metas[j].typeId
  }

  /** No call registers a type twice. */
  lemma UniqueKept(m: Model, call: Call)
    requires UniqueTypes(m.metas)
    ensures UniqueTypes(After(m, call).metas)
  {
  }

  /** A table name set through `apply_configuration` alone reaches the built model exactly when the type
      already has a configuration; registering the type first gives it one. */
  lemma TableNameReaches(m: Model, meta: Meta, table: string)
    requires !Registered(m.metas, meta.typeId) && table != meta.table
    ensures var m' := After(m, ApplyConfiguration(meta, [ToTable(table)]));
      Built(m', |m'.metas|)[|m.metas|].table == table <==> meta.typeId in m.configs
    ensures var m' := After(After(m, Register(meta)), ApplyConfiguration(meta, [ToTable(table)]));
      |m'.metas| == |m.metas| + 1 && Built(m', |m'.metas|)[|m.metas|].table == table
  {
    var calls := [ToTable(table)];
    assert ConfigsAfter(m.configs, meta.typeId, calls, 1) == ConfigAfter(m.configs, meta.typeId, ToTable(table)) by {
      assert ConfigsAfter(m.configs, meta.typeId, calls, 0) == m.configs;
    }
    var r := After(m, Register(meta));
    assert r.metas[|m.metas|] == meta;
    assert ConfigsAfter(r.configs, meta.typeId, calls, 1) == ConfigAfter(r.configs, meta.typeId, ToTable(table)) by {
      assert ConfigsAfter(r.configs, meta.typeId, calls, 0) == r.configs;
    }
  }

  // ---------------------------------------------------------------------------
  // What a type is built as
  // ---------------------------------------------------------------------------

  /** The table name the first `n` calls leave, if any gives one: the last. */
  function LastTable(calls: seq<ConfigCall>, n: nat): Option<string>
    requires n <= |calls|
  {
    if n == 0 then None
    else if calls[n - 1].ToTable? then Some(calls[n - 1].table) else LastTable(calls, n - 1)
  }

  function LastKeys(calls: seq<ConfigCall>, n: nat): Option<seq<string>>
    requires n <= |calls|
  {
    if n == 0 then None
    else if calls[n - 1].HasKeys? then Some(calls[n - 1].fields) else LastKeys(calls, n - 1)
  }

  function LastColumn(calls: seq<ConfigCall>, n: nat, field: string): Option<string>
    requires n <= |calls|
  {
    if n == 0 then None
    else
      match calls[n - 1]
      case OnProperty(f, HasColumnName(name)) => if f == field then Some(name) else LastColumn(calls, n - 1, field)
      case _ => LastColumn(calls, n - 1, field)
  }

  function LastLength(calls: seq<ConfigCall>, n: nat, field: string): Option<nat>
    requires n <= |calls|
  {
    if n == 0 then None
    else
      match calls[n - 1]
      case OnProperty(f, HasMaxLength(len)) => if f == field then Some(len) else LastLength(calls, n - 1, field)
      case _ => LastLength(calls, n - 1, field)
  }

  /** One of the first `n` calls is this one on the property. */
  predicate Said(calls: seq<ConfigCall>, n: nat, field: string, call: PropertyCall)
    requires n <= |calls|
  {
    exists k :: 0 <= k < n && calls[k] == OnProperty(field, call)
  }

  predicate SaidIndexed(calls: seq<ConfigCall>, n: nat, field: string)
    requires n <= |calls|
  {
    Said(calls, n, field, HasIndex) || exists k :: 0 <= k < n && calls[k].HasIndexes? && field in calls[k].columns
  }

  function Flag(said: bool): Option<bool> {
    if said then Some(true) else None
  }

  /** The configuration says of the property what the first `n` calls said. */
  predicate Recorded(c: Config, calls: seq<ConfigCall>, n: nat, field: string)
    requires n <= |calls|
  {
    OverrideAt(c, field) == Override(LastColumn(calls, n, field), Flag(Said(calls, n, field, IsRequired)),
                                     LastLength(calls, n, field), Flag(Said(calls, n, field, IsUnique)),
                                     Flag(SaidIndexed(calls, n, field)))
  }

  lemma {:induction false} IndexedAt(c: Config, columns: seq<string>, n: nat, field: string)
    requires n <= |columns|
    ensures OverrideAt(Indexed(c, columns, n), field)
         == if field in columns[..n] then OverrideAt(c, field).(hasIndex := Some(true)) else OverrideAt(c, field)
    ensures Indexed(c, columns, n).table == c.table && Indexed(c, columns, n).keys == c.keys
  {
    if n > 0 {
      IndexedAt(c, columns, n - 1, field);
      assert columns[..n] == columns[..n - 1] + [columns[n - 1]];
    }
  }

  lemma SaidNext(calls: seq<ConfigCall>, n: nat, field: string)
    requires n < |calls|
    ensures forall call :: Said(calls, n + 1, field, call) <==>
      Said(calls, n, field, call) || calls[n] == OnProperty(field, call)
    ensures SaidIndexed(calls, n + 1, field) <==>
      || SaidIndexed(calls, n, field) || calls[n] == OnProperty(field, HasIndex)
      || (calls[n].HasIndexes? && field in calls[n].columns)
  {
  }

  lemma {:induction false} ConfigRecords(configs: map<TypeId, Config>, t: TypeId, calls: seq<ConfigCall>, n: nat,
                                         field: string)
    requires n <= |calls| && t in configs && configs[t] == NO_CONFIG
    ensures t in ConfigsAfter(configs, t, calls, n)
    ensures var c := ConfigsAfter(configs, t, calls, n)[t];
      c.table == LastTable(calls, n) && c.keys == LastKeys(calls, n) && Recorded(c, calls, n, field)
  {
    if n > 0 {
      ConfigRecords(configs, t, calls, n - 1, field);
      hide ConfigAfter, Recorded, LastTable, LastKeys;
      RecordStep(ConfigsAfter(configs, t, calls, n - 1), t, calls, n, field);
    }
  }

  lemma RecordStep(configs: map<TypeId, Config>, t: TypeId, calls: seq<ConfigCall>, n: nat, field: string)
    requires 0 < n <= |calls| && t in configs && configs[t].table == LastTable(calls, n - 1)
    requires configs[t].keys == LastKeys(calls, n - 1) && Recorded(configs[t], calls, n - 1, field)
    ensures t in ConfigAfter(configs, t, calls[n - 1])
    ensures var c := ConfigAfter(configs, t, calls[n - 1])[t];
      c.table == LastTable(calls, n) && c.keys == LastKeys(calls, n) && Recorded(c, calls, n, field)
  {
    hide Said, SaidIndexed, Indexed;
    if calls[n - 1].OnProperty? {
      RecordProperty(configs[t], calls, n, field);
    } else if calls[n - 1].HasIndexes? {
      RecordIndexes(configs[t], calls, n, field);
    } else {
      SaidNext(calls, n - 1, field);
    }
  }

  lemma RecordProperty(c: Config, calls: seq<ConfigCall>, n: nat, field: string)
    requires 0 < n <= |calls| && calls[n - 1].OnProperty? && Recorded(c, calls, n - 1, field)
    ensures Recorded(SetProperty(c, calls[n - 1].field, calls[n - 1].call), calls, n, field)
  {
    hide Said, SaidIndexed;
    SaidNext(calls, n - 1, field);
  }

  lemma RecordIndexes(c: Config, calls: seq<ConfigCall>, n: nat, field: string)
    requires 0 < n <= |calls| && calls[n - 1].HasIndexes? && Recorded(c, calls, n - 1, field)
    ensures var after := Indexed(c, calls[n - 1].columns, |calls[n - 1].columns|);
      Recorded(after, calls, n, field) && after.table == c.table && after.keys == c.keys
  {
    hide Said, SaidIndexed, Indexed;
    SaidNext(calls, n - 1, field);
    var columns := calls[n - 1].columns;
    IndexedAt(c, columns, |columns|, field);
    assert columns[..|columns|] == columns;
  }

  /** The property as the calls have configured it, field by field; what no call is about stays. */
  predicate BuiltFrom(p: Property, q: Property, calls: seq<ConfigCall>) {
    var n := |calls|;
    && q.field == p.field
    && q.column == LastColumn(calls, n, p.field).UnwrapOr(p.column)
    && (q.isRequired <==> p.isRequired || Said(calls, n, p.field, IsRequired))
    && q.maxLength == (if LastLength(calls, n, p.field).Some? then LastLength(calls, n, p.field) else p.maxLength)
    && (q.isUnique <==> p.isUnique || Said(calls, n, p.field, IsUnique))
    && (q.hasIndex <==> p.hasIndex || SaidIndexed(calls, n, p.field))
    && (q.isPrimaryKey <==>
         if LastKeys(calls, n).Some? then p.field in LastKeys(calls, n).value else p.isPrimaryKey)
  }

  /** A newly registered type configured by any calls is built with the last table name and keys given, its
      properties in their order, each as its own calls say. */
  lemma BuiltAsConfigured(m: Model, i: nat, calls: seq<ConfigCall>)
    requires i < |m.metas| && m.metas[i].typeId in m.configs && m.configs[m.metas[i].typeId] == NO_CONFIG
    ensures var meta := m.metas[i];
      var built := Built(m.(configs := ConfigsAfter(m.configs, meta.typeId, calls, |calls|)), |m.metas|)[i];
      && built.typeId == meta.typeId && built.table == LastTable(calls, |calls|).UnwrapOr(meta.table)
      && |built.properties| == |meta.properties|
      && forall j :: 0 <= j < |meta.properties| ==> BuiltFrom(meta.properties[j], built.properties[j], calls)
  {
    hide LastTable, LastKeys, LastColumn, LastLength, Said, SaidIndexed, ConfigsAfter;
    var meta := m.metas[i];
    var configs := ConfigsAfter(m.configs, meta.typeId, calls, |calls|);
    ConfigRecords(m.configs, meta.typeId, calls, |calls|, "");
    var built := Built(m.(configs := configs), |m.metas|)[i];
    forall j | 0 <= j < |meta.properties| ensures BuiltFrom(meta.properties[j], built.properties[j], calls) {
      ConfigRecords(m.configs, meta.typeId, calls, |calls|, meta.properties[j].field);
    }
  }

  /** Registering a type puts it at the end unless it is there, and leaves every configuration alone. */
  lemma RegisterEffect(m: Model, meta: Meta)
    ensures var a := After(m, Register(meta));
      && a.metas == (if exists i :: 0 <= i < |m.metas| && m.metas[i].typeId == meta.typeId
                     then m.metas else m.metas + [meta])
      && meta.typeId in a.configs
      && (forall t :: t in a.configs <==> t in m.configs || t == meta.typeId)
      && forall t :: t in m.configs ==> a.configs[t] == m.configs[t]
  {
  }

  /** Setting a query filter registers the type and changes nothing of its configuration but the filter. */
  lemma FilterEffect(m: Model, meta: Meta, filter: BoolExpr)
    ensures var a := After(m, HasQueryFilter(meta, filter));
      && a.metas == After(m, Register(meta)).metas
      && (forall t :: t in a.configs <==> t in m.configs || t == meta.typeId)
      && (forall t :: t in m.configs && t != meta.typeId ==> a.configs[t] == m.configs[t])
      && a.configs[meta.typeId]
         == (if meta.typeId in m.configs then m.configs[meta.typeId] else NO_CONFIG).(filter := Some(filter))
  {
  }

  /** Where table names differ, the filter map has exactly the filters set, each under its type's own name and
      with the values in it. */
  lemma {:induction false} FilterThere(m: Model, n: nat, i: nat)
    requires i < n <= |m.metas| && forall j, k :: 0 <= j < k < |m.metas| ==> m.metas[j].table != m.metas[k].table
    ensures var t := m.metas[i].typeId;
      && (m.metas[i].table in Filters(m, n) <==> t in m.configs && m.configs[t].filter.Some?)
      && (t in m.configs && m.configs[t].filter.Some? ==>
           var f := m.configs[t].filter.value; Filters(m, n)[m.metas[i].table] == CompiledFilter(f, CollectValues(f)))
  {
    if i < n - 1 { FilterThere(m, n - 1, i); } else { NoFilterYet(m, n - 1, i); }
  }

  lemma {:induction false} NoFilterYet(m: Model, n: nat, i: nat)
    requires n <= i < |m.metas| && forall j, k :: 0 <= j < k < |m.metas| ==> m.metas[j].table != m.metas[k].table
    ensures m.metas[i].table !in Filters(m, n)
  {
    if n > 0 { NoFilterYet(m, n - 1, i); }
  }

  // ---------------------------------------------------------------------------
  // The cached builder
  // ---------------------------------------------------------------------------

  class Builder {
    var metas: seq<Meta>
    var configs: map<TypeId, Config>
    var buildCache: Option<seq<Meta>>
    var filterCache: Option<map<string, CompiledFilter>>

    function Current(): Model
      reads this
    {
      Model(metas, configs)
    }

    /** A filled cache holds what recomputing would give. */
    ghost predicate Coherent()
      reads this
    {
      && (buildCache.Some? ==> buildCache.value == Built(Current(), |metas|))
      && (filterCache.Some? ==> filterCache.value == Filters(Current(), |metas|))
    }

    constructor (metas: seq<Meta>, configs: map<TypeId, Config>)
      ensures Coherent() && Current() == Model(metas, configs)
    {
      this.metas := metas;
      this.configs := configs;
      buildCache := None;
      filterCache := None;
    }

    method InvalidateCache()
      modifies this`buildCache, this`filterCache
      ensures Coherent() && buildCache == None && filterCache == None
    {
      buildCache := None;
      filterCache := None;
    }

    /** Sets the keys of the properties, then their overrides, in two passes over a copy. */
    method ApplyConfigToMeta(meta: Meta) returns (result: Meta)
      ensures result == Applied(configs, meta)
    {
      if meta.typeId !in configs { return meta; }
      var c := configs[meta.typeId];
      var ps := meta.properties;
      if c.keys.Some? {
        var i := 0;
        while i < |ps|
          invariant 0 <= i <= |ps| == |meta.properties|
          invariant forall j :: 0 <= j < i ==>
            ps[j] == meta.properties[j].(isPrimaryKey := meta.properties[j].field in c.keys.value)
          invariant forall j :: i <= j < |ps| ==> ps[j] == meta.properties[j]
        {
          ps := ps[i := ps[i].(isPrimaryKey := ps[i].field in c.keys.value)];
          i := i + 1;
        }
      }
      var i := 0;
      ghost var keyed := ps;
      while i < |ps|
        invariant 0 <= i <= |ps| == |keyed| == |meta.properties|
        invariant forall j :: 0 <= j < i ==> ps[j] == Configured(c, meta.properties[j])
        invariant forall j :: i <= j < |ps| ==> ps[j] == keyed[j]
      {
        if ps[i].field in c.overrides {
          ps := ps[i := Overridden(ps[i], c.overrides[ps[i].field])];
        }
        i := i + 1;
      }
      assert ps == ConfiguredAll(c, meta.properties, |meta.properties|);
      result := meta.(table := c.table.UnwrapOr(meta.table), properties := ps);
    }

    method Build() returns (r: seq<Meta>)
      requires Coherent()
      modifies this`buildCache
      ensures Coherent() && r == Built(Current(), |metas|)
    {
      if buildCache == None {
        r := [];
        var i := 0;
        while i < |metas|
          invariant 0 <= i <= |metas|
          invariant r == Built(Current(), i)
        {
          var meta := ApplyConfigToMeta(metas[i]);
          r := r + [meta];
          i := i + 1;
        }
        buildCache := Some(r);
      }
      r := buildCache.value;
    }

    method FiltersByTable() returns (r: map<string, CompiledFilter>)
      requires Coherent()
      modifies this`filterCache
      ensures Coherent() && r == Filters(Current(), |metas|)
    {
      if filterCache == None {
        r := map[];
        var i := 0;
        while i < |metas|
          invariant 0 <= i <= |metas|
          invariant r == Filters(Current(), i)
        {
          if metas[i].typeId in configs {
            var filter := configs[metas[i].typeId].filter;
            if filter.Some? { r := r[metas[i].table := CompiledFilter(filter.value, CollectValues(filter.value))]; }
          }
          i := i + 1;
        }
        filterCache := Some(r);
      }
      r := filterCache.value;
    }

    /** Registers a type that is not yet there. The caches go only when it is new. */
    method PushMeta(meta: Meta)
      requires Coherent()
      modifies this
      ensures Coherent() && metas == MetasWith(old(metas), meta) && configs == old(configs)
    {
      if !Registered(metas, meta.typeId) {
        metas := metas + [meta];
        InvalidateCache();
      }
    }

    /** Adds an empty configuration where there is none, without touching the caches. */
    method EnsureConfig(t: TypeId)
      requires Coherent()
      modifies this`configs
      ensures Coherent() && configs == WithDefault(old(configs), t)
    {
      DefaultIsNeutral(Current(), t, |metas|);
      if t !in configs { configs := configs[t := NO_CONFIG]; }
      assert Current() == old(Current()).(configs := WithDefault(old(configs), t));
    }

    method RegisterEntityMeta(meta: Meta)
      requires Coherent()
      modifies this
      ensures Coherent() && Current() == After(old(Current()), Register(meta))
    {
      PushMeta(meta);
      EnsureConfig(meta.typeId);
    }

    /** Sets one override, the caches dropped before. */
    method OverrideProperty(t: TypeId, field: string, call: PropertyCall)
      modifies this
      ensures Coherent() && metas == old(metas) && configs == ConfigAfter(old(configs), t, OnProperty(field, call))
    {
      InvalidateCache();
      if t !in configs { configs := configs[t := NO_CONFIG]; }
      var c := configs[t];
      configs := configs[t := c.(overrides := c.overrides[field := Set(OverrideAt(c, field), call)])];
    }

    method ConfigureEntity(t: TypeId, call: ConfigCall)
      modifies this
      ensures Coherent() && metas == old(metas) && configs == ConfigAfter(old(configs), t, call)
    {
      match call {
        case OnProperty(field, p) => OverrideProperty(t, field, p);
        case ToTable(table) =>
          if t in configs { configs := configs[t := configs[t].(table := Some(table))]; }
          InvalidateCache();
        case HasKeys(fields) =>
          if t in configs { configs := configs[t := configs[t].(keys := Some(fields))]; }
          InvalidateCache();
        case HasIndexes(columns) =>
          if t in configs {
            var c := MarkIndexed(configs[t], columns);
            configs := configs[t := c];
          }
          InvalidateCache();
        case HasData(rows) =>
          if t in configs { configs := configs[t := configs[t].(seedRows := rows)]; }
          InvalidateCache();
      }
    }

    static method MarkIndexed(c: Config, columns: seq<string>) returns (r: Config)
      ensures r == Indexed(c, columns, |columns|)
    {
      r := c;
      var i := 0;
      while i < |columns|
        invariant 0 <= i <= |columns|
        invariant r == Indexed(c, columns, i)
      {
        r := SetProperty(r, columns[i], HasIndex);
        i := i + 1;
      }
    }

    method ApplyConfigurationOf(meta: Meta, calls: seq<ConfigCall>)
      requires Coherent()
      modifies this
      ensures Coherent() && Current() == After(old(Current()), ApplyConfiguration(meta, calls))
    {
      PushMeta(meta);
      var i := 0;
      while i < |calls|
        invariant 0 <= i <= |calls|
        invariant Coherent() && metas == MetasWith(old(metas), meta)
        invariant configs == ConfigsAfter(old(configs), meta.typeId, calls, i)
      {
        ConfigureEntity(meta.typeId, calls[i]);
        i := i + 1;
      }
    }

    method AddQueryFilter(meta: Meta, filter: BoolExpr)
      requires Coherent()
      modifies this
      ensures Coherent() && Current() == After(old(Current()), HasQueryFilter(meta, filter))
    {
      if meta.typeId !in configs { configs := configs[meta.typeId := NO_CONFIG]; }
      configs := configs[meta.typeId := configs[meta.typeId].(filter := Some(filter))];
      if !Registered(metas, meta.typeId) { metas := metas + [meta]; }
      InvalidateCache();
    }

    /** Direct access to the metas: the caches stay right exactly when recomputing them would give the
        same. */
    method EntityMetasMut(changed: seq<Meta>)
      requires Coherent()
      modifies this`metas
      ensures metas == changed
      ensures Coherent() <==> (
        && (buildCache.Some? ==> Built(Model(changed, configs), |changed|) == Built(old(Current()), |old(metas)|))
        && (filterCache.Some? ==> Filters(Model(changed, configs), |changed|) == Filters(old(Current()), |old(metas)|)))
    {
      metas := changed;
    }

    method Perform(call: Call) returns (answer: Answer)
      requires Coherent()
      modifies this
      ensures Coherent() && Current() == After(old(Current()), call) && answer == Fresh(old(Current()), call)
    {
      answer := Done;
      match call {
        case Register(meta) => RegisterEntityMeta(meta);
        case ApplyConfiguration(meta, calls) => ApplyConfigurationOf(meta, calls);
        case Configure(t, c) => ConfigureEntity(t, c);
        case HasQueryFilter(meta, filter) => AddQueryFilter(meta, filter);
        case Build => var r := Build(); answer := Metas(r);
        case FiltersByTable => var r := FiltersByTable(); answer := FilterMap(r);
      }
    }

    /** Over any sequence of calls, every answer is the one computed anew from the model at that point. */
    method Run(calls: seq<Call>) returns (answers: seq<Answer>)
      requires Coherent()
      modifies this
      ensures Coherent() && Current() == ModelAfter(old(Current()), calls, |calls|)
      ensures answers == FreshAnswers(old(Current()), calls, |calls|)
    {
      hide After, Fresh;
      answers := [];
      var i := 0;
      while i < |calls|
        invariant 0 <= i <= |calls|
        invariant Coherent() && Current() == ModelAfter(old(Current()), calls, i)
        invariant answers == FreshAnswers(old(Current()), calls, i)
      {
        var answer := Perform(calls[i]);
        answers := answers + [answer];
        i := i + 1;
      }
    }
  }

  /** A type nobody registered, given a table name by `apply_configuration` alone. */
  lemma UnregisteredKeepsName(meta: Meta)
    requires meta == Meta(1, "posts", [])
    ensures var m := After(Model([], map[]), ApplyConfiguration(meta, [ToTable("articles")]));
      Built(m, |m.metas|)[0].table != "articles"
  {
    TableNameReaches(Model([], map[]), meta, "articles");
  }
}
