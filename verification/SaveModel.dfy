/** Tracked entities with the children their navigation containers hold, and the sets they live in. */
module SaveModel {
  import opened Wrappers

  type TypeId = nat

  datatype NavKind = HasOne | HasMany | BelongsTo | ManyToMany

  datatype DeleteBehavior = Cascade | SetNull | Restrict | NoAction

  /** Navigation metadata; `behavior` is the configured delete behaviour and `required` what the child's
      first foreign key property says about nullability, if there is one. */
  datatype Nav = Nav(
    field: string, kind: NavKind, related: TypeId,
    throughTable: Option<string>, throughParent: Option<string>, throughChild: Option<string>,
    behavior: Option<DeleteBehavior>, required: Option<bool>, table: Option<string>, fkColumn: Option<string>)

  /** The foreign key fields, in the order of the type's foreign key properties. */
  type Row = seq<Option<int>>

  /** An entity instance: `uid` tells instances apart, `key` is its primary key, `fks` its foreign keys and
      `values` its other properties. */
  datatype Entity = Entity(uid: nat, key: int, fks: Row, values: seq<int>, kids: Kids)

  /** The children held in navigation containers, each with its navigation. */
  datatype Kids = NoKids | Kid(nav: Nav, child: Entity, rest: Kids)

  /** An entry the tracker no longer has is Detached. */
  datatype EntityState = Detached | Added | Unchanged | Modified | Deleted

  /** An entity's property values, and the properties by position. */
  datatype Snapshot = Snapshot(key: int, fks: Row, values: seq<int>)

  datatype Property = KeyProperty | FkProperty(at: nat) | ValueProperty(at: nat)

  /** A set entry joined with its tracker entry: state, values when it was last settled, and the properties
      that detection found changed. */
  datatype Entry = Entry(entity: Entity, state: EntityState, upsert: bool, original: Option<Snapshot>,
                         modified: set<Property>)

  function SnapshotOf(e: Entity): Snapshot {
    Snapshot(e.key, e.fks, e.values)
  }

  type Sets = map<TypeId, seq<Entry>>

  type Metas = map<TypeId, seq<Nav>>

  predicate Distinct(types: seq<TypeId>) {
    forall i, j :: 0 <= i < j < |types| ==> types[i] != types[j]
  }

  /** The types are those of the registered sets. */
  ghost predicate Covers(types: seq<TypeId>, sets: Sets) {
    Distinct(types) && (forall k :: 0 <= k < |types| ==> types[k] in sets) && forall t :: t in sets ==> t in types
  }

  // ---------------------------------------------------------------------------
  // Taking children out of containers
  // ---------------------------------------------------------------------------

  predicate Collection(nav: Nav) {
    nav.kind == HasMany || nav.kind == ManyToMany
  }

  /** The children held under `nav`, in order. */
  function Taken(kids: Kids, nav: Nav): Kids {
    match kids
    case NoKids => NoKids
    case Kid(k, c, rest) => if k == nav then Kid(k, c, Taken(rest, nav)) else Taken(rest, nav)
  }

  /** What the containers of other navigations than those in `gone` hold. */
  function Stay(kids: Kids, gone: set<Nav>): Kids {
    match kids
    case NoKids => NoKids
    case Kid(nav, c, rest) => if nav in gone then Stay(rest, gone) else Kid(nav, c, Stay(rest, gone))
  }

  predicate Holds(kids: Kids, nav: Nav) {
    match kids
    case NoKids => false
    case Kid(k, _, rest) => k == nav || Holds(rest, nav)
  }

  lemma {:induction false} StayTwice(kids: Kids, a: set<Nav>, b: set<Nav>)
    ensures Stay(Stay(kids, a), b) == Stay(kids, a + b)
  {
    match kids
    case NoKids =>
    case Kid(_, _, rest) => StayTwice(rest, a, b);
  }

  function Length(kids: Kids): nat {
    match kids
    case NoKids => 0
    case Kid(_, _, rest) => 1 + Length(rest)
  }

  lemma {:induction false} StayShrinks(kids: Kids, gone: set<Nav>)
    ensures Length(Stay(kids, gone)) <= Length(kids)
  {
    match kids
    case NoKids =>
    case Kid(_, _, rest) => StayShrinks(rest, gone);
  }

  lemma {:induction false} TakenOnly(kids: Kids, nav: Nav)
    ensures Taken(Taken(kids, nav), nav) == Taken(kids, nav)
    ensures Length(Taken(kids, nav)) <= Length(kids)
    ensures Taken(kids, nav) == NoKids ==> Stay(kids, {nav}) == kids
  {
    match kids
    case NoKids =>
    case Kid(_, _, rest) => TakenOnly(rest, nav);
  }

  lemma OnlyNav(items: Kids, nav: Nav)
    requires items.Kid? && Taken(items, nav) == items
    ensures items.nav == nav && Taken(items.rest, nav) == items.rest
  {
    if items.nav != nav { TakenOnly(items.rest, nav); }
  }
}
