/** Draining the containers of tracked entries into new entries, shared by cascading adds and deletes. */
module CascadeDrain {
  import opened Wrappers
  import opened SaveModel

  datatype Drained = Drained(parentType: TypeId, parentIdx: nat, nav: Nav, child: Entity)

  // ---------------------------------------------------------------------------
  // What is to be drained
  // ---------------------------------------------------------------------------

  /** Draining the collections of Added entries, or the cascading containers of Deleted ones. */
  datatype Mode = Adding | Deleting

  datatype Plan = Plan(mode: Mode, metas: Metas)

  predicate Drains(plan: Plan, e: Entry) {
    match plan.mode
    case Adding => e.state == Added && !e.upsert
    case Deleting => e.state == Deleted
  }

  /** The configured behaviour, or the default: join rows and required children cascade, optional ones restrict. */
  function Resolve(nav: Nav): DeleteBehavior {
    if nav.behavior.Some? then nav.behavior.value
    else if nav.kind == ManyToMany then Cascade
    else if nav.required == Some(false) then Restrict
    else Cascade
  }

  predicate Moves(plan: Plan, nav: Nav) {
    match plan.mode
    case Adding => Collection(nav)
    case Deleting => nav.kind == HasMany && Resolve(nav) == Cascade
  }

  /** Whether a drained child gets an entry: one to delete needs a key. */
  predicate Enters(plan: Plan, child: Entity) {
    plan.mode == Adding || child.key != 0
  }

  /** Children to add come in as Unchanged if they have a key, otherwise as Added; all but the latter with
      their values at that time as original. */
  function NewEntry(plan: Plan, child: Entity): Entry {
    var state := if plan.mode == Deleting then Deleted else if child.key > 0 then Unchanged else Added;
    Entry(child, state, false, if state == Added then None else Some(SnapshotOf(child)), {})
  }

  /** The navigations of a type whose containers are drained. */
  function Gone(plan: Plan, t: TypeId): set<Nav> {
    if t in plan.metas then set nav | nav in plan.metas[t] && Moves(plan, nav) else {}
  }

  /** An entry once drained keeps only what its other containers hold. */
  function Final(plan: Plan, t: TypeId, e: Entry): Entry {
    if Drains(plan, e) then e.(entity := e.entity.(kids := Stay(e.entity.kids, Gone(plan, t)))) else e
  }

  /** The instance that holds a child. */
  datatype Owner = Owner(type_: TypeId, uid: nat)

  const NOBODY_OWNS := Owner(0, 0)

  /** A child to be drained, as the whole entity its new entry ends up with. One to add goes with the
      instance that held it and the join table; one to delete needs neither. */
  datatype Tie = Tie(parent: Owner, childType: TypeId, throughTable: Option<string>, child: Entity)

  function TieOf(plan: Plan, p: Owner, nav: Nav, child: Entity): Tie {
    var entity := Final(plan, nav.related, NewEntry(plan, child)).entity;
    if plan.mode == Adding then Tie(p, nav.related, nav.throughTable, entity)
        else Tie(NOBODY_OWNS, nav.related, None, entity)
  }

  /** Whether a drained child is drained in its turn. */
  predicate Comes(plan: Plan, c: Entity) {
    Enters(plan, c) && Drains(plan, NewEntry(plan, c))
  }

  /** All ties below a parent `p` that holds `kids`, through the containers in `gone` and, below each
      child that is drained in its turn, through the draining containers of its type. */
  function Below(plan: Plan, p: Owner, kids: Kids, gone: set<Nav>): multiset<Tie>
    decreases kids
  {
    match kids
    case NoKids => multiset{}
    case Kid(nav, c, rest) =>
      (if nav !in gone then multiset{}
       else multiset{TieOf(plan, p, nav, c)} +
            (if Comes(plan, c) then Below(plan, Owner(nav.related, c.uid), c.kids,
                                          Gone(plan, nav.related)) else multiset{}))
      + Below(plan, p, rest, gone)
  }

  /** A child of `p` under `nav`, with all that is below it. */
  function Whole(plan: Plan, p: Owner, nav: Nav, c: Entity): multiset<Tie> {
    multiset{TieOf(plan, p, nav, c)} + Further(plan, nav, c)
  }

  /** What a child brings in its turn, once it has an entry. */
  function Further(plan: Plan, nav: Nav, c: Entity): multiset<Tie> {
    if Enters(plan, c) then EntryTies(plan, nav.related, NewEntry(plan, c)) else multiset{}
  }

  /** What draining an entry will bring. */
  function EntryTies(plan: Plan, t: TypeId, e: Entry): multiset<Tie> {
    if Drains(plan, e) then Below(plan, Owner(t, e.entity.uid), e.entity.kids, Gone(plan, t)) else multiset{}
  }

  function SetTies(plan: Plan, t: TypeId, es: seq<Entry>, n: nat): multiset<Tie>
    requires n <= |es|
  {
    if n == 0 then multiset{} else SetTies(plan, t, es, n - 1) + EntryTies(plan, t, es[n - 1])
  }

  function TypeTies(plan: Plan, sets: Sets, t: TypeId): multiset<Tie> {
    if t in sets then SetTies(plan, t, sets[t], |sets[t]|) else multiset{}
  }

  /** What draining the sets of the first `n` types will bring. */
  function AllTies(plan: Plan, sets: Sets, types: seq<TypeId>, n: nat): multiset<Tie>
    requires n <= |types|
  {
    if n == 0 then multiset{} else AllTies(plan, sets, types, n - 1) + TypeTies(plan, sets, types[n - 1])
  }

  lemma Regroup<T>(a: multiset<T>, b: multiset<T>, c: multiset<T>)
    ensures a + (b + c) == (a + b) + c == (a + c) + b == b + (a + c)
  {
  }

  lemma KidTies(plan: Plan, p: Owner, kids: Kids, gone: set<Nav>)
    requires kids.Kid?
    ensures kids.nav in gone ==>
      Below(plan, p, kids, gone) == Whole(plan, p, kids.nav, kids.child) + Below(plan, p, kids.rest, gone)
    ensures kids.nav !in gone ==> Below(plan, p, kids, gone) == Below(plan, p, kids.rest, gone)
  {
  }

  lemma {:induction false} NothingBelow(plan: Plan, p: Owner, kids: Kids, gone: set<Nav>)
    requires Stay(kids, gone) == kids
    ensures Below(plan, p, kids, gone) == multiset{}
  {
    match kids
    case NoKids =>
    case Kid(nav, _, rest) =>
      if nav in gone { StayShrinks(rest, gone); }
      NothingBelow(plan, p, rest, gone);
  }

  /** Draining one container more. */
  lemma {:induction false} BelowMore(plan: Plan, p: Owner, kids: Kids, gone: set<Nav>, nav: Nav)
    ensures Below(plan, p, kids, gone + {nav})
         == Below(plan, p, kids, gone) + Below(plan, p, Taken(Stay(kids, gone), nav), {nav})
  {
    match kids
    case NoKids =>
    case Kid(k, c, rest) =>
      BelowMore(plan, p, rest, gone, nav);
      BelowMoreStep(plan, p, kids, gone, nav);
  }

  lemma BelowMoreStep(plan: Plan, p: Owner, kids: Kids, gone: set<Nav>, nav: Nav)
    requires kids.Kid?
    requires Below(plan, p, kids.rest, gone + {nav})
          == Below(plan, p, kids.rest, gone) + Below(plan, p, Taken(Stay(kids.rest, gone), nav), {nav})
    ensures Below(plan, p, kids, gone + {nav})
         == Below(plan, p, kids, gone) + Below(plan, p, Taken(Stay(kids, gone), nav), {nav})
  {
    hide Below, Whole;
    var w, rest := Whole(plan, p, kids.nav, kids.child), kids.rest;
    KidTies(plan, p, kids, gone);
    KidTies(plan, p, kids, gone + {nav});
    Regroup(w, Below(plan, p, rest, gone), Below(plan, p, Taken(Stay(rest, gone), nav), {nav}));
    if kids.nav == nav && nav !in gone { KidTies(plan, p, Taken(Stay(kids, gone), nav), {nav}); }
  }

  lemma FinalTwice(plan: Plan, t: TypeId, e: Entry)
    ensures Final(plan, t, Final(plan, t, e)) == Final(plan, t, e)
    ensures EntryTies(plan, t, Final(plan, t, e)) == multiset{}
  {
    if Drains(plan, e) {
      var gone := Gone(plan, t);
      StayTwice(e.entity.kids, gone, gone);
      assert gone + gone == gone;
      NothingBelow(plan, Owner(t, e.entity.uid), Stay(e.entity.kids, gone), gone);
    }
  }

  // ---------------------------------------------------------------------------
  // Drained children
  // ---------------------------------------------------------------------------

  function OwnerAt(sets: Sets, t: TypeId, i: nat): Owner {
    Owner(t, if t in sets && i < |sets[t]| then sets[t][i].entity.uid else 0)
  }

  /** The ties of the drained children from position `k` on. */
  function Pending(plan: Plan, sets: Sets, ds: seq<Drained>, k: nat): multiset<Tie>
    requires k <= |ds|
    decreases |ds| - k
  {
    if k == |ds| then multiset{}
    else DrainedWhole(plan, sets, ds[k]) + Pending(plan, sets, ds, k + 1)
  }

  function DrainedWhole(plan: Plan, sets: Sets, d: Drained): multiset<Tie> {
    Whole(plan, OwnerAt(sets, d.parentType, d.parentIdx), d.nav, d.child)
  }

  lemma PendingAt(plan: Plan, sets: Sets, ds: seq<Drained>, k: nat)
    requires k < |ds|
    ensures Pending(plan, sets, ds, k) == DrainedWhole(plan, sets, ds[k]) + Pending(plan, sets, ds, k + 1)
  {
    hide DrainedWhole;
  }

  lemma {:induction false} PendingPush(plan: Plan, sets: Sets, ds: seq<Drained>, d: Drained, k: nat)
    requires k <= |ds|
    ensures Pending(plan, sets, ds + [d], k) == Pending(plan, sets, ds, k) + DrainedWhole(plan, sets, d)
    decreases |ds| - k
  {
    hide DrainedWhole, Pending;
    PendingAt(plan, sets, ds + [d], k);
    if k < |ds| {
      PendingPush(plan, sets, ds, d, k + 1);
      PendingAt(plan, sets, ds, k);
      Regroup(DrainedWhole(plan, sets, ds[k]), Pending(plan, sets, ds, k + 1), DrainedWhole(plan, sets, d));
    } else {
      PendingEnd(plan, sets, ds);
      PendingEnd(plan, sets, ds + [d]);
    }
  }

  lemma PendingEnd(plan: Plan, sets: Sets, ds: seq<Drained>)
    ensures Pending(plan, sets, ds, |ds|) == multiset{}
  {
  }

  lemma {:induction false} PendingJoin(plan: Plan, sets: Sets, a: seq<Drained>, b: seq<Drained>, n: nat)
    requires n <= |b|
    ensures Pending(plan, sets, a + b[..n], 0) + Pending(plan, sets, b, n)
         == Pending(plan, sets, a, 0) + Pending(plan, sets, b, 0)
  {
    hide DrainedWhole, Pending;
    if n > 0 {
      PendingJoin(plan, sets, a, b, n - 1);
      assert a + b[..n] == (a + b[..n - 1]) + [b[n - 1]];
      PendingPush(plan, sets, a + b[..n - 1], b[n - 1], 0);
      PendingAt(plan, sets, b, n - 1);
      Regroup(Pending(plan, sets, a + b[..n - 1], 0), DrainedWhole(plan, sets, b[n - 1]), Pending(plan, sets, b, n));
    } else {
      assert a + b[..0] == a;
    }
  }

  lemma PendingAppend(plan: Plan, sets: Sets, a: seq<Drained>, b: seq<Drained>)
    ensures Pending(plan, sets, a + b, 0) == Pending(plan, sets, a, 0) + Pending(plan, sets, b, 0)
  {
    hide DrainedWhole, Pending;
    PendingJoin(plan, sets, a, b, |b|);
    PendingEnd(plan, sets, b);
    assert b[..|b|] == b;
  }

  /** Pending ties depend on the sets only through the parents' instances. */
  lemma {:induction false} PendingSame(plan: Plan, a: Sets, b: Sets, ds: seq<Drained>, k: nat)
    requires k <= |ds|
    requires forall i :: k <= i < |ds| ==>
      OwnerAt(a, ds[i].parentType, ds[i].parentIdx) == OwnerAt(b, ds[i].parentType, ds[i].parentIdx)
    ensures Pending(plan, a, ds, k) == Pending(plan, b, ds, k)
    decreases |ds| - k
  {
    if k < |ds| { PendingSame(plan, a, b, ds, k + 1); }
  }

  /** A drained child names an existing parent that is drained and a draining navigation of the parent's type. */
  ghost predicate Genuine(plan: Plan, sets: Sets, d: Drained) {
    && d.parentType in sets && d.parentIdx < |sets[d.parentType]| && d.nav in Gone(plan, d.parentType)
    && Drains(plan, sets[d.parentType][d.parentIdx])
  }

  /** Every registered type has metadata, and every collection leads to a registered type. */
  ghost predicate AllKnown(metas: Metas, sets: Sets) {
    && (forall t :: t in sets ==> t in metas)
    && forall t, nav :: t in sets && t in metas && nav in metas[t] && Collection(nav) ==> nav.related in sets
  }

  lemma SameKnown(metas: Metas, a: Sets, b: Sets)
    requires a.Keys == b.Keys
    ensures AllKnown(metas, a) <==> AllKnown(metas, b)
  {
  }

  lemma UnknownType(metas: Metas, sets: Sets, t: TypeId)
    requires t in sets && t !in metas
    ensures !AllKnown(metas, sets)
  {
  }

  lemma UnknownChild(plan: Plan, sets: Sets, d: Drained)
    requires Genuine(plan, sets, d) && d.nav.related !in sets
    ensures !AllKnown(plan.metas, sets)
  {
  }

  ghost predicate AllGenuine(plan: Plan, sets: Sets, ds: seq<Drained>, k: nat) {
    forall i :: k <= i < |ds| ==> Genuine(plan, sets, ds[i])
  }

  // ---------------------------------------------------------------------------
  // Draining one entity
  // ---------------------------------------------------------------------------

  /** The entity a round looks at, in the sets before the round. */
  datatype At = At(t: TypeId, idx: nat)

  lemma ItemMoves(plan: Plan, sets: Sets, ds: seq<Drained>, d: Drained, items: Kids)
    requires items.Kid? && items.nav == d.nav && items.child == d.child
    ensures Pending(plan, sets, ds + [d], 0)
         + Below(plan, OwnerAt(sets, d.parentType, d.parentIdx), items.rest, {d.nav})
         == Pending(plan, sets, ds, 0) + Below(plan, OwnerAt(sets, d.parentType, d.parentIdx), items, {d.nav})
  {
    hide Pending, Below, Whole;
    var p := OwnerAt(sets, d.parentType, d.parentIdx);
    KidTies(plan, p, items, {d.nav});
    PendingPush(plan, sets, ds, d, 0);
    Regroup(Pending(plan, sets, ds, 0), Whole(plan, p, d.nav, d.child), Below(plan, p, items.rest, {d.nav}));
  }

  /** Pushes the items of one container. */
  method PushItems(ds0: seq<Drained>, at: At, nav: Nav, items0: Kids, ghost plan: Plan, ghost sets: Sets)
    returns (ds: seq<Drained>)
    requires Taken(items0, nav) == items0
    requires Genuine(plan, sets, Drained(at.t, at.idx, nav, Entity(0, 0, [], [], NoKids)))
    requires AllGenuine(plan, sets, ds0, 0)
    ensures Pending(plan, sets, ds, 0)
         == Pending(plan, sets, ds0, 0) + Below(plan, OwnerAt(sets, at.t, at.idx), items0, {nav})
    ensures AllGenuine(plan, sets, ds, 0) && ds0 <= ds && (ds == ds0 ==> items0 == NoKids)
  {
    ds := ds0;
    var items := items0;
    while items != NoKids
      invariant Taken(items, nav) == items && AllGenuine(plan, sets, ds, 0)
      invariant Pending(plan, sets, ds, 0) + Below(plan, OwnerAt(sets, at.t, at.idx), items, {nav})
             == Pending(plan, sets, ds0, 0) + Below(plan, OwnerAt(sets, at.t, at.idx), items0, {nav})
      invariant ds0 <= ds && (ds == ds0 ==> items == items0)
      decreases items
    {
      OnlyNav(items, nav);
      var d := Drained(at.t, at.idx, nav, items.child);
      ItemMoves(plan, sets, ds, d, items);
      ds := ds + [d];
      items := items.rest;
    }
  }

  /** The collection navigations among the first `n`. */
  function GoneUpTo(plan: Plan, navs: seq<Nav>, n: nat): set<Nav>
    requires n <= |navs|
  {
    set nav | nav in navs[..n] && Moves(plan, nav)
  }

  lemma GoneNext(plan: Plan, navs: seq<Nav>, n: nat)
    requires n < |navs|
    ensures GoneUpTo(plan, navs, n + 1)
         == if Moves(plan, navs[n]) then GoneUpTo(plan, navs, n) + {navs[n]} else GoneUpTo(plan, navs, n)
  {
    assert navs[..n + 1] == navs[..n] + [navs[n]];
  }

  lemma AllGone(plan: Plan, t: TypeId)
    requires t in plan.metas
    ensures GoneUpTo(plan, plan.metas[t], |plan.metas[t]|) == Gone(plan, t)
  {
    assert plan.metas[t][..|plan.metas[t]|] == plan.metas[t];
  }

  /** Takes every collection container of one entity, in the order of its navigations. */
  method DrainEntity(at: At, e: Entity, plan: Plan, ghost sets: Sets) returns (left: Entity, ds: seq<Drained>)
    requires at.t in plan.metas && at.t in sets && at.idx < |sets[at.t]|
    requires Owner(at.t, e.uid) == OwnerAt(sets, at.t, at.idx) && Drains(plan, sets[at.t][at.idx])
    ensures left == e.(kids := Stay(e.kids, Gone(plan, at.t)))
    ensures Pending(plan, sets, ds, 0) == Below(plan, Owner(at.t, e.uid), e.kids, Gone(plan, at.t))
    ensures AllGenuine(plan, sets, ds, 0) && (ds == [] ==> left == e)
  {
    var navs := plan.metas[at.t];
    left, ds := e, [];
    assert GoneUpTo(plan, navs, 0) == {};
    StayNone(e.kids);
    NothingBelow(plan, Owner(at.t, e.uid), e.kids, {});
    for j := 0 to |navs|
      invariant left == e.(kids := Stay(e.kids, GoneUpTo(plan, navs, j)))
      invariant Pending(plan, sets, ds, 0) == Below(plan, Owner(at.t, e.uid), e.kids, GoneUpTo(plan, navs, j))
      invariant AllGenuine(plan, sets, ds, 0) && (ds == [] ==> left == e)
    {
      GoneNext(plan, navs, j);
      if Moves(plan, navs[j]) {
        left, ds := DrainNav(at, e, left, ds, j, plan, sets);
      }
    }
    AllGone(plan, at.t);
  }

  lemma {:induction false} StayNone(kids: Kids)
    ensures Stay(kids, {}) == kids
  {
    match kids
    case NoKids =>
    case Kid(_, _, rest) => StayNone(rest);
  }

  method DrainNav(at: At, e: Entity, left0: Entity, ds0: seq<Drained>, j: nat, plan: Plan, ghost sets: Sets)
    returns (left: Entity, ds: seq<Drained>)
    requires at.t in plan.metas && at.t in sets && at.idx < |sets[at.t]|
    requires Owner(at.t, e.uid) == OwnerAt(sets, at.t, at.idx) && Drains(plan, sets[at.t][at.idx])
    requires j < |plan.metas[at.t]| && Moves(plan, plan.metas[at.t][j])
    requires left0 == e.(kids := Stay(e.kids, GoneUpTo(plan, plan.metas[at.t], j)))
    requires Pending(plan, sets, ds0, 0) == Below(plan, Owner(at.t, e.uid), e.kids, GoneUpTo(plan, plan.metas[at.t], j))
    requires AllGenuine(plan, sets, ds0, 0) && (ds0 == [] ==> left0 == e)
    ensures left == e.(kids := Stay(e.kids, GoneUpTo(plan, plan.metas[at.t], j + 1)))
    ensures Pending(plan, sets, ds, 0)
         == Below(plan, Owner(at.t, e.uid), e.kids, GoneUpTo(plan, plan.metas[at.t], j + 1))
    ensures AllGenuine(plan, sets, ds, 0) && (ds == [] ==> left == e)
  {
    var nav := plan.metas[at.t][j];
    var items := Taken(left0.kids, nav);
    TakenOnly(left0.kids, nav);
    GoneNext(plan, plan.metas[at.t], j);
    BelowMore(plan, Owner(at.t, e.uid), e.kids, GoneUpTo(plan, plan.metas[at.t], j), nav);
    StayTwice(e.kids, GoneUpTo(plan, plan.metas[at.t], j), {nav});
    ds := PushItems(ds0, at, nav, items, plan, sets);
    left := left0.(kids := Stay(left0.kids, {nav}));
  }

  // ---------------------------------------------------------------------------
  // One set
  // ---------------------------------------------------------------------------

  /** The first `n` entries of a set have been drained into `ds`, giving `es`. */
  ghost predicate SetDrained(plan: Plan, sets: Sets, t: TypeId, es: seq<Entry>, n: nat, ds: seq<Drained>)
    requires t in sets && n <= |sets[t]|
  {
    && |es| == |sets[t]| && AllGenuine(plan, sets, ds, 0)
    && (forall i :: 0 <= i < n ==> es[i] == Final(plan, t, sets[t][i]))
    && (forall i :: n <= i < |es| ==> es[i] == sets[t][i])
    && Pending(plan, sets, ds, 0) == SetTies(plan, t, sets[t], n)
    && (ds == [] ==> es == sets[t])
  }

  lemma SetTiesNext(plan: Plan, t: TypeId, es: seq<Entry>, n: nat)
    requires n < |es|
    ensures SetTies(plan, t, es, n + 1) == SetTies(plan, t, es, n) + EntryTies(plan, t, es[n])
  {
    hide EntryTies;
  }

  lemma SetDrainedStep(plan: Plan, sets: Sets, t: TypeId, es: seq<Entry>, n: nat, ds: seq<Drained>, left: Entry,
                       more: seq<Drained>)
    requires t in sets && n < |sets[t]| && SetDrained(plan, sets, t, es, n, ds)
    requires left == Final(plan, t, es[n]) && Pending(plan, sets, more, 0) == EntryTies(plan, t, es[n])
    requires AllGenuine(plan, sets, more, 0) && (more == [] ==> left == es[n])
    ensures SetDrained(plan, sets, t, es[n := left], n + 1, ds + more)
  {
    hide Pending, SetTies, EntryTies, Final;
    PendingAppend(plan, sets, ds, more);
    SetTiesNext(plan, t, sets[t], n);
    if ds + more == [] { assert es[n := left] == es; }
  }

  /** Drains an entry that is Added and no upsert. */
  method DrainEntry(at: At, e: Entry, plan: Plan, ghost sets: Sets) returns (left: Entry, ds: seq<Drained>)
    requires at.t in plan.metas && at.t in sets && at.idx < |sets[at.t]|
    requires e == sets[at.t][at.idx]
    ensures left == Final(plan, at.t, e) && Pending(plan, sets, ds, 0) == EntryTies(plan, at.t, e)
    ensures AllGenuine(plan, sets, ds, 0) && (ds == [] ==> left == e)
  {
    left, ds := e, [];
    if Drains(plan, e) {
      var entity;
      entity, ds := DrainEntity(at, e.entity, plan, sets);
      left := e.(entity := entity);
    }
  }

  /** Drains a set, entry by entry. */
  method DrainSet(t: TypeId, entries: seq<Entry>, plan: Plan, ghost sets: Sets)
    returns (es: seq<Entry>, ds: seq<Drained>)
    requires t in plan.metas && t in sets && entries == sets[t]
    ensures SetDrained(plan, sets, t, es, |sets[t]|, ds)
  {
    es, ds := entries, [];
    for n := 0 to |entries|
      invariant SetDrained(plan, sets, t, es, n, ds)
    {
      var left, more := DrainEntry(At(t, n), es[n], plan, sets);
      SetDrainedStep(plan, sets, t, es, n, ds, left, more);
      es := es[n := left];
      ds := ds + more;
    }
  }

  // ---------------------------------------------------------------------------
  // All sets
  // ---------------------------------------------------------------------------

  /** `b` has the entries of `a` at the same indices, perhaps drained, and maybe more. */
  ghost predicate Grown(plan: Plan, a: Sets, b: Sets) {
    a.Keys == b.Keys && forall t :: t in a ==> EntriesGrown(plan, t, a[t], b[t])
  }

  ghost predicate EntriesGrown(plan: Plan, t: TypeId, a: seq<Entry>, b: seq<Entry>) {
    |a| <= |b| && forall i :: 0 <= i < |a| ==> Final(plan, t, a[i]) == Final(plan, t, b[i])
  }

  lemma GrownTwice(plan: Plan, a: Sets, b: Sets, c: Sets)
    requires Grown(plan, a, b) && Grown(plan, b, c)
    ensures Grown(plan, a, c)
  {
    forall t | t in a ensures EntriesGrown(plan, t, a[t], c[t]) {
      assert EntriesGrown(plan, t, a[t], b[t]) && EntriesGrown(plan, t, b[t], c[t]);
    }
  }

  lemma GrownSelf(plan: Plan, a: Sets)
    ensures Grown(plan, a, a)
  {
    forall t | t in a ensures EntriesGrown(plan, t, a[t], a[t]) { }
  }

  lemma GrownUid(plan: Plan, a: Sets, b: Sets, t: TypeId, i: nat)
    requires Grown(plan, a, b) && t in a && i < |a[t]|
    ensures i < |b[t]| && OwnerAt(a, t, i) == OwnerAt(b, t, i) && Final(plan, t, a[t][i]) == Final(plan, t, b[t][i])
  {
    assert EntriesGrown(plan, t, a[t], b[t]);
  }

  /** The sets of the first `n` types have been drained into `ds`. */
  ghost predicate RoundDrained(plan: Plan, before: Sets, sets: Sets, types: seq<TypeId>, n: nat, ds: seq<Drained>)
    requires n <= |types|
  {
    && before.Keys == sets.Keys && (forall t :: t in before ==> |sets[t]| == |before[t]|)
    && (forall k :: 0 <= k < n ==> types[k] in plan.metas)
    && (forall k, i :: 0 <= k < n && types[k] in before && 0 <= i < |before[types[k]]| ==>
         sets[types[k]][i] == Final(plan, types[k], before[types[k]][i]))
    && (forall k :: n <= k < |types| && types[k] in before ==> sets[types[k]] == before[types[k]])
    && AllGenuine(plan, before, ds, 0) && Pending(plan, before, ds, 0) == AllTies(plan, before, types, n)
    && (ds == [] ==> sets == before)
  }

  lemma RoundStep(plan: Plan, before: Sets, sets: Sets, types: seq<TypeId>, n: nat, ds: seq<Drained>, es: seq<Entry>,
                  more: seq<Drained>)
    requires n < |types| && Covers(types, before) && types[n] in plan.metas
    requires RoundDrained(plan, before, sets, types, n, ds)
    requires SetDrained(plan, before, types[n], es, |before[types[n]]|, more)
    ensures RoundDrained(plan, before, sets[types[n] := es], types, n + 1, ds + more)
  {
    hide Pending, AllTies, SetTies, Final;
    PendingAppend(plan, before, ds, more);
    AllTiesNext(plan, before, types, n);
    if ds + more == [] { assert sets[types[n] := es] == sets; }
  }

  lemma AllTiesNext(plan: Plan, sets: Sets, types: seq<TypeId>, n: nat)
    requires n < |types|
    ensures AllTies(plan, sets, types, n + 1) == AllTies(plan, sets, types, n) + TypeTies(plan, sets, types[n])
  {
    hide TypeTies;
  }

  lemma StartRound(plan: Plan, before: Sets, types: seq<TypeId>)
    ensures RoundDrained(plan, before, before, types, 0, [])
  {
  }

  /** After a whole round every entry is drained. */
  lemma RoundFinal(plan: Plan, before: Sets, sets: Sets, types: seq<TypeId>, ds: seq<Drained>, t: TypeId, i: nat)
    requires Covers(types, before) && RoundDrained(plan, before, sets, types, |types|, ds) && t in before
    requires i < |before[t]|
    ensures sets[t][i] == Final(plan, t, before[t][i])
  {
    var k :| 0 <= k < |types| && types[k] == t;
  }

  lemma RoundGrown(plan: Plan, before: Sets, sets: Sets, types: seq<TypeId>, n: nat, ds: seq<Drained>)
    requires n <= |types| && Covers(types, before) && RoundDrained(plan, before, sets, types, n, ds)
    ensures Grown(plan, before, sets)
  {
    forall t | t in before ensures EntriesGrown(plan, t, before[t], sets[t]) {
      var k :| 0 <= k < |types| && types[k] == t;
      forall i | 0 <= i < |before[t]| ensures Final(plan, t, before[t][i]) == Final(plan, t, sets[t][i]) {
        FinalTwice(plan, t, before[t][i]);
      }
    }
  }

  /** Entries that are drained bring nothing more. */
  lemma {:induction false} NoSetTies(plan: Plan, t: TypeId, es: seq<Entry>, n: nat)
    requires n <= |es| && forall i :: 0 <= i < n ==> es[i] == Final(plan, t, es[i])
    ensures SetTies(plan, t, es, n) == multiset{}
  {
    if n > 0 {
      NoSetTies(plan, t, es, n - 1);
      FinalTwice(plan, t, es[n - 1]);
    }
  }

  /** What the sets still bring, while `n` of them are drained, and what was drained are all there was. */
  lemma {:induction false} RoundTies(plan: Plan, before: Sets, sets: Sets, types: seq<TypeId>, n: nat,
                                     ds: seq<Drained>, m: nat)
    requires n <= m <= |types| && Covers(types, before) && RoundDrained(plan, before, sets, types, n, ds)
    ensures AllTies(plan, sets, types, m) + Pending(plan, before, ds, 0) == AllTies(plan, before, types, m)
    decreases m
  {
    hide Pending, AllTies, SetTies, Final;
    if m > n {
      RoundTies(plan, before, sets, types, n, ds, m - 1);
      AllTiesNext(plan, before, types, m - 1);
      AllTiesNext(plan, sets, types, m - 1);
      assert TypeTies(plan, sets, types[m - 1]) == TypeTies(plan, before, types[m - 1]);
      Regroup(AllTies(plan, sets, types, m - 1), TypeTies(plan, sets, types[m - 1]), Pending(plan, before, ds, 0));
    } else {
      DrainedTies(plan, before, sets, types, n, ds, n);
    }
  }

  lemma {:induction false} DrainedTies(plan: Plan, before: Sets, sets: Sets, types: seq<TypeId>, n: nat,
                                       ds: seq<Drained>, m: nat)
    requires m <= n <= |types| && RoundDrained(plan, before, sets, types, n, ds)
    ensures AllTies(plan, sets, types, m) == multiset{}
  {
    if m > 0 {
      DrainedTies(plan, before, sets, types, n, ds, m - 1);
      var t := types[m - 1];
      if t in sets {
        forall i | 0 <= i < |sets[t]| ensures sets[t][i] == Final(plan, t, sets[t][i]) {
          FinalTwice(plan, t, before[t][i]);
        }
        NoSetTies(plan, t, sets[t], |sets[t]|);
      }
    }
  }

  // ---------------------------------------------------------------------------
  // New entries
  // ---------------------------------------------------------------------------

  ghost function Pushed(plan: Plan, sets: Sets, d: Drained): Sets
    requires d.nav.related in sets
  {
    sets[d.nav.related := sets[d.nav.related] + [NewEntry(plan, d.child)]]
  }

  lemma PushedGrown(plan: Plan, sets: Sets, d: Drained)
    requires d.nav.related in sets
    ensures Grown(plan, sets, Pushed(plan, sets, d))
  {
    forall u | u in sets ensures EntriesGrown(plan, u, sets[u], Pushed(plan, sets, d)[u]) { }
  }

  lemma {:induction false} SetTiesFront(plan: Plan, t: TypeId, a: seq<Entry>, b: seq<Entry>, n: nat)
    requires n <= |a| && n <= |b| && forall i :: 0 <= i < n ==> a[i] == b[i]
    ensures SetTies(plan, t, a, n) == SetTies(plan, t, b, n)
  {
    if n > 0 { SetTiesFront(plan, t, a, b, n - 1); }
  }

  /** A new entry brings what is below it. */
  lemma {:induction false} PushedTies(plan: Plan, sets: Sets, types: seq<TypeId>, d: Drained, n: nat)
    requires n <= |types| && Distinct(types) && d.nav.related in sets
    ensures AllTies(plan, Pushed(plan, sets, d), types, n) == AllTies(plan, sets, types, n)
      + (if d.nav.related in types[..n] then EntryTies(plan, d.nav.related, NewEntry(plan, d.child)) else multiset{})
  {
    hide AllTies, TypeTies, EntryTies;
    NoTypes(plan, sets, types);
    NoTypes(plan, Pushed(plan, sets, d), types);
    if n > 0 {
      PushedTies(plan, sets, types, d, n - 1);
      PushedTypeTies(plan, sets, types[n - 1], d);
      AllTiesNext(plan, sets, types, n - 1);
      AllTiesNext(plan, Pushed(plan, sets, d), types, n - 1);
      assert types[..n] == types[..n - 1] + [types[n - 1]];
      PushedTiesStep(plan, sets, types, d, n);
    }
  }

  lemma NoTypes(plan: Plan, sets: Sets, types: seq<TypeId>)
    ensures AllTies(plan, sets, types, 0) == multiset{}
  {
  }

  lemma PushedTypeTies(plan: Plan, sets: Sets, t: TypeId, d: Drained)
    requires d.nav.related in sets
    ensures TypeTies(plan, Pushed(plan, sets, d), t) == TypeTies(plan, sets, t)
      + (if t == d.nav.related then EntryTies(plan, t, NewEntry(plan, d.child)) else multiset{})
  {
    if t == d.nav.related {
      var es := sets[t] + [NewEntry(plan, d.child)];
      SetTiesFront(plan, t, es, sets[t], |sets[t]|);
      SetTiesNext(plan, t, es, |sets[t]|);
    }
  }

  lemma PushedTiesStep(plan: Plan, sets: Sets, types: seq<TypeId>, d: Drained, n: nat)
    requires 0 < n <= |types| && Distinct(types) && d.nav.related in sets
    requires types[..n] == types[..n - 1] + [types[n - 1]]
    requires AllTies(plan, Pushed(plan, sets, d), types, n)
         == AllTies(plan, Pushed(plan, sets, d), types, n - 1) + TypeTies(plan, Pushed(plan, sets, d), types[n - 1])
    requires AllTies(plan, sets, types, n) == AllTies(plan, sets, types, n - 1) + TypeTies(plan, sets, types[n - 1])
    requires TypeTies(plan, Pushed(plan, sets, d), types[n - 1]) == TypeTies(plan, sets, types[n - 1])
      + (if types[n - 1] == d.nav.related then EntryTies(plan, d.nav.related, NewEntry(plan, d.child)) else multiset{})
    requires AllTies(plan, Pushed(plan, sets, d), types, n - 1) == AllTies(plan, sets, types, n - 1)
      + (if d.nav.related in types[..n - 1] then EntryTies(plan, d.nav.related,
                                                           NewEntry(plan, d.child)) else multiset{})
    ensures AllTies(plan, Pushed(plan, sets, d), types, n) == AllTies(plan, sets, types, n)
      + (if d.nav.related in types[..n] then EntryTies(plan, d.nav.related, NewEntry(plan, d.child)) else multiset{})
  {
    hide AllTies, TypeTies, EntryTies;
    if types[n - 1] == d.nav.related {
      assert d.nav.related !in types[..n - 1];
      Regroup(AllTies(plan, sets, types, n - 1), TypeTies(plan, sets, types[n - 1]),
              EntryTies(plan, d.nav.related, NewEntry(plan, d.child)));
    } else {
      var more := if d.nav.related in types[..n - 1] then EntryTies(plan, d.nav.related, NewEntry(plan, d.child))
          else multiset{};
      Regroup(AllTies(plan, sets, types, n - 1), more, TypeTies(plan, sets, types[n - 1]));
    }
  }

  lemma LaterGenuine(plan: Plan, sets: Sets, ds: seq<Drained>, k: nat)
    requires k < |ds| && AllGenuine(plan, sets, ds, k)
    ensures AllGenuine(plan, sets, ds, k + 1)
  {
  }

  lemma GenuineKept(plan: Plan, a: Sets, b: Sets, ds: seq<Drained>, k: nat)
    requires k <= |ds| && Grown(plan, a, b) && AllGenuine(plan, a, ds, k)
    ensures AllGenuine(plan, b, ds, k) && Pending(plan, a, ds, k) == Pending(plan, b, ds, k)
  {
    forall i | k <= i < |ds|
      ensures Genuine(plan, b, ds[i])
      ensures OwnerAt(a, ds[i].parentType, ds[i].parentIdx) == OwnerAt(b, ds[i].parentType, ds[i].parentIdx) {
      assert Genuine(plan, a, ds[i]);
      GrownUid(plan, a, b, ds[i].parentType, ds[i].parentIdx);
    }
    PendingSame(plan, a, b, ds, k);
  }

  // ---------------------------------------------------------------------------
  // What is held is to be drained
  // ---------------------------------------------------------------------------

  /** `kids` holds `c` under `nav`. */
  predicate HoldsChild(kids: Kids, nav: Nav, c: Entity) {
    match kids
    case NoKids => false
    case Kid(k, d, rest) => (k == nav && d == c) || HoldsChild(rest, nav, c)
  }

  lemma {:induction false} HeldBelow(plan: Plan, p: Owner, kids: Kids, gone: set<Nav>, nav: Nav, c: Entity)
    requires nav in gone && HoldsChild(kids, nav, c)
    ensures TieOf(plan, p, nav, c) in Below(plan, p, kids, gone)
  {
    hide TieOf;
    var rest := kids.rest;
    KidTies(plan, p, kids, gone);
    if !(kids.nav == nav && kids.child == c) { HeldBelow(plan, p, rest, gone, nav, c); }
  }

  lemma {:induction false} HeldInSet(plan: Plan, t: TypeId, es: seq<Entry>, n: nat, i: nat, tie: Tie)
    requires i < n <= |es| && tie in EntryTies(plan, t, es[i])
    ensures tie in SetTies(plan, t, es, n)
  {
    hide EntryTies;
    if i < n - 1 { HeldInSet(plan, t, es, n - 1, i, tie); }
  }

  lemma {:induction false} HeldInTypes(plan: Plan, sets: Sets, types: seq<TypeId>, n: nat, k: nat, tie: Tie)
    requires k < n <= |types| && tie in TypeTies(plan, sets, types[k])
    ensures tie in AllTies(plan, sets, types, n)
  {
    hide TypeTies;
    if k < n - 1 { HeldInTypes(plan, sets, types, n - 1, k, tie); }
  }

  /** A child held under a draining navigation of an entry to be drained is among what there is. */
  lemma HeldIsThere(plan: Plan, sets: Sets, types: seq<TypeId>, t: TypeId, i: nat, nav: Nav, c: Entity)
    requires Covers(types, sets) && t in sets && i < |sets[t]| && Drains(plan, sets[t][i])
    requires nav in Gone(plan, t) && HoldsChild(sets[t][i].entity.kids, nav, c)
    ensures TieOf(plan, Owner(t, sets[t][i].entity.uid), nav, c) in AllTies(plan, sets, types, |types|)
  {
    hide AllTies, Below, TieOf, SetTies;
    var e := sets[t][i];
    var tie := TieOf(plan, Owner(t, e.entity.uid), nav, c);
    HeldBelow(plan, Owner(t, e.entity.uid), e.entity.kids, Gone(plan, t), nav, c);
    assert tie in EntryTies(plan, t, e);
    HeldInSet(plan, t, sets[t], |sets[t]|, i, tie);
    var n :| 0 <= n < |types| && types[n] == t;
    HeldInTypes(plan, sets, types, |types|, n, tie);
  }

  /** Draining empties the containers in `gone` and leaves the others as they are. */
  lemma {:induction false} StayTakes(kids: Kids, gone: set<Nav>, nav: Nav)
    ensures Taken(Stay(kids, gone), nav) == if nav in gone then NoKids else Taken(kids, nav)
  {
    match kids
    case NoKids =>
    case Kid(_, _, rest) => StayTakes(rest, gone, nav);
  }
}
