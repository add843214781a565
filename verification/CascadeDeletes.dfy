/** Cascading deletes: the children of Deleted entries become Deleted entries, and statements are issued
    for dependents that are not tracked. */
module CascadeDeletes {
  import opened Wrappers
  import opened SaveModel
  import opened CascadeDrain

  datatype Action = Delete | Nullify

  /** DELETE from, or SET NULL in, `table` where `fkColumn` is `key`. */
  datatype Directive = Directive(table: string, fkColumn: string, key: int, action: Action)

  /** An expanded entry, with its key. */
  datatype Expanded = Expanded(type_: TypeId, idx: nat, key: int)

  /** The statement one navigation of a deleted principal calls for. */
  function DirectiveOf(key: int, nav: Nav): Option<Directive> {
    if key <= 0 then None
    else if nav.kind == ManyToMany && nav.throughTable.Some? && nav.throughParent.Some? then
      Some(Directive(nav.throughTable.value, nav.throughParent.value, key, Delete))
    else if nav.kind == HasMany && nav.table.Some? && nav.fkColumn.Some? && Resolve(nav) == Cascade then
      Some(Directive(nav.table.value, nav.fkColumn.value, key, Delete))
    else if nav.kind == HasMany && nav.table.Some? && nav.fkColumn.Some? && Resolve(nav) == SetNull then
      Some(Directive(nav.table.value, nav.fkColumn.value, key, Nullify))
    else None
  }

  /** The statements of one principal, over its first `n` navigations. */
  function DirectivesOf(key: int, navs: seq<Nav>, n: nat): seq<Directive>
    requires n <= |navs|
  {
    if n == 0 then []
    else
      var before := DirectivesOf(key, navs, n - 1);
      match DirectiveOf(key, navs[n - 1])
      case None => before
      case Some(d) => before + [d]
  }

  /** The statements of the first `n` expanded entries, in the order they were expanded. */
  function AllDirectives(order: seq<Expanded>, metas: Metas, n: nat): seq<Directive>
    requires n <= |order|
  {
    if n == 0 then []
    else
      AllDirectives(order, metas, n - 1) + EntryDirectives(metas, order[n - 1])
  }

  function NavsOf(metas: Metas, t: TypeId): seq<Nav> {
    if t in metas then metas[t] else []
  }

  function EntryDirectives(metas: Metas, e: Expanded): seq<Directive> {
    DirectivesOf(e.key, NavsOf(metas, e.type_), |NavsOf(metas, e.type_)|)
  }

  lemma {:induction false} AllDirectivesPush(order: seq<Expanded>, metas: Metas, e: Expanded, n: nat)
    requires n <= |order|
    ensures AllDirectives(order + [e], metas, n) == AllDirectives(order, metas, n)
  {
    if n > 0 { AllDirectivesPush(order, metas, e, n - 1); }
  }

  // ---------------------------------------------------------------------------
  // Which entries have been expanded
  // ---------------------------------------------------------------------------

  /** `order` lists the processed entries once each; all are Deleted entries with the key noted. */
  ghost predicate OrderOk(sets: Sets, order: seq<Expanded>, processed: set<(TypeId, nat)>) {
    && (forall k :: 0 <= k < |order| ==> NamesDeleted(sets, order[k]) && (order[k].type_, order[k].idx) in processed)
    && (forall t: TypeId, i: nat :: (t, i) in processed ==>
         exists k :: 0 <= k < |order| && order[k].type_ == t && order[k].idx == i)
    && forall j, k :: 0 <= j < k < |order| ==> (order[j].type_, order[j].idx) != (order[k].type_, order[k].idx)
  }

  ghost predicate NamesDeleted(sets: Sets, e: Expanded) {
    && e.type_ in sets && e.idx < |sets[e.type_]|
    && sets[e.type_][e.idx].state == Deleted && sets[e.type_][e.idx].entity.key == e.key
  }

  lemma OrderPush(sets: Sets, order: seq<Expanded>, processed: set<(TypeId, nat)>, e: Expanded)
    requires OrderOk(sets, order, processed) && NamesDeleted(sets, e) && (e.type_, e.idx) !in processed
    ensures OrderOk(sets, order + [e], processed + {(e.type_, e.idx)})
  {
    var more := order + [e];
    forall t: TypeId, i: nat | (t, i) in processed + {(e.type_, e.idx)}
      ensures exists k :: 0 <= k < |more| && more[k].type_ == t && more[k].idx == i {
      if (t, i) in processed {
        var k :| 0 <= k < |order| && order[k].type_ == t && order[k].idx == i;
        assert more[k] == order[k];
      } else {
        assert more[|order|] == e;
      }
    }
  }

  lemma OrderKept(plan: Plan, sets: Sets, after: Sets, order: seq<Expanded>, processed: set<(TypeId, nat)>)
    requires OrderOk(sets, order, processed) && Grown(plan, sets, after)
    ensures OrderOk(after, order, processed)
  {
    forall k | 0 <= k < |order| ensures NamesDeleted(after, order[k]) {
      var e := order[k];
      assert NamesDeleted(sets, e);
      GrownUid(plan, sets, after, e.type_, e.idx);
    }
  }

  // ---------------------------------------------------------------------------
  // Expanding
  // ---------------------------------------------------------------------------

  /** Goes through the navigations of a deleted principal: a statement for untracked dependents, and the
      tracked children of cascading ones. */
  method ExpandEntity(at: At, e: Entity, plan: Plan, ghost sets: Sets)
    returns (left: Entity, ds: seq<Drained>, out: seq<Directive>)
    requires at.t in plan.metas && at.t in sets && at.idx < |sets[at.t]|
    requires Owner(at.t, e.uid) == OwnerAt(sets, at.t, at.idx) && Drains(plan, sets[at.t][at.idx])
    ensures left == e.(kids := Stay(e.kids, Gone(plan, at.t)))
    ensures Pending(plan, sets, ds, 0) == Below(plan, Owner(at.t, e.uid), e.kids, Gone(plan, at.t))
    ensures AllGenuine(plan, sets, ds, 0) && (ds == [] ==> left == e)
    ensures out == DirectivesOf(e.key, plan.metas[at.t], |plan.metas[at.t]|)
  {
    var navs := plan.metas[at.t];
    left, ds, out := e, [], [];
    assert GoneUpTo(plan, navs, 0) == {};
    StayNone(e.kids);
    NothingBelow(plan, Owner(at.t, e.uid), e.kids, {});
    for j := 0 to |navs|
      invariant left == e.(kids := Stay(e.kids, GoneUpTo(plan, navs, j)))
      invariant Pending(plan, sets, ds, 0) == Below(plan, Owner(at.t, e.uid), e.kids, GoneUpTo(plan, navs, j))
      invariant AllGenuine(plan, sets, ds, 0) && (ds == [] ==> left == e)
      invariant out == DirectivesOf(e.key, navs, j)
    {
      GoneNext(plan, navs, j);
      if Moves(plan, navs[j]) {
        left, ds := DrainNav(at, e, left, ds, j, plan, sets);
      }
      var d := DirectiveOf(e.key, navs[j]);
      if d.Some? { out := out + [d.value]; }
    }
    AllGone(plan, at.t);
  }

  /** An expanded entry is drained. */
  ghost predicate Done(plan: Plan, sets: Sets, t: TypeId, i: nat) {
    t in sets && i < |sets[t]| && sets[t][i] == Final(plan, t, sets[t][i])
  }

  ghost predicate AllDone(plan: Plan, sets: Sets, processed: set<(TypeId, nat)>) {
    forall t: TypeId, i: nat :: (t, i) in processed ==> Done(plan, sets, t, i)
  }

  /** The statements so far are those of the processed entries, one entry after the other. */
  ghost predicate Expansion(plan: Plan, sets: Sets, processed: set<(TypeId, nat)>, directives: seq<Directive>,
                            order: seq<Expanded>) {
    && plan.mode == Deleting && OrderOk(sets, order, processed)
    && directives == AllDirectives(order, plan.metas, |order|) && AllDone(plan, sets, processed)
  }

  /** `sets` with entry `i` of type `t` drained. */
  ghost function Lightened(plan: Plan, sets: Sets, t: TypeId, i: nat): Sets
    requires t in sets && i < |sets[t]|
  {
    sets[t := sets[t][i := Final(plan, t, sets[t][i])]]
  }

  lemma LightenedGrown(plan: Plan, sets: Sets, t: TypeId, i: nat)
    requires t in sets && i < |sets[t]|
    ensures Grown(plan, sets, Lightened(plan, sets, t, i))
  {
    FinalTwice(plan, t, sets[t][i]);
    forall u | u in sets ensures EntriesGrown(plan, u, sets[u], Lightened(plan, sets, t, i)[u]) { }
  }

  lemma ExpansionStep(plan: Plan, sets: Sets, processed: set<(TypeId, nat)>, directives: seq<Directive>,
                      order: seq<Expanded>, t: TypeId, i: nat)
    requires Expansion(plan, sets, processed, directives, order)
    requires t in sets && t in plan.metas && i < |sets[t]| && sets[t][i].state == Deleted && (t, i) !in processed
    ensures var key := sets[t][i].entity.key;
      Expansion(plan, Lightened(plan, sets, t, i), processed + {(t, i)},
                directives + DirectivesOf(key, plan.metas[t], |plan.metas[t]|), order + [Expanded(t, i, key)])
  {
    hide AllDirectives, DirectivesOf;
    var e, after := Expanded(t, i, sets[t][i].entity.key), Lightened(plan, sets, t, i);
    LightenedGrown(plan, sets, t, i);
    OrderKept(plan, sets, after, order, processed);
    OrderPush(after, order, processed, e);
    AllDirectivesPush(order, plan.metas, e, |order|);
    AllDirectivesNext(order + [e], plan.metas, |order|);
    FinalTwice(plan, t, sets[t][i]);
    forall u: TypeId, j: nat | (u, j) in processed + {(t, i)} ensures Done(plan, after, u, j) {
      if (u, j) in processed { assert Done(plan, sets, u, j); }
    }
  }

  lemma AllDirectivesNext(order: seq<Expanded>, metas: Metas, n: nat)
    requires n < |order|
    ensures AllDirectives(order, metas, n + 1) == AllDirectives(order, metas, n) + EntryDirectives(metas, order[n])
  {
    hide EntryDirectives;
  }

  lemma ExpansionKept(plan: Plan, a: Sets, b: Sets, processed: set<(TypeId, nat)>, directives: seq<Directive>,
                      order: seq<Expanded>)
    requires Expansion(plan, a, processed, directives, order) && Grown(plan, a, b)
    requires forall t, i :: t in a && 0 <= i < |a[t]| ==> i < |b[t]| && b[t][i] == a[t][i]
    ensures Expansion(plan, b, processed, directives, order)
  {
    OrderKept(plan, a, b, order, processed);
    forall t: TypeId, i: nat | (t, i) in processed ensures Done(plan, b, t, i) {
      assert Done(plan, a, t, i);
    }
  }

  // ---------------------------------------------------------------------------
  // New entries
  // ---------------------------------------------------------------------------

  /** A Deleted entry that came in stands for this tie. */
  function NewTie(plan: Plan, t: TypeId, e: Entry): Tie {
    Tie(NOBODY_OWNS, t, None, Final(plan, t, e).entity)
  }

  /** The ties of the entries from `from` up to `n`. */
  function NewsIn(plan: Plan, t: TypeId, es: seq<Entry>, from: nat, n: nat): multiset<Tie>
    requires from <= n <= |es|
    decreases n
  {
    if n == from then multiset{} else NewsIn(plan, t, es, from, n - 1) + multiset{NewTie(plan, t, es[n - 1])}
  }

  function NewsOf(plan: Plan, start: Sets, sets: Sets, t: TypeId): multiset<Tie> {
    if t in start && t in sets
        && |start[t]| <= |sets[t]| then NewsIn(plan, t, sets[t], |start[t]|, |sets[t]|) else multiset{}
  }

  /** The ties of all entries added since `start`, over the first `n` types. */
  function News(plan: Plan, start: Sets, sets: Sets, types: seq<TypeId>, n: nat): multiset<Tie>
    requires n <= |types|
  {
    if n == 0 then multiset{} else News(plan, start, sets, types, n - 1) + NewsOf(plan, start, sets, types[n - 1])
  }

  lemma {:induction false} NewsInSame(plan: Plan, t: TypeId, a: seq<Entry>, b: seq<Entry>, from: nat, n: nat)
    requires from <= n <= |a| && n <= |b| && forall i :: 0 <= i < n ==> Final(plan, t, a[i]) == Final(plan, t, b[i])
    ensures NewsIn(plan, t, a, from, n) == NewsIn(plan, t, b, from, n)
    decreases n
  {
    if n > from { NewsInSame(plan, t, a, b, from, n - 1); }
  }

  lemma {:induction false} NewsSame(plan: Plan, start: Sets, a: Sets, b: Sets, types: seq<TypeId>, n: nat)
    requires n <= |types| && Grown(plan, a, b) && forall t :: t in a ==> |a[t]| == |b[t]|
    ensures News(plan, start, a, types, n) == News(plan, start, b, types, n)
  {
    if n > 0 {
      NewsSame(plan, start, a, b, types, n - 1);
      var t := types[n - 1];
      if t in start && t in a && |start[t]| <= |a[t]| {
        assert EntriesGrown(plan, t, a[t], b[t]);
        NewsInSame(plan, t, a[t], b[t], |start[t]|, |a[t]|);
      }
    }
  }

  lemma NoNews(plan: Plan, start: Sets, types: seq<TypeId>, n: nat)
    requires n <= |types|
    ensures News(plan, start, start, types, n) == multiset{}
  {
    if n > 0 { NoNews(plan, start, types, n - 1); }
  }

  lemma PushedNewsOf(plan: Plan, start: Sets, sets: Sets, t: TypeId, d: Drained)
    requires d.nav.related in sets && d.nav.related in start && |start[d.nav.related]| <= |sets[d.nav.related]|
    ensures NewsOf(plan, start, Pushed(plan, sets, d), t) == NewsOf(plan, start, sets, t)
      + (if t == d.nav.related then multiset{NewTie(plan, t, NewEntry(plan, d.child))} else multiset{})
  {
    if t == d.nav.related {
      NewsInSame(plan, t, sets[t], sets[t] + [NewEntry(plan, d.child)], |start[t]|, |sets[t]|);
    }
  }

  lemma NewsNext(plan: Plan, start: Sets, sets: Sets, types: seq<TypeId>, n: nat)
    requires n < |types|
    ensures News(plan, start, sets, types, n + 1)
         == News(plan, start, sets, types, n) + NewsOf(plan, start, sets, types[n])
    ensures News(plan, start, sets, types, 0) == multiset{}
  {
    hide NewsOf;
  }

  /** A pushed child is one new tie. */
  lemma {:induction false} PushedNews(plan: Plan, start: Sets, sets: Sets, types: seq<TypeId>, d: Drained, n: nat)
    requires n <= |types| && Distinct(types)
    requires d.nav.related in sets && d.nav.related in start && |start[d.nav.related]| <= |sets[d.nav.related]|
    ensures News(plan, start, Pushed(plan, sets, d), types, n) == News(plan, start, sets, types, n)
      + (if d.nav.related in types[..n] then multiset{NewTie(plan, d.nav.related,
                                                             NewEntry(plan, d.child))} else multiset{})
  {
    hide News, NewsOf, NewTie;
    if n > 0 {
      PushedNews(plan, start, sets, types, d, n - 1);
      PushedNewsOf(plan, start, sets, types[n - 1], d);
      NewsNext(plan, start, sets, types, n - 1);
      NewsNext(plan, start, Pushed(plan, sets, d), types, n - 1);
      assert types[..n] == types[..n - 1] + [types[n - 1]];
      var tie := multiset{NewTie(plan, d.nav.related, NewEntry(plan, d.child))};
      if types[n - 1] == d.nav.related {
        assert d.nav.related !in types[..n - 1];
        Regroup(News(plan, start, sets, types, n - 1), NewsOf(plan, start, sets, types[n - 1]), tie);
      } else {
        var more := if d.nav.related in types[..n - 1] then tie else multiset{};
        Regroup(News(plan, start, sets, types, n - 1), more, NewsOf(plan, start, sets, types[n - 1]));
      }
    } else {
      NoNewsYet(plan, start, sets, types);
      NoNewsYet(plan, start, Pushed(plan, sets, d), types);
    }
  }

  lemma NoNewsYet(plan: Plan, start: Sets, sets: Sets, types: seq<TypeId>)
    ensures News(plan, start, sets, types, 0) == multiset{}
  {
  }

  // ---------------------------------------------------------------------------
  // Rounds
  // ---------------------------------------------------------------------------

  /** Every Deleted entry among the first `n` of the set has been expanded. */
  ghost predicate SetExpanded(before: Sets, processed: set<(TypeId, nat)>, t: TypeId, n: nat)
    requires t in before && n <= |before[t]|
  {
    forall i: nat :: i < n && before[t][i].state == Deleted ==> (t, i) in processed
  }

  ghost predicate AllExpanded(sets: Sets, processed: set<(TypeId, nat)>) {
    forall t :: t in sets ==> SetExpanded(sets, processed, t, |sets[t]|)
  }

  ghost predicate TypesExpanded(before: Sets, processed: set<(TypeId, nat)>, types: seq<TypeId>, n: nat)
    requires n <= |types|
  {
    forall k :: 0 <= k < n && types[k] in before ==> SetExpanded(before, processed, types[k], |before[types[k]]|)
  }

  /** An entry that is not Deleted, or was expanded before, is as it will be. */
  lemma NothingToExpand(plan: Plan, sets: Sets, processed: set<(TypeId, nat)>, directives: seq<Directive>,
                        order: seq<Expanded>, t: TypeId, e: Entry, i: nat)
    requires Expansion(plan, sets, processed, directives, order) && t in sets && i < |sets[t]| && e == sets[t][i]
    requires e.state != Deleted || (t, i) in processed
    ensures e == Final(plan, t, e) && EntryTies(plan, t, e) == multiset{}
  {
    if e.state == Deleted {
      assert Done(plan, sets, t, i);
      FinalTwice(plan, t, e);
    }
  }

  lemma TypesExpandedStep(before: Sets, was: set<(TypeId, nat)>, processed: set<(TypeId, nat)>, types: seq<TypeId>,
                          n: nat)
    requires n < |types| && TypesExpanded(before, was, types, n) && was <= processed
    requires types[n] in before && SetExpanded(before, processed, types[n], |before[types[n]]|)
    ensures TypesExpanded(before, processed, types, n + 1)
  {
    forall k | 0 <= k < n + 1 && types[k] in before
      ensures SetExpanded(before, processed, types[k], |before[types[k]]|) {
      if k < n { assert SetExpanded(before, was, types[k], |before[types[k]]|); }
    }
  }

  /** After a round every Deleted entry is expanded. */
  lemma EveryTypeExpanded(plan: Plan, before: Sets, sets: Sets, processed: set<(TypeId, nat)>, types: seq<TypeId>,
                          ds: seq<Drained>)
    requires Covers(types, before) && TypesExpanded(before, processed, types, |types|)
    requires RoundDrained(plan, before, sets, types, |types|, ds)
    ensures AllExpanded(sets, processed)
  {
    hide Pending, AllTies, Stay;
    forall t | t in sets ensures SetExpanded(sets, processed, t, |sets[t]|) {
      var k :| 0 <= k < |types| && types[k] == t;
      assert SetExpanded(before, processed, t, |before[t]|);
      forall i: nat | i < |sets[t]| && sets[t][i].state == Deleted ensures (t, i) in processed {
        RoundFinal(plan, before, sets, types, ds, t, i);
      }
    }
  }

  // ---------------------------------------------------------------------------
  // Attaching
  // ---------------------------------------------------------------------------

  /** Entries added since `start` are Deleted ones with a key. */
  ghost predicate NewAreDeleted(plan: Plan, start: Sets, sets: Sets) {
    forall t, i :: t in start && t in sets && |start[t]| <= i < |sets[t]| ==> EntersDeleted(plan, sets[t][i])
  }

  predicate EntersDeleted(plan: Plan, e: Entry) {
    e == NewEntry(plan, e.entity) && e.entity.key != 0
  }

  ghost predicate Keyless(ties: multiset<Tie>) {
    forall tie :: tie in ties ==> tie.child.key == 0
  }

  /** What is still held, what came in, what was dropped for want of a key and what is pending (`ds` from
      `k` on) are together all there was at the start. */
  ghost predicate Attached(plan: Plan, start: Sets, sets: Sets, types: seq<TypeId>, ds: seq<Drained>, k: nat,
                           dropped: multiset<Tie>)
    requires k <= |ds|
  {
    && plan.mode == Deleting && Covers(types, sets) && Grown(plan, start, sets) && NewAreDeleted(plan, start, sets)
    && AllGenuine(plan, sets, ds, k) && Keyless(dropped)
    && AllTies(plan, sets, types, |types|) + News(plan, start, sets, types, |types|) + dropped
         + Pending(plan, sets, ds, k)
       == AllTies(plan, start, types, |types|)
  }

  lemma StartAttached(plan: Plan, start: Sets, types: seq<TypeId>)
    requires plan.mode == Deleting && Covers(types, start)
    ensures Attached(plan, start, start, types, [], 0, multiset{})
  {
    GrownSelf(plan, start);
    NoNews(plan, start, types, |types|);
  }

  lemma RoundAttached(plan: Plan, start: Sets, before: Sets, sets: Sets, types: seq<TypeId>, n: nat, ds: seq<Drained>,
                      dropped: multiset<Tie>)
    requires n <= |types| && Attached(plan, start, before, types, [], 0, dropped)
    requires RoundDrained(plan, before, sets, types, n, ds)
    ensures Attached(plan, start, sets, types, ds, 0, dropped)
  {
    hide AllTies, News, Pending, Final;
    RoundGrown(plan, before, sets, types, n, ds);
    GrownTwice(plan, start, before, sets);
    NewsSame(plan, start, before, sets, types, |types|);
    GenuineKept(plan, before, sets, ds, 0);
    RoundTies(plan, before, sets, types, n, ds, |types|);
    PendingEnd(plan, before, []);
    StillDeleted(plan, start, before, sets);
    Exchange(AllTies(plan, sets, types, |types|), Pending(plan, before, ds, 0), News(plan, start, sets, types, |types|),
             dropped);
  }

  lemma Exchange<T>(a: multiset<T>, b: multiset<T>, c: multiset<T>, d: multiset<T>)
    ensures (a + b) + c + d + multiset{} == a + c + d + b
  {
  }

  lemma StillDeleted(plan: Plan, start: Sets, before: Sets, sets: Sets)
    requires plan.mode == Deleting && NewAreDeleted(plan, start, before) && Grown(plan, before, sets)
    requires forall t :: t in before ==> |sets[t]| == |before[t]|
    ensures NewAreDeleted(plan, start, sets)
  {
    hide Stay;
    forall t, i | t in start && t in sets && |start[t]| <= i < |sets[t]| ensures EntersDeleted(plan, sets[t][i]) {
      assert EntriesGrown(plan, t, before[t], sets[t]);
      assert EntersDeleted(plan, before[t][i]) && Final(plan, t, before[t][i]) == Final(plan, t, sets[t][i]);
    }
  }

  lemma KeyedStep(plan: Plan, start: Sets, sets: Sets, types: seq<TypeId>, ds: seq<Drained>, k: nat,
                  dropped: multiset<Tie>)
    requires k < |ds| && Attached(plan, start, sets, types, ds, k, dropped) && ds[k].nav.related in sets
    requires ds[k].child.key != 0
    ensures Attached(plan, start, Pushed(plan, sets, ds[k]), types, ds, k + 1, dropped)
    ensures News(plan, start, Pushed(plan, sets, ds[k]), types, |types|) == News(plan, start, sets, types, |types|)
      + multiset{NewTie(plan, ds[k].nav.related, NewEntry(plan, ds[k].child))}
  {
    hide AllTies, News, Pending, EntryTies, Final, NewTie, TieOf, AllGenuine, Keyless;
    var d, more := ds[k], Pushed(plan, sets, ds[k]);
    var p := OwnerAt(sets, d.parentType, d.parentIdx);
    PushedGrown(plan, sets, d);
    GrownTwice(plan, start, sets, more);
    PushedTies(plan, sets, types, d, |types|);
    assert types[..|types|] == types;
    assert EntriesGrown(plan, d.nav.related, start[d.nav.related], sets[d.nav.related]);
    PushedNews(plan, start, sets, types, d, |types|);
    LaterGenuine(plan, sets, ds, k);
    GenuineKept(plan, sets, more, ds, k + 1);
    PendingAt(plan, sets, ds, k);
    KeyedWhole(plan, p, d);
    PushedDeleted(plan, start, sets, d);
    Move(AllTies(plan, sets, types, |types|), EntryTies(plan, d.nav.related, NewEntry(plan, d.child)),
         News(plan, start, sets, types, |types|), multiset{NewTie(plan, d.nav.related, NewEntry(plan, d.child))},
         dropped, Pending(plan, sets, ds, k + 1));
  }

  lemma Move<T>(a: multiset<T>, b: multiset<T>, c: multiset<T>, d: multiset<T>, e: multiset<T>, f: multiset<T>)
    ensures (a + b) + (c + d) + e + f == a + c + e + ((d + b) + f)
  {
  }

  lemma KeyedWhole(plan: Plan, p: Owner, d: Drained)
    requires plan.mode == Deleting && d.child.key != 0
    ensures Whole(plan, p, d.nav, d.child)
         == multiset{NewTie(plan, d.nav.related, NewEntry(plan, d.child))} + EntryTies(plan, d.nav.related,
                                                                                       NewEntry(plan, d.child))
  {
    hide EntryTies, Final;
  }

  lemma PushedDeleted(plan: Plan, start: Sets, sets: Sets, d: Drained)
    requires NewAreDeleted(plan, start, sets) && d.nav.related in sets && d.child.key != 0
    ensures NewAreDeleted(plan, start, Pushed(plan, sets, d))
  {
  }

  /** A child without a key is dropped, with everything it holds. */
  lemma KeylessStep(plan: Plan, start: Sets, sets: Sets, types: seq<TypeId>, ds: seq<Drained>, k: nat,
                    dropped: multiset<Tie>)
    returns (more: multiset<Tie>)
    requires k < |ds| && Attached(plan, start, sets, types, ds, k, dropped) && ds[k].child.key == 0
    ensures Attached(plan, start, sets, types, ds, k + 1, more) && |more| == |dropped| + 1
  {
    hide AllTies, News, Pending, Grown, AllGenuine;
    var p := OwnerAt(sets, ds[k].parentType, ds[k].parentIdx);
    var tie := TieOf(plan, p, ds[k].nav, ds[k].child);
    more := dropped + multiset{tie};
    LaterGenuine(plan, sets, ds, k);
    PendingAt(plan, sets, ds, k);
    assert DrainedWhole(plan, sets, ds[k]) == multiset{tie};
    Drop(AllTies(plan, sets, types, |types|), News(plan, start, sets, types, |types|), dropped, multiset{tie},
         Pending(plan, sets, ds, k + 1));
  }

  lemma Drop<T>(a: multiset<T>, b: multiset<T>, c: multiset<T>, d: multiset<T>, e: multiset<T>)
    ensures a + b + (c + d) + e == a + b + c + (d + e)
  {
  }

  lemma AllAttached(plan: Plan, start: Sets, sets: Sets, types: seq<TypeId>, ds: seq<Drained>, dropped: multiset<Tie>)
    requires Attached(plan, start, sets, types, ds, |ds|, dropped)
    ensures Attached(plan, start, sets, types, [], 0, dropped)
  {
    hide AllTies, News, Grown;
  }

  /** As more comes in or is dropped, less is left to drain. */
  lemma FewerTies(plan: Plan, start: Sets, a: Sets, b: Sets, types: seq<TypeId>, was: multiset<Tie>,
                  dropped: multiset<Tie>)
    requires Attached(plan, start, a, types, [], 0, was) && Attached(plan, start, b, types, [], 0, dropped)
    requires |News(plan, start, b, types, |types|)| + |dropped| > |News(plan, start, a, types, |types|)| + |was|
    ensures |AllTies(plan, b, types, |types|)| < |AllTies(plan, a, types, |types|)|
  {
    hide AllTies, News, Grown, Pending;
    PendingEnd(plan, a, []);
    PendingEnd(plan, b, []);
    Sizes(AllTies(plan, a, types, |types|), News(plan, start, a, types, |types|), was);
    Sizes(AllTies(plan, b, types, |types|), News(plan, start, b, types, |types|), dropped);
  }

  lemma Sizes<T>(a: multiset<T>, b: multiset<T>, c: multiset<T>)
    ensures |a + b + c + multiset{}| == |a| + |b| + |c|
  {
    assert a + b + c + multiset{} == a + b + c;
  }

  datatype Error = NoSet(childType: TypeId) | NoMetadata(type_: TypeId)

  /** The outcome of the drain: entries there before are drained at their old indices, new ones are
      Deleted, keyed and drained; they are exactly the keyed children held under cascading containers of
      Deleted entries, at any depth; every Deleted entry is expanded once and the statements are exactly
      theirs. */
  ghost predicate DeletesDrained(plan: Plan, start: Sets, sets: Sets, types: seq<TypeId>, x: Expansions) {
    && Covers(types, sets) && sets.Keys == start.Keys
    && (forall t :: t in start ==> DrainedSet(plan, t, start[t], sets[t]))
    && Expansion(plan, sets, x.processed, x.directives, x.order) && AllExpanded(sets, x.processed) && Keyless(x.dropped)
    && News(plan, start, sets, types, |types|) + x.dropped == AllTies(plan, start, types, |types|)
  }

  /** The entries expanded, in which order, the statements issued, and the keyless children left out. */
  datatype Expansions =
    Expansions(processed: set<(TypeId, nat)>, directives: seq<Directive>, order: seq<Expanded>, dropped: multiset<Tie>)

  ghost predicate DrainedSet(plan: Plan, t: TypeId, before: seq<Entry>, after: seq<Entry>) {
    && |before| <= |after|
    && (forall i :: 0 <= i < |before| ==> after[i] == Final(plan, t, before[i]))
    && forall i :: |before| <= i < |after| ==> EntersDeleted(plan, after[i]) && after[i] == Final(plan, t, after[i])
  }

  lemma LastRound(plan: Plan, start: Sets, sets: Sets, types: seq<TypeId>, dropped: multiset<Tie>)
    requires Attached(plan, start, sets, types, [], 0, dropped) && RoundDrained(plan, sets, sets, types, |types|, [])
    ensures sets.Keys == start.Keys && forall t :: t in start ==> DrainedSet(plan, t, start[t], sets[t])
    ensures News(plan, start, sets, types, |types|) + dropped == AllTies(plan, start, types, |types|)
  {
    hide AllTies, News, Final;
    DrainedTies(plan, sets, sets, types, |types|, [], |types|);
    PendingEnd(plan, sets, []);
    forall t | t in start ensures DrainedSet(plan, t, start[t], sets[t]) {
      assert EntriesGrown(plan, t, start[t], sets[t]);
      forall i | 0 <= i < |sets[t]| ensures sets[t][i] == Final(plan, t, sets[t][i]) {
        RoundFinal(plan, sets, sets, types, [], t, i);
      }
      forall i | |start[t]| <= i < |sets[t]| ensures EntersDeleted(plan, sets[t][i]) { }
    }
  }

  class DeleteContext {
    const types: seq<TypeId>
    const plan: Plan
    var sets: Sets
    var processed: set<(TypeId, nat)>
    var directives: seq<Directive>
    ghost var order: seq<Expanded>
    ghost var dropped: multiset<Tie>

    constructor (types: seq<TypeId>, metas: Metas, sets: Sets)
      ensures this.types == types && plan == Plan(Deleting, metas) && this.sets == sets
      ensures processed == {} && directives == [] && order == [] && dropped == multiset{}
    {
      this.types, plan, this.sets := types, Plan(Deleting, metas), sets;
      processed, directives, order, dropped := {}, [], [], multiset{};
    }

    ghost predicate Valid()
      reads this
    {
      Expansion(plan, sets, processed, directives, order)
    }

    /** How many children came in or were dropped. */
    ghost function Came(start: Sets, now: Sets, dropped: multiset<Tie>): nat {
      |News(plan, start, now, types, |types|)| + |dropped|
    }

    /** Expands one Deleted entry and marks it. */
    method ExpandEntry(t: TypeId, i: nat, ghost before: Sets) returns (ds: seq<Drained>)
      requires Valid() && t in sets && t in plan.metas && i < |sets[t]|
      requires t in before && i < |before[t]| && before[t][i] == sets[t][i]
      requires sets[t][i].state == Deleted && (t, i) !in processed
      modifies this`sets, this`processed, this`directives, this`order
      ensures Valid() && processed == old(processed) + {(t, i)} && sets == Lightened(plan, old(sets), t, i)
      ensures Pending(plan, before, ds, 0) == EntryTies(plan, t, before[t][i])
      ensures AllGenuine(plan, before, ds, 0) && (ds == [] ==> sets[t][i] == old(sets)[t][i])
    {
      hide AllDirectives, DirectivesOf, Pending, Below;
      var e := sets[t][i];
      ExpansionStep(plan, sets, processed, directives, order, t, i);
      var left, out;
      left, ds, out := ExpandEntity(At(t, i), e.entity, plan, before);
      sets := sets[t := sets[t][i := e.(entity := left)]];
      processed := processed + {(t, i)};
      directives := directives + out;
      order := order + [Expanded(t, i, e.entity.key)];
    }

    /** Goes through one set. */
    method ExpandSet(t: TypeId, ghost before: Sets) returns (ds: seq<Drained>)
      requires Valid() && t in sets && t in plan.metas && t in before && sets[t] == before[t]
      modifies this`sets, this`processed, this`directives, this`order
      ensures Valid() && old(processed) <= processed && SetExpanded(before, processed, t, |before[t]|)
      ensures t in sets && sets == old(sets)[t := sets[t]] && SetDrained(plan, before, t, sets[t], |before[t]|, ds)
    {
      hide Pending, SetTies, EntryTies, Final, Expansion;
      ds := [];
      StartSet(plan, before, t);
      for i := 0 to |sets[t]|
        invariant Valid() && t in sets && sets == old(sets)[t := sets[t]] && SetDrained(plan, before, t, sets[t], i, ds)
        invariant old(processed) <= processed && SetExpanded(before, processed, t, i)
      {
        ghost var es := sets[t];
        var more: seq<Drained> := [];
        if sets[t][i].state == Deleted && (t, i) !in processed {
          more := ExpandEntry(t, i, before);
        } else {
          NothingToExpand(plan, sets, processed, directives, order, t, es[i], i);
          PendingEnd(plan, before, []);
          assert es[i := es[i]] == es;
        }
        SetDrainedStep(plan, before, t, es, i, ds, Final(plan, t, es[i]), more);
        ds := ds + more;
      }
    }

    /** One pass over all sets. */
    method ExpandRound() returns (r: Result<seq<Drained>, Error>, ghost n: nat, ghost ds: seq<Drained>)
      requires Valid() && Covers(types, sets)
      modifies this`sets, this`processed, this`directives, this`order
      ensures Valid() && n <= |types| && RoundDrained(plan, old(sets), sets, types, n, ds)
      ensures TypesExpanded(old(sets), processed, types, n)
      ensures r.Ok? ==> n == |types| && r.value == ds
      ensures r.Err? ==> n < |types| && types[n] !in plan.metas && r.error == NoMetadata(types[n])
    {
      hide Pending, AllTies, SetTies, Final, Expansion, SetExpanded;
      ghost var before := sets;
      var all: seq<Drained> := [];
      StartRound(plan, before, types);
      n := 0;
      var m := 0;
      while m < |types|
        invariant n == m <= |types| && Valid() && Covers(types, before)
        invariant RoundDrained(plan, before, sets, types, m, all)
        invariant TypesExpanded(before, processed, types, m)
      {
        ghost var was, oldSets := processed, sets;
        var t := types[m];
        if t !in plan.metas { return Err(NoMetadata(t)), m, all; }
        var more := ExpandSet(t, before);
        RoundStep(plan, before, oldSets, types, m, all, sets[t], more);
        TypesExpandedStep(before, was, processed, types, m);
        all := all + more;
        m := m + 1;
        n := m;
      }
      r, ds := Ok(all), all;
    }

    /** Adds one drained child as a Deleted entry; one without a key is dropped. */
    method AttachChild(ds: seq<Drained>, k: nat, ghost start: Sets) returns (r: Option<Error>)
      requires k < |ds| && Valid() && Attached(plan, start, sets, types, ds, k, dropped)
      modifies this`sets, this`dropped
      ensures Valid() && r == (if ds[k].nav.related in old(sets) then None else Some(NoSet(ds[k].nav.related)))
      ensures Attached(plan, start, sets, types, ds, if r.None? then k + 1 else k, dropped)
      ensures r.None? ==> Came(start, sets, dropped) == Came(start, old(sets), old(dropped)) + 1
      ensures sets.Keys == old(sets).Keys && (r.Some? ==> sets == old(sets))
    {
      hide AllTies, News, Pending, Final, AllDirectives, Keyless;
      var d := ds[k];
      var t := d.nav.related;
      if t !in sets { return Some(NoSet(t)); }
      if d.child.key != 0 {
        KeyedStep(plan, start, sets, types, ds, k, dropped);
        PushedGrown(plan, sets, d);
        ExpansionKept(plan, sets, Pushed(plan, sets, d), processed, directives, order);
        sets := sets[t := sets[t] + [NewEntry(plan, d.child)]];
      } else {
        dropped := KeylessStep(plan, start, sets, types, ds, k, dropped);
      }
      return None;
    }

    method AttachAll(ds: seq<Drained>, ghost start: Sets) returns (r: Option<Error>, ghost k: nat)
      requires Valid() && Attached(plan, start, sets, types, ds, 0, dropped)
      modifies this`sets, this`dropped
      ensures Valid() && k <= |ds| && Attached(plan, start, sets, types, ds, k, dropped) && (r.None? ==> k == |ds|)
      ensures r.None? ==> Came(start, sets, dropped) == Came(start, old(sets), old(dropped)) + |ds|
      ensures sets.Keys == old(sets).Keys && (r.Some? ==> !AllKnown(plan.metas, sets))
    {
      hide AllTies, News, Pending, Final, Expansion;
      var m := 0;
      while m < |ds|
        invariant sets.Keys == old(sets).Keys
        invariant m <= |ds| && Valid() && Attached(plan, start, sets, types, ds, m, dropped)
        invariant Came(start, sets, dropped) == Came(start, old(sets), old(dropped)) + m
      {
        r := AttachChild(ds, m, start);
        if r.Some? {
          UnknownChild(plan, sets, ds[m]);
          return r, m;
        }
        m := m + 1;
      }
      return None, m;
    }

    /** Rounds of expanding and attaching until no Deleted entry is left to expand. */
    method DrainCascadeDeletes() returns (r: Option<Error>)
      requires plan.mode == Deleting && Covers(types, sets)
      requires processed == {} && directives == [] && order == [] && dropped == multiset{}
      modifies this`sets, this`processed, this`directives, this`order, this`dropped
      ensures r.None? ==>
        DeletesDrained(plan, old(sets), sets, types, Expansions(processed, directives, order, dropped))
      ensures Covers(types, sets) && Grown(plan, old(sets), sets)
      ensures r.Some? ==> !AllKnown(plan.metas, old(sets))
    {
      hide AllTies, News, Pending, Final, AllDirectives, SetExpanded, DrainedSet, AllKnown;
      ghost var start := sets;
      StartAttached(plan, start, types);
      StartExpansion(plan, start);
      while true
        invariant Valid() && Attached(plan, start, sets, types, [], 0, dropped)
        invariant sets.Keys == start.Keys
        decreases |AllTies(plan, sets, types, |types|)|
      {
        ghost var before, was := sets, dropped;
        var drained;
        ghost var n, ds;
        drained, n, ds := ExpandRound();
        RoundAttached(plan, start, before, sets, types, n, ds, dropped);
        if drained.Err? {
          UnknownType(plan.metas, start, types[n]);
          return Some(drained.error);
        }
        EveryTypeExpanded(plan, before, sets, processed, types, ds);
        if drained.value == [] {
          LastRound(plan, start, sets, types, dropped);
          return None;
        }
        NewsKept(plan, start, before, sets, types, ds);
        ghost var k;
        r, k := AttachAll(drained.value, start);
        if r.Some? {
          SameKnown(plan.metas, sets, start);
          return;
        }
        AllAttached(plan, start, sets, types, drained.value, dropped);
        FewerTies(plan, start, before, sets, types, was, dropped);
      }
    }
  }

  lemma StartSet(plan: Plan, before: Sets, t: TypeId)
    requires t in before
    ensures SetDrained(plan, before, t, before[t], 0, [])
  {
  }

  lemma StartExpansion(plan: Plan, start: Sets)
    requires plan.mode == Deleting
    ensures Expansion(plan, start, {}, [], [])
  {
  }

  lemma NewsKept(plan: Plan, start: Sets, before: Sets, sets: Sets, types: seq<TypeId>, ds: seq<Drained>)
    requires Covers(types, before) && RoundDrained(plan, before, sets, types, |types|, ds)
    ensures News(plan, start, before, types, |types|) == News(plan, start, sets, types, |types|)
  {
    hide News, Final, Pending, AllTies;
    RoundGrown(plan, before, sets, types, |types|, ds);
    NewsSame(plan, start, before, sets, types, |types|);
  }

  // ---------------------------------------------------------------------------
  // What the drain means
  // ---------------------------------------------------------------------------

  /** Where a Deleted entry was expanded: in one place, with its own key. */
  lemma ExpandedOnce(plan: Plan, sets: Sets, processed: set<(TypeId, nat)>, directives: seq<Directive>,
                     order: seq<Expanded>, t: TypeId, i: nat)
    returns (k: nat)
    requires Expansion(plan, sets, processed, directives, order) && AllExpanded(sets, processed)
    requires t in sets && i < |sets[t]| && sets[t][i].state == Deleted
    ensures k < |order| && order[k] == Expanded(t, i, sets[t][i].entity.key)
    ensures forall j :: 0 <= j < |order| && order[j].type_ == t && order[j].idx == i ==> j == k
  {
    assert SetExpanded(sets, processed, t, |sets[t]|);
    assert (t, i) in processed;
    k :| 0 <= k < |order| && order[k].type_ == t && order[k].idx == i;
    assert NamesDeleted(sets, order[k]);
  }

  lemma {:induction false} InDirectives(key: int, navs: seq<Nav>, n: nat, d: Directive)
    requires n <= |navs|
    ensures d in DirectivesOf(key, navs, n) <==> exists j :: 0 <= j < n && DirectiveOf(key, navs[j]) == Some(d)
  {
    if n > 0 { InDirectives(key, navs, n - 1, d); }
  }

  lemma {:induction false} InAllDirectives(order: seq<Expanded>, metas: Metas, n: nat, d: Directive)
    requires n <= |order|
    ensures d in AllDirectives(order, metas, n) <==>
      exists k :: 0 <= k < n && Calls(metas, order[k].type_, order[k].key, d)
  {
    if n > 0 {
      InAllDirectives(order, metas, n - 1, d);
      InDirectives(order[n - 1].key, NavsOf(metas, order[n - 1].type_), |NavsOf(metas, order[n - 1].type_)|, d);
      assert d in EntryDirectives(metas, order[n - 1]) <==> Calls(metas, order[n - 1].type_, order[n - 1].key, d);
    }
  }

  /** Some navigation of the type calls for the statement on a principal with this key. */
  ghost predicate Calls(metas: Metas, t: TypeId, key: int, d: Directive) {
    var navs := NavsOf(metas, t);
    exists j :: 0 <= j < |navs| && DirectiveOf(key, navs[j]) == Some(d)
  }

  ghost predicate DeletedCalls(sets: Sets, metas: Metas, d: Directive) {
    exists t, i ::
        t in sets && 0 <= i < |sets[t]| && sets[t][i].state == Deleted && Calls(metas, t, sets[t][i].entity.key, d)
  }

  /** A statement is issued exactly when some Deleted entry's navigation calls for it. */
  lemma DirectivesExact(plan: Plan, sets: Sets, processed: set<(TypeId, nat)>, directives: seq<Directive>,
                        order: seq<Expanded>, d: Directive)
    requires Expansion(plan, sets, processed, directives, order) && AllExpanded(sets, processed)
    ensures d in directives <==> DeletedCalls(sets, plan.metas, d)
  {
    InAllDirectives(order, plan.metas, |order|, d);
    if d in directives {
      var k :| 0 <= k < |order| && Calls(plan.metas, order[k].type_, order[k].key, d);
      assert NamesDeleted(sets, order[k]);
    }
    if DeletedCalls(sets, plan.metas, d) {
      var t, i :| t in sets && 0 <= i < |sets[t]| && sets[t][i].state == Deleted
                  && Calls(plan.metas, t, sets[t][i].entity.key, d);
      var k := ExpandedOnce(plan, sets, processed, directives, order, t, i);
    }
  }

  // ---------------------------------------------------------------------------
  // What the statements are, by the navigations themselves
  // ---------------------------------------------------------------------------

  /** A collection whose children go with their parent: configured so, or by default unless the foreign key
      is optional. */
  predicate Cascading(nav: Nav) {
    && nav.kind == HasMany
    && (nav.behavior == Some(Cascade) || (nav.behavior == None && nav.required != Some(false)))
  }

  /** A collection whose children lose their foreign key. */
  predicate Nulling(nav: Nav) {
    nav.kind == HasMany && nav.behavior == Some(SetNull)
  }

  predicate NamesColumn(nav: Nav, table: string, column: string) {
    nav.table == Some(table) && nav.fkColumn == Some(column)
  }

  /** Rows that have a deleted principal's key in this column go. */
  predicate Strikes(nav: Nav, table: string, column: string) {
    || (Cascading(nav) && NamesColumn(nav, table, column))
    || (nav.kind == ManyToMany && nav.throughTable == Some(table) && nav.throughParent == Some(column))
  }

  /** A deleted principal's key in this column is cleared. */
  predicate Clears(nav: Nav, table: string, column: string) {
    Nulling(nav) && NamesColumn(nav, table, column)
  }

  ghost predicate Struck(sets: Sets, metas: Metas, table: string, column: string, key: int) {
    key > 0 && exists t, i, nav ::
        && t in sets && 0 <= i < |sets[t]| && sets[t][i].state == Deleted && sets[t][i].entity.key == key
        && t in metas && nav in metas[t] && Strikes(nav, table, column)
  }

  ghost predicate Cleared(sets: Sets, metas: Metas, table: string, column: string, key: int) {
    key > 0 && exists t, i, nav ::
        && t in sets && 0 <= i < |sets[t]| && sets[t][i].state == Deleted && sets[t][i].entity.key == key
        && t in metas && nav in metas[t] && Clears(nav, table, column)
  }

  lemma OneDirective(key: int, nav: Nav, d: Directive)
    ensures DirectiveOf(key, nav) == Some(d) <==>
      key > 0 && d.key == key
      && (if d.action == Delete then Strikes(nav, d.table, d.fkColumn) else Clears(nav, d.table, d.fkColumn))
  {
  }

  /** A DELETE is issued exactly for the columns that cascading and many-to-many navigations of Deleted
      entries name, a SET NULL exactly for those that nulling ones do, each with the entry's key. */
  lemma StatementsExact(plan: Plan, sets: Sets, processed: set<(TypeId, nat)>, directives: seq<Directive>,
                        order: seq<Expanded>, d: Directive)
    requires Expansion(plan, sets, processed, directives, order) && AllExpanded(sets, processed)
    ensures d.action == Delete ==>
      (d in directives <==> Struck(sets, plan.metas, d.table, d.fkColumn, d.key))
    ensures d.action == Nullify ==>
      (d in directives <==> Cleared(sets, plan.metas, d.table, d.fkColumn, d.key))
  {
    hide Expansion, AllExpanded, Strikes, Clears, DirectiveOf;
    DirectivesExact(plan, sets, processed, directives, order, d);
    if DeletedCalls(sets, plan.metas, d) {
      var t, i :| t in sets && 0 <= i < |sets[t]| && sets[t][i].state == Deleted
                  && Calls(plan.metas, t, sets[t][i].entity.key, d);
      var navs := NavsOf(plan.metas, t);
      var j :| 0 <= j < |navs| && DirectiveOf(sets[t][i].entity.key, navs[j]) == Some(d);
      OneDirective(sets[t][i].entity.key, navs[j], d);
      assert t in plan.metas && navs[j] in plan.metas[t];
    }
    forall t, i, nav | t in sets && 0 <= i < |sets[t]| && sets[t][i].state == Deleted && t in plan.metas
      && nav in plan.metas[t] && DirectiveOf(sets[t][i].entity.key, nav) == Some(d)
      ensures DeletedCalls(sets, plan.metas, d) {
      var navs := NavsOf(plan.metas, t);
      var j :| 0 <= j < |navs| && navs[j] == nav;
      assert Calls(plan.metas, t, sets[t][i].entity.key, d);
    }
    forall key, nav ensures DirectiveOf(key, nav) == Some(d) <==>
      key > 0 && d.key == key
      && (if d.action == Delete then Strikes(nav, d.table, d.fkColumn) else Clears(nav, d.table, d.fkColumn)) {
      OneDirective(key, nav, d);
    }
  }

  lemma {:induction false} InNewsIn(plan: Plan, t: TypeId, es: seq<Entry>, from: nat, n: nat, tie: Tie)
    requires from <= n <= |es|
    ensures tie in NewsIn(plan, t, es, from, n) <==> exists i :: from <= i < n && NewTie(plan, t, es[i]) == tie
    decreases n
  {
    hide NewTie;
    if n > from { InNewsIn(plan, t, es, from, n - 1, tie); }
  }

  lemma {:induction false} InNews(plan: Plan, start: Sets, sets: Sets, types: seq<TypeId>, n: nat, tie: Tie)
    requires n <= |types|
    ensures tie in News(plan, start, sets, types, n) <==>
      exists k :: 0 <= k < n && tie in NewsOf(plan, start, sets, types[k])
  {
    hide NewsOf;
    if n > 0 { InNews(plan, start, sets, types, n - 1, tie); }
  }

  /** A keyed child that a Deleted entry holds in a collection whose children go with it gets a Deleted entry
      in the set of the collection's type, with its own key, foreign keys and values. */
  lemma HeldChildDeleted(plan: Plan, start: Sets, sets: Sets, types: seq<TypeId>, x: Expansions, t: TypeId, i: nat,
                         nav: Nav, c: Entity)
    returns (j: nat)
    requires DeletesDrained(plan, start, sets, types, x)
    requires t in start && i < |start[t]| && start[t][i].state == Deleted
    requires t in plan.metas && nav in plan.metas[t] && Cascading(nav)
    requires HoldsChild(start[t][i].entity.kids, nav, c) && c.key != 0
    ensures nav.related in start && nav.related in sets && |start[nav.related]| <= j < |sets[nav.related]|
    ensures var e := sets[nav.related][j];
      && e.state == Deleted && e.original == Some(Snapshot(c.key, c.fks, c.values)) && !e.upsert
      && e.entity.uid == c.uid && e.entity.key == c.key && e.entity.fks == c.fks && e.entity.values == c.values
  {
    hide AllTies, News, AllDirectives, AllExpanded, Stay;
    var tie := TieOf(plan, Owner(t, start[t][i].entity.uid), nav, c);
    assert Covers(types, start);
    HeldIsThere(plan, start, types, t, i, nav, c);
    InNews(plan, start, sets, types, |types|, tie);
    var k :| 0 <= k < |types| && tie in NewsOf(plan, start, sets, types[k]);
    var u := types[k];
    InNewsIn(plan, u, sets[u], |start[u]|, |sets[u]|, tie);
    j :| |start[u]| <= j < |sets[u]| && NewTie(plan, u, sets[u][j]) == tie;
    assert EntersDeleted(plan, sets[u][j]);
  }

  /** The drain takes all that Deleted entries hold in collections whose children go with them, and nothing from
      other containers or other entries; it changes nothing else of the entries there were. */
  lemma ContainersAfter(plan: Plan, start: Sets, sets: Sets, types: seq<TypeId>, x: Expansions, t: TypeId, i: nat,
                        nav: Nav)
    requires DeletesDrained(plan, start, sets, types, x) && t in start && i < |start[t]|
    ensures t in sets && i < |sets[t]|
    ensures var e0, e := start[t][i], sets[t][i];
      && e == e0.(entity := e0.entity.(kids := e.entity.kids))
      && Taken(e.entity.kids, nav)
         == if e0.state == Deleted && t in plan.metas && nav in plan.metas[t] && Cascading(nav)
            then NoKids else Taken(e0.entity.kids, nav)
  {
    hide AllTies, News, AllDirectives, AllExpanded, Stay, Expansion;
    assert DrainedSet(plan, t, start[t], sets[t]) && plan.mode == Deleting by { ModeIs(plan, start, sets, types, x); }
    StayTakes(start[t][i].entity.kids, Gone(plan, t), nav);
  }

  lemma ModeIs(plan: Plan, start: Sets, sets: Sets, types: seq<TypeId>, x: Expansions)
    requires DeletesDrained(plan, start, sets, types, x)
    ensures plan.mode == Deleting
  {
    hide AllTies, News, AllDirectives, AllExpanded;
  }
}
