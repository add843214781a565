/** Cascading adds: the children of Added entries become entries of their own, linked to their parents. */
module CascadeAdds {
  import opened Wrappers
  import opened SaveModel
  import opened CascadeDrain

  /** One parent and the entries of its children of one type and join table. */
  datatype Link = Link(parentType: TypeId, parentIdx: nat, childType: TypeId, throughTable: Option<string>,
                       throughParent: Option<string>, throughChild: Option<string>, children: seq<nat>)

  // ---------------------------------------------------------------------------
  // Links
  // ---------------------------------------------------------------------------

  function Occurs(children: seq<nat>, n: nat, i: nat): nat
    requires n <= |children|
  {
    if n == 0 then 0 else Occurs(children, n - 1, i) + (if children[n - 1] == i then 1 else 0)
  }

  function InLink(l: Link, t: TypeId, i: nat): nat {
    if l.childType == t then Occurs(l.children, |l.children|, i) else 0
  }

  /** How often entry `i` of type `t` occurs as a child in the first `n` links. */
  function Slots(links: seq<Link>, n: nat, t: TypeId, i: nat): nat
    requires n <= |links|
  {
    if n == 0 then 0 else Slots(links, n - 1, t, i) + InLink(links[n - 1], t, i)
  }

  function SlotTotal(links: seq<Link>, n: nat): nat
    requires n <= |links|
  {
    if n == 0 then 0 else SlotTotal(links, n - 1) + |links[n - 1].children|
  }

  lemma {:induction false} OccursPush(children: seq<nat>, c: nat, n: nat, i: nat)
    requires n <= |children|
    ensures Occurs(children + [c], n, i) == Occurs(children, n, i)
  {
    if n > 0 { OccursPush(children, c, n - 1, i); }
  }

  lemma {:induction false} SlotsPush(links: seq<Link>, l: Link, n: nat, t: TypeId, i: nat)
    requires n <= |links|
    ensures Slots(links + [l], n, t, i) == Slots(links, n, t, i) && SlotTotal(links + [l], n) == SlotTotal(links, n)
  {
    if n > 0 { SlotsPush(links, l, n - 1, t, i); }
  }

  lemma {:induction false} SlotsUpdate(links: seq<Link>, k: nat, l: Link, n: nat, t: TypeId, i: nat)
    requires k < |links| && n <= |links|
    ensures Slots(links[k := l], n, t, i)
         == Slots(links, n, t, i) + (if k < n then InLink(l, t, i) - InLink(links[k], t, i) else 0)
    ensures SlotTotal(links[k := l], n)
         == SlotTotal(links, n) + (if k < n then |l.children| - |links[k].children| else 0)
  {
    if n > 0 { SlotsUpdate(links, k, l, n - 1, t, i); }
  }

  /** `after` has one slot more than `links`: entry `c` of type `ct`. */
  ghost predicate OneSlotMore(links: seq<Link>, after: seq<Link>, ct: TypeId, c: nat) {
    && SlotTotal(after, |after|) == SlotTotal(links, |links|) + 1
    && forall t, i :: Slots(after, |after|, t, i) == Slots(links, |links|, t, i) + (if t == ct && i == c then 1 else 0)
  }

  lemma NewLinkSlot(links: seq<Link>, l: Link, c: nat)
    requires l.children == [c]
    ensures OneSlotMore(links, links + [l], l.childType, c)
  {
    forall t, i
      ensures Slots(links + [l], |links| + 1, t, i)
           == Slots(links, |links|, t, i) + (if t == l.childType && i == c then 1 else 0) {
      SlotsPush(links, l, |links|, t, i);
      assert Occurs([c], 1, i) == Occurs([c], 0, i) + (if c == i then 1 else 0);
    }
    SlotsPush(links, l, |links|, 0, 0);
  }

  lemma MoreChildrenSlot(links: seq<Link>, k: nat, c: nat)
    requires k < |links|
    ensures OneSlotMore(links, links[k := links[k].(children := links[k].children + [c])], links[k].childType, c)
  {
    var l := links[k].(children := links[k].children + [c]);
    var after := links[k := l];
    forall t, i
      ensures Slots(after, |after|, t, i)
           == Slots(links, |links|, t, i) + (if t == l.childType && i == c then 1 else 0) {
      SlotsUpdate(links, k, l, |links|, t, i);
      OccursPush(links[k].children, c, |links[k].children|, i);
    }
    SlotsUpdate(links, k, l, |links|, 0, 0);
  }

  const NOBODY := Entity(0, 0, [], [], NoKids)

  /** The entity of an entry as it is once drained. */
  function FinalAt(plan: Plan, sets: Sets, t: TypeId, i: nat): Entity {
    if t in sets && i < |sets[t]| then Final(plan, t, sets[t][i]).entity else NOBODY
  }

  /** The tie one slot of a link stands for. */
  function SlotTie(plan: Plan, sets: Sets, l: Link, c: nat): Tie {
    Tie(OwnerAt(sets, l.parentType, l.parentIdx), l.childType, l.throughTable, FinalAt(plan, sets, l.childType, c))
  }

  /** The ties of the first `n` slots of a link. */
  function SlotTies(plan: Plan, sets: Sets, l: Link, n: nat): multiset<Tie>
    requires n <= |l.children|
  {
    if n == 0 then multiset{} else SlotTies(plan, sets, l, n - 1) + multiset{SlotTie(plan, sets, l, l.children[n - 1])}
  }

  /** The ties of the first `n` links. */
  function LinkTies(plan: Plan, sets: Sets, links: seq<Link>, n: nat): multiset<Tie>
    requires n <= |links|
  {
    if n == 0 then multiset{}
    else LinkTies(plan, sets, links, n - 1) + SlotTies(plan, sets, links[n - 1], |links[n - 1].children|)
  }

  /** A link names existing entries, its parent to be inserted, and a collection navigation of the parent's
      type has its child type, join table and join columns. */
  ghost predicate LinkOk(plan: Plan, sets: Sets, l: Link) {
    && l.parentType in sets && l.parentIdx < |sets[l.parentType]| && l.childType in sets && l.children != []
    && (forall j :: 0 <= j < |l.children| ==> l.children[j] < |sets[l.childType]|)
    && Drains(plan, sets[l.parentType][l.parentIdx])
    && exists nav :: nav in Gone(plan, l.parentType) && OfNav(l, nav)
  }

  predicate OfNav(l: Link, nav: Nav) {
    && l.childType == nav.related && l.throughTable == nav.throughTable
    && l.throughParent == nav.throughParent && l.throughChild == nav.throughChild
  }

  ghost predicate LinksOk(plan: Plan, sets: Sets, links: seq<Link>) {
    forall k :: 0 <= k < |links| ==> LinkOk(plan, sets, links[k])
  }

  lemma LinkKept(plan: Plan, a: Sets, b: Sets, l: Link)
    requires Grown(plan, a, b) && LinkOk(plan, a, l)
    ensures LinkOk(plan, b, l)
    ensures SlotTies(plan, a, l, |l.children|) == SlotTies(plan, b, l, |l.children|)
  {
    GrownUid(plan, a, b, l.parentType, l.parentIdx);
    assert EntriesGrown(plan, l.childType, a[l.childType], b[l.childType]);
    SlotTiesKept(plan, a, b, l, |l.children|);
  }

  lemma {:induction false} SlotTiesKept(plan: Plan, a: Sets, b: Sets, l: Link, n: nat)
    requires Grown(plan, a, b) && LinkOk(plan, a, l) && n <= |l.children|
    ensures SlotTies(plan, a, l, n) == SlotTies(plan, b, l, n)
  {
    if n > 0 {
      SlotTiesKept(plan, a, b, l, n - 1);
      GrownUid(plan, a, b, l.parentType, l.parentIdx);
      GrownUid(plan, a, b, l.childType, l.children[n - 1]);
    }
  }

  lemma LinksKept(plan: Plan, a: Sets, b: Sets, links: seq<Link>)
    requires Grown(plan, a, b) && LinksOk(plan, a, links)
    ensures LinksOk(plan, b, links)
    ensures LinkTies(plan, a, links, |links|) == LinkTies(plan, b, links, |links|)
  {
    forall k | 0 <= k < |links| ensures LinkOk(plan, b, links[k]) {
      LinkKept(plan, a, b, links[k]);
    }
    LinkTiesKept(plan, a, b, links, |links|);
  }

  lemma {:induction false} LinkTiesKept(plan: Plan, a: Sets, b: Sets, links: seq<Link>, n: nat)
    requires Grown(plan, a, b) && LinksOk(plan, a, links) && n <= |links|
    ensures LinkTies(plan, a, links, n) == LinkTies(plan, b, links, n)
  {
    hide SlotTies, Grown;
    if n > 0 {
      LinkTiesKept(plan, a, b, links, n - 1);
      LinkKept(plan, a, b, links[n - 1]);
    }
  }

  lemma {:induction false} SlotTiesPush(plan: Plan, sets: Sets, l: Link, c: nat, n: nat)
    requires n <= |l.children|
    ensures SlotTies(plan, sets, l.(children := l.children + [c]), n) == SlotTies(plan, sets, l, n)
  {
    if n > 0 { SlotTiesPush(plan, sets, l, c, n - 1); }
  }

  lemma {:induction false} LinkTiesFront(plan: Plan, sets: Sets, a: seq<Link>, b: seq<Link>, n: nat)
    requires n <= |a| && n <= |b| && forall k :: 0 <= k < n ==> a[k] == b[k]
    ensures LinkTies(plan, sets, a, n) == LinkTies(plan, sets, b, n)
  {
    if n > 0 { LinkTiesFront(plan, sets, a, b, n - 1); }
  }

  lemma SameSlotTie(plan: Plan, sets: Sets, l: Link, m: Link, c: nat)
    requires m == l.(children := m.children)
    ensures SlotTie(plan, sets, l, c) == SlotTie(plan, sets, m, c)
  {
  }

  lemma MoreSlotTies(plan: Plan, sets: Sets, l: Link, c: nat)
    ensures var m := l.(children := l.children + [c]);
      SlotTies(plan, sets, m, |m.children|)
          == SlotTies(plan, sets, l, |l.children|) + multiset{SlotTie(plan, sets, l, c)}
  {
    hide SlotTie;
    var m := l.(children := l.children + [c]);
    SlotTiesPush(plan, sets, l, c, |l.children|);
    SameSlotTie(plan, sets, l, m, c);
  }

  /** One slot more in link `k` is one tie more. */
  lemma {:induction false} LinkTiesMore(plan: Plan, sets: Sets, links: seq<Link>, k: nat, c: nat, n: nat)
    requires k < n <= |links|
    ensures var after := links[k := links[k].(children := links[k].children + [c])];
      LinkTies(plan, sets, after, n) == LinkTies(plan, sets, links, n) + multiset{SlotTie(plan, sets, links[k], c)}
  {
    var after := links[k := links[k].(children := links[k].children + [c])];
    hide SlotTie;
    if n - 1 == k {
      LinkTiesFront(plan, sets, after, links, k);
      SlotTiesPush(plan, sets, links[k], c, |links[k].children|);
      SameSlotTie(plan, sets, links[k], after[k], c);
      MoreSlotTies(plan, sets, links[k], c);
    } else {
      LinkTiesMore(plan, sets, links, k, c, n - 1);
    }
  }

  lemma LinkTiesNext(plan: Plan, sets: Sets, links: seq<Link>, n: nat)
    requires n < |links|
    ensures LinkTies(plan, sets, links, n + 1)
         == LinkTies(plan, sets, links, n) + SlotTies(plan, sets, links[n], |links[n].children|)
  {
    hide SlotTies;
  }

  lemma OneSlotTie(plan: Plan, sets: Sets, l: Link, c: nat)
    requires l.children == [c]
    ensures SlotTies(plan, sets, l, 1) == multiset{SlotTie(plan, sets, l, c)}
  {
    hide SlotTie;
    assert SlotTies(plan, sets, l, 0) == multiset{};
  }

  lemma LinkTiesNew(plan: Plan, sets: Sets, links: seq<Link>, l: Link, c: nat)
    requires l.children == [c]
    ensures LinkTies(plan, sets, links + [l], |links| + 1)
         == LinkTies(plan, sets, links, |links|) + multiset{SlotTie(plan, sets, l, c)}
  {
    hide LinkTies, SlotTies, SlotTie;
    LinkTiesFront(plan, sets, links + [l], links, |links|);
    LinkTiesNext(plan, sets, links + [l], |links|);
    OneSlotTie(plan, sets, l, c);
  }

  // ---------------------------------------------------------------------------
  // Attaching drained children
  // ---------------------------------------------------------------------------

  /** The entries added since `start` are exactly the linked children, each in one slot. */
  ghost predicate SlotsAreNew(start: Sets, sets: Sets, links: seq<Link>) {
    forall t, i: nat ::
        Slots(links, |links|, t, i) == if t in start && t in sets && |start[t]| <= i < |sets[t]| then 1 else 0
  }

  /** A new entry has the state its key calls for. */
  predicate ComesIn(plan: Plan, e: Entry) {
    e == NewEntry(plan, e.entity)
  }

  ghost predicate NewAreChildren(plan: Plan, start: Sets, sets: Sets) {
    forall t, i :: t in start && t in sets && |start[t]| <= i < |sets[t]| ==> ComesIn(plan, sets[t][i])
  }

  /** The position of the link for this parent, child type and join table. */
  method FindLink(links: seq<Link>, d: Drained) returns (p: Option<nat>)
    ensures p.Some? ==> p.value < |links| && SameLink(links[p.value], d)
    ensures p.None? ==> forall k :: 0 <= k < |links| ==> !SameLink(links[k], d)
  {
    for k := 0 to |links|
      invariant forall j :: 0 <= j < k ==> !SameLink(links[j], d)
    {
      if SameLink(links[k], d) { return Some(k); }
    }
    return None;
  }

  predicate SameLink(l: Link, d: Drained) {
    && l.parentType == d.parentType && l.parentIdx == d.parentIdx
    && l.childType == d.nav.related && l.throughTable == d.nav.throughTable
  }

  /** Adds entry `c` of the child's type to the link of its parent, or opens a link for it. */
  method LinkChild(links: seq<Link>, d: Drained, c: nat, ghost plan: Plan, ghost sets: Sets) returns (after: seq<Link>)
    requires LinksOk(plan, sets, links) && Genuine(plan, sets, d) && d.nav.related in sets && c < |sets[d.nav.related]|
    ensures LinksOk(plan, sets, after) && OneSlotMore(links, after, d.nav.related, c)
    ensures LinkTies(plan, sets, after, |after|) == LinkTies(plan, sets, links, |links|)
      + multiset{Tie(OwnerAt(sets, d.parentType, d.parentIdx), d.nav.related, d.nav.throughTable,
                     FinalAt(plan, sets, d.nav.related, c))}
  {
    var p := FindLink(links, d);
    if p.Some? {
      MoreChildrenSlot(links, p.value, c);
      LinkTiesMore(plan, sets, links, p.value, c, |links|);
      var l := links[p.value];
      after := links[p.value := l.(children := l.children + [c])];
      MoreChildrenOk(plan, sets, l, c);
    } else {
      var l := Link(d.parentType, d.parentIdx, d.nav.related, d.nav.throughTable, d.nav.throughParent,
                    d.nav.throughChild, [c]);
      NewLinkSlot(links, l, c);
      LinkTiesNew(plan, sets, links, l, c);
      assert OfNav(l, d.nav);
      after := links + [l];
    }
  }

  lemma MoreChildrenOk(plan: Plan, sets: Sets, l: Link, c: nat)
    requires LinkOk(plan, sets, l) && c < |sets[l.childType]|
    ensures LinkOk(plan, sets, l.(children := l.children + [c]))
  {
    var nav :| nav in Gone(plan, l.parentType) && OfNav(l, nav);
    assert OfNav(l.(children := l.children + [c]), nav);
  }

  /** The state of a drain: the links so far, what is still held and what is still to be attached (`ds`
      from `k` on) are together all there was at the start. */
  ghost predicate Attached(plan: Plan, start: Sets, sets: Sets, links: seq<Link>, types: seq<TypeId>, ds: seq<Drained>,
                           k: nat)
    requires k <= |ds|
  {
    && plan.mode == Adding && Covers(types, sets) && Grown(plan, start, sets)
    && LinksOk(plan, sets, links) && SlotsAreNew(start, sets, links) && NewAreChildren(plan, start, sets)
    && AllGenuine(plan, sets, ds, k)
    && AllTies(plan, sets, types, |types|) + LinkTies(plan, sets, links, |links|) + Pending(plan, sets, ds, k)
       == AllTies(plan, start, types, |types|)
  }

  lemma SlotsGrow(plan: Plan, start: Sets, sets: Sets, t: TypeId, e: Entry, links: seq<Link>, after: seq<Link>)
    requires t in start && Grown(plan, start, sets) && SlotsAreNew(start, sets, links)
    requires OneSlotMore(links, after, t, |sets[t]|)
    ensures SlotsAreNew(start, sets[t := sets[t] + [e]], after)
  {
    var more := sets[t := sets[t] + [e]];
    assert EntriesGrown(plan, t, start[t], sets[t]);
    forall u, i: nat
      ensures Slots(after, |after|, u, i) == if u in start && u in more && |start[u]| <= i < |more[u]| then 1 else 0 {
      assert Slots(after, |after|, u, i) == Slots(links, |links|, u, i) + (if u == t && i == |sets[t]| then 1 else 0);
    }
  }

  /** Attaching one child moves its tie from the pending ones to the links, and what is below it to the sets. */
  lemma AttachTies(plan: Plan, sets: Sets, links: seq<Link>, after: seq<Link>, types: seq<TypeId>, ds: seq<Drained>,
                   k: nat)
    requires plan.mode == Adding && k < |ds| && Covers(types, sets) && ds[k].nav.related in sets
    requires LinksOk(plan, sets, links) && AllGenuine(plan, sets, ds, k)
    requires LinkTies(plan, Pushed(plan, sets, ds[k]), after, |after|)
         == LinkTies(plan, Pushed(plan, sets, ds[k]), links, |links|)
      + multiset{TieOf(plan, OwnerAt(sets, ds[k].parentType, ds[k].parentIdx), ds[k].nav, ds[k].child)}
    ensures var more := Pushed(plan, sets, ds[k]);
      AllTies(plan, more, types, |types|) + LinkTies(plan, more, after, |after|) + Pending(plan, more, ds, k + 1)
      == AllTies(plan, sets, types, |types|) + LinkTies(plan, sets, links, |links|) + Pending(plan, sets, ds, k)
  {
    hide AllTies, LinkTies, Pending, EntryTies, TieOf, Final, Grown, LinksOk, AllGenuine;
    var d, more := ds[k], Pushed(plan, sets, ds[k]);
    var p := OwnerAt(sets, d.parentType, d.parentIdx);
    PushedGrown(plan, sets, d);
    LinksKept(plan, sets, more, links);
    PushedTies(plan, sets, types, d, |types|);
    assert types[..|types|] == types;
    LaterGenuine(plan, sets, ds, k);
    GenuineKept(plan, sets, more, ds, k + 1);
    PendingAt(plan, sets, ds, k);
    AddedWhole(plan, p, d);
    Exchange(AllTies(plan, sets, types, |types|), EntryTies(plan, d.nav.related, NewEntry(plan, d.child)),
             LinkTies(plan, sets, links, |links|), multiset{TieOf(plan, p, d.nav, d.child)},
             Pending(plan, sets, ds, k + 1));
  }

  lemma AddedWhole(plan: Plan, p: Owner, d: Drained)
    requires plan.mode == Adding
    ensures Whole(plan, p, d.nav, d.child)
         == multiset{TieOf(plan, p, d.nav, d.child)} + EntryTies(plan, d.nav.related, NewEntry(plan, d.child))
  {
    hide TieOf, EntryTies;
  }

  lemma Exchange<T>(a: multiset<T>, b: multiset<T>, c: multiset<T>, d: multiset<T>, e: multiset<T>)
    ensures (a + b) + (c + d) + e == a + c + ((d + b) + e)
  {
  }

  lemma AttachStep(plan: Plan, start: Sets, sets: Sets, links: seq<Link>, after: seq<Link>, types: seq<TypeId>,
                   ds: seq<Drained>, k: nat)
    requires k < |ds| && Attached(plan, start, sets, links, types, ds, k) && ds[k].nav.related in sets
    requires LinksOk(plan, Pushed(plan, sets, ds[k]), after)
    requires OneSlotMore(links, after, ds[k].nav.related, |sets[ds[k].nav.related]|)
    requires LinkTies(plan, Pushed(plan, sets, ds[k]), after, |after|)
         == LinkTies(plan, Pushed(plan, sets, ds[k]), links, |links|)
      + multiset{TieOf(plan, OwnerAt(sets, ds[k].parentType, ds[k].parentIdx), ds[k].nav, ds[k].child)}
    ensures Attached(plan, start, Pushed(plan, sets, ds[k]), after, types, ds, k + 1)
  {
    hide AllTies, LinkTies, Pending, Final, TieOf, NewEntry, LinkOk, OneSlotMore, EntriesGrown, Genuine;
    var more := Pushed(plan, sets, ds[k]);
    PushedGrown(plan, sets, ds[k]);
    GrownTwice(plan, start, sets, more);
    SlotsGrow(plan, start, sets, ds[k].nav.related, NewEntry(plan, ds[k].child), links, after);
    assert AllGenuine(plan, sets, ds, k + 1);
    GenuineKept(plan, sets, more, ds, k + 1);
    AttachTies(plan, sets, links, after, types, ds, k);
    PushedComesIn(plan, start, sets, ds[k]);
  }

  lemma PushedComesIn(plan: Plan, start: Sets, sets: Sets, d: Drained)
    requires NewAreChildren(plan, start, sets) && d.nav.related in sets
    ensures NewAreChildren(plan, start, Pushed(plan, sets, d))
  {
  }

  lemma StartAttached(plan: Plan, start: Sets, types: seq<TypeId>)
    requires Covers(types, start) && plan.mode == Adding
    ensures Attached(plan, start, start, [], types, [], 0)
  {
    GrownSelf(plan, start);
  }

  /** A round of draining keeps the links and has its drained children pending. */
  lemma RoundAttached(plan: Plan, start: Sets, before: Sets, sets: Sets, links: seq<Link>, types: seq<TypeId>, n: nat,
                      ds: seq<Drained>)
    requires n <= |types| && Attached(plan, start, before, links, types, [], 0)
    requires RoundDrained(plan, before, sets, types, n, ds)
    ensures Attached(plan, start, sets, links, types, ds, 0)
  {
    hide AllTies, LinkTies, Pending, Final;
    RoundGrown(plan, before, sets, types, n, ds);
    GrownTwice(plan, start, before, sets);
    LinksKept(plan, before, sets, links);
    GenuineKept(plan, before, sets, ds, 0);
    RoundTies(plan, before, sets, types, n, ds, |types|);
    PendingEnd(plan, before, []);
    Regroup(AllTies(plan, sets, types, |types|), Pending(plan, before, ds, 0), LinkTies(plan, before, links, |links|));
    StillComingIn(plan, start, before, sets);
    SlotsKept(start, before, sets, links);
  }

  lemma SlotsKept(start: Sets, before: Sets, sets: Sets, links: seq<Link>)
    requires SlotsAreNew(start, before, links) && sets.Keys == before.Keys
    requires forall t :: t in before ==> |sets[t]| == |before[t]|
    ensures SlotsAreNew(start, sets, links)
  {
  }

  lemma StillComingIn(plan: Plan, start: Sets, before: Sets, sets: Sets)
    requires NewAreChildren(plan, start, before) && Grown(plan, before, sets)
    requires forall t :: t in before ==> |sets[t]| == |before[t]|
    ensures NewAreChildren(plan, start, sets)
  {
    forall t, i | t in start && t in sets && |start[t]| <= i < |sets[t]| ensures ComesIn(plan, sets[t][i]) {
      assert EntriesGrown(plan, t, before[t], sets[t]);
      assert ComesIn(plan, before[t][i]) && Final(plan, t, before[t][i]) == Final(plan, t, sets[t][i]);
    }
  }

  /** What is attached no longer is pending. */
  lemma AllAttached(plan: Plan, start: Sets, sets: Sets, links: seq<Link>, types: seq<TypeId>, ds: seq<Drained>)
    requires Attached(plan, start, sets, links, types, ds, |ds|)
    ensures Attached(plan, start, sets, links, types, [], 0)
  {
    hide AllTies, LinkTies, Final;
  }

  // ---------------------------------------------------------------------------
  // The drain
  // ---------------------------------------------------------------------------

  /** The outcome of the drain: entries there before are drained at their old indices, new ones are the
      drained children with the state their keys call for, each in one slot of a link; and the links'
      slots stand for exactly the children held at the start. */
  ghost predicate AddsDrained(plan: Plan, start: Sets, sets: Sets, links: seq<Link>, types: seq<TypeId>) {
    && plan.mode == Adding && Covers(types, sets) && sets.Keys == start.Keys
    && (forall t :: t in sets ==> t in plan.metas)
    && (forall t :: t in start ==> DrainedSet(plan, t, start[t], sets[t]))
    && LinksOk(plan, sets, links) && SlotsAreNew(start, sets, links)
    && LinkTies(plan, sets, links, |links|) == AllTies(plan, start, types, |types|)
  }

  lemma DrainedCovers(plan: Plan, start: Sets, sets: Sets, links: seq<Link>, types: seq<TypeId>)
    requires AddsDrained(plan, start, sets, links, types)
    ensures Covers(types, sets) && sets.Keys == start.Keys
  {
    hide AllTies, LinkTies, DrainedSet;
  }

  ghost predicate DrainedSet(plan: Plan, t: TypeId, before: seq<Entry>, after: seq<Entry>) {
    && |before| <= |after|
    && (forall i :: 0 <= i < |before| ==> after[i] == Final(plan, t, before[i]))
    && forall i :: |before| <= i < |after| ==> ComesInDrained(plan, t, after[i])
  }

  predicate ComesInDrained(plan: Plan, t: TypeId, e: Entry) {
    ComesIn(plan, e) && e == Final(plan, t, e)
  }

  /** A round that drains nothing leaves every entry drained. */
  lemma LastRound(plan: Plan, start: Sets, sets: Sets, links: seq<Link>, types: seq<TypeId>)
    requires Attached(plan, start, sets, links, types, [], 0) && RoundDrained(plan, sets, sets, types, |types|, [])
    ensures AddsDrained(plan, start, sets, links, types)
  {
    hide AllTies, LinkTies, Final;
    DrainedTies(plan, sets, sets, types, |types|, [], |types|);
    PendingEnd(plan, sets, []);
    forall t | t in start ensures t in plan.metas && DrainedSet(plan, t, start[t], sets[t]) {
      var k :| 0 <= k < |types| && types[k] == t;
      DrainedLast(plan, start, sets, types, t);
    }
  }

  lemma DrainedLast(plan: Plan, start: Sets, sets: Sets, types: seq<TypeId>, t: TypeId)
    requires Covers(types, sets) && Grown(plan, start, sets) && NewAreChildren(plan, start, sets) && t in start
    requires RoundDrained(plan, sets, sets, types, |types|, [])
    ensures DrainedSet(plan, t, start[t], sets[t])
  {
    hide Final;
    assert EntriesGrown(plan, t, start[t], sets[t]);
    forall i | 0 <= i < |sets[t]| ensures sets[t][i] == Final(plan, t, sets[t][i]) {
      RoundFinal(plan, sets, sets, types, [], t, i);
    }
    forall i | |start[t]| <= i < |sets[t]| ensures ComesIn(plan, sets[t][i]) { }
  }

  /** A child's set is not registered, or a type has no metadata. */
  datatype Error = NoSet(childType: TypeId) | NoMetadata(type_: TypeId)

  /** What a drain that fails leaves: nothing is linked or held that was not there, and what is missing
      was taken out of its container and is in no set. */
  ghost predicate Interrupted(plan: Plan, start: Sets, sets: Sets, links: seq<Link>, types: seq<TypeId>) {
    && Covers(types, sets) && Grown(plan, start, sets) && LinksOk(plan, sets, links)
    && AllTies(plan, sets, types, |types|) + LinkTies(plan, sets, links, |links|)
       <= AllTies(plan, start, types, |types|)
  }

  lemma Interrupts(plan: Plan, start: Sets, sets: Sets, links: seq<Link>, types: seq<TypeId>, ds: seq<Drained>, k: nat)
    requires k <= |ds| && Attached(plan, start, sets, links, types, ds, k)
    ensures Interrupted(plan, start, sets, links, types)
  {
    hide AllTies, LinkTies, Pending, Final;
  }

  class SaveContext {
    const types: seq<TypeId>
    const plan: Plan
    var sets: Sets
    var links: seq<Link>

    constructor (types: seq<TypeId>, metas: Metas, sets: Sets)
      ensures this.types == types && plan == Plan(Adding, metas) && this.sets == sets && links == []
    {
      this.types, plan, this.sets, links := types, Plan(Adding, metas), sets, [];
    }

    /** One pass over all sets, in the order of their types. */
    method DrainRound() returns (r: Result<seq<Drained>, Error>, ghost n: nat, ghost ds: seq<Drained>)
      requires Covers(types, sets)
      modifies this`sets
      ensures n <= |types| && RoundDrained(plan, old(sets), sets, types, n, ds)
      ensures r.Ok? ==> n == |types| && r.value == ds
      ensures r.Err? ==> n < |types| && types[n] !in plan.metas && r.error == NoMetadata(types[n])
    {
      hide AllTies, Pending, Final;
      ghost var before := sets;
      var all: seq<Drained> := [];
      StartRound(plan, before, types);
      n := 0;
      var m := 0;
      while m < |types|
        invariant n == m <= |types| && Covers(types, before) && RoundDrained(plan, before, sets, types, m, all)
      {
        var t := types[m];
        if t !in plan.metas { return Err(NoMetadata(t)), m, all; }
        var es, more := DrainSet(t, sets[t], plan, before);
        RoundStep(plan, before, sets, types, m, all, es, more);
        sets := sets[t := es];
        all := all + more;
        m := m + 1;
        n := m;
      }
      r, ds := Ok(all), all;
    }

    /** Adds one drained child to its own set and links it to its parent. */
    method AttachChild(ds: seq<Drained>, k: nat, ghost start: Sets) returns (r: Option<Error>)
      requires k < |ds| && Attached(plan, start, sets, links, types, ds, k)
      modifies this`sets, this`links
      ensures r == if ds[k].nav.related in old(sets) then None else Some(NoSet(ds[k].nav.related))
      ensures Attached(plan, start, sets, links, types, ds, if r.None? then k + 1 else k)
      ensures r.None? ==> SlotTotal(links, |links|) == SlotTotal(old(links), |old(links)|) + 1
      ensures sets.Keys == old(sets).Keys && (r.Some? ==> sets == old(sets))
    {
      hide AllTies, LinkTies, Pending, Final;
      var d := ds[k];
      var t := d.nav.related;
      if t !in sets { return Some(NoSet(t)); }
      ghost var was, oldLinks := sets, links;
      var idx := |sets[t]|;
      PushedGrown(plan, was, d);
      LinksKept(plan, was, Pushed(plan, was, d), links);
      GenuineKept(plan, was, Pushed(plan, was, d), ds, k);
      assert Genuine(plan, Pushed(plan, was, d), d);
      NewEntryTie(plan, was, d);
      sets := sets[t := sets[t] + [NewEntry(plan, d.child)]];
      links := LinkChild(links, d, idx, plan, sets);
      AttachStep(plan, start, was, oldLinks, links, types, ds, k);
      return None;
    }

    method AttachAll(ds: seq<Drained>, ghost start: Sets) returns (r: Option<Error>, ghost k: nat)
      requires Attached(plan, start, sets, links, types, ds, 0)
      modifies this`sets, this`links
      ensures k <= |ds| && Attached(plan, start, sets, links, types, ds, k) && (r.None? ==> k == |ds|)
      ensures r.None? ==> SlotTotal(links, |links|) == SlotTotal(old(links), |old(links)|) + |ds|
      ensures sets.Keys == old(sets).Keys && (r.Some? ==> !AllKnown(plan.metas, sets))
    {
      var m := 0;
      while m < |ds|
        invariant sets.Keys == old(sets).Keys
        invariant m <= |ds| && Attached(plan, start, sets, links, types, ds, m)
        invariant SlotTotal(links, |links|) == SlotTotal(old(links), |old(links)|) + m
      {
        r := AttachChild(ds, m, start);
        if r.Some? {
          UnknownChild(plan, sets, ds[m]);
          return r, m;
        }
        m := m + 1;
      }
      return None, m;
    }

    /** Rounds of draining and attaching until no Added entry holds children. */
    method DrainCascadeAdds() returns (r: Option<Error>)
      requires plan.mode == Adding && Covers(types, sets) && links == []
      modifies this`sets, this`links
      ensures r.None? ==> AddsDrained(plan, old(sets), sets, links, types)
      ensures r.Some? ==> Interrupted(plan, old(sets), sets, links, types)
      ensures r.Some? ==> !AllKnown(plan.metas, old(sets))
    {
      hide AllTies, LinkTies, Pending, Final, SlotTies;
      ghost var start := sets;
      StartAttached(plan, sets, types);
      while true
        invariant Attached(plan, start, sets, links, types, [], 0)
        invariant sets.Keys == start.Keys
        decreases |AllTies(plan, sets, types, |types|)|
      {
        ghost var before, was := sets, links;
        var drained;
        ghost var n, ds;
        drained, n, ds := DrainRound();
        RoundAttached(plan, start, before, sets, links, types, n, ds);
        if drained.Err? {
          Interrupts(plan, start, sets, links, types, ds, 0);
          return Some(drained.error);
        }
        if drained.value == [] {
          LastRound(plan, start, sets, links, types);
          return None;
        }
        ghost var k;
        r, k := AttachAll(drained.value, start);
        if r.Some? {
          Interrupts(plan, start, sets, links, types, drained.value, k);
          return;
        }
        AllAttached(plan, start, sets, links, types, drained.value);
        FewerTies(plan, start, before, was, sets, links, types);
      }
    }
  }

  lemma NewEntryTie(plan: Plan, sets: Sets, d: Drained)
    requires d.nav.related in sets
    ensures var more, idx := Pushed(plan, sets, d), |sets[d.nav.related]|;
      FinalAt(plan, more, d.nav.related, idx) == Final(plan, d.nav.related, NewEntry(plan, d.child)).entity
    ensures forall t, i :: t in sets && 0 <= i < |sets[t]| ==>
      OwnerAt(Pushed(plan, sets, d), t, i) == OwnerAt(sets, t, i)
  {
  }

  lemma {:induction false} SlotTiesCount(plan: Plan, sets: Sets, l: Link, n: nat)
    requires n <= |l.children|
    ensures |SlotTies(plan, sets, l, n)| == n
  {
    if n > 0 { SlotTiesCount(plan, sets, l, n - 1); }
  }

  lemma {:induction false} LinkTiesCount(plan: Plan, sets: Sets, links: seq<Link>, n: nat)
    requires n <= |links|
    ensures |LinkTies(plan, sets, links, n)| == SlotTotal(links, n)
  {
    if n > 0 {
      LinkTiesCount(plan, sets, links, n - 1);
      SlotTiesCount(plan, sets, links[n - 1], |links[n - 1].children|);
    }
  }

  /** As links get more slots, less is left to drain. */
  lemma FewerTies(plan: Plan, start: Sets, before: Sets, was: seq<Link>, sets: Sets, links: seq<Link>,
                  types: seq<TypeId>)
    requires Attached(plan, start, before, was, types, [], 0) && Attached(plan, start, sets, links, types, [], 0)
    requires SlotTotal(links, |links|) > SlotTotal(was, |was|)
    ensures |AllTies(plan, sets, types, |types|)| < |AllTies(plan, before, types, |types|)|
  {
    hide AllTies, LinkTies, Final, Pending, Grown;
    LinkTiesCount(plan, before, was, |was|);
    LinkTiesCount(plan, sets, links, |links|);
    PendingEnd(plan, before, []);
    PendingEnd(plan, sets, []);
    Sizes(AllTies(plan, sets, types, |types|), LinkTies(plan, sets, links, |links|));
    Sizes(AllTies(plan, before, types, |types|), LinkTies(plan, before, was, |was|));
  }

  lemma Sizes<T>(a: multiset<T>, b: multiset<T>)
    ensures |a + b + multiset{}| == |a| + |b|
  {
    assert a + b + multiset{} == a + b;
  }

  // ---------------------------------------------------------------------------
  // What the drain means
  // ---------------------------------------------------------------------------

  ghost predicate SlotAt(links: seq<Link>, k: nat, j: nat, t: TypeId, i: nat) {
    k < |links| && j < |links[k].children| && links[k].childType == t && links[k].children[j] == i
  }

  lemma {:induction false} OccursAt(children: seq<nat>, n: nat, i: nat) returns (j: nat)
    requires n <= |children| && Occurs(children, n, i) > 0
    ensures j < n && children[j] == i
  {
    if children[n - 1] == i { j := n - 1; } else { j := OccursAt(children, n - 1, i); }
  }

  lemma {:induction false} SlotExists(links: seq<Link>, n: nat, t: TypeId, i: nat) returns (k: nat, j: nat)
    requires n <= |links| && Slots(links, n, t, i) > 0
    ensures k < n && SlotAt(links, k, j, t, i)
  {
    if InLink(links[n - 1], t, i) > 0 {
      k := n - 1;
      j := OccursAt(links[k].children, |links[k].children|, i);
    } else {
      k, j := SlotExists(links, n - 1, t, i);
    }
  }

  lemma {:induction false} OccursCounts(children: seq<nat>, n: nat, i: nat, j: nat)
    requires j < n <= |children| && children[j] == i
    ensures Occurs(children, n, i) >= 1
    ensures forall h :: 0 <= h < n && h != j && children[h] == i ==> Occurs(children, n, i) >= 2
  {
    if j < n - 1 {
      OccursCounts(children, n - 1, i, j);
    } else {
      forall h | 0 <= h < n - 1 && children[h] == i ensures Occurs(children, n - 1, i) >= 1 {
        OccursCounts(children, n - 1, i, h);
      }
    }
  }

  lemma {:induction false} SlotCounts(links: seq<Link>, n: nat, t: TypeId, i: nat, k: nat)
    requires k < n <= |links| && InLink(links[k], t, i) > 0
    ensures Slots(links, n, t, i) >= InLink(links[k], t, i)
    ensures forall h :: 0 <= h < n && h != k && InLink(links[h], t, i) > 0 ==> Slots(links, n, t, i) >= 2
  {
    if k < n - 1 {
      SlotCounts(links, n - 1, t, i, k);
    } else {
      forall h | 0 <= h < n - 1 && InLink(links[h], t, i) > 0 ensures Slots(links, n - 1, t, i) >= 1 {
        SlotCounts(links, n - 1, t, i, h);
      }
    }
  }

  lemma OneSlot(links: seq<Link>, t: TypeId, i: nat, k: nat, j: nat, h: nat, m: nat)
    requires Slots(links, |links|, t, i) == 1 && SlotAt(links, k, j, t, i) && SlotAt(links, h, m, t, i)
    ensures h == k && m == j
  {
    OccursCounts(links[k].children, |links[k].children|, i, j);
    OccursCounts(links[h].children, |links[h].children|, i, m);
    SlotCounts(links, |links|, t, i, k);
  }

  /** Each entry added by the drain stands in exactly one slot. */
  lemma EachChildLinkedOnce(plan: Plan, start: Sets, sets: Sets, links: seq<Link>, types: seq<TypeId>, t: TypeId,
                            i: nat)
    returns (k: nat, j: nat)
    requires AddsDrained(plan, start, sets, links, types) && t in start && |start[t]| <= i < |sets[t]|
    ensures SlotAt(links, k, j, t, i) && LinkOk(plan, sets, links[k])
    ensures forall h, m :: SlotAt(links, h, m, t, i) ==> h == k && m == j
  {
    hide AllTies, LinkTies, DrainedSet;
    assert Slots(links, |links|, t, i) == 1;
    k, j := SlotExists(links, |links|, t, i);
    assert LinkOk(plan, sets, links[k]);
    forall h: nat, m: nat | SlotAt(links, h, m, t, i) ensures h == k && m == j {
      OneSlot(links, t, i, k, j, h, m);
    }
  }

  /** Every link slot is an entry the drain added. */
  lemma SlotsNameNewEntries(plan: Plan, start: Sets, sets: Sets, links: seq<Link>, types: seq<TypeId>, k: nat, j: nat)
    requires AddsDrained(plan, start, sets, links, types) && k < |links| && j < |links[k].children|
    ensures var t, i := links[k].childType, links[k].children[j]; t in start && |start[t]| <= i < |sets[t]|
  {
    hide AllTies, LinkTies, DrainedSet;
    var t, i := links[k].childType, links[k].children[j];
    OccursCounts(links[k].children, |links[k].children|, i, j);
    SlotCounts(links, |links|, t, i, k);
  }

  lemma {:induction false} TieInSlots(plan: Plan, sets: Sets, l: Link, n: nat, tie: Tie) returns (j: nat)
    requires n <= |l.children| && tie in SlotTies(plan, sets, l, n)
    ensures j < n && SlotTie(plan, sets, l, l.children[j]) == tie
  {
    hide SlotTie;
    if SlotTie(plan, sets, l, l.children[n - 1]) == tie {
      j := n - 1;
    } else {
      j := TieInSlots(plan, sets, l, n - 1, tie);
    }
  }

  lemma {:induction false} TieInLinks(plan: Plan, sets: Sets, links: seq<Link>, n: nat, tie: Tie)
    returns (k: nat, j: nat)
    requires n <= |links| && tie in LinkTies(plan, sets, links, n)
    ensures k < n && j < |links[k].children| && SlotTie(plan, sets, links[k], links[k].children[j]) == tie
  {
    hide SlotTies;
    if tie in SlotTies(plan, sets, links[n - 1], |links[n - 1].children|) {
      k := n - 1;
      j := TieInSlots(plan, sets, links[k], |links[k].children|, tie);
    } else {
      k, j := TieInLinks(plan, sets, links, n - 1, tie);
    }
  }

  lemma {:induction false} SlotThere(plan: Plan, sets: Sets, l: Link, j: nat, n: nat)
    requires j < n <= |l.children|
    ensures SlotTie(plan, sets, l, l.children[j]) in SlotTies(plan, sets, l, n)
  {
    hide SlotTie;
    if j < n - 1 { SlotThere(plan, sets, l, j, n - 1); }
  }

  lemma {:induction false} SlotTieThere(plan: Plan, sets: Sets, links: seq<Link>, k: nat, j: nat, n: nat)
    requires k < n <= |links| && j < |links[k].children|
    ensures SlotTie(plan, sets, links[k], links[k].children[j]) in LinkTies(plan, sets, links, n)
  {
    hide SlotTie, SlotTies;
    if k < n - 1 {
      SlotTieThere(plan, sets, links, k, j, n - 1);
    } else {
      SlotThere(plan, sets, links[k], j, |links[k].children|);
    }
  }

  /** What a held child's entry is like: the child with its values, Unchanged with them as original if it has a
      key, otherwise Added. */
  predicate ChildEntry(e: Entry, c: Entity) {
    && e.entity.uid == c.uid && e.entity.key == c.key && e.entity.fks == c.fks && e.entity.values == c.values
    && !e.upsert && e.modified == {}
    && e.state == (if c.key > 0 then Unchanged else Added)
    && e.original == (if c.key > 0 then Some(Snapshot(c.key, c.fks, c.values)) else None)
  }

  /** A child that an Added entry holds in a has-many or many-to-many collection at the start gets an entry of
      its own with its key, foreign keys and values, linked under the instance that held it. */
  lemma HeldChildLinked(plan: Plan, start: Sets, sets: Sets, links: seq<Link>, types: seq<TypeId>, t: TypeId, i: nat,
                        nav: Nav, c: Entity)
    returns (k: nat, j: nat)
    requires AddsDrained(plan, start, sets, links, types) && t in start && i < |start[t]|
    requires start[t][i].state == Added && !start[t][i].upsert && HoldsChild(start[t][i].entity.kids, nav, c)
    requires t in plan.metas && nav in plan.metas[t] && (nav.kind == HasMany || nav.kind == ManyToMany)
    ensures k < |links| && j < |links[k].children| && LinkOk(plan, sets, links[k])
    ensures links[k].childType == nav.related && links[k].throughTable == nav.throughTable
    ensures links[k].parentType == t && sets[t][links[k].parentIdx].entity.uid == start[t][i].entity.uid
    ensures ChildEntry(sets[nav.related][links[k].children[j]], c)
  {
    hide AllTies, LinkTies, Below, SlotsAreNew;
    var tie := TieOf(plan, Owner(t, start[t][i].entity.uid), nav, c);
    assert Covers(types, start);
    HeldIsThere(plan, start, types, t, i, nav, c);
    k, j := TieInLinks(plan, sets, links, |links|, tie);
    SlotsNameNewEntries(plan, start, sets, links, types, k, j);
    assert LinkOk(plan, sets, links[k]);
    assert ComesInDrained(plan, nav.related, sets[nav.related][links[k].children[j]]);
  }

  /** The drain takes all that Added entries hold in has-many and many-to-many collections, upserts aside, and
      nothing from other containers or other entries; it changes nothing else of the entries there were. */
  lemma ContainersAfter(plan: Plan, start: Sets, sets: Sets, links: seq<Link>, types: seq<TypeId>, t: TypeId, i: nat,
                        nav: Nav)
    requires AddsDrained(plan, start, sets, links, types) && t in start && i < |start[t]|
    ensures t in sets && i < |sets[t]|
    ensures var e0, e := start[t][i], sets[t][i];
      && e == e0.(entity := e0.entity.(kids := e.entity.kids))
      && Taken(e.entity.kids, nav)
         == if e0.state == Added && !e0.upsert && t in plan.metas && nav in plan.metas[t]
               && (nav.kind == HasMany || nav.kind == ManyToMany)
            then NoKids else Taken(e0.entity.kids, nav)
  {
    hide AllTies, LinkTies, Stay;
    assert DrainedSet(plan, t, start[t], sets[t]);
    StayTakes(start[t][i].entity.kids, Gone(plan, t), nav);
  }

  /** A link has the join columns of every navigation of its parent's type to the same type and join
      table, when those agree on them. */
  lemma LinkColumns(plan: Plan, sets: Sets, l: Link, nav: Nav)
    requires LinkOk(plan, sets, l) && nav in Gone(plan, l.parentType)
    requires nav.related == l.childType && nav.throughTable == l.throughTable
    requires forall a, b :: a in Gone(plan, l.parentType) && b in Gone(plan, l.parentType) ==> SameColumns(a, b)
    ensures OfNav(l, nav)
  {
    var own :| own in Gone(plan, l.parentType) && OfNav(l, own);
    assert SameColumns(own, nav);
  }

  predicate SameColumns(a: Nav, b: Nav) {
    a.related == b.related && a.throughTable == b.throughTable ==>
        a.throughParent == b.throughParent && a.throughChild == b.throughChild
  }

  ghost predicate AllDrained(plan: Plan, sets: Sets) {
    forall t, i :: t in sets && 0 <= i < |sets[t]| ==> sets[t][i] == Final(plan, t, sets[t][i])
  }

  lemma {:induction false} NothingLeft(plan: Plan, sets: Sets, types: seq<TypeId>, n: nat)
    requires n <= |types| && AllDrained(plan, sets)
    ensures AllTies(plan, sets, types, n) == multiset{}
  {
    if n > 0 {
      NothingLeft(plan, sets, types, n - 1);
      if types[n - 1] in sets { NoSetTies(plan, types[n - 1], sets[types[n - 1]], |sets[types[n - 1]]|); }
    }
  }

  /** Draining sets that are drained already changes nothing and yields no link. */
  lemma SecondDrain(plan: Plan, sets: Sets, after: Sets, links: seq<Link>, types: seq<TypeId>)
    requires AddsDrained(plan, sets, after, links, types) && AllDrained(plan, sets)
    ensures links == [] && after == sets
  {
    hide AllTies, LinkTies, Final;
    NothingLeft(plan, sets, types, |types|);
    LinkTiesCount(plan, after, links, |links|);
    LinksHaveSlots(plan, after, links, |links|);
    forall t | t in sets ensures after[t] == sets[t] {
      assert DrainedSet(plan, t, sets[t], after[t]);
      assert Slots(links, |links|, t, |sets[t]|) == 0;
    }
  }

  lemma {:induction false} LinksHaveSlots(plan: Plan, sets: Sets, links: seq<Link>, n: nat)
    requires n <= |links| && LinksOk(plan, sets, links)
    ensures SlotTotal(links, n) >= n
  {
    if n > 0 {
      LinksHaveSlots(plan, sets, links, n - 1);
      assert LinkOk(plan, sets, links[n - 1]);
    }
  }
}
