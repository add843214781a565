/** When tables are fit for a save: a condition on the sets before it and on all their containers hold. */
module SaveFit {
  import opened Wrappers
  import opened SaveModel
  import opened SaveLinkage
  import CD = CascadeDrain
  import CA = CascadeAdds
  import Deletes = CascadeDeletes

  /** An instance with a foreign key field per property and, if it has a key, a row; so all it holds. */
  predicate Fits(infos: Infos, tables: Tables, t: TypeId, e: Entity)
    decreases e
  {
    && t in infos && t in tables && |e.fks| == |infos[t].targets| && (e.key != 0 ==> e.key in tables[t])
    && KidsFit(infos, tables, e.kids)
  }

  predicate KidsFit(infos: Infos, tables: Tables, kids: Kids)
    decreases kids
  {
    match kids
    case NoKids => true
    case Kid(nav, c, rest) => Fits(infos, tables, nav.related, c) && KidsFit(infos, tables, rest)
  }

  predicate EntryFits(infos: Infos, tables: Tables, t: TypeId, e: Entry) {
    && t in infos && t in tables && |e.entity.fks| == |infos[t].targets|
    && (Stands(e) ==> e.entity.key in tables[t]) && KidsFit(infos, tables, e.entity.kids)
  }

  ghost predicate SetsFit(infos: Infos, tables: Tables, sets: Sets) {
    forall t, i :: t in sets && 0 <= i < |sets[t]| ==> EntryFits(infos, tables, t, sets[t][i])
  }

  lemma {:induction false} StayFits(infos: Infos, tables: Tables, kids: Kids, gone: set<Nav>)
    requires KidsFit(infos, tables, kids)
    ensures KidsFit(infos, tables, Stay(kids, gone))
  {
    if kids.Kid? { StayFits(infos, tables, kids.rest, gone); }
  }

  lemma FinalFits(infos: Infos, tables: Tables, plan: CD.Plan, t: TypeId, e: Entry)
    requires KidsFit(infos, tables, e.entity.kids)
    ensures KidsFit(infos, tables, CD.Final(plan, t, e).entity.kids)
  {
    StayFits(infos, tables, e.entity.kids, CD.Gone(plan, t));
  }

  lemma TieFits(infos: Infos, tables: Tables, plan: CD.Plan, p: CD.Owner, nav: Nav, c: Entity)
    requires Fits(infos, tables, nav.related, c)
    ensures Fits(infos, tables, CD.TieOf(plan, p, nav, c).childType, CD.TieOf(plan, p, nav, c).child)
  {
    FinalFits(infos, tables, plan, nav.related, CD.NewEntry(plan, c));
  }

  lemma {:induction false} BelowFits(infos: Infos, tables: Tables, plan: CD.Plan, p: CD.Owner, kids: Kids,
                                     gone: set<Nav>, tie: CD.Tie)
    requires KidsFit(infos, tables, kids) && tie in CD.Below(plan, p, kids, gone)
    ensures Fits(infos, tables, tie.childType, tie.child)
    decreases kids
  {
    hide CD.TieOf, CD.Gone, CD.NewEntry, CD.Enters, CD.Drains, Fits;
    if kids.Kid? {
      var nav, c := kids.nav, kids.child;
      CD.KidTies(plan, p, kids, gone);
      if tie in CD.Below(plan, p, kids.rest, gone) {
        BelowFits(infos, tables, plan, p, kids.rest, gone, tie);
      } else if tie == CD.TieOf(plan, p, nav, c) {
        TieFits(infos, tables, plan, p, nav, c);
      } else {
        FurtherBelow(plan, nav, c, tie);
        HeldFits(infos, tables, nav.related, c);
        BelowFits(infos, tables, plan, CD.Owner(nav.related, c.uid), c.kids, CD.Gone(plan, nav.related), tie);
      }
    }
  }

  lemma HeldFits(infos: Infos, tables: Tables, t: TypeId, c: Entity)
    requires Fits(infos, tables, t, c)
    ensures KidsFit(infos, tables, c.kids)
  {
  }

  lemma FurtherBelow(plan: CD.Plan, nav: Nav, c: Entity, tie: CD.Tie)
    requires tie in CD.Further(plan, nav, c)
    ensures tie in CD.Below(plan, CD.Owner(nav.related, c.uid), c.kids, CD.Gone(plan, nav.related))
  {
    hide CD.Below, CD.Gone;
  }

  lemma {:induction false} SetFits(infos: Infos, tables: Tables, plan: CD.Plan, t: TypeId, es: seq<Entry>, n: nat,
                                   tie: CD.Tie)
    requires n <= |es| && (forall i :: 0 <= i < |es| ==> EntryFits(infos, tables, t, es[i]))
    requires tie in CD.SetTies(plan, t, es, n)
    ensures Fits(infos, tables, tie.childType, tie.child)
  {
    hide CD.Below, CD.Gone, Fits, KidsFit;
    if tie in CD.EntryTies(plan, t, es[n - 1]) {
      var e := es[n - 1].entity;
      BelowFits(infos, tables, plan, CD.Owner(t, e.uid), e.kids, CD.Gone(plan, t), tie);
    } else {
      SetFits(infos, tables, plan, t, es, n - 1, tie);
    }
  }

  /** Whatever is to be drained fits. */
  lemma {:induction false} TiesFit(infos: Infos, tables: Tables, plan: CD.Plan, sets: Sets, types: seq<TypeId>, n: nat,
                                   tie: CD.Tie)
    requires n <= |types| && SetsFit(infos, tables, sets) && tie in CD.AllTies(plan, sets, types, n)
    ensures Fits(infos, tables, tie.childType, tie.child)
  {
    hide CD.SetTies, Fits, KidsFit;
    var t := types[n - 1];
    if tie in CD.TypeTies(plan, sets, t) {
      SetFits(infos, tables, plan, t, sets[t], |sets[t]|, tie);
    } else {
      TiesFit(infos, tables, plan, sets, types, n - 1, tie);
    }
  }

  lemma AddedFit(infos: Infos, tables: Tables, plan: CD.Plan, start: Sets, added: Sets, links: seq<CA.Link>,
                 types: seq<TypeId>)
    requires CA.AddsDrained(plan, start, added, links, types) && SetsFit(infos, tables, start)
    ensures SetsFit(infos, tables, added)
  {
    hide CD.AllTies, CA.LinkTies, CD.Final, Fits, KidsFit, CA.SlotsAreNew, CA.LinksOk;
    forall t, i | t in added && 0 <= i < |added[t]| ensures EntryFits(infos, tables, t, added[t][i]) {
      assert CA.DrainedSet(plan, t, start[t], added[t]);
      if i < |start[t]| {
        assert EntryFits(infos, tables, t, start[t][i]);
        OldFits(infos, tables, plan, t, start[t][i]);
      } else {
        var k, j := CA.EachChildLinkedOnce(plan, start, added, links, types, t, i);
        CA.SlotTieThere(plan, added, links, k, j, |links|);
        TiesFit(infos, tables, plan, start, types, |types|, CA.SlotTie(plan, added, links[k], i));
        NewFits(infos, tables, plan, t, added[t][i]);
      }
    }
  }

  lemma OldFits(infos: Infos, tables: Tables, plan: CD.Plan, t: TypeId, e: Entry)
    requires EntryFits(infos, tables, t, e)
    ensures EntryFits(infos, tables, t, CD.Final(plan, t, e))
  {
    FinalFits(infos, tables, plan, t, e);
  }

  lemma NewFits(infos: Infos, tables: Tables, plan: CD.Plan, t: TypeId, e: Entry)
    requires Fits(infos, tables, t, e.entity) && CA.ComesInDrained(plan, t, e) && plan.mode == CD.Adding
    ensures EntryFits(infos, tables, t, e)
  {
  }

  lemma DeletedFit(infos: Infos, tables: Tables, plan: CD.Plan, added: Sets, sets: Sets, types: seq<TypeId>,
                   x: Deletes.Expansions)
    requires plan.mode == CD.Deleting && Deletes.DeletesDrained(plan, added, sets, types, x)
    requires SetsFit(infos, tables, added)
    ensures SetsFit(infos, tables, sets)
  {
    hide CD.AllTies, Deletes.News, CD.Final, Fits, KidsFit, Deletes.AllDirectives, Deletes.AllExpanded;
    forall t, i | t in sets && 0 <= i < |sets[t]| ensures EntryFits(infos, tables, t, sets[t][i]) {
      assert Deletes.DrainedSet(plan, t, added[t], sets[t]);
      if i < |added[t]| {
        assert EntryFits(infos, tables, t, added[t][i]);
        OldFits(infos, tables, plan, t, added[t][i]);
      } else {
        var tie := Deletes.NewTie(plan, t, sets[t][i]);
        var k :| 0 <= k < |types| && types[k] == t;
        Deletes.InNewsIn(plan, t, sets[t], |added[t]|, |sets[t]|, tie);
        Deletes.InNews(plan, added, sets, types, |types|, tie);
        TiesFit(infos, tables, plan, added, types, |types|, tie);
        assert Deletes.EntersDeleted(plan, sets[t][i]);
        KeyedFits(infos, tables, t, sets[t][i]);
      }
    }
  }

  lemma KeyedFits(infos: Infos, tables: Tables, t: TypeId, e: Entry)
    requires Fits(infos, tables, t, e.entity) && e.entity.key != 0
    ensures EntryFits(infos, tables, t, e)
  {
  }

  /** Tables are fit for the insert phase if they have a row for every tracked entry that is not Added and
      for every held child with a key. */
  lemma BackedAfterDrains(infos: Infos, tables: Tables, next: Keys, metas: Metas, start: Sets, added: Sets,
                          links: seq<CA.Link>, sets: Sets,
                          types: seq<TypeId>, x: Deletes.Expansions)
    requires SetsFit(infos, tables, start) && Registered(start, infos, tables, next)
    requires forall t :: t in start ==> KeysBelow(infos[t], tables[t], next[t])
    requires CA.AddsDrained(CD.Plan(CD.Adding, metas), start, added, links, types)
    requires Deletes.DeletesDrained(CD.Plan(CD.Deleting, metas), added, sets, types, x)
    ensures Backed(sets, infos, tables, next)
  {
    hide CD.AllTies, CA.LinkTies, Deletes.News, CD.Final, KidsFit;
    AddedFit(infos, tables, CD.Plan(CD.Adding, metas), start, added, links, types);
    DeletedFit(infos, tables, CD.Plan(CD.Deleting, metas), added, sets, types, x);
    forall t | t in sets ensures SetBacked(sets[t], infos[t], tables[t], next[t]) {
      forall i | 0 <= i < |sets[t]|
        ensures |sets[t][i].entity.fks| == |infos[t].targets|
        ensures Stands(sets[t][i]) ==> Known(sets[t], sets[t][i].entity.key, infos[t], tables[t], next[t]) {
        assert EntryFits(infos, tables, t, sets[t][i]);
      }
    }
  }
}
