/** What a save needs to go through: a condition on the sets and tables before it. */
module SaveReady {
  import opened Wrappers
  import opened SaveModel
  import opened SaveLinkage
  import opened InsertPhase
  import opened SavePhases
  import CD = CascadeDrain
  import CA = CascadeAdds
  import Deletes = CascadeDeletes

  /** The entry has a row, and no other entry in its state has its key. */
  ghost predicate OwnRow(es: seq<Entry>, i: nat, table: Table)
    requires i < |es|
  {
    && es[i].entity.key in table
    && forall j :: 0 <= j < |es| && j != i && es[j].state == es[i].state ==> es[j].entity.key != es[i].entity.key
  }

  /** A Deleted entry holds no children in containers a delete cascades to. */
  ghost predicate HoldsNoDependents(metas: Metas, t: TypeId, e: Entry) {
    e.state == EntityState.Deleted ==> Stay(e.entity.kids, CD.Gone(CD.Plan(CD.Deleting, metas), t)) == e.entity.kids
  }

  /** No collection is of this type. */
  ghost predicate HeldNowhere(metas: Metas, t: TypeId) {
    forall u, nav :: u in metas && nav in metas[u] && Collection(nav) ==> nav.related != t
  }

  /** Keys for the Added entries are generated, or free and their own; there are no tokens; Modified and Deleted
      entries have rows of their own and no dependents to cascade to. Children to add may be held to any depth. */
  ghost predicate SetReady(metas: Metas, info: TypeInfo, t: TypeId, es: seq<Entry>, table: Table, next: int) {
    && FreeKeys(es, info, table, next) && (info.auto || HeldNowhere(metas, t)) && info.tokens == {}
    && forall i :: 0 <= i < |es| ==>
         HoldsNoDependents(metas, t, es[i])
         && (es[i].state == Modified || es[i].state == EntityState.Deleted ==> OwnRow(es, i, table))
  }

  ghost predicate StartReady(metas: Metas, infos: Infos, start: Sets, tables: Tables, next: Keys) {
    && CD.AllKnown(metas, start) && Registered(start, infos, tables, next)
    && forall t :: t in start ==> SetReady(metas, infos[t], t, start[t], tables[t], next[t])
  }

  lemma {:induction false} ChosenThere(kind: Kind, es: seq<Entry>, n: nat, table: Table)
    requires n <= |es|
    requires forall i :: 0 <= i < n && Concerns(kind, es[i]) ==> es[i].entity.key in table
    requires forall i, j :: 0 <= i < n && 0 <= j < n && i != j && Concerns(kind, es[i]) && Concerns(kind, es[j]) ==>
      es[i].entity.key != es[j].entity.key
    ensures AllThere(table, Chosen(kind, es, n))
  {
    if n > 0 {
      ChosenThere(kind, es, n - 1, table);
      var was, now := Chosen(kind, es, n - 1), Chosen(kind, es, n);
      ChosenAre(kind, es, n - 1);
      if Concerns(kind, es[n - 1]) {
        forall i | 0 <= i < |was| ensures was[i].entity.key != es[n - 1].entity.key && KeyOnce(was, i) {
          assert was[i] in was;
        }
      }
    }
  }

  /** No entry comes in by draining deletes when there is nothing to cascade to. */
  lemma NothingDeleted(plan: CD.Plan, added: Sets, sets: Sets, types: seq<TypeId>, x: Deletes.Expansions)
    requires plan.mode == CD.Deleting && Deletes.DeletesDrained(plan, added, sets, types, x)
    requires CA.AllDrained(plan, added)
    ensures sets == added
  {
    hide CD.Final, Deletes.AllDirectives, Deletes.AllExpanded, CD.AllTies, Deletes.News, Deletes.NewsIn, Deletes.NewTie;
    hide Deletes.Expansion;
    CA.NothingLeft(plan, added, types, |types|);
    NoNewsLeft(Deletes.News(plan, added, sets, types, |types|), x.dropped);
    forall t | t in added ensures sets[t] == added[t] {
      assert Deletes.DrainedSet(plan, t, added[t], sets[t]);
      if |sets[t]| > |added[t]| {
        var tie := Deletes.NewTie(plan, t, sets[t][|added[t]|]);
        var k :| 0 <= k < |types| && types[k] == t;
        Deletes.InNewsIn(plan, t, sets[t], |added[t]|, |sets[t]|, tie);
        Deletes.InNews(plan, added, sets, types, |types|, tie);
        assert false;
      }
    }
  }

  lemma NoNewsLeft<T>(a: multiset<T>, b: multiset<T>)
    requires a + b == multiset{}
    ensures a == multiset{}
  {
    assert |a + b| == |a| + |b|;
  }

  /** What draining adds leaves of one entry that was there. */
  lemma StartEntry(metas: Metas, t: TypeId, e: Entry)
    requires HoldsNoDependents(metas, t, e)
    ensures var f := CD.Final(CD.Plan(CD.Adding, metas), t, e);
      && f == e.(entity := e.entity.(kids := f.entity.kids)) && f == CD.Final(CD.Plan(CD.Deleting, metas), t, f)
  {
  }

  /** Entries that were there keep all but children; new ones are Added or Unchanged; nothing is to be deleted. */
  lemma AddedSet(metas: Metas, start: Sets, added: Sets, links: seq<CA.Link>, types: seq<TypeId>, t: TypeId)
    requires CA.AddsDrained(CD.Plan(CD.Adding, metas), start, added, links, types) && t in start
    requires forall i :: 0 <= i < |start[t]| ==> HoldsNoDependents(metas, t, start[t][i])
    ensures t in added && AddedTo(metas, t, start[t], added[t])
    ensures HeldNowhere(metas, t) ==> |added[t]| == |start[t]|
  {
    hide CD.AllTies, CA.LinkTies, CD.Final, CA.LinksOk, CA.SlotsAreNew;
    var plan := CD.Plan(CD.Adding, metas);
    assert CA.DrainedSet(plan, t, start[t], added[t]);
    forall i | 0 <= i < |added[t]| ensures added[t][i] == CD.Final(CD.Plan(CD.Deleting, metas), t, added[t][i]) {
      if i < |start[t]| { StartEntry(metas, t, start[t][i]); } else { NewEntryKept(metas, t, added[t][i]); }
    }
    forall i | 0 <= i < |start[t]|
      ensures added[t][i] == start[t][i].(entity := start[t][i].entity.(kids := added[t][i].entity.kids)) {
      StartEntry(metas, t, start[t][i]);
    }
    if |added[t]| > |start[t]| { NewIsHeld(plan, start, added, links, types, t); }
  }

  lemma NewIsHeld(plan: CD.Plan, start: Sets, added: Sets, links: seq<CA.Link>, types: seq<TypeId>, t: TypeId)
    requires CA.AddsDrained(plan, start, added, links, types) && t in start && t in added && |added[t]| > |start[t]|
    ensures !HeldNowhere(plan.metas, t)
  {
    hide CD.AllTies, CA.LinkTies, CA.DrainedSet, CA.LinksOk, CA.SlotsAreNew;
    var k, j := CA.EachChildLinkedOnce(plan, start, added, links, types, t, |start[t]|);
    var nav :| nav in CD.Gone(plan, links[k].parentType) && CA.OfNav(links[k], nav);
    assert Collection(nav) && nav.related == t;
  }

  lemma NewEntryKept(metas: Metas, t: TypeId, e: Entry)
    requires CA.ComesIn(CD.Plan(CD.Adding, metas), e)
    ensures e.state != EntityState.Deleted && e == CD.Final(CD.Plan(CD.Deleting, metas), t, e)
  {
  }

  ghost predicate AddedTo(metas: Metas, t: TypeId, a: seq<Entry>, b: seq<Entry>) {
    && |a| <= |b|
    && (forall i :: 0 <= i < |a| ==> b[i] == a[i].(entity := a[i].entity.(kids := b[i].entity.kids)))
    && (forall i :: |a| <= i < |b| ==> b[i].state == Added || b[i].state == Unchanged)
    && forall i :: 0 <= i < |b| ==> b[i] == CD.Final(CD.Plan(CD.Deleting, metas), t, b[i])
  }

  lemma SetThrough(metas: Metas, info: TypeInfo, t: TypeId, a: seq<Entry>, b: seq<Entry>, table: Table, next: int)
    requires SetReady(metas, info, t, a, table, next) && AddedTo(metas, t, a, b)
    requires info.auto || |a| == |b|
    ensures FreeKeys(b, info, table, next) && Reachable(Updating, info, table, b) && Reachable(Removing, info, table, b)
  {
    hide HoldsNoDependents, CD.Final;
    forall kind: Kind | !kind.Upserting? ensures Reachable(kind, info, table, b) {
      forall i | 0 <= i < |b| && Concerns(kind, b[i])
        ensures b[i].entity.key in table
        ensures forall j :: 0 <= j < |b| && j != i && Concerns(kind, b[j]) ==> b[j].entity.key != b[i].entity.key {
        assert OwnRow(a, i, table);
      }
      ChosenThere(kind, b, |b|, table);
    }
  }

  /** What stands ready before the drains does so after them. */
  lemma ReadyThrough(metas: Metas, infos: Infos, start: Sets, added: Sets, links: seq<CA.Link>, expanded: Sets,
                     x: Deletes.Expansions, types: seq<TypeId>, tables: Tables, next: Keys)
    requires StartReady(metas, infos, start, tables, next)
    requires CA.AddsDrained(CD.Plan(CD.Adding, metas), start, added, links, types)
    requires Deletes.DeletesDrained(CD.Plan(CD.Deleting, metas), added, expanded, types, x)
    ensures KeysFree(expanded, infos, tables, next) && StagesReady(infos, expanded, tables)
  {
    hide CA.AddsDrained, Deletes.DeletesDrained, CD.AllKnown, CD.Final, FreeKeys, Reachable, HoldsNoDependents;
    CA.DrainedCovers(CD.Plan(CD.Adding, metas), start, added, links, types);
    forall t | t in start ensures AddedTo(metas, t, start[t], added[t]) {
      AddedSet(metas, start, added, links, types, t);
    }
    NothingDeleted(CD.Plan(CD.Deleting, metas), added, expanded, types, x);
    forall t | t in start
      ensures FreeKeys(expanded[t], infos[t], tables[t], next[t])
      ensures Reachable(Updating, infos[t], tables[t], expanded[t])
      ensures Reachable(Removing, infos[t], tables[t], expanded[t]) {
      AddedSet(metas, start, added, links, types, t);
      SetThrough(metas, infos[t], t, start[t], expanded[t], tables[t], next[t]);
    }
  }
}
