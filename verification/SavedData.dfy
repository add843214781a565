/** What the saved data holds of new entries: their rows, links and join rows. */
module SavedData {
  import opened Wrappers
  import opened SaveModel
  import opened SaveLinkage
  import opened InsertPhase
  import opened SavedLinks
  import opened SavePhases
  import opened SavePipeline
  import opened SaveGuarantees
  import opened SavedDependents
  import opened SavedUpdates
  import SaveAgain
  import CD = CascadeDrain
  import CA = CascadeAdds
  import Deletes = CascadeDeletes

  // ---------------------------------------------------------------------------
  // New entries
  // ---------------------------------------------------------------------------

  /** What the schema says fits the navigations: a column a statement names holds keys of the principal's
      type, a foreign key column those of its target's, a join column those of the ends' types. */
  ghost predicate Proper(m: Model) {
    && (forall t, nav, table, column :: t in m.metas && nav in m.metas[t] ==>
         Deletes.Strikes(nav, table, column) || Deletes.Clears(nav, table, column) ==> OwnedBy(m, table, column, t))
    && (forall name :: name in m.schema ==> TargetFits(m, name, m.schema[name]))
    && forall t, nav :: t in m.metas && nav in m.metas[t] && Collection(nav) ==> JoinFits(m, t, nav)
  }

  predicate OwnedBy(m: Model, table: string, column: string, t: TypeId) {
    (table, column) in m.owners && m.owners[(table, column)] == t
  }

  predicate TargetFits(m: Model, name: (string, string), target: Target) {
    && target.type_ in m.infos && target.at < |m.infos[target.type_].targets|
    && (name in m.owners ==> m.owners[name] == m.infos[target.type_].targets[target.at])
  }

  predicate JoinFits(m: Model, t: TypeId, nav: Nav) {
    nav.throughTable.Some? && nav.throughParent.Some? && nav.throughChild.Some? ==>
      && ((nav.throughTable.value, nav.throughParent.value) in m.owners ==>
           OwnedBy(m, nav.throughTable.value, nav.throughParent.value, t))
      && ((nav.throughTable.value, nav.throughChild.value) in m.owners ==>
           OwnedBy(m, nav.throughTable.value, nav.throughChild.value, nav.related))
  }

  /** The parent of a link is to be inserted too. */
  lemma ParentInserted(m: Model, c: Course, k: nat)
    requires AddsRan(m, c) && DeletesRan(m, c) && k < |c.links|
    ensures c.links[k].parentType in c.expanded && c.links[k].parentIdx < |c.expanded[c.links[k].parentType]|
    ensures Persists(c.expanded[c.links[k].parentType][c.links[k].parentIdx])
  {
    hide CD.AllTies, CA.LinkTies, CA.DrainedSet, CA.SlotsAreNew, Deletes.DeletesDrained;
    DrainKeys(m, c);
    assert CA.LinkOk(CD.Plan(CD.Adding, m.metas), c.added, c.links[k]);
    assert EntryLighter(c.added[c.links[k].parentType][c.links[k].parentIdx],
                        c.expanded[c.links[k].parentType][c.links[k].parentIdx]);
  }

  /** The key of an inserted entry is its own, and its row is stored under it. */
  lemma InsertedStands(m: Model, c: Course, t: TypeId, i: nat)
    requires AddsRan(m, c) && DeletesRan(m, c) && Stored(m, c) && Fit(m, c)
    requires t in c.expanded && i < |c.expanded[t]| && Persists(c.expanded[t][i])
    ensures t in c.stored && i < |c.stored[t]| && KeyAlone(c.stored[t], i) && Persists(c.stored[t][i])
    ensures t in c.inserted.tables && c.stored[t][i].entity.key in c.inserted.tables[t]
  {
    hide AddsRan, DeletesRan, Stored, Backed, KeyAlone;
    var w := SaveAgain.WatchOf(m, c, t, i);
    RowOfInserted(m, c, w);
    StoredEntry(m, c, t, i);
  }

  lemma StoredEntry(m: Model, c: Course, t: TypeId, i: nat)
    requires Stored(m, c) && t in c.expanded && i < |c.expanded[t]|
    ensures t in c.stored && i < |c.stored[t]| && EntryShape(c.expanded[t][i], c.stored[t][i])
  {
    hide AllFksAfter, KeysAfter, TablesAfter, RowsAfter;
    ShapeAt(c.expanded, c.stored, t, i);
  }

  /** No statement names the key of an inserted entry in a column that holds keys of its type. */
  lemma NewKeyUnnamed(m: Model, c: Course, t: TypeId, i: nat, d: Deletes.Directive)
    requires AddsRan(m, c) && DeletesRan(m, c) && Stored(m, c) && Proper(m) && d in Names(c)
    requires t in c.expanded && i < |c.expanded[t]| && Persists(c.expanded[t][i])
    requires t in c.stored && i < |c.stored[t]| && KeyAlone(c.stored[t], i)
    requires OwnedBy(m, d.table, d.fkColumn, t)
    ensures d.key != c.stored[t][i].entity.key
  {
    hide AddsRan, DeletesRan, Stored, Proper;
    var p, h := WhoCalled(m, c, d);
    StoredEntry(m, c, p, h);
    StoredEntry(m, c, t, i);
  }

  /** The Deleted entry a statement is issued for, whose type owns the column. */
  lemma WhoCalled(m: Model, c: Course, d: Deletes.Directive) returns (p: TypeId, h: nat)
    requires DeletesRan(m, c) && Proper(m) && d in Names(c)
    ensures p in c.expanded && h < |c.expanded[p]| && c.expanded[p][h].state == EntityState.Deleted
    ensures c.expanded[p][h].entity.key == d.key && OwnedBy(m, d.table, d.fkColumn, p)
  {
    hide CD.AllTies, Deletes.News, Deletes.DrainedSet, Deletes.Strikes, Deletes.Clears, Deletes.Expansion;
    Deletes.StatementsExact(CD.Plan(CD.Deleting, m.metas), c.expanded, c.deletes.processed, c.deletes.directives,
                            c.deletes.order, d);
    var nav;
    p, h, nav :| p in c.expanded && 0 <= h < |c.expanded[p]| && c.expanded[p][h].state == EntityState.Deleted
      && c.expanded[p][h].entity.key == d.key && p in m.metas && nav in m.metas[p]
      && (Deletes.Strikes(nav, d.table, d.fkColumn) || Deletes.Clears(nav, d.table, d.fkColumn));
  }

  /** No statement names a foreign key that points to an inserted entry. */
  lemma LinkUnhit(m: Model, c: Course, t: TypeId, i: nat, child: TypeId, at: nat, action: Deletes.Action)
    requires AddsRan(m, c) && DeletesRan(m, c) && Stored(m, c) && Proper(m)
    requires t in c.expanded && i < |c.expanded[t]| && Persists(c.expanded[t][i])
    requires t in c.stored && i < |c.stored[t]| && KeyAlone(c.stored[t], i)
    requires child in m.infos && at < |m.infos[child].targets| && m.infos[child].targets[at] == t
    ensures !Hit(m.schema, Names(c), |Names(c)|, action, child, at, Some(c.stored[t][i].entity.key))
  {
    hide AddsRan, DeletesRan, Stored, KeyAlone;
    forall x | 0 <= x < |Names(c)|
      ensures !HitBy(m.schema, Names(c)[x], action, child, at, Some(c.stored[t][i].entity.key)) {
      var d := Names(c)[x];
      if (d.table, d.fkColumn) in m.schema && m.schema[(d.table, d.fkColumn)] == Target(child, at) {
        Owned(m, c, d);
        assert TargetFits(m, (d.table, d.fkColumn), Target(child, at));
        NewKeyUnnamed(m, c, t, i, d);
      }
    }
  }

  /** The column a statement names is known. */
  lemma Owned(m: Model, c: Course, d: Deletes.Directive)
    requires DeletesRan(m, c) && Proper(m) && d in Names(c)
    ensures (d.table, d.fkColumn) in m.owners
  {
    hide DeletesRan, Proper;
    var p, h := WhoCalled(m, c, d);
  }

  /** An Added entry's row holds its values; unless it is linked to a parent, also the foreign keys it had. */
  lemma InsertedRow(m: Model, c: Course, t: TypeId, i: nat)
    requires AddsRan(m, c) && DeletesRan(m, c) && Stored(m, c) && Fit(m, c)
    requires t in c.expanded && i < |c.expanded[t]| && c.expanded[t][i].state == Added && !c.expanded[t][i].upsert
    ensures t in c.stored && i < |c.stored[t]| && t in c.inserted.tables
    ensures var key, e := c.stored[t][i].entity.key, c.expanded[t][i].entity;
      && key in c.inserted.tables[t] && c.inserted.tables[t][key].values == e.values
      && ((forall k, j :: !FkSlot(c.links, k, j, t, i)) ==> c.inserted.tables[t][key].fks == e.fks)
      && (t in m.infos && !m.infos[t].auto ==> key == e.key)
  {
    hide AddsRan, DeletesRan, Stored, Backed, KeyAlone;
    var w := SaveAgain.WatchOf(m, c, t, i);
    RowOfInserted(m, c, w);
    StoredEntry(m, c, t, i);
    OwnKeyKept(m, c, t, i);
  }

  /** Without generated keys an entry keeps its own. */
  lemma OwnKeyKept(m: Model, c: Course, t: TypeId, i: nat)
    requires Stored(m, c) && Fit(m, c) && t in c.expanded && i < |c.expanded[t]|
    ensures t in c.stored && i < |c.stored[t]|
    ensures t in m.infos && !m.infos[t].auto ==> c.stored[t][i].entity.key == c.expanded[t][i].entity.key
  {
    hide AllFksAfter, TablesAfter, RowsAfter, SetBacked;
    ShapeAt(c.expanded, c.stored, t, i);
    assert KeyAfter(c.expanded[t][i], c.stored, t, i, m.infos[t], c.keys0[t], c.keys[t],
                    t in DoneTypes(c.order, c.done, c.expanded.Keys));
  }

  /** After a save the row of an Added entry, no upsert, is there, with the columns SET NULLs name cleared,
      exactly when no DELETE for a deleted principal names a value of its other columns. */
  lemma InsertedSaved(m: Model, c: Course, t: TypeId, i: nat)
    requires Finished(m, c) && Fit(m, c) && t in c.expanded && i < |c.expanded[t]|
    requires c.expanded[t][i].state == Added && !c.expanded[t][i].upsert
    requires t in c.stored && i < |c.stored[t]| && NoUpsertOn(c.stored[t], c.stored[t][i].entity.key)
    ensures t in c.saved.tables && t in c.inserted.tables
    ensures var key := c.stored[t][i].entity.key;
      && key in c.inserted.tables[t]
      && (key in c.saved.tables[t] <==> Spared(m, c, t, c.inserted.tables[t][key]))
      && (key in c.saved.tables[t] ==> LeftOf(m, c, t, c.inserted.tables[t][key], c.saved.tables[t][key]))
  {
    hide AddsRan, DeletesRan, Stored, LaterRan, Backed, Spared, LeftOf;
    InsertedStands(m, c, t, i);
    RowLeft(m, c, t, c.stored[t][i].entity.key);
  }

  /** After a save the row of a child linked to its new parent, if it is there, still points to it. */
  lemma LinkedSaved(m: Model, c: Course, w: Watch)
    requires Finished(m, c) && Fit(m, c) && Proper(m) && Watching(w, c.expanded, c.links) && w.linked
    requires Persists(c.expanded[w.child][w.idx]) && w.child in c.stored && w.idx < |c.stored[w.child]|
    requires NoUpsertOn(c.stored[w.child], ChildKey(w, c.stored)) && Realised(w, c.stored, c.inserted.tables, m.infos)
    ensures w.child in c.saved.tables
    ensures ChildKey(w, c.stored) in c.saved.tables[w.child] <==>
      Spared(m, c, w.child, c.inserted.tables[w.child][ChildKey(w, c.stored)])
    ensures ChildKey(w, c.stored) in c.saved.tables[w.child] ==> Realised(w, c.stored, c.saved.tables, m.infos)
  {
    hide AddsRan, DeletesRan, Stored, LaterRan, Backed, Spared, Hit, KeyAlone, Proper;
    InsertedSaved(m, c, w.child, w.idx);
    ParentInserted(m, c, w.link);
    InsertedStands(m, c, w.parent, w.at);
    var key, targets := ChildKey(w, c.stored), m.infos[w.child].targets;
    if key in c.saved.tables[w.child] {
      var r0, r := c.inserted.tables[w.child][key], c.saved.tables[w.child][key];
      forall at | 0 <= at < |r.fks| && at < |targets| && targets[at] == w.parent
        ensures r.fks[at] == Some(ParentKey(w, c.stored)) {
        LinkUnhit(m, c, w.parent, w.at, w.child, at, Deletes.Nullify);
        HitMeans(m, c, w.child, at, Some(ParentKey(w, c.stored)));
      }
    }
  }

  /** After a save in a sound model every new child an Added entry held is stored and points to the key of
      the very instance that held it; only a DELETE for another deleted principal can have taken it away. */
  lemma HeldChildSaved(m: Model, c: Course, t: TypeId, i: nat, nav: Nav, child: Entity) returns (k: nat, j: nat)
    requires Finished(m, c) && Fit(m, c) && Sound(m, c.graph) && Proper(m) && HeldNew(m, c, t, i, nav, child)
    requires nav.related in c.stored
    requires forall h :: 0 <= h < |c.stored[nav.related]| && Persists(c.stored[nav.related][h]) ==>
      NoUpsertOn(c.stored[nav.related], c.stored[nav.related][h].entity.key)
    ensures SlotOf(m, c, t, i, nav, child, k, j)
    ensures var w := Watch(true, k, j, t, c.links[k].parentIdx, nav.related, c.links[k].children[j]);
      && nav.related in c.saved.tables && nav.related in c.inserted.tables
      && ChildKey(w, c.stored) in c.inserted.tables[nav.related]
      && (ChildKey(w, c.stored) in c.saved.tables[nav.related] <==>
           Spared(m, c, nav.related, c.inserted.tables[nav.related][ChildKey(w, c.stored)]))
      && (ChildKey(w, c.stored) in c.saved.tables[nav.related] ==> Realised(w, c.stored, c.saved.tables, m.infos))
  {
    hide AddsRan, DeletesRan, Stored, LaterRan, Backed, Spared, Proper, Sound, HeldNew, SlotOf, Realised;
    k, j := HeldChildPointsToParent(m, c, t, i, nav, child);
    var w := HeldWatch(m, c, t, i, nav, child, k, j);
    InsertedStands(m, c, nav.related, w.idx);
    LinkedSaved(m, c, w);
  }

  /** The held child's entry, watched. */
  lemma HeldWatch(m: Model, c: Course, t: TypeId, i: nat, nav: Nav, child: Entity, k: nat, j: nat) returns (w: Watch)
    requires AddsRan(m, c) && DeletesRan(m, c) && Stored(m, c) && HeldNew(m, c, t, i, nav, child)
    requires SlotOf(m, c, t, i, nav, child, k, j)
    ensures w == Watch(true, k, j, t, c.links[k].parentIdx, nav.related, c.links[k].children[j])
    ensures Watching(w, c.expanded, c.links) && Persists(c.expanded[w.child][w.idx])
  {
    hide AddsRan, DeletesRan, Stored;
    SlotParts(m, c, t, i, nav, child, k, j);
    DrainKeys(m, c);
    w := WatchSlot(m, c, k, j);
    StoredEntry(m, c, w.child, w.idx);
    Tracked(m, c, w);
  }

  lemma WatchSlot(m: Model, c: Course, k: nat, j: nat) returns (w: Watch)
    requires AddsRan(m, c) && DeletesRan(m, c) && k < |c.links| && j < |c.links[k].children|
    requires c.links[k].throughTable.None?
    ensures w == Watch(true, k, j, c.links[k].parentType, c.links[k].parentIdx, c.links[k].childType,
                       c.links[k].children[j])
    ensures Watching(w, c.expanded, c.links)
  {
    hide CA.AddsDrained, Deletes.DeletesDrained;
    DrainKeys(m, c);
    w := DrainedChildWatched(CD.Plan(CD.Adding, m.metas), c.start, c.added, c.links, m.types, c.expanded, k, j);
  }

  /** A linked child is tracked, and no upsert. */
  lemma Tracked(m: Model, c: Course, w: Watch)
    requires AddsRan(m, c) && DeletesRan(m, c) && Watching(w, c.expanded, c.links) && w.linked
    ensures !Aside(c.expanded[w.child][w.idx])
  {
    hide CA.AddsDrained, Deletes.DeletesDrained;
    DrainKeys(m, c);
    DrainedLinksFit(CD.Plan(CD.Adding, m.metas), c.start, c.added, c.links, m.types, c.expanded);
    assert LinkFits(c.expanded, c.links[w.link]);
  }

  // ---------------------------------------------------------------------------
  // Join rows
  // ---------------------------------------------------------------------------

  /** A column of a link's join table that a statement names holds the keys of its end's type. */
  lemma JoinOwned(m: Model, c: Course, k: nat, d: Deletes.Directive)
    requires AddsRan(m, c) && DeletesRan(m, c) && Proper(m) && k < |c.links| && Complete(c.links[k]) && d in Names(c)
    requires d.table == c.links[k].throughTable.value
    ensures d.fkColumn == c.links[k].throughParent.value ==> OwnedBy(m, d.table, d.fkColumn, c.links[k].parentType)
    ensures d.fkColumn == c.links[k].throughChild.value ==> OwnedBy(m, d.table, d.fkColumn, c.links[k].childType)
  {
    hide CD.AllTies, CA.LinkTies, CA.DrainedSet, CA.SlotsAreNew, Deletes.DeletesDrained;
    Owned(m, c, d);
    var plan, l := CD.Plan(CD.Adding, m.metas), c.links[k];
    assert CA.LinkOk(plan, c.added, l);
    var nav :| nav in CD.Gone(plan, l.parentType) && CA.OfNav(l, nav);
    assert JoinFits(m, l.parentType, nav);
  }

  /** No statement names a join row between two new entries. */
  lemma JoinUnhit(m: Model, c: Course, k: nat, j: nat)
    requires AddsRan(m, c) && DeletesRan(m, c) && Stored(m, c) && Fit(m, c) && Proper(m) && k < |c.links|
    requires Complete(c.links[k]) && LinkFits(c.stored, c.links[k]) && j < |c.links[k].children|
    requires Persists(c.stored[c.links[k].childType][c.links[k].children[j]])
    ensures !JoinHit(Names(c), |Names(c)|, RowOf(c.links[k], c.stored, j))
  {
    hide AddsRan, DeletesRan, Stored, Backed, Proper, KeyAlone;
    var l, row := c.links[k], RowOf(c.links[k], c.stored, j);
    ParentInserted(m, c, k);
    InsertedStands(m, c, l.parentType, l.parentIdx);
    InsertedBefore(m, c, l.childType, l.children[j]);
    InsertedStands(m, c, l.childType, l.children[j]);
    forall x | 0 <= x < |Names(c)| ensures !JoinHitBy(Names(c)[x], row) {
      var d := Names(c)[x];
      if d.table == row.table {
        JoinOwned(m, c, k, d);
        if d.fkColumn == row.parentColumn { NewKeyUnnamed(m, c, l.parentType, l.parentIdx, d); }
        if d.fkColumn == row.childColumn { NewKeyUnnamed(m, c, l.childType, l.children[j], d); }
      }
    }
  }

  lemma InsertedBefore(m: Model, c: Course, t: TypeId, i: nat)
    requires Stored(m, c) && t in c.stored && i < |c.stored[t]| && Persists(c.stored[t][i])
    ensures t in c.expanded && i < |c.expanded[t]| && Persists(c.expanded[t][i])
  {
    hide AllFksAfter, KeysAfter, TablesAfter, RowsAfter;
    assert SetShape(c.expanded[t], c.stored[t]);
    ShapeAt(c.expanded, c.stored, t, i);
  }

  /** A join row the insert phase wrote between two new entries is in the saved data. */
  lemma JoinSaved(m: Model, c: Course, k: nat, j: nat)
    requires Finished(m, c) && Fit(m, c) && Proper(m) && k < |c.links|
    requires Complete(c.links[k]) && LinkFits(c.stored, c.links[k]) && j < |c.links[k].children|
    requires Persists(c.stored[c.links[k].childType][c.links[k].children[j]])
    ensures RowOf(c.links[k], c.stored, j) in c.saved.joins
  {
    hide AddsRan, DeletesRan, Written, Backed, Proper, JoinsLeft, PhaseRun, Nulled, Purged, Flatten, RowCount;
    hide TablesAfter, RowsAfter;
    JoinUnhit(m, c, k, j);
    SlotJoined(c.links, c.stored, k, j);
    var row := RowOf(c.links[k], c.stored, j);
    assert c.inserted.joins[Place(c, k, j)] == row;
    JoinLeft(c.inserted.joins, |c.inserted.joins|, Names(c), |Names(c)|, row);
  }
}
