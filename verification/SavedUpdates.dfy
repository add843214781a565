/** What the saved data holds of entries there before: deleted and modified ones and upserts, and which conflicts
    stop a save. */
module SavedUpdates {
  import opened Wrappers
  import opened SaveModel
  import opened SaveLinkage
  import opened InsertPhase
  import opened SavePhases
  import opened SavePipeline
  import opened SaveGuarantees
  import opened SavedDependents
  import T = SaveTracking
  import CD = CascadeDrain
  import CA = CascadeAdds
  import Deletes = CascadeDeletes

  // ---------------------------------------------------------------------------
  // Entries of the save
  // ---------------------------------------------------------------------------

  /** The row of every Deleted entry is gone. */
  lemma DeletedGone(m: Model, c: Course, t: TypeId, i: nat)
    requires Finished(m, c) && t in c.stored && i < |c.stored[t]| && c.stored[t][i].state == EntityState.Deleted
    ensures t in c.saved.tables && c.stored[t][i].entity.key !in c.saved.tables[t]
  {
    hide Finished, RowHit, RowNulled;
    Passes(m, c, t);
    ConcernedKey(Removing, c.stored[t], c.stored[t][i].entity.key);
  }

  ghost predicate NoneDeleted(es: seq<Entry>, key: int) {
    forall i :: 0 <= i < |es| && es[i].state == EntityState.Deleted ==> es[i].entity.key != key
  }

  /** A row that was there and that no Deleted entry has the key of is still there exactly when no DELETE for
      a deleted principal names one of its values, in columns that are not cleared first. */
  lemma RowStays(m: Model, c: Course, t: TypeId, k: int)
    requires Finished(m, c) && t in c.start && t in c.before.tables && k in c.before.tables[t] && t in c.stored
    requires NoneDeleted(c.stored[t], k)
    ensures t in c.saved.tables && t in c.stages.updated && k in c.stages.updated[t]
    ensures k in c.saved.tables[t] <==> Spared(m, c, t, c.stages.updated[t][k])
  {
    hide AddsRan, DeletesRan, Stored, LaterRan, RowHit, RowNulled, Chosen, Spared;
    Passes(m, c, t);
    TableAfterSave(m, c, t);
    assert k in c.stages.upserted[t] && k in c.stages.updated[t];
    ConcernedKey(Removing, c.stored[t], k);
    NulledMeans(m, c, t, c.stages.updated[t][k], c.stages.nulled[t][k]);
  }

  /** An entry whose key no other entry of the phase has is chosen once. */
  lemma {:induction false} ChosenOnce(kind: Kind, es: seq<Entry>, n: nat, i: nat) returns (j: nat)
    requires i < n <= |es| && Concerns(kind, es[i])
    requires forall h :: 0 <= h < |es| && h != i && Concerns(kind, es[h]) ==> es[h].entity.key != es[i].entity.key
    ensures j < |Chosen(kind, es, n)| && Chosen(kind, es, n)[j] == es[i] && KeyOnce(Chosen(kind, es, n), j)
  {
    var chosen := Chosen(kind, es, n);
    if i == n - 1 {
      j := |chosen| - 1;
      ChosenAre(kind, es, n - 1);
      var before := Chosen(kind, es, n - 1);
      forall h | 0 <= h < |chosen| && h != j ensures chosen[h].entity.key != es[i].entity.key {
        assert chosen[h] == before[h] && before[h] in before;
        var x :| 0 <= x < n - 1 && es[x] == before[h] && Concerns(kind, before[h]);
      }
    } else {
      j := ChosenOnce(kind, es, n - 1, i);
    }
  }

  lemma {:induction false} UnionAre(es: seq<Entry>, n: nat, p: Property)
    requires n <= |es|
    ensures p in Union(es, n) <==> exists j :: 0 <= j < n && p in es[j].modified
  {
    if n > 0 { UnionAre(es, n - 1, p); }
  }

  /** The type has a column for the property. */
  predicate HasColumn(info: TypeInfo, p: Property) {
    match p
    case KeyProperty => false
    case FkProperty(f) => f < |info.targets|
    case ValueProperty(v) => v < info.width
  }

  ghost predicate SomeModified(es: seq<Entry>, p: Property) {
    exists h :: 0 <= h < |es| && es[h].state == Modified && p in es[h].modified
  }

  /** Whether a save sets the property's column in the row of Modified entry `i`: without tokens, if any Modified
      entry of the set has a property with a column as modified, the columns any of them has; otherwise those
      the entry itself has, or all if its list is empty. */
  ghost predicate SetsColumn(info: TypeInfo, es: seq<Entry>, i: nat, p: Property)
    requires i < |es|
  {
    && HasColumn(info, p)
    && if info.tokens == {} && exists q :: HasColumn(info, q) && SomeModified(es, q) then SomeModified(es, p)
       else es[i].modified == {} || p in es[i].modified
  }

  lemma ColumnProperties(info: TypeInfo, p: Property)
    ensures p in AllProperties(info) <==> HasColumn(info, p)
  {
  }

  lemma UnionOfModified(es: seq<Entry>, q: Property)
    ensures var chosen := Chosen(Updating, es, |es|); q in Union(chosen, |chosen|) <==> SomeModified(es, q)
  {
    hide Chosen, Union;
    var chosen := Chosen(Updating, es, |es|);
    ChosenAre(Updating, es, |es|);
    UnionAre(chosen, |chosen|, q);
    if h :| 0 <= h < |es| && es[h].state == Modified && q in es[h].modified { assert es[h] in chosen; }
    if h :| 0 <= h < |chosen| && q in chosen[h].modified { assert chosen[h] in chosen; }
  }

  /** The updates set exactly these columns. */
  lemma ColumnsExact(info: TypeInfo, es: seq<Entry>, i: nat, j: nat, p: Property)
    requires i < |es| && j < |Chosen(Updating, es, |es|)| && Chosen(Updating, es, |es|)[j] == es[i]
    ensures p in Columns(info, Chosen(Updating, es, |es|), j) <==> SetsColumn(info, es, i, p)
  {
    hide AllProperties, Union;
    var chosen := Chosen(Updating, es, |es|);
    ChosenAre(Updating, es, |es|);
    forall q ensures q in AllProperties(info) <==> HasColumn(info, q) { ColumnProperties(info, q); }
    forall q ensures q in Union(chosen, |chosen|) <==> SomeModified(es, q) { UnionOfModified(es, q); }
    if Union(chosen, |chosen|) == {} {
      assert forall q :: q in es[i].modified ==> SomeModified(es, q);
      assert es[i].modified == {};
    }
    if SetProperties(info, Union(chosen, |chosen|)) == {} {
      forall q | HasColumn(info, q) ensures !SomeModified(es, q) {
        assert q !in SetProperties(info, Union(chosen, |chosen|));
      }
      assert es[i].modified != {} ==> p in es[i].modified ==> SomeModified(es, p);
    } else {
      var q :| q in SetProperties(info, Union(chosen, |chosen|));
    }
  }

  /** The column of the property, once the row is set or not to the entity's values there. */
  predicate ColumnAfter(was: Record, now: Record, e: Entity, p: Property, sets_: bool) {
    && |now.fks| == |was.fks| && |now.values| == |was.values|
    && match p
       case KeyProperty => true
       case ValueProperty(v) => v < |now.values| ==>
         now.values[v] == if sets_ && v < |e.values| then e.values[v] else was.values[v]
       case FkProperty(f) => f < |now.fks| ==>
         now.fks[f] == if sets_ && f < |e.fks| then e.fks[f] else was.fks[f]
  }

  /** What the updates set in the row of a Modified entry with a key of its own. */
  lemma ModifiedUpdated(info: TypeInfo, t0: Table, t: Table, es: seq<Entry>, i: nat, p: Property)
    requires SetPhase(Updating, info, t0, t, es) && i < |es| && es[i].state == Modified && es[i].entity.key in t
    requires forall h :: 0 <= h < |es| && h != i && es[h].state == Modified ==> es[h].entity.key != es[i].entity.key
    ensures es[i].entity.key in t0
    ensures ColumnAfter(t0[es[i].entity.key], t[es[i].entity.key], es[i].entity, p, SetsColumn(info, es, i, p))
  {
    hide Columns, SetsColumn;
    var chosen := Chosen(Updating, es, |es|);
    var j := ChosenOnce(Updating, es, |es|, i);
    ColumnsExact(info, es, i, j, p);
    assert es[i].entity.key in t0;
  }

  /** No upsert of the type takes the key. */
  ghost predicate NoUpsertOn(es: seq<Entry>, key: int) {
    forall i :: 0 <= i < |es| && es[i].state == Added && es[i].upsert ==> es[i].entity.key != key
  }

  /** Each column of a row that was there before, and still is after a save, of a Modified entry with a key of its
      own: the entry's value if the column is set, otherwise the old one, unless a SET NULL clears it. */
  lemma ModifiedRow(m: Model, c: Course, t: TypeId, i: nat, p: Property)
    requires Finished(m, c) && t in c.start && t in c.stored && i < |c.stored[t]| && c.stored[t][i].state == Modified
    requires forall h :: 0 <= h < |c.stored[t]| && h != i && c.stored[t][h].state == Modified ==>
      c.stored[t][h].entity.key != c.stored[t][i].entity.key
    requires NoUpsertOn(c.stored[t], c.stored[t][i].entity.key) && !SelfLinked(c.links, t) && t in m.infos
    requires t in c.before.tables && c.stored[t][i].entity.key in c.before.tables[t]
    ensures t in c.saved.tables
    ensures var e := c.stored[t][i].entity;
      e.key in c.saved.tables[t] ==>
        && t in c.stages.updated && e.key in c.stages.updated[t]
        && ColumnAfter(c.before.tables[t][e.key], c.stages.updated[t][e.key], e, p,
                       SetsColumn(m.infos[t], c.stored[t], i, p))
        && LeftOf(m, c, t, c.stages.updated[t][e.key], c.saved.tables[t][e.key])
  {
    hide AddsRan, DeletesRan, Stored, LaterRan, RowHit, RowNulled, Chosen, Updated, Upserted, LeftOf, SetsColumn;
    hide ColumnAfter;
    Passes(m, c, t);
    TableAfterSave(m, c, t);
    var e := c.stored[t][i].entity;
    RowPasses(Upserting, m.infos[t], c.inserted.tables[t], c.stages.upserted[t], c.stored[t], e.key);
    if e.key in c.saved.tables[t] {
      assert e.key in c.stages.nulled[t] && e.key in c.stages.updated[t];
      ModifiedUpdated(m.infos[t], c.stages.upserted[t], c.stages.updated[t], c.stored[t], i, p);
      NulledMeans(m, c, t, c.stages.updated[t][e.key], c.stages.nulled[t][e.key]);
    }
  }

  /** Columns of a row that is still there after a save: a Modified entry's own values in all properties it
      has as modified, but for foreign keys that a SET NULL for a deleted principal has cleared. */
  lemma ModifiedSaved(m: Model, c: Course, t: TypeId, i: nat, p: Property)
    requires Finished(m, c) && t in c.stored && i < |c.stored[t]| && c.stored[t][i].state == Modified
    requires forall h :: 0 <= h < |c.stored[t]| && h != i && c.stored[t][h].state == Modified ==>
      c.stored[t][h].entity.key != c.stored[t][i].entity.key
    requires p in c.stored[t][i].modified && t in m.infos && HasColumn(m.infos[t], p)
    ensures t in c.saved.tables
    ensures var e := c.stored[t][i].entity;
      e.key in c.saved.tables[t] ==> Holds(m, c, t, c.saved.tables[t][e.key], e, p)
  {
    hide AddsRan, DeletesRan, Stored, LaterRan, RowHit, RowNulled, Chosen, Updated, Upserted, Cleared;
    Passes(m, c, t);
    var e := c.stored[t][i].entity;
    if e.key in c.saved.tables[t] {
      assert e.key in c.stages.nulled[t] && e.key in c.stages.updated[t];
      ModifiedUpdated(m.infos[t], c.stages.upserted[t], c.stages.updated[t], c.stored[t], i, p);
      NulledMeans(m, c, t, c.stages.updated[t][e.key], c.stages.nulled[t][e.key]);
    }
  }

  /** The row has the entity's value in the property's column, unless it was cleared. */
  ghost predicate Holds(m: Model, c: Course, t: TypeId, r: Record, e: Entity, p: Property) {
    match p
    case KeyProperty => true
    case ValueProperty(v) => v < |r.values| && v < |e.values| ==> r.values[v] == e.values[v]
    case FkProperty(f) => f < |r.fks| && f < |e.fks| ==>
      r.fks[f] == if Cleared(m, c, t, f, e.fks[f]) then None else e.fks[f]
  }

  /** An entry there before the save that is not to be inserted goes through it as it is, its children
      aside. */
  lemma OldEntry(m: Model, c: Course, t: TypeId, i: nat)
    requires AddsRan(m, c) && DeletesRan(m, c) && Stored(m, c)
    requires t in c.start && i < |c.start[t]| && !Persists(c.start[t][i])
    ensures t in c.stored && i < |c.stored[t]|
    ensures c.stored[t][i] == c.start[t][i].(entity := c.start[t][i].entity.(kids := c.stored[t][i].entity.kids))
  {
    hide CA.AddsDrained, Deletes.DeletesDrained, KeysAfter, TablesAfter, RowsAfter, Flatten, Watching;
    OldExpanded(m, c, t, i);
    ShapeAt(c.expanded, c.stored, t, i);
    OldUnlinked(m, c, t, i);
    var w := Watch(false, 0, 0, t, i, t, i);
    WatchingKept(w, c.expanded, c.stored, c.links);
    assert FksAfter(w, ChildFks(w, c.expanded), c.stored, JobOf(m, c), DoneTypes(c.order, c.done, c.expanded.Keys));
  }

  lemma OldUnlinked(m: Model, c: Course, t: TypeId, i: nat)
    requires AddsRan(m, c) && DeletesRan(m, c) && t in c.start && i < |c.start[t]|
    ensures t in c.expanded && i < |c.expanded[t]|
    ensures Watching(Watch(false, 0, 0, t, i, t, i), c.expanded, c.links)
  {
    hide CA.AddsDrained, Deletes.DeletesDrained;
    SetsGrow(m, c, t);
    forall k: nat, j: nat ensures !FkSlot(c.links, k, j, t, i) {
      if k < |c.links| && j < |c.links[k].children| {
        CA.SlotsNameNewEntries(CD.Plan(CD.Adding, m.metas), c.start, c.added, c.links, m.types, k, j);
      }
    }
  }

  lemma SetsGrow(m: Model, c: Course, t: TypeId)
    requires AddsRan(m, c) && DeletesRan(m, c) && t in c.start
    ensures t in c.added && t in c.expanded && |c.start[t]| <= |c.added[t]| <= |c.expanded[t]|
    ensures forall h :: |c.start[t]| <= h < |c.expanded[t]| ==> c.expanded[t][h].state != Modified
  {
    hide CD.AllTies, CA.LinkTies, Deletes.News, Stay, CA.LinksOk, CA.SlotsAreNew, Deletes.Expansion;
    hide Deletes.AllExpanded;
    assert CA.DrainedSet(CD.Plan(CD.Adding, m.metas), t, c.start[t], c.added[t]);
    assert Deletes.DrainedSet(CD.Plan(CD.Deleting, m.metas), t, c.added[t], c.expanded[t]);
    forall h | |c.start[t]| <= h < |c.added[t]| ensures c.added[t][h].state != Modified {
      assert CA.ComesInDrained(CD.Plan(CD.Adding, m.metas), t, c.added[t][h]);
    }
    forall h | |c.added[t]| <= h < |c.expanded[t]| ensures c.expanded[t][h].state != Modified {
      assert Deletes.EntersDeleted(CD.Plan(CD.Deleting, m.metas), c.expanded[t][h]);
    }
  }

  /** Entries Modified in the save are those detection left so. */
  lemma ModifiedIsOld(m: Model, c: Course, t: TypeId, h: nat)
    requires AddsRan(m, c) && DeletesRan(m, c) && Stored(m, c) && t in c.start && t in c.stored && h < |c.stored[t]|
    requires c.stored[t][h].state == Modified
    ensures h < |c.start[t]| && c.start[t][h].state == Modified
    ensures c.start[t][h].entity.key == c.stored[t][h].entity.key
  {
    hide CA.AddsDrained, Deletes.DeletesDrained, KeysAfter, AllFksAfter, TablesAfter, RowsAfter, Flatten;
    SetsGrow(m, c, t);
    assert SetShape(c.expanded[t], c.stored[t]);
    ShapeAt(c.expanded, c.stored, t, h);
    OldExpanded(m, c, t, h);
  }

  /** The entity's value of the property is not its original one; the key aside. */
  predicate Altered(e: Entry, p: Property)
    requires e.original.Some?
  {
    var now, was := e.entity, e.original.value;
    match p
    case KeyProperty => false
    case FkProperty(f) => f < |now.fks| && (f < |was.fks| ==> now.fks[f] != was.fks[f])
    case ValueProperty(v) => v < |now.values| && (v < |was.values| ==> now.values[v] != was.values[v])
  }

  /** From values and originals alone: an entry that was Unchanged before the save, with a key of its own in its
      set, has in its row its value of every property that was not the original one; a foreign key to a deleted
      principal may have been cleared. The row is still there unless an entry with its key, or a DELETE for a
      deleted principal, has taken it. */
  lemma ChangeSaved(m: Model, c: Course, before: Sets, t: TypeId, i: nat, p: Property)
    requires Finished(m, c) && T.Detected(before, c.start) && t in before && i < |before[t]|
    requires before[t][i].state == Unchanged && before[t][i].original.Some? && Altered(before[t][i], p)
    requires forall h :: 0 <= h < |before[t]| && h != i ==> before[t][h].entity.key != before[t][i].entity.key
    requires t in m.infos && HasColumn(m.infos[t], p)
    ensures t in c.saved.tables
    ensures var e := before[t][i].entity;
      e.key in c.saved.tables[t] ==> Holds(m, c, t, c.saved.tables[t][e.key], e, p)
    ensures var k := before[t][i].entity.key;
      t in c.before.tables && k in c.before.tables[t] && t in c.stored && NoneDeleted(c.stored[t], k) ==>
        && t in c.stages.updated && k in c.stages.updated[t]
        && (k in c.saved.tables[t] <==> Spared(m, c, t, c.stages.updated[t][k]))
  {
    hide AddsRan, DeletesRan, Stored, LaterRan, Cleared, Spared;
    var e := before[t][i];
    T.ChangedAre(SnapshotOf(e.entity), e.original.value);
    assert T.SetDetected(before[t], c.start[t], |before[t]|);
    assert p in T.Changed(SnapshotOf(e.entity), e.original.value);
    assert c.start[t][i].state == Modified && p in c.start[t][i].modified;
    OldEntry(m, c, t, i);
    forall h | 0 <= h < |c.stored[t]| && h != i && c.stored[t][h].state == Modified
      ensures c.stored[t][h].entity.key != c.stored[t][i].entity.key {
      ModifiedIsOld(m, c, t, h);
      assert c.start[t][h].entity == before[t][h].entity;
    }
    ModifiedSaved(m, c, t, i, p);
    if t in c.before.tables && e.entity.key in c.before.tables[t] && NoneDeleted(c.stored[t], e.entity.key) {
      RowStays(m, c, t, e.entity.key);
    }
  }

  /** No other entry of the set has the key. */
  ghost predicate OwnKey(es: seq<Entry>, i: nat)
    requires i < |es|
  {
    forall h :: 0 <= h < |es| && h != i ==> es[h].entity.key != es[i].entity.key
  }

  /** After a save the row of an upserted entry with a key of its own is the entry's, with what is to be cleared
      NULL, and there unless a DELETE for a deleted principal takes it. */
  lemma UpsertSaved(m: Model, c: Course, t: TypeId, i: nat)
    requires Finished(m, c) && t in c.stored && i < |c.stored[t]| && OwnKey(c.stored[t], i)
    requires c.stored[t][i].state == Added && c.stored[t][i].upsert
    ensures t in c.saved.tables
    ensures var e := c.stored[t][i].entity;
      && (e.key in c.saved.tables[t] <==> Spared(m, c, t, Record(e.fks, e.values)))
      && (e.key in c.saved.tables[t] ==> LeftOf(m, c, t, Record(e.fks, e.values), c.saved.tables[t][e.key]))
  {
    hide AddsRan, DeletesRan, Stored, LaterRan, RowNulled, RowHit, Spared, LeftOf, Updated, Removed;
    Passes(m, c, t);
    var e, es := c.stored[t][i].entity, c.stored[t];
    var j := ChosenOnce(Upserting, es, |es|, i);
    assert KeyIn(Chosen(Upserting, es, |es|), 0, |Chosen(Upserting, es, |es|)|, e.key);
    assert c.stages.upserted[t][e.key] == RecordOf(e);
    RowPasses(Updating, m.infos[t], c.stages.upserted[t], c.stages.updated[t], es, e.key);
    RowPasses(Removing, m.infos[t], c.stages.nulled[t], c.stages.removed[t], es, e.key);
    NulledMeans(m, c, t, c.stages.updated[t][e.key], c.stages.nulled[t][e.key]);
  }

  // ---------------------------------------------------------------------------
  // Conflicts
  // ---------------------------------------------------------------------------

  /** The row has the value the entity was loaded with in the column of this property. */
  predicate AsLoaded(e: Entry, r: Record, p: Property) {
    && e.original.Some?
    && match p
       case KeyProperty => false
       case FkProperty(f) => InBoth(r.fks, e.original.value.fks, f) && r.fks[f].Some?
       case ValueProperty(v) => InBoth(r.values, e.original.value.values, v)
  }

  predicate InBoth<V(==)>(a: seq<V>, b: seq<V>, i: nat) {
    i < |a| && i < |b| && a[i] == b[i]
  }

  lemma ReachedAsLoaded(info: TypeInfo, t: Table, e: Entry, p: Property)
    requires RowReached(info, t, e) && p in info.tokens
    ensures e.entity.key in t && AsLoaded(e, t[e.entity.key], p)
  {
  }

  lemma OwnRowBefore(m: Model, c: Course, t: TypeId, i: nat)
    requires Finished(m, c) && t in c.start && t in c.stored && i < |c.stored[t]| && OwnKey(c.stored[t], i)
    requires c.stored[t][i].state == Modified || c.stored[t][i].state == EntityState.Deleted
    requires t in c.before.tables && !SelfLinked(c.links, t)
    ensures t in c.stages.upserted
    ensures var k := c.stored[t][i].entity.key;
      && (k in c.stages.upserted[t] <==> k in c.before.tables[t])
      && (k in c.before.tables[t] ==> c.stages.upserted[t][k] == c.before.tables[t][k])
  {
    hide AddsRan, DeletesRan, Stored, LaterRan, RowNulled, RowHit;
    Passes(m, c, t);
    TableAfterSave(m, c, t);
    var es, k := c.stored[t], c.stored[t][i].entity.key;
    ConcernedKey(Upserting, es, k);
    assert !InsertedKey(es, |es|, k);
  }

  /** After a save every Modified entry with something to set and a key of its own had its row, with the value
      it was loaded with in every token: another writer's change to a token is never overwritten. */
  lemma ModifiedFresh(m: Model, c: Course, t: TypeId, i: nat, p: Property)
    requires Finished(m, c) && t in c.start && t in c.stored && i < |c.stored[t]| && OwnKey(c.stored[t], i)
    requires c.stored[t][i].state == Modified && t in m.infos && p in m.infos[t].tokens
    requires exists q :: HasColumn(m.infos[t], q) && (c.stored[t][i].modified == {} || q in c.stored[t][i].modified)
    requires t in c.before.tables && !SelfLinked(c.links, t)
    ensures var e := c.stored[t][i];
      e.entity.key in c.before.tables[t] && AsLoaded(e, c.before.tables[t][e.entity.key], p)
  {
    hide AddsRan, DeletesRan, Stored, LaterRan, RowNulled, RowHit, AllProperties, AsLoaded, RowReached, Upserted;
    Passes(m, c, t);
    OwnRowBefore(m, c, t, i);
    var info, chosen := m.infos[t], Chosen(Updating, c.stored[t], |c.stored[t]|);
    var j := ChosenOnce(Updating, c.stored[t], |c.stored[t]|, i);
    var q :| HasColumn(info, q) && (c.stored[t][i].modified == {} || q in c.stored[t][i].modified);
    ColumnProperties(info, q);
    assert q in SetProperties(info, chosen[j].modified);
    ReachedAsLoaded(info, c.stages.upserted[t], c.stored[t][i], p);
  }

  /** The same for a Deleted entry. */
  lemma DeletedFresh(m: Model, c: Course, t: TypeId, i: nat, p: Property)
    requires Finished(m, c) && t in c.start && t in c.stored && i < |c.stored[t]| && OwnKey(c.stored[t], i)
    requires c.stored[t][i].state == EntityState.Deleted && t in m.infos && p in m.infos[t].tokens
    requires t in c.before.tables && !SelfLinked(c.links, t)
    ensures var e := c.stored[t][i];
      e.entity.key in c.before.tables[t] && AsLoaded(e, c.before.tables[t][e.entity.key], p)
  {
    hide AddsRan, DeletesRan, Stored, LaterRan, RowHit, RowReached, Upserted, LeftOf, Cleared;
    Passes(m, c, t);
    OwnRowBefore(m, c, t, i);
    var es, e := c.stored[t], c.stored[t][i];
    var j := ChosenOnce(Removing, es, |es|, i);
    ReachedAsLoaded(m.infos[t], c.stages.nulled[t], e, p);
    RowPasses(Updating, m.infos[t], c.stages.upserted[t], c.stages.updated[t], es, e.entity.key) by {
      assert e.entity.key in c.stages.updated[t];
      ConcernedKey(Updating, es, e.entity.key);
    }
    assert RowNulled(m.schema, Names(c), |Names(c)|, t, c.stages.updated[t][e.entity.key],
                     c.stages.nulled[t][e.entity.key]);
  }

  /** The Modified entries of the set have a property with a column as modified, or nothing at all. */
  ghost predicate SomethingSet(info: TypeInfo, es: seq<Entry>) {
    exists q :: HasColumn(info, q)
      && (SomeModified(es, q) || forall h :: 0 <= h < |es| && es[h].state == Modified ==> es[h].modified == {})
  }

  lemma SetInBatches(info: TypeInfo, es: seq<Entry>)
    requires info.tokens == {} && SomethingSet(info, es)
    ensures Batched(info, Chosen(Updating, es, |es|))
  {
    hide Chosen, Union, AllProperties;
    var chosen := Chosen(Updating, es, |es|);
    var q :| HasColumn(info, q)
      && (SomeModified(es, q) || forall h :: 0 <= h < |es| && es[h].state == Modified ==> es[h].modified == {});
    ColumnProperties(info, q);
    forall p ensures p in Union(chosen, |chosen|) <==> SomeModified(es, p) { UnionOfModified(es, p); }
    assert q in SetProperties(info, Union(chosen, |chosen|)) by {
      if !SomeModified(es, q) { assert Union(chosen, |chosen|) == {}; }
    }
  }

  /** Without tokens a save does not go through when no row of the Modified entries of a set is there, nor when
      no row of its Deleted ones is. */
  lemma SomeRowThere(m: Model, c: Course, t: TypeId, i: nat)
    requires Finished(m, c) && t in c.stored && i < |c.stored[t]| && t in m.infos && m.infos[t].tokens == {}
    ensures t in c.stages.upserted && t in c.stages.nulled
    ensures c.stored[t][i].state == Modified && SomethingSet(m.infos[t], c.stored[t]) ==>
      exists h :: 0 <= h < |c.stored[t]| && c.stored[t][h].state == Modified
                  && c.stored[t][h].entity.key in c.stages.upserted[t]
    ensures c.stored[t][i].state == EntityState.Deleted ==>
      exists h :: 0 <= h < |c.stored[t]| && c.stored[t][h].state == EntityState.Deleted
                  && c.stored[t][h].entity.key in c.stages.nulled[t]
  {
    hide AddsRan, DeletesRan, Stored, LaterRan, RowHit, RowNulled, SetsColumn, Updated, Upserted, Removed;
    Passes(m, c, t);
    var es := c.stored[t];
    if es[i].state == Modified && SomethingSet(m.infos[t], es) {
      var chosen := Chosen(Updating, es, |es|);
      SetInBatches(m.infos[t], es);
      ChosenAre(Updating, es, |es|);
      assert es[i] in chosen;
      var j :| 0 <= j < |chosen| && chosen[j].entity.key in c.stages.upserted[t];
      assert chosen[j] in chosen;
    }
    if es[i].state == EntityState.Deleted {
      var chosen := Chosen(Removing, es, |es|);
      ChosenAre(Removing, es, |es|);
      assert es[i] in chosen;
      var j :| 0 <= j < |chosen| && chosen[j].entity.key in c.stages.nulled[t];
      assert chosen[j] in chosen;
    }
  }
}
