/** What a save leaves of rows: dependents of deleted principals that no entry of the save stands for. */
module SavedDependents {
  import opened Wrappers
  import opened SaveModel
  import opened SaveLinkage
  import opened InsertPhase
  import opened SavePhases
  import opened SavePipeline
  import opened SaveGuarantees
  import opened SaveAtomicity
  import SaveTracking
  import CD = CascadeDrain
  import CA = CascadeAdds
  import Deletes = CascadeDeletes

  /** A save that went through, for a registered type with its table. */
  ghost predicate Finished(m: Model, c: Course) {
    && AddsRan(m, c) && DeletesRan(m, c) && Stored(m, c) && LaterRan(m, c)
    && forall t :: t in c.stored ==> t in m.infos && t in c.inserted.tables
  }

  /** A save with something pending that returns no error has done all that, and its data is the database's. */
  lemma OkIsFinished(m: Model, c: Course, before: Db, db: Db, sets: Sets, next: Keys, w: World)
    requires Outcome(m, c, before, db, sets, next, w, Ok(())) && SaveTracking.HasPending(c.start)
    requires Registered(c.start, m.infos, c.before.tables, c.keys0)
    ensures Finished(m, c) && Current(db) == c.saved
  {
    hide CA.AddsDrained, Deletes.DeletesDrained, KeysAfter, AllFksAfter, RowsAfter, LaterRan, Flatten;
    DrainKeys(m, c);
  }

  function Names(c: Course): seq<Deletes.Directive> {
    c.deletes.directives
  }

  /** The tables of a type through the later phases. */
  lemma Passes(m: Model, c: Course, t: TypeId)
    requires Finished(m, c) && t in c.stored
    ensures t in c.stages.upserted && t in c.stages.updated && t in c.stages.nulled && t in c.stages.removed
    ensures t in c.saved.tables && t in m.infos && t in c.inserted.tables
    ensures SetPhase(Upserting, m.infos[t], c.inserted.tables[t], c.stages.upserted[t], c.stored[t])
    ensures SetPhase(Updating, m.infos[t], c.stages.upserted[t], c.stages.updated[t], c.stored[t])
    ensures c.stages.nulled[t].Keys == c.stages.updated[t].Keys
    ensures forall k :: k in c.stages.updated[t] ==>
      RowNulled(m.schema, Names(c), |Names(c)|, t, c.stages.updated[t][k], c.stages.nulled[t][k])
    ensures SetPhase(Removing, m.infos[t], c.stages.nulled[t], c.stages.removed[t], c.stored[t])
    ensures forall k :: k in c.saved.tables[t] <==>
      k in c.stages.removed[t] && !RowHit(m.schema, Names(c), |Names(c)|, t, c.stages.removed[t][k])
    ensures forall k :: k in c.saved.tables[t] ==> c.saved.tables[t][k] == c.stages.removed[t][k]
  {
    hide AddsRan, DeletesRan, Stored, SetPhase, RowNulled, RowHit, JoinsLeft;
  }

  // ---------------------------------------------------------------------------
  // Rows through the phases
  // ---------------------------------------------------------------------------

  lemma ConcernedKey(kind: Kind, es: seq<Entry>, key: int)
    ensures KeyIn(Chosen(kind, es, |es|), 0, |Chosen(kind, es, |es|)|, key) <==>
      exists i :: 0 <= i < |es| && Concerns(kind, es[i]) && es[i].entity.key == key
  {
    var chosen := Chosen(kind, es, |es|);
    ChosenAre(kind, es, |es|);
    if KeyIn(chosen, 0, |chosen|, key) {
      var j :| 0 <= j < |chosen| && chosen[j].entity.key == key;
      assert chosen[j] in chosen;
    }
    if i :| 0 <= i < |es| && Concerns(kind, es[i]) && es[i].entity.key == key {
      assert es[i] in chosen;
    }
  }

  /** A row keeps through a phase that concerns no entry with its key. */
  lemma RowPasses(kind: Kind, info: TypeInfo, t0: Table, t: Table, es: seq<Entry>, key: int)
    requires SetPhase(kind, info, t0, t, es) && key in t0
    requires forall i :: 0 <= i < |es| && Concerns(kind, es[i]) ==> es[i].entity.key != key
    ensures key in t && t[key] == t0[key]
  {
    ConcernedKey(kind, es, key);
  }

  // ---------------------------------------------------------------------------
  // What the statements for dependents do to a row
  // ---------------------------------------------------------------------------

  /** The column is the one of that name. */
  ghost predicate ColumnIs(m: Model, table: string, column: string, t: TypeId, at: nat) {
    (table, column) in m.schema && m.schema[(table, column)] == Target(t, at)
  }

  /** A Deleted entry has this key, and a navigation of its type that deletes dependents names the column. */
  ghost predicate Struck(m: Model, c: Course, t: TypeId, at: nat, v: Option<int>) {
    v.Some? && exists table, column ::
        ColumnIs(m, table, column, t, at) && Deletes.Struck(c.expanded, m.metas, table, column, v.value)
  }

  /** A Deleted entry has this key, and a navigation of its type that nulls dependents names the column. */
  ghost predicate Cleared(m: Model, c: Course, t: TypeId, at: nat, v: Option<int>) {
    v.Some? && exists table, column ::
        ColumnIs(m, table, column, t, at) && Deletes.Cleared(c.expanded, m.metas, table, column, v.value)
  }

  lemma HitMeans(m: Model, c: Course, t: TypeId, at: nat, v: Option<int>)
    requires DeletesRan(m, c)
    ensures Hit(m.schema, Names(c), |Names(c)|, Deletes.Delete, t, at, v) <==> Struck(m, c, t, at, v)
    ensures Hit(m.schema, Names(c), |Names(c)|, Deletes.Nullify, t, at, v) <==> Cleared(m, c, t, at, v)
  {
    hide CD.AllTies, Deletes.News, Deletes.DrainedSet, Deletes.Struck, Deletes.Cleared, Deletes.Expansion;
    hide Deletes.AllExpanded;
    var ds := Names(c);
    forall d: Deletes.Directive
      ensures d.action == Deletes.Delete ==>
        (d in ds <==> Deletes.Struck(c.expanded, m.metas, d.table, d.fkColumn, d.key))
      ensures d.action == Deletes.Nullify ==>
        (d in ds <==> Deletes.Cleared(c.expanded, m.metas, d.table, d.fkColumn, d.key)) {
      Deletes.StatementsExact(CD.Plan(CD.Deleting, m.metas), c.expanded, c.deletes.processed, ds, c.deletes.order, d);
    }
    if v.Some? {
      forall table, column | ColumnIs(m, table, column, t, at)
        ensures Deletes.Struck(c.expanded, m.metas, table, column, v.value) ==>
          Hit(m.schema, ds, |ds|, Deletes.Delete, t, at, v)
        ensures Deletes.Cleared(c.expanded, m.metas, table, column, v.value) ==>
          Hit(m.schema, ds, |ds|, Deletes.Nullify, t, at, v) {
        InHit(m.schema, ds, Deletes.Directive(table, column, v.value, Deletes.Delete), t, at);
        InHit(m.schema, ds, Deletes.Directive(table, column, v.value, Deletes.Nullify), t, at);
      }
    }
    forall i, action | 0 <= i < |ds| && HitBy(m.schema, ds[i], action, t, at, v)
      ensures action == Deletes.Delete ==> Struck(m, c, t, at, v)
      ensures action == Deletes.Nullify ==> Cleared(m, c, t, at, v) {
      assert ds[i] in ds && ColumnIs(m, ds[i].table, ds[i].fkColumn, t, at);
    }
  }

  lemma InHit(schema: Schema, ds: seq<Deletes.Directive>, d: Deletes.Directive, t: TypeId, at: nat)
    requires (d.table, d.fkColumn) in schema && schema[(d.table, d.fkColumn)] == Target(t, at)
    ensures d in ds ==> Hit(schema, ds, |ds|, d.action, t, at, Some(d.key))
  {
    if d in ds {
      var i :| 0 <= i < |ds| && ds[i] == d;
      assert HitBy(schema, ds[i], d.action, t, at, Some(d.key));
    }
  }

  /** No value of the row is struck, but in columns that are cleared first. */
  ghost predicate Spared(m: Model, c: Course, t: TypeId, r: Record) {
    forall at :: 0 <= at < |r.fks| && Struck(m, c, t, at, r.fks[at]) ==> Cleared(m, c, t, at, r.fks[at])
  }

  /** The row with what is to be cleared NULL, and nothing else changed. */
  ghost predicate LeftOf(m: Model, c: Course, t: TypeId, r0: Record, r: Record) {
    && r.values == r0.values && |r.fks| == |r0.fks|
    && forall at :: 0 <= at < |r.fks| ==>
         r.fks[at] == if Cleared(m, c, t, at, r0.fks[at]) then None else r0.fks[at]
  }

  lemma NulledMeans(m: Model, c: Course, t: TypeId, r0: Record, r: Record)
    requires DeletesRan(m, c) && RowNulled(m.schema, Names(c), |Names(c)|, t, r0, r)
    ensures LeftOf(m, c, t, r0, r)
    ensures RowHit(m.schema, Names(c), |Names(c)|, t, r) <==> !Spared(m, c, t, r0)
  {
    hide DeletesRan, Hit, Struck, Cleared;
    forall at | 0 <= at < |r.fks|
      ensures r.fks[at] == if Cleared(m, c, t, at, r0.fks[at]) then None else r0.fks[at]
      ensures Hit(m.schema, Names(c), |Names(c)|, Deletes.Delete, t, at, r.fks[at]) <==>
        Struck(m, c, t, at, r0.fks[at]) && !Cleared(m, c, t, at, r0.fks[at]) {
      HitMeans(m, c, t, at, r0.fks[at]);
      NullUnhit(m, Names(c), t, at);
    }
  }

  lemma NullUnhit(m: Model, ds: seq<Deletes.Directive>, t: TypeId, at: nat)
    ensures !Hit(m.schema, ds, |ds|, Deletes.Delete, t, at, None)
  {
  }

  /** A row that no upsert, update or delete of an entry is about. */
  lemma RowLeft(m: Model, c: Course, t: TypeId, k: int)
    requires Finished(m, c) && t in c.stored && t in c.inserted.tables && k in c.inserted.tables[t]
    requires forall i :: 0 <= i < |c.stored[t]| && c.stored[t][i].entity.key == k ==>
      c.stored[t][i].state == Unchanged || c.stored[t][i].state == Detached || Persists(c.stored[t][i])
    ensures t in c.saved.tables
    ensures k in c.saved.tables[t] <==> Spared(m, c, t, c.inserted.tables[t][k])
    ensures k in c.saved.tables[t] ==> LeftOf(m, c, t, c.inserted.tables[t][k], c.saved.tables[t][k])
  {
    hide AddsRan, DeletesRan, Stored, LaterRan, SetPhase, RowNulled, RowHit, Spared, LeftOf;
    Passes(m, c, t);
    RowPasses(Upserting, m.infos[t], c.inserted.tables[t], c.stages.upserted[t], c.stored[t], k);
    RowPasses(Updating, m.infos[t], c.stages.upserted[t], c.stages.updated[t], c.stored[t], k);
    RowPasses(Removing, m.infos[t], c.stages.nulled[t], c.stages.removed[t], c.stored[t], k);
    NulledMeans(m, c, t, c.inserted.tables[t][k], c.stages.nulled[t][k]);
  }

  // ---------------------------------------------------------------------------
  // Untracked rows
  // ---------------------------------------------------------------------------

  /** A row there before the save that none of its entries stands for. */
  ghost predicate UntrackedRow(c: Course, t: TypeId, k: int) {
    && t in c.start && t in c.before.tables && k in c.before.tables[t] && t in c.expanded
    && forall i :: 0 <= i < |c.expanded[t]| && c.expanded[t][i].entity.key == k ==> Persists(c.expanded[t][i])
  }

  /** After a save an untracked row is there exactly when no deleting navigation of a Deleted entry names
      one of its values in a column that no nulling one clears; then what is to be cleared is NULL, and the
      rest is as before. */
  lemma UntrackedSaved(m: Model, c: Course, t: TypeId, k: int)
    requires Finished(m, c) && UntrackedRow(c, t, k)
    ensures t in c.saved.tables
    ensures k in c.saved.tables[t] <==> Spared(m, c, t, c.before.tables[t][k])
    ensures k in c.saved.tables[t] ==> LeftOf(m, c, t, c.before.tables[t][k], c.saved.tables[t][k])
  {
    hide AddsRan, DeletesRan, Stored, LaterRan, Spared, LeftOf;
    UntrackedInserted(m, c, t, k);
    RowLeft(m, c, t, k);
  }

  lemma UntrackedInserted(m: Model, c: Course, t: TypeId, k: int)
    requires Finished(m, c) && UntrackedRow(c, t, k)
    ensures t in c.stored && t in c.inserted.tables && k in c.inserted.tables[t]
    ensures c.inserted.tables[t][k] == c.before.tables[t][k]
    ensures forall i :: 0 <= i < |c.stored[t]| && c.stored[t][i].entity.key == k ==>
      c.stored[t][i].state == Unchanged || c.stored[t][i].state == Detached || Persists(c.stored[t][i])
  {
    hide AddsRan, DeletesRan, LaterRan, AllFksAfter, KeysAfter, RowsAfter, Flatten, TablesAfter;
    TableAfterSave(m, c, t);
    assert SetShape(c.expanded[t], c.stored[t]);
    forall i | 0 <= i < |c.stored[t]| && c.stored[t][i].entity.key == k ensures Persists(c.stored[t][i]) {
      assert EntryShape(c.expanded[t][i], c.stored[t][i]);
    }
  }

  /** A Deleted entry with a key as detection left it, and a navigation of its type. */
  ghost predicate DeletedPrincipal(m: Model, c: Course, p: TypeId, i: nat, nav: Nav) {
    && p in c.start && i < |c.start[p]| && c.start[p][i].state == EntityState.Deleted && c.start[p][i].entity.key > 0
    && p in m.metas && nav in m.metas[p]
  }

  /** An entry there before the drains keeps all but children. */
  lemma OldExpanded(m: Model, c: Course, t: TypeId, h: nat)
    requires AddsRan(m, c) && DeletesRan(m, c) && t in c.start && h < |c.start[t]|
    ensures t in c.expanded && h < |c.expanded[t]|
    ensures c.expanded[t][h] == c.start[t][h].(entity := c.start[t][h].entity.(kids := c.expanded[t][h].entity.kids))
  {
    hide CD.AllTies, CA.LinkTies, Deletes.News, Stay, CA.LinksOk, CA.SlotsAreNew, Deletes.Expansion;
    hide Deletes.AllExpanded;
    assert CA.DrainedSet(CD.Plan(CD.Adding, m.metas), t, c.start[t], c.added[t]);
    assert Deletes.DrainedSet(CD.Plan(CD.Deleting, m.metas), t, c.added[t], c.expanded[t]);
  }

  /** The principal is still Deleted once the drains are done. */
  lemma PrincipalStays(m: Model, c: Course, p: TypeId, i: nat, nav: Nav)
    requires AddsRan(m, c) && DeletesRan(m, c) && DeletedPrincipal(m, c, p, i, nav)
    ensures p in c.expanded && i < |c.expanded[p]| && c.expanded[p][i].state == EntityState.Deleted
    ensures c.expanded[p][i].entity.key == c.start[p][i].entity.key
  {
    hide AddsRan, DeletesRan;
    OldExpanded(m, c, p, i);
  }

  /** Under SetNull, an untracked row that pointed to a deleted principal has NULL there, and it is still
      there unless another column is struck. */
  lemma SetNullNulls(m: Model, c: Course, p: TypeId, i: nat, nav: Nav, t: TypeId, at: nat, k: int)
    requires Finished(m, c) && DeletedPrincipal(m, c, p, i, nav) && UntrackedRow(c, t, k)
    requires nav.kind == HasMany && nav.behavior == Some(SetNull) && nav.table.Some? && nav.fkColumn.Some?
    requires ColumnIs(m, nav.table.value, nav.fkColumn.value, t, at)
    requires HasAt(c.before.tables[t][k], at, c.start[p][i].entity.key)
    ensures t in c.saved.tables
    ensures k in c.saved.tables[t] ==>
      at < |c.saved.tables[t][k].fks| && c.saved.tables[t][k].fks[at] == None
    ensures var r := c.before.tables[t][k];
      (forall o :: 0 <= o < |r.fks| && o != at ==> !Struck(m, c, t, o, r.fks[o])) ==> k in c.saved.tables[t]
  {
    hide AddsRan, DeletesRan, Stored, LaterRan, Struck;
    PrincipalStays(m, c, p, i, nav);
    UntrackedSaved(m, c, t, k);
    assert Deletes.Clears(nav, nav.table.value, nav.fkColumn.value);
    assert Cleared(m, c, t, at, Some(c.start[p][i].entity.key));
  }

  /** Under Cascade, configured or by default, an untracked row that pointed to a deleted principal is gone,
      unless the column is cleared by another navigation. */
  lemma CascadeRemoves(m: Model, c: Course, p: TypeId, i: nat, nav: Nav, t: TypeId, at: nat, k: int)
    requires Finished(m, c) && DeletedPrincipal(m, c, p, i, nav) && UntrackedRow(c, t, k)
    requires nav.kind == HasMany && nav.table.Some? && nav.fkColumn.Some?
    requires nav.behavior == Some(Cascade) || (nav.behavior == None && nav.required != Some(false))
    requires ColumnIs(m, nav.table.value, nav.fkColumn.value, t, at)
    requires HasAt(c.before.tables[t][k], at, c.start[p][i].entity.key)
    ensures t in c.saved.tables
    ensures k in c.saved.tables[t] ==> Cleared(m, c, t, at, Some(c.start[p][i].entity.key))
  {
    hide AddsRan, DeletesRan, Stored, LaterRan, Cleared, LeftOf;
    PrincipalStays(m, c, p, i, nav);
    UntrackedSaved(m, c, t, k);
    assert Deletes.Strikes(nav, nav.table.value, nav.fkColumn.value);
    assert Struck(m, c, t, at, Some(c.start[p][i].entity.key));
  }

  /** Dependents are left alone: Restrict or NoAction, or by default an optional foreign key. */
  predicate Leaves(nav: Nav) {
    && nav.kind == HasMany
    && (nav.behavior == Some(Restrict) || nav.behavior == Some(NoAction)
        || (nav.behavior == None && nav.required == Some(false)))
  }

  ghost predicate NavOfDeleted(m: Model, c: Course, p: TypeId, i: nat, nav: Nav) {
    && p in c.expanded && i < |c.expanded[p]| && c.expanded[p][i].state == EntityState.Deleted
    && p in m.metas && nav in m.metas[p]
  }

  /** The navigation names the column as its foreign key or join column. */
  ghost predicate Mentions(m: Model, nav: Nav, t: TypeId, at: nat) {
    || (nav.table.Some? && nav.fkColumn.Some? && ColumnIs(m, nav.table.value, nav.fkColumn.value, t, at))
    || (nav.throughTable.Some? && nav.throughParent.Some?
        && ColumnIs(m, nav.throughTable.value, nav.throughParent.value, t, at))
  }

  /** Every navigation of a Deleted entry that names one of the row's values leaves dependents alone. */
  ghost predicate AllLeave(m: Model, c: Course, t: TypeId, r: Record) {
    forall p, i: nat, nav, at: nat ::
      NavOfDeleted(m, c, p, i, nav) && Mentions(m, nav, t, at) && HasAt(r, at, c.expanded[p][i].entity.key) ==>
      Leaves(nav)
  }

  lemma LeftAlone(m: Model, c: Course, t: TypeId, r: Record, at: nat)
    requires AllLeave(m, c, t, r) && at < |r.fks|
    ensures !Struck(m, c, t, at, r.fks[at]) && !Cleared(m, c, t, at, r.fks[at])
  {
    forall p, i, nav, table, column |
      p in c.expanded && 0 <= i < |c.expanded[p]| && c.expanded[p][i].state == EntityState.Deleted
      && HasAt(r, at, c.expanded[p][i].entity.key)
      && p in m.metas && nav in m.metas[p] && ColumnIs(m, table, column, t, at)
      ensures !Deletes.Strikes(nav, table, column) && !Deletes.Clears(nav, table, column) {
      assert NavOfDeleted(m, c, p, i, nav);
      if Deletes.Strikes(nav, table, column) || Deletes.Clears(nav, table, column) {
        assert Mentions(m, nav, t, at);
      }
    }
  }

  /** Where only navigations that leave dependents alone name its values, an untracked row is as before. */
  lemma RestrictLeaves(m: Model, c: Course, t: TypeId, k: int)
    requires Finished(m, c) && UntrackedRow(c, t, k) && AllLeave(m, c, t, c.before.tables[t][k])
    ensures t in c.saved.tables && k in c.saved.tables[t] && c.saved.tables[t][k] == c.before.tables[t][k]
  {
    hide Finished, AllLeave, Struck, Cleared;
    UntrackedSaved(m, c, t, k);
    var r := c.before.tables[t][k];
    forall at | 0 <= at < |r.fks| ensures !Struck(m, c, t, at, r.fks[at]) && !Cleared(m, c, t, at, r.fks[at]) {
      LeftAlone(m, c, t, r, at);
    }
  }

  /** A join row goes exactly when a navigation of a Deleted entry that deletes names one of its columns with
      the entry's key. */
  lemma JoinRowSaved(m: Model, c: Course, j: JoinRow)
    requires Finished(m, c)
    ensures j in c.saved.joins <==>
      && j in c.inserted.joins
      && !Deletes.Struck(c.expanded, m.metas, j.table, j.parentColumn, j.parentKey)
      && !Deletes.Struck(c.expanded, m.metas, j.table, j.childColumn, j.childKey)
  {
    hide AddsRan, Stored, CD.AllTies, Deletes.News, Deletes.DrainedSet, Deletes.Struck, PhaseRun, Nulled, Purged;
    hide Deletes.Expansion, Deletes.AllExpanded;
    var ds := Names(c);
    JoinLeft(c.inserted.joins, |c.inserted.joins|, ds, |ds|, j);
    forall d: Deletes.Directive | d.action == Deletes.Delete
      ensures d in ds <==> Deletes.Struck(c.expanded, m.metas, d.table, d.fkColumn, d.key) {
      Deletes.StatementsExact(CD.Plan(CD.Deleting, m.metas), c.expanded, c.deletes.processed, ds, c.deletes.order, d);
    }
    var a := Deletes.Directive(j.table, j.parentColumn, j.parentKey, Deletes.Delete);
    var b := Deletes.Directive(j.table, j.childColumn, j.childKey, Deletes.Delete);
    assert JoinHit(ds, |ds|, j) <==> a in ds || b in ds by {
      if a in ds || b in ds {
        var d := if a in ds then a else b;
        var i :| 0 <= i < |ds| && ds[i] == d;
        assert JoinHitBy(ds[i], j);
      }
      if i :| 0 <= i < |ds| && JoinHitBy(ds[i], j) { assert ds[i] == a || ds[i] == b; }
    }
  }

  /** The join rows of a deleted principal's many-to-many collection are gone. */
  lemma JoinRowsGo(m: Model, c: Course, p: TypeId, i: nat, nav: Nav, j: JoinRow)
    requires Finished(m, c) && DeletedPrincipal(m, c, p, i, nav)
    requires nav.kind == ManyToMany && nav.throughTable == Some(j.table) && nav.throughParent == Some(j.parentColumn)
    requires j.parentKey == c.start[p][i].entity.key
    ensures j !in c.saved.joins
  {
    hide AddsRan, DeletesRan, Stored, LaterRan;
    PrincipalStays(m, c, p, i, nav);
    JoinRowSaved(m, c, j);
    assert Deletes.Strikes(nav, j.table, j.parentColumn);
  }

  /** No row, tracked or not, is left that points to a deleted principal through a collection that deletes
      or nulls dependents. */
  lemma DependentsSettled(m: Model, c: Course, p: TypeId, i: nat, nav: Nav, t: TypeId, at: nat, k: int)
    requires Finished(m, c) && DeletedPrincipal(m, c, p, i, nav) && t in c.stored
    requires nav.kind == HasMany && nav.table.Some? && nav.fkColumn.Some?
    requires nav.behavior == Some(SetNull) || nav.behavior == Some(Cascade)
      || (nav.behavior == None && nav.required != Some(false))
    requires ColumnIs(m, nav.table.value, nav.fkColumn.value, t, at)
    ensures t in c.saved.tables
    ensures k in c.saved.tables[t] ==> !HasAt(c.saved.tables[t][k], at, c.start[p][i].entity.key)
  {
    hide AddsRan, DeletesRan, Stored, LaterRan, Upserted, Updated, RowNulled, RowHit, Chosen;
    PrincipalStays(m, c, p, i, nav);
    Passes(m, c, t);
    if k in c.saved.tables[t] {
      assert k in c.stages.updated[t];
      NulledMeans(m, c, t, c.stages.updated[t][k], c.saved.tables[t][k]);
      var table, column, key := nav.table.value, nav.fkColumn.value, c.start[p][i].entity.key;
      assert Deletes.Clears(nav, table, column) || Deletes.Strikes(nav, table, column);
      assert Cleared(m, c, t, at, Some(key)) || Struck(m, c, t, at, Some(key));
    }
  }
}
