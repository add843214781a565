/** A save after a save that went through: what it still finds to do. */
module SaveAgain {
  import opened Wrappers
  import opened SaveModel
  import opened SaveLinkage
  import opened InsertPhase
  import opened SavedLinks
  import opened SaveTracking
  import opened SavePipeline
  import opened SaveGuarantees
  import CD = CascadeDrain
  import CA = CascadeAdds
  import Deletes = CascadeDeletes

  // ---------------------------------------------------------------------------
  // What acceptance leaves behind
  // ---------------------------------------------------------------------------

  predicate Settles(e: Entry) {
    e.state == Added || e.state == Modified
  }

  /** An entry whose original stays behind its values: acceptance renews it only for entries of the set
      whose turn it is that were Added or Modified. */
  predicate Lags(e: Entry, own: bool) {
    (Settles(e) || e.state == Unchanged) && !InStep(e) && !(own && Settles(e))
  }

  ghost predicate SomeLags(sets: Sets, types: seq<TypeId>) {
    exists t, i :: t in sets && 0 <= i < |sets[t]| && Lags(sets[t][i], types != [] && t == types[0])
  }

  /** The next detection finds an accepted entry changed exactly when it lags. */
  lemma FoundAgain(e: Entry, own: bool)
    requires e.original.Some? ==> SameWidth(SnapshotOf(e.entity), e.original.value)
    ensures DetectedEntry(AcceptedEntry(e, own)).state == Modified <==> Lags(e, own)
    ensures Pending(DetectedEntry(AcceptedEntry(e, own))) <==> Lags(e, own)
    ensures DetectedEntry(AcceptedEntry(e, own)).entity == e.entity
  {
    if e.original.Some? { ChangedExact(SnapshotOf(e.entity), e.original.value); }
  }

  /** Where an entry that is not Deleted stands after acceptance. */
  lemma AcceptedAt(a: Sets, b: Sets, types: seq<TypeId>, t: TypeId, i: nat) returns (j: nat)
    requires Covers(types, a) && Accepted(a, b, types) && t in a && i < |a[t]|
    requires a[t][i].state != EntityState.Deleted
    ensures t in b && j < |b[t]| && b[t][j] == AcceptedEntry(a[t][i], t == types[0])
  {
    if t == types[0] {
      var e := AcceptedEntry(a[t][i], true);
      OwnTurnAre(a[t], |a[t]|, e);
      j :| 0 <= j < |b[t]| && b[t][j] == e;
    } else {
      OtherTurnAt(a[t], |a[t]|);
      j := i;
    }
  }

  /** Every entry after acceptance comes from one before. */
  lemma AcceptedFrom(a: Sets, b: Sets, types: seq<TypeId>, t: TypeId, j: nat) returns (i: nat)
    requires Covers(types, a) && Accepted(a, b, types) && t in b && j < |b[t]|
    ensures t in a && i < |a[t]| && b[t][j] == AcceptedEntry(a[t][i], t == types[0])
  {
    if t == types[0] {
      OwnTurnAre(a[t], |a[t]|, b[t][j]);
      i :| 0 <= i < |a[t]| && a[t][i].state != EntityState.Deleted && b[t][j] == AcceptedEntry(a[t][i], true);
    } else {
      OtherTurnAt(a[t], |a[t]|);
      i := j;
    }
  }

  lemma FoundLags(a: Sets, b: Sets, c: Sets, types: seq<TypeId>, t: TypeId, j: nat)
    requires Covers(types, a) && Accepted(a, b, types) && Detected(b, c) && Fitting(a)
    requires t in c && j < |c[t]| && Pending(c[t][j])
    ensures SomeLags(a, types)
  {
    hide Accepted, AcceptedEntry, DetectedEntry, Lags, Pending;
    assert SetDetected(b[t], c[t], |b[t]|);
    var i := AcceptedFrom(a, b, types, t, j);
    FoundAgain(a[t][i], t == types[0]);
  }

  lemma LagFound(a: Sets, b: Sets, c: Sets, types: seq<TypeId>, t: TypeId, i: nat)
    requires Covers(types, a) && Accepted(a, b, types) && Detected(b, c) && Fitting(a)
    requires t in a && i < |a[t]| && Lags(a[t][i], t == types[0])
    ensures HasPending(c)
  {
    hide Accepted, AcceptedEntry, DetectedEntry, Pending;
    FoundAgain(a[t][i], t == types[0]);
    var j := AcceptedAt(a, b, types, t, i);
    assert SetDetected(b[t], c[t], |b[t]|);
    assert Pending(c[t][j]);
  }

  /** After acceptance the next detection finds something exactly when some entry lags. */
  lemma NextFinds(a: Sets, b: Sets, c: Sets, types: seq<TypeId>)
    requires Covers(types, a) && Accepted(a, b, types) && Detected(b, c) && Fitting(a)
    ensures HasPending(c) <==> SomeLags(a, types)
  {
    hide Accepted, Detected, Lags, Fitting;
    if HasPending(c) {
      var t, j :| t in c && 0 <= j < |c[t]|
        && (c[t][j].state == Added || c[t][j].state == Modified || c[t][j].state == EntityState.Deleted);
      FoundLags(a, b, c, types, t, j);
    }
    if SomeLags(a, types) {
      var t, i :| t in a && 0 <= i < |a[t]| && Lags(a[t][i], types != [] && t == types[0]);
      LagFound(a, b, c, types, t, i);
    }
  }

  // ---------------------------------------------------------------------------
  // Why an entry lags
  // ---------------------------------------------------------------------------

  /** An entry of a set that accepts later was Added or Modified and has other values than its original. */
  ghost predicate LaterSetLags(m: Model, c: Course) {
    exists t, i :: t in c.stored && 0 <= i < |c.stored[t]| && m.types != [] && t != m.types[0]
                   && Settles(c.stored[t][i]) && !InStep(c.stored[t][i])
  }

  /** The save linked a child that came with a key and so changed its foreign keys. */
  ghost predicate Relinked(m: Model, c: Course) {
    exists w :: Watching(w, c.expanded, c.links) && Relinks(m, c, w)
  }

  ghost predicate Relinks(m: Model, c: Course, w: Watch)
    requires Watching(w, c.expanded, c.links)
  {
    && w.linked && c.expanded[w.child][w.idx].state == Unchanged && w.child in m.infos
    && w.parent in c.stored && w.at < |c.stored[w.parent]|
    && LinkedFks(w, ChildFks(w, c.expanded), m.infos, ParentKey(w, c.stored)) != ChildFks(w, c.expanded)
  }

  /** Every entry can be watched through the insert phase. */
  lemma WatchOf(m: Model, c: Course, t: TypeId, i: nat) returns (w: Watch)
    requires AddsRan(m, c) && DeletesRan(m, c) && t in c.expanded && i < |c.expanded[t]|
    ensures Watching(w, c.expanded, c.links) && w.child == t && w.idx == i
  {
    hide CA.AddsDrained, Deletes.DeletesDrained;
    DrainKeys(m, c);
    if k, j :| FkSlot(c.links, k, j, t, i) {
      w := DrainedChildWatched(CD.Plan(CD.Adding, m.metas), c.start, c.added, c.links, m.types, c.expanded, k, j);
    } else {
      w := Watch(false, 0, 0, t, i, t, i);
    }
  }

  ghost predicate UnchangedInStep(sets: Sets) {
    forall t, i :: t in sets && 0 <= i < |sets[t]| && sets[t][i].state == Unchanged ==> InStep(sets[t][i])
  }

  /** Right after detection no Unchanged entry has other values than its original. */
  lemma DetectedInStep(a: Sets, b: Sets)
    requires Detected(a, b) && Fitting(a)
    ensures UnchangedInStep(b)
  {
    forall t, i | t in b && 0 <= i < |b[t]| && b[t][i].state == Unchanged ensures InStep(b[t][i]) {
      assert SetDetected(a[t], b[t], |a[t]|);
      var e := a[t][i];
      if e.original.Some? { ChangedExact(SnapshotOf(e.entity), e.original.value); }
    }
  }

  /** Nor after the drains: children come in with their values of that moment. */
  lemma DrainedInStep(m: Model, c: Course)
    requires AddsRan(m, c) && DeletesRan(m, c) && UnchangedInStep(c.start)
    ensures UnchangedInStep(c.expanded)
  {
    hide CD.AllTies, CA.LinkTies, CA.LinksOk, CA.SlotsAreNew, Deletes.News, Deletes.AllDirectives, Deletes.AllExpanded;
    DrainKeys(m, c);
    var adding, deleting := CD.Plan(CD.Adding, m.metas), CD.Plan(CD.Deleting, m.metas);
    forall t, i | t in c.expanded && 0 <= i < |c.expanded[t]|
      ensures c.expanded[t][i].state == Unchanged ==> InStep(c.expanded[t][i]) {
      assert CA.DrainedSet(adding, t, c.start[t], c.added[t]);
      assert Deletes.DrainedSet(deleting, t, c.added[t], c.expanded[t]);
      if i < |c.added[t]| {
        assert EntryLighter(c.added[t][i], c.expanded[t][i]);
        if i >= |c.start[t]| { assert CA.ComesInDrained(adding, t, c.added[t][i]); }
      } else {
        assert Deletes.EntersDeleted(deleting, c.expanded[t][i]);
      }
    }
  }

  /** A child linked under a navigation without join table came in with its original. */
  lemma LinkedHasOriginal(m: Model, c: Course, w: Watch)
    requires AddsRan(m, c) && DeletesRan(m, c) && Watching(w, c.expanded, c.links) && w.linked
    requires c.expanded[w.child][w.idx].state == Unchanged
    ensures c.expanded[w.child][w.idx].original == Some(SnapshotOf(c.expanded[w.child][w.idx].entity))
  {
    hide CD.AllTies, CA.LinkTies, CA.LinksOk, CA.SlotsAreNew, CD.Final;
    DrainKeys(m, c);
    var plan := CD.Plan(CD.Adding, m.metas);
    CA.SlotsNameNewEntries(plan, c.start, c.added, c.links, m.types, w.link, w.slot);
    assert CA.DrainedSet(plan, w.child, c.start[w.child], c.added[w.child]);
    assert CA.ComesInDrained(plan, w.child, c.added[w.child][w.idx]);
    assert EntryLighter(c.added[w.child][w.idx], c.expanded[w.child][w.idx]);
  }

  /** An Unchanged entry lags after the insert phase exactly when its link changed its foreign keys. */
  lemma UnchangedLags(m: Model, c: Course, w: Watch)
    requires AddsRan(m, c) && DeletesRan(m, c) && Stored(m, c) && UnchangedInStep(c.expanded)
    requires Watching(w, c.expanded, c.links) && c.expanded[w.child][w.idx].state == Unchanged
    ensures w.child in c.stored && w.idx < |c.stored[w.child]| && c.stored[w.child][w.idx].state == Unchanged
    ensures !InStep(c.stored[w.child][w.idx]) <==> Relinks(m, c, w)
  {
    hide CA.AddsDrained, Deletes.DeletesDrained, KeysAfter, TablesAfter, RowsAfter, Flatten, Backed;
    WatchingKept(w, c.expanded, c.stored, c.links);
    assert FksAfter(w, ChildFks(w, c.expanded), c.stored, JobOf(m, c), AllDone(c));
    if w.linked {
      LinkedHasOriginal(m, c, w);
      DrainKeys(m, c);
      InOrder(m, c, w.parent);
    }
  }

  /** Entries lag for two reasons only. */
  lemma WhyLags(m: Model, c: Course)
    requires AddsRan(m, c) && DeletesRan(m, c) && Stored(m, c) && UnchangedInStep(c.expanded)
    requires Covers(m.types, c.stored)
    ensures SomeLags(c.stored, m.types) <==> LaterSetLags(m, c) || Relinked(m, c)
  {
    hide CA.AddsDrained, Deletes.DeletesDrained, Relinks, Stored, UnchangedInStep, InStep;
    if SomeLags(c.stored, m.types) {
      var t, i :| t in c.stored && 0 <= i < |c.stored[t]| && Lags(c.stored[t][i], m.types != [] && t == m.types[0]);
      if c.stored[t][i].state == Unchanged {
        StoredState(m, c, t, i);
        var w := WatchOf(m, c, t, i);
        UnchangedLags(m, c, w);
      }
    }
    if LaterSetLags(m, c) {
      var t, i :| t in c.stored && 0 <= i < |c.stored[t]| && m.types != [] && t != m.types[0]
                  && Settles(c.stored[t][i]) && !InStep(c.stored[t][i]);
      assert Lags(c.stored[t][i], false);
    }
    if Relinked(m, c) {
      var w :| Watching(w, c.expanded, c.links) && Relinks(m, c, w);
      RelinksState(m, c, w);
      UnchangedLags(m, c, w);
      assert Lags(c.stored[w.child][w.idx], m.types != [] && w.child == m.types[0]);
    }
  }

  lemma RelinksState(m: Model, c: Course, w: Watch)
    requires Watching(w, c.expanded, c.links) && Relinks(m, c, w)
    ensures c.expanded[w.child][w.idx].state == Unchanged
  {
  }

  lemma StoredState(m: Model, c: Course, t: TypeId, i: nat)
    requires Stored(m, c) && t in c.stored && i < |c.stored[t]|
    ensures t in c.expanded && i < |c.expanded[t]| && c.expanded[t][i].state == c.stored[t][i].state
  {
    assert SetShape(c.expanded[t], c.stored[t]);
    ShapeAt(c.expanded, c.stored, t, i);
  }

  /** Originals keep as many values as their entities. */
  lemma StoredFitting(m: Model, first: Sets, c: Course)
    requires Detected(first, c.start) && Fitting(first) && AddsRan(m, c) && DeletesRan(m, c) && Stored(m, c)
    ensures Fitting(c.stored) && Covers(m.types, c.stored)
  {
    hide CA.AddsDrained, Deletes.DeletesDrained, KeysAfter, TablesAfter, RowsAfter, Flatten, Backed, AllFksAfter;
    hide InStep;
    DrainKeys(m, c);
    RegisteredTypes(m, c);
    forall t, i | t in c.stored && 0 <= i < |c.stored[t]| && c.stored[t][i].original.Some?
      ensures SameWidth(SnapshotOf(c.stored[t][i].entity), c.stored[t][i].original.value) {
      assert SetShape(c.expanded[t], c.stored[t]);
      ShapeAt(c.expanded, c.stored, t, i);
      ExpandedWidth(m, first, c, t, i);
    }
  }

  lemma RegisteredTypes(m: Model, c: Course)
    requires AddsRan(m, c) && DeletesRan(m, c)
    ensures Covers(m.types, c.expanded)
  {
    hide CD.AllTies, CA.LinkTies, CA.LinksOk, CA.SlotsAreNew, Deletes.News, Deletes.AllDirectives, Deletes.AllExpanded;
  }

  lemma ExpandedWidth(m: Model, first: Sets, c: Course, t: TypeId, i: nat)
    requires Detected(first, c.start) && Fitting(first) && AddsRan(m, c) && DeletesRan(m, c)
    requires t in c.expanded && i < |c.expanded[t]| && c.expanded[t][i].original.Some?
    ensures SameWidth(SnapshotOf(c.expanded[t][i].entity), c.expanded[t][i].original.value)
  {
    hide CD.AllTies, CA.LinkTies, CA.LinksOk, CA.SlotsAreNew, Deletes.News, Deletes.AllDirectives, Deletes.AllExpanded;
    DrainKeys(m, c);
    var adding, deleting := CD.Plan(CD.Adding, m.metas), CD.Plan(CD.Deleting, m.metas);
    assert CA.DrainedSet(adding, t, c.start[t], c.added[t]);
    assert Deletes.DrainedSet(deleting, t, c.added[t], c.expanded[t]);
    if i < |c.added[t]| {
      assert EntryLighter(c.added[t][i], c.expanded[t][i]);
      if i < |c.start[t]| {
        assert SetDetected(first[t], c.start[t], |first[t]|);
      } else {
        assert CA.ComesInDrained(adding, t, c.added[t][i]);
      }
    } else {
      assert Deletes.EntersDeleted(deleting, c.expanded[t][i]);
    }
  }

  // ---------------------------------------------------------------------------
  // The second save
  // ---------------------------------------------------------------------------

  /** After a save that went through, with nothing changed since, a second one finds nothing pending exactly
      when no entry of a set after the first one accepted was Added or Modified with another original, and
      no link changed the foreign keys of a child that came with a key. */
  lemma SecondSaveIdle(m: Model, first: Sets, c1: Course, before: Db, db: Db, sets: Sets, next: Keys, w: World,
                       c2: Course)
    requires Detected(first, c1.start) && Fitting(first)
    requires Done(m, c1, before, db, sets, next, w) && Detected(sets, c2.start)
    ensures HasPending(c2.start) <==> LaterSetLags(m, c1) || Relinked(m, c1)
  {
    hide AddsRan, DeletesRan, Stored, LaterRan, Detected, Accepted, LaterSetLags, Relinked, Fitting;
    DetectedInStep(first, c1.start);
    DrainedInStep(m, c1);
    StoredFitting(m, first, c1);
    WhyLags(m, c1);
    NextFinds(c1.stored, sets, c2.start, m.types);
  }

  /** Then it opens no transaction. */
  lemma IdleTouchesNothing(m: Model, c: Course, before: Db, db: Db, sets: Sets, next: Keys, w: World,
                           r: Result<(), Error>)
    requires Outcome(m, c, before, db, sets, next, w, r) && w.saving && !HasPending(c.start)
    ensures r == Final(w) && db == before && sets == c.start && next == c.keys0
  {
  }

  /** A held child that came with a key and was linked is found Modified by the second save, which then
      writes its new foreign keys. */
  lemma KeyedChildFoundAgain(m: Model, first: Sets, c1: Course, before: Db, db: Db, sets: Sets, next: Keys, wo: World,
                             c2: Course, w: Watch)
    returns (j: nat)
    requires Detected(first, c1.start) && Fitting(first)
    requires Done(m, c1, before, db, sets, next, wo) && Detected(sets, c2.start)
    requires Watching(w, c1.expanded, c1.links) && Relinks(m, c1, w)
    ensures w.child in c2.start && j < |c2.start[w.child]| && c2.start[w.child][j].state == Modified
    ensures c2.start[w.child][j].entity.uid == c1.expanded[w.child][w.idx].entity.uid
    ensures c2.start[w.child][j].entity.fks
         == LinkedFks(w, ChildFks(w, c1.expanded), m.infos, ParentKey(w, c1.stored))
  {
    hide AddsRan, DeletesRan, LaterRan, Stored, Accepted, DetectedEntry, AcceptedEntry, UnchangedInStep, InStep;
    hide Relinks;
    DetectedInStep(first, c1.start);
    DrainedInStep(m, c1);
    StoredFitting(m, first, c1);
    RelinksState(m, c1, w);
    UnchangedLags(m, c1, w);
    RelinkedEntry(m, c1, w);
    FoundAgain(c1.stored[w.child][w.idx], w.child == m.types[0]);
    LagsRelinked(c1.stored[w.child][w.idx], w.child == m.types[0]);
    j := AcceptedAt(c1.stored, sets, m.types, w.child, w.idx);
    assert SetDetected(sets[w.child], c2.start[w.child], |sets[w.child]|);
  }

  lemma LagsRelinked(e: Entry, own: bool)
    requires e.state == Unchanged && !InStep(e)
    ensures Lags(e, own)
  {
  }

  /** The entry of a linked child after the insert phase: the same instance with its new foreign keys. */
  lemma RelinkedEntry(m: Model, c: Course, w: Watch)
    requires AddsRan(m, c) && DeletesRan(m, c) && Stored(m, c) && Watching(w, c.expanded, c.links) && Relinks(m, c, w)
    ensures w.child in c.stored && w.idx < |c.stored[w.child]|
    ensures c.stored[w.child][w.idx].entity.uid == c.expanded[w.child][w.idx].entity.uid
    ensures c.stored[w.child][w.idx].entity.fks
         == LinkedFks(w, ChildFks(w, c.expanded), m.infos, ParentKey(w, c.stored))
  {
    hide CA.AddsDrained, Deletes.DeletesDrained, TablesAfter, RowsAfter, Flatten, Backed, KeysAfter;
    WatchingKept(w, c.expanded, c.stored, c.links);
    assert FksAfter(w, ChildFks(w, c.expanded), c.stored, JobOf(m, c), AllDone(c));
    DrainKeys(m, c);
    InOrder(m, c, w.parent);
  }

  // ---------------------------------------------------------------------------
  // Instances
  // ---------------------------------------------------------------------------

  function Sample(fks: Row, values: seq<int>): Entity {
    Entity(1, 5, fks, values, NoKids)
  }

  /** Two sets, a changed entry in the second: the next detection finds it again. */
  lemma SecondSetFoundAgain(a: Sets, b: Sets, c: Sets)
    requires a == map[0 := [], 1 := [Entry(Sample([], [7]), Modified, false, Some(Snapshot(5, [], [6])),
                                           {ValueProperty(0)})]]
    requires Accepted(a, b, [0, 1]) && Detected(b, c)
    ensures HasPending(c)
  {
    assert Lags(a[1][0], false);
    assert SomeLags(a, [0, 1]);
    NextFinds(a, b, c, [0, 1]);
  }

  /** One set, a child with a key whose foreign key the save has set: the next detection finds it. */
  lemma RelinkedFoundAgain(a: Sets, b: Sets, c: Sets)
    requires a == map[0 := [Entry(Sample([Some(9)], []), Unchanged, false, Some(Snapshot(5, [None], [])), {})]]
    requires Accepted(a, b, [0]) && Detected(b, c)
    ensures HasPending(c)
  {
    assert Lags(a[0][0], true);
    assert SomeLags(a, [0]);
    NextFinds(a, b, c, [0]);
  }
}
