/** What a failed save leaves behind, and how a retry differs from a first save. */
module SaveRetry {
  import opened Wrappers
  import opened SaveModel
  import opened SaveLinkage
  import opened InsertPhase
  import opened SavedLinks
  import opened SavePipeline
  import opened SaveTracking
  import opened SaveGuarantees
  import CD = CascadeDrain
  import CA = CascadeAdds
  import Deletes = CascadeDeletes

  // ---------------------------------------------------------------------------
  // What survives
  // ---------------------------------------------------------------------------

  /** No entry leaves its set or its state, and an entry that is not inserted keeps its key. */
  ghost predicate StillTracked(a: Sets, b: Sets) {
    && a.Keys == b.Keys && (forall t :: t in a ==> |a[t]| <= |b[t]|)
    && forall t, i :: t in a && 0 <= i < |a[t]| ==> StillThere(a[t][i], b[t][i])
  }

  predicate StillThere(a: Entry, b: Entry) {
    && a.state == b.state && a.upsert == b.upsert && a.entity.uid == b.entity.uid
    && (!Persists(a) ==> a.entity.key == b.entity.key)
  }

  lemma GrownStays(plan: CD.Plan, a: Sets, b: Sets)
    requires CD.Grown(plan, a, b)
    ensures StillTracked(a, b)
  {
    forall t | t in a ensures |a[t]| <= |b[t]| { assert CD.EntriesGrown(plan, t, a[t], b[t]); }
    forall t, i | t in a && 0 <= i < |a[t]| ensures StillThere(a[t][i], b[t][i]) {
      CD.GrownUid(plan, a, b, t, i);
    }
  }

  lemma ShapeStays(a: Sets, b: Sets)
    requires SameShape(a, b)
    ensures StillTracked(a, b)
  {
    forall t, i | t in a && 0 <= i < |a[t]| ensures |a[t]| <= |b[t]| && StillThere(a[t][i], b[t][i]) {
      ShapeAt(a, b, t, i);
    }
    forall t | t in a ensures |a[t]| <= |b[t]| { assert SetShape(a[t], b[t]); }
  }

  lemma StaysTwice(a: Sets, b: Sets, c: Sets)
    requires StillTracked(a, b) && StillTracked(b, c)
    ensures StillTracked(a, c)
  {
    forall t, i | t in a && 0 <= i < |a[t]| ensures StillThere(a[t][i], c[t][i]) {
      assert StillThere(a[t][i], b[t][i]) && StillThere(b[t][i], c[t][i]);
    }
  }

  lemma AddedStays(m: Model, c: Course)
    requires AddsRan(m, c)
    ensures StillTracked(c.start, c.added)
  {
    hide CD.AllTies, CA.LinkTies, CA.SlotsAreNew, CA.LinksOk;
    forall t, i | t in c.start && 0 <= i < |c.start[t]|
      ensures |c.start[t]| <= |c.added[t]| && StillThere(c.start[t][i], c.added[t][i]) {
      assert CA.DrainedSet(CD.Plan(CD.Adding, m.metas), t, c.start[t], c.added[t]);
    }
    forall t | t in c.start ensures |c.start[t]| <= |c.added[t]| {
      assert CA.DrainedSet(CD.Plan(CD.Adding, m.metas), t, c.start[t], c.added[t]);
    }
  }

  lemma LighterStays(a: Sets, b: Sets)
    requires Lighter(a, b)
    ensures StillTracked(a, b)
  {
    forall t, i | t in a && 0 <= i < |a[t]| ensures StillThere(a[t][i], b[t][i]) {
      assert EntryLighter(a[t][i], b[t][i]);
    }
  }

  /** Whatever step fails, every entry is tracked as before, so that its change is still to be saved. */
  lemma FailureKeepsEntries(m: Model, c: Course, e: Error, sets: Sets)
    requires Leaves(m, c, e, sets) && e != OnSaved
    ensures StillTracked(c.start, sets)
  {
    hide CA.AddsDrained, Deletes.DeletesDrained, CD.AllTies, CA.LinkTies, CA.LinksOk, KeysAfter, AllFksAfter;
    hide OrderFound, CD.Final;
    match e
    case OnSaving | Connection | Begin =>
    case AddsDrain(_) => GrownStays(CD.Plan(CD.Adding, m.metas), c.start, sets);
    case DeletesDrain(_) =>
      AddedStays(m, c);
      GrownStays(CD.Plan(CD.Deleting, m.metas), c.added, sets);
      StaysTwice(c.start, c.added, sets);
    case _ =>
      DrainKeys(m, c);
      AddedStays(m, c);
      LighterStays(c.added, c.expanded);
      StaysTwice(c.start, c.added, c.expanded);
      ShapeStays(c.expanded, sets);
      StaysTwice(c.start, c.expanded, sets);
  }

  /** The last hook fails once the save has gone through. */
  ghost predicate LateHook(c: Course, w: World, e: Error) {
    e == OnSaved && HasPending(c.start) && w.connected && w.begun
  }

  /** A failed save whose recovery succeeds leaves the database as it was and every entry tracked in the
      state it had; only a failing last hook comes after everything is saved. Children a failed drain had
      taken out are tracked nowhere, see RetryAfterFailedDrain. */
  lemma ErrorMeansUndone(m: Model, c: Course, before: Db, db: Db, sets: Sets, next: Keys, w: World,
                         r: Result<(), Error>)
    requires Outcome(m, c, before, db, sets, next, w, r) && r.Err? && w.ends.undone && w.ends.unpointed
    ensures LateHook(c, w, r.error) ==> Done(m, c, before, db, sets, next, w)
    ensures !LateHook(c, w, r.error) ==> db == before && StillTracked(c.start, sets)
  {
    hide Leaves, Done;
    if db == before && sets == c.start {
      ShapeSelf(sets);
      ShapeStays(sets, sets);
    } else if r.error != OnSaved {
      FailureKeepsEntries(m, c, r.error, sets);
    }
  }

  // ---------------------------------------------------------------------------
  // A retry after the drains
  // ---------------------------------------------------------------------------

  /** The save failed after both drains. */
  ghost predicate FailedLate(m: Model, c: Course, sets: Sets) {
    AddsRan(m, c) && DeletesRan(m, c) && Written(m, c, sets)
  }

  lemma LateErrors(m: Model, c: Course, e: Error, sets: Sets)
    requires Leaves(m, c, e, sets) && (e.Insert? || e.Join? || e.Later? || e.CommitFailed?)
    ensures FailedLate(m, c, sets)
  {
  }

  lemma DrainedOnce(m: Model, c: Course, t: TypeId, i: nat)
    requires AddsRan(m, c) && DeletesRan(m, c) && t in c.expanded && i < |c.expanded[t]|
    ensures c.expanded[t][i] == CD.Final(CD.Plan(CD.Adding, m.metas), t, c.expanded[t][i])
  {
    hide CD.AllTies, CA.LinkTies, CA.LinksOk, CA.SlotsAreNew, Deletes.News;
    DrainKeys(m, c);
    var plan := CD.Plan(CD.Adding, m.metas);
    assert CA.DrainedSet(plan, t, c.start[t], c.added[t]);
    assert Deletes.DrainedSet(CD.Plan(CD.Deleting, m.metas), t, c.added[t], c.expanded[t]);
    if i < |c.added[t]| {
      assert EntryLighter(c.added[t][i], c.expanded[t][i]);
      if i < |c.start[t]| {
        CD.FinalTwice(plan, t, c.start[t][i]);
      } else {
        assert CA.ComesInDrained(plan, t, c.added[t][i]);
      }
    } else {
      assert Deletes.EntersDeleted(CD.Plan(CD.Deleting, m.metas), c.expanded[t][i]);
    }
  }

  /** A save that failed after its drains leaves no Added entry with children in its collections. */
  lemma FailureLeavesDrained(m: Model, c: Course, sets: Sets)
    requires FailedLate(m, c, sets)
    ensures CA.AllDrained(CD.Plan(CD.Adding, m.metas), sets)
  {
    hide CA.AddsDrained, Deletes.DeletesDrained, CD.Final;
    var plan := CD.Plan(CD.Adding, m.metas);
    forall t, i | t in sets && 0 <= i < |sets[t]| ensures sets[t][i] == CD.Final(plan, t, sets[t][i]) {
      assert SetShape(c.expanded[t], sets[t]);
      ShapeAt(c.expanded, sets, t, i);
      DrainedOnce(m, c, t, i);
      FinalOfShape(plan, t, c.expanded[t][i], sets[t][i]);
    }
  }

  lemma FinalOfShape(plan: CD.Plan, t: TypeId, a: Entry, b: Entry)
    requires EntryShape(a, b) && a == CD.Final(plan, t, a)
    ensures b == CD.Final(plan, t, b)
  {
  }

  lemma DetectedStaysDrained(plan: CD.Plan, a: Sets, b: Sets)
    requires plan.mode == CD.Adding && CA.AllDrained(plan, a) && Detected(a, b)
    ensures CA.AllDrained(plan, b)
  {
    forall t, i | t in b && 0 <= i < |b[t]| ensures b[t][i] == CD.Final(plan, t, b[t][i]) {
      assert SetDetected(a[t], b[t], |a[t]|);
    }
  }

  /** A retry after a save that failed past its drains links nothing: it has the links of the first save
      exactly when that had none. */
  lemma RetryLinksNothing(m: Model, c1: Course, sets: Sets, c2: Course)
    requires FailedLate(m, c1, sets) && Detected(sets, c2.start) && AddsRan(m, c2)
    ensures c2.links == [] && c2.added == c2.start && (c2.links == c1.links <==> c1.links == [])
  {
    hide CA.AddsDrained, Deletes.DeletesDrained, CD.Final;
    var plan := CD.Plan(CD.Adding, m.metas);
    FailureLeavesDrained(m, c1, sets);
    DetectedStaysDrained(plan, sets, c2.start);
    CA.SecondDrain(plan, c2.start, c2.added, c2.links, m.types);
  }

  /** So it adds no join row, whatever the first save would have added. */
  lemma RetryJoinsNothing(m: Model, c1: Course, sets: Sets, c2: Course)
    requires FailedLate(m, c1, sets) && Detected(sets, c2.start) && AddsRan(m, c2) && Stored(m, c2)
    ensures c2.inserted.joins == c2.before.joins
  {
    hide CA.AddsDrained, FailedLate, Written;
    RetryLinksNothing(m, c1, sets, c2);
  }

  /** An entry still to be inserted goes into the retry's insert phase as the failed save left it. */
  lemma RetryEntry(m: Model, c1: Course, sets: Sets, c2: Course, t: TypeId, i: nat)
    requires FailedLate(m, c1, sets) && Detected(sets, c2.start) && AddsRan(m, c2) && DeletesRan(m, c2)
    requires t in sets && i < |sets[t]| && Persists(sets[t][i])
    ensures t in c2.expanded && i < |c2.expanded[t]| && c2.expanded[t][i] == sets[t][i]
  {
    hide CA.AddsDrained, Deletes.DeletesDrained, Written;
    RetryLinksNothing(m, c1, sets, c2);
    DrainKeys(m, c2);
    assert SetDetected(sets[t], c2.start[t], |sets[t]|);
    assert EntryLighter(c2.added[t][i], c2.expanded[t][i]);
  }

  /** The types the failed save had inserted and linked in memory. */
  ghost function DoneIn(c: Course): set<TypeId>
  {
    if c.done <= |c.order| then DoneTypes(c.order, c.done, c.expanded.Keys) else {}
  }

  /** The foreign keys a linked child is left with by a failed save. */
  ghost function LeftFks(m: Model, c: Course, sets: Sets, w: Watch): Row
    requires Watching(w, c.expanded, c.links) && Watching(w, sets, c.links) && w.child in m.infos
  {
    if w.parent in DoneIn(c) then LinkedFks(w, ChildFks(w, c.expanded), m.infos, ParentKey(w, sets))
        else ChildFks(w, c.expanded)
  }

  lemma LeftInMemory(m: Model, c: Course, sets: Sets, w: Watch)
    requires FailedLate(m, c, sets) && Watching(w, c.expanded, c.links) && w.linked
    ensures Watching(w, sets, c.links) && w.child in m.infos && ChildFks(w, sets) == LeftFks(m, c, sets, w)
    ensures sets[w.child][w.idx].state == c.expanded[w.child][w.idx].state
    ensures sets[w.child][w.idx].upsert == c.expanded[w.child][w.idx].upsert
    ensures sets[w.parent][w.at].state == c.expanded[w.parent][w.at].state
    ensures sets[w.parent][w.at].upsert == c.expanded[w.parent][w.at].upsert
  {
    hide CA.AddsDrained, Deletes.DeletesDrained, KeysAfter;
    WatchingKept(w, c.expanded, sets, c.links);
    ShapeAt(c.expanded, sets, w.parent, w.at);
    assert FksAfter(w, ChildFks(w, c.expanded), sets, JobOf(m, c), DoneIn(c));
  }

  /** The failed save was tried again, and its retry got through the insert phase. */
  ghost predicate Retried(m: Model, c1: Course, sets: Sets, c2: Course) {
    FailedLate(m, c1, sets) && Detected(sets, c2.start) && AddsRan(m, c2) && DeletesRan(m, c2) && Stored(m, c2)
  }

  /** The failed save was to insert this child under its parent. */
  ghost predicate LinkedNew(c: Course, w: Watch) {
    Watching(w, c.expanded, c.links) && w.linked && Persists(c.expanded[w.child][w.idx])
  }

  /** A linked child the retry inserts is stored with the foreign keys the failed save left in memory. */
  lemma RetryRow(m: Model, c1: Course, sets: Sets, c2: Course, w: Watch)
    requires Retried(m, c1, sets, c2) && Fit(m, c2)
    requires LinkedNew(c1, w)
    ensures Watching(w, sets, c1.links) && w.child in m.infos && w.child in c2.stored && w.idx < |c2.stored[w.child]|
    ensures |LeftFks(m, c1, sets, w)| == |m.infos[w.child].targets|
    ensures StoredAs(w, c2.stored, c2.inserted.tables, LeftFks(m, c1, sets, w))
  {
    hide CA.AddsDrained, Deletes.DeletesDrained, Written, Stored, Backed, KeyAlone;
    LeftInMemory(m, c1, sets, w);
    RetryEntry(m, c1, sets, c2, w.child, w.idx);
    RetryLinksNothing(m, c1, sets, c2);
    RowOfInserted(m, c2, Watch(false, 0, 0, w.child, w.idx, w.child, w.idx));
  }

  /** Some foreign key of the child's type points to the parent's type. */
  ghost predicate HasColumn(targets: seq<TypeId>, parent: TypeId) {
    exists k :: 0 <= k < |targets| && targets[k] == parent
  }

  /** When a retry realises a link. If the failed save had got to the parent's type, exactly when the
      retry gives the parent the key it had then; otherwise exactly when the child pointed there before. */
  lemma RetryRealises(m: Model, c1: Course, sets: Sets, c2: Course, w: Watch)
    requires Retried(m, c1, sets, c2) && Fit(m, c2)
    requires LinkedNew(c1, w)
    requires w.child in m.infos && HasColumn(m.infos[w.child].targets, w.parent)
    ensures Watching(w, sets, c1.links) && w.parent in c2.stored && w.at < |c2.stored[w.parent]|
    ensures w.parent in DoneIn(c1) ==>
      (Realised(w, c2.stored, c2.inserted.tables, m.infos) <==> ParentKey(w, c2.stored) == ParentKey(w, sets))
    ensures w.parent !in DoneIn(c1) ==> (Realised(w, c2.stored, c2.inserted.tables, m.infos) <==>
      Points(ChildFks(w, c1.expanded), m.infos[w.child].targets, w.parent, ParentKey(w, c2.stored), 0))
  {
    hide CA.AddsDrained, Deletes.DeletesDrained, Written, Stored, Backed, KeyAlone, FailedLate;
    RetryRow(m, c1, sets, c2, w);
    StillInRange(m, c1, sets, c2, w.parent, w.at);
    var k :| 0 <= k < |m.infos[w.child].targets| && m.infos[w.child].targets[k] == w.parent;
    if w.parent in DoneIn(c1) {
      assert LeftFks(m, c1, sets, w)[k] == Some(ParentKey(w, sets));
    }
  }

  lemma StillInRange(m: Model, c1: Course, sets: Sets, c2: Course, t: TypeId, i: nat)
    requires Retried(m, c1, sets, c2)
    requires t in sets && i < |sets[t]|
    ensures t in c2.stored && i < |c2.stored[t]|
  {
    hide CA.AddsDrained, Deletes.DeletesDrained, FailedLate, KeysAfter, AllFksAfter, Flatten;
    RetryLinksNothing(m, c1, sets, c2);
    DrainKeys(m, c2);
    assert SetDetected(sets[t], c2.start[t], |sets[t]|);
    ShapeAt(c2.expanded, c2.stored, t, i);
  }

  /** The key an inserted parent was given by the failed save and the one the retry gives it. */
  lemma RetryKeys(m: Model, c1: Course, sets: Sets, c2: Course, t: TypeId, i: nat)
    requires Retried(m, c1, sets, c2)
    requires t in c1.expanded && i < |c1.expanded[t]| && Persists(c1.expanded[t][i]) && t in DoneIn(c1)
    requires t in m.infos && t in c1.keys0 && t in c1.keys && t in c2.keys0
    ensures t in sets && i < |sets[t]| && t in c2.stored && i < |c2.stored[t]|
    ensures !m.infos[t].auto ==> c2.stored[t][i].entity.key == sets[t][i].entity.key
    ensures m.infos[t].auto ==> sets[t][i].entity.key < c1.keys[t] && c2.keys0[t] <= c2.stored[t][i].entity.key
  {
    hide CA.AddsDrained, Deletes.DeletesDrained, AllFksAfter, Flatten;
    ShapeAt(c1.expanded, sets, t, i);
    StillInRange(m, c1, sets, c2, t, i);
    RetryEntry(m, c1, sets, c2, t, i);
    DrainKeys(m, c2);
    InOrder(m, c2, t);
    assert KeyAfter(c1.expanded[t][i], sets, t, i, m.infos[t], c1.keys0[t], c1.keys[t], true);
    assert KeyAfter(c2.expanded[t][i], c2.stored, t, i, m.infos[t], c2.keys0[t], c2.keys[t], true);
  }

  /** A parent with a generated key, and generators that do not go back: the retry realises no link the
      failed save had written. A parent with its own key: it realises them all. */
  lemma RetryByKeyKind(m: Model, c1: Course, sets: Sets, c2: Course, w: Watch)
    requires Retried(m, c1, sets, c2) && Fit(m, c2)
    requires LinkedNew(c1, w)
    requires Persists(c1.expanded[w.parent][w.at]) && w.parent in DoneIn(c1)
    requires w.child in m.infos && HasColumn(m.infos[w.child].targets, w.parent)
    requires w.parent in m.infos && w.parent in c1.keys0 && w.parent in c1.keys && w.parent in c2.keys0
    ensures !m.infos[w.parent].auto ==> Realised(w, c2.stored, c2.inserted.tables, m.infos)
    ensures m.infos[w.parent].auto && c1.keys[w.parent] <= c2.keys0[w.parent] ==>
      !Realised(w, c2.stored, c2.inserted.tables, m.infos)
  {
    hide CA.AddsDrained, Deletes.DeletesDrained, Written, Stored, Backed, FailedLate, Realised;
    RetryRealises(m, c1, sets, c2, w);
    RetryKeys(m, c1, sets, c2, w.parent, w.at);
  }

  // ---------------------------------------------------------------------------
  // A retry after a failed drain
  // ---------------------------------------------------------------------------

  lemma {:induction false} DetectedSetTies(plan: CD.Plan, t: TypeId, a: seq<Entry>, b: seq<Entry>, n: nat)
    requires plan.mode == CD.Adding && SetDetected(a, b, |a|) && n <= |a|
    ensures CD.SetTies(plan, t, a, n) == CD.SetTies(plan, t, b, n)
  {
    hide CD.EntryTies, DetectedEntry;
    if n > 0 {
      DetectedSetTies(plan, t, a, b, n - 1);
      DetectedEntryTies(plan, t, a[n - 1]);
    }
  }

  lemma DetectedEntryTies(plan: CD.Plan, t: TypeId, e: Entry)
    requires plan.mode == CD.Adding
    ensures CD.EntryTies(plan, t, DetectedEntry(e)) == CD.EntryTies(plan, t, e)
  {
    hide CD.Below;
  }

  /** Detection makes no entry Added, so what there is to drain stays the same. */
  lemma {:induction false} DetectedTies(plan: CD.Plan, a: Sets, b: Sets, types: seq<TypeId>,
                                        n: nat)
    requires plan.mode == CD.Adding && Detected(a, b) && n <= |types|
    ensures CD.AllTies(plan, a, types, n) == CD.AllTies(plan, b, types, n)
  {
    if n > 0 {
      DetectedTies(plan, a, b, types, n - 1);
      var t := types[n - 1];
      if t in a {
        assert SetDetected(a[t], b[t], |a[t]|);
        DetectedSetTies(plan, t, a[t], b[t], |a[t]|);
      }
    }
  }

  /** A retry after a failed drain links what is still in containers and nothing that had been linked or
      taken out: all three together are what there was at first. */
  lemma RetryAfterFailedDrain(m: Model, c1: Course, e: Error, sets: Sets, c2: Course)
    requires e.AddsDrain? && Leaves(m, c1, e, sets) && Detected(sets, c2.start) && AddsRan(m, c2)
    ensures var plan := CD.Plan(CD.Adding, m.metas);
      && CA.LinkTies(plan, c2.added, c2.links, |c2.links|) == CD.AllTies(plan, sets, m.types, |m.types|)
      && CA.LinkTies(plan, c2.added, c2.links, |c2.links|) + CA.LinkTies(plan, sets, c1.links, |c1.links|)
         <= CD.AllTies(plan, c1.start, m.types, |m.types|)
  {
    hide CD.AllTies, CA.LinkTies, CA.DrainedSet, CA.LinksOk, CA.SlotsAreNew;
    DetectedTies(CD.Plan(CD.Adding, m.metas), sets, c2.start, m.types, |m.types|);
  }
}
