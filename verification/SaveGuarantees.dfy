/** What a save guarantees: every held child linked and joined; what survives a failure; what a retry does. */
module SaveGuarantees {
  import opened Wrappers
  import opened SaveModel
  import opened SaveLinkage
  import opened InsertPhase
  import opened SavedLinks
  import opened SavePipeline
  import opened SaveFit
  import SaveAtomicity
  import CD = CascadeDrain
  import CA = CascadeAdds
  import Deletes = CascadeDeletes
  import DG = DependencyGraph

  // ---------------------------------------------------------------------------
  // A save that goes through
  // ---------------------------------------------------------------------------

  /** The tables were fit for the insert phase. */
  ghost predicate Fit(m: Model, c: Course) {
    Backed(c.expanded, m.infos, c.before.tables, c.keys0)
  }

  /** What a caller can check before the save: a row for every tracked entry that is not Added and for
      every held child with a key, and key generators ahead of the rows. */
  ghost predicate FitBefore(m: Model, c: Course) {
    && SetsFit(m.infos, c.before.tables, c.start) && Registered(c.start, m.infos, c.before.tables, c.keys0)
    && forall t :: t in c.start ==> KeysBelow(m.infos[t], c.before.tables[t], c.keys0[t])
  }

  lemma FitBeforeIsFit(m: Model, c: Course)
    requires AddsRan(m, c) && DeletesRan(m, c) && FitBefore(m, c)
    ensures Fit(m, c)
  {
    hide CA.AddsDrained, Deletes.DeletesDrained, SetsFit;
    BackedAfterDrains(m.infos, c.before.tables, c.keys0, m.metas, c.start, c.added, c.links, c.expanded, m.types,
                      c.deletes);
  }

  /** Types are in the order once the adds are drained: each has metadata. */
  lemma InOrder(m: Model, c: Course, t: TypeId)
    requires AddsRan(m, c) && OrderFound(m, c) && t in c.start
    ensures t in c.order && t in DoneTypes(c.order, |c.order|, c.start.Keys)
  {
    hide CD.AllTies, CA.LinkTies, CA.DrainedSet;
    DG.SortGives(c.graph, c.order);
    assert t in m.metas && t in DG.Elements(c.graph.nodes);
    assert t in c.order;
    var i :| 0 <= i < |c.order| && c.order[i] == t;
  }

  /** The row each inserted entry has after the insert phase. */
  lemma RowOfInserted(m: Model, c: Course, w: Watch)
    requires AddsRan(m, c) && DeletesRan(m, c) && Stored(m, c) && Fit(m, c)
    requires Watching(w, c.expanded, c.links) && Persists(c.expanded[w.child][w.idx])
    ensures Watching(w, c.stored, c.links) && w.child in m.infos
    ensures |ChildFks(w, c.expanded)| == |m.infos[w.child].targets|
    ensures StoredAs(w, c.stored, c.inserted.tables,
      StoredRow(w, ChildFks(w, c.expanded), m.infos, ParentKey(w, c.stored), Precedes(c.order, w.parent, w.child)))
  {
    hide CA.AddsDrained, Deletes.DeletesDrained;
    DrainKeys(m, c);
    InOrder(m, c, w.child);
    WatchingKept(w, c.expanded, c.stored, c.links);
    var done := DoneTypes(c.order, |c.order|, c.expanded.Keys);
    assert RowAfter(w, ChildFks(w, c.expanded), c.stored, c.inserted.tables, JobOf(m, c), done,
                    Precedes(c.order, w.parent, w.child));
    assert SetBacked(c.expanded[w.child], m.infos[w.child], c.before.tables[w.child], c.keys0[w.child]);
  }

  lemma DrainKeys(m: Model, c: Course)
    requires AddsRan(m, c) && DeletesRan(m, c)
    ensures c.start.Keys == c.added.Keys == c.expanded.Keys && Lighter(c.added, c.expanded)
  {
    hide CD.AllTies, CA.LinkTies, Deletes.News, CA.DrainedSet, Deletes.DrainedSet;
    DeletesLighter(CD.Plan(CD.Deleting, m.metas), c.added, c.expanded, m.types, c.deletes);
  }

  /** Each link of an inserted child is realised exactly when its parent's type was inserted first or the
      child already pointed there; within a type exactly when the columns but the first already did. */
  lemma LinkAfterSave(m: Model, c: Course, w: Watch)
    requires AddsRan(m, c) && DeletesRan(m, c) && Stored(m, c) && Fit(m, c)
    requires Watching(w, c.expanded, c.links) && Persists(c.expanded[w.child][w.idx]) && w.linked
    ensures Watching(w, c.stored, c.links) && w.child in m.infos
    ensures w.parent != w.child ==> (Realised(w, c.stored, c.inserted.tables, m.infos) <==>
      || Precedes(c.order, w.parent, w.child)
      || Points(ChildFks(w, c.expanded), m.infos[w.child].targets, w.parent, ParentKey(w, c.stored), 0))
    ensures w.parent == w.child ==> (Realised(w, c.stored, c.inserted.tables, m.infos) <==>
      Points(ChildFks(w, c.expanded), m.infos[w.child].targets, w.parent, ParentKey(w, c.stored), 1))
  {
    hide CA.AddsDrained, Deletes.DeletesDrained, Precedes, Points, StoredAs, StoredRow;
    RowOfInserted(m, c, w);
    LinkRealised(w, ChildFks(w, c.expanded), c.stored, c.inserted.tables, m.infos, c.links,
                 Precedes(c.order, w.parent, w.child));
  }

  /** A model whose save realises every link: no cycle, harmless repetitions, and no second foreign key
      of a type to itself. */
  ghost predicate Sound(m: Model, g: DG.Graph) {
    && DG.Acyclic(g) && DG.RepeatsHarmless(g)
    && forall t, k :: t in m.infos && 0 < k < |m.infos[t].targets| ==> m.infos[t].targets[k] != t
  }

  lemma EveryLinkRealised(m: Model, c: Course, w: Watch)
    requires AddsRan(m, c) && DeletesRan(m, c) && Stored(m, c) && Fit(m, c) && Sound(m, c.graph)
    requires Watching(w, c.expanded, c.links) && Persists(c.expanded[w.child][w.idx]) && w.linked
    ensures Realised(w, c.stored, c.inserted.tables, m.infos)
  {
    hide CA.AddsDrained, Deletes.DeletesDrained, Precedes, Realised, Backed;
    LinkAfterSave(m, c, w);
    if w.parent != w.child {
      DrainKeys(m, c);
      InOrder(m, c, w.child);
      InOrder(m, c, w.parent);
      LinkedDepends(m, c, w.link);
      DG.BuiltGraph(m.metas, c.graph);
      DG.SortGives(c.graph, c.order);
      SoundOrderPrecedes(c.graph, c.order, w.parent, w.child);
    }
  }

  lemma LinkedDepends(m: Model, c: Course, k: nat)
    requires AddsRan(m, c) && OrderFound(m, c) && k < |c.links| && c.links[k].parentType != c.links[k].childType
    ensures DG.DependsOn(c.graph, c.links[k].childType, c.links[k].parentType)
  {
    hide CD.AllTies, CA.LinkTies, CA.DrainedSet, CA.LinkOk, DG.DependsOn;
    assert CA.LinkOk(CD.Plan(CD.Adding, m.metas), c.added, c.links[k]);
    LinkDepends(CD.Plan(CD.Adding, m.metas), c.added, c.links[k], c.graph);
  }

  /** A child without a key that an Added entry held in a collection without join table. */
  ghost predicate HeldNew(m: Model, c: Course, t: TypeId, i: nat, nav: Nav, child: Entity) {
    && Held(m, c, t, i, nav, child) && child.key <= 0 && nav.throughTable.None?
  }

  /** A child that an Added entry, no upsert, held in a has-many or many-to-many collection. */
  ghost predicate Held(m: Model, c: Course, t: TypeId, i: nat, nav: Nav, child: Entity) {
    && t in c.start && i < |c.start[t]| && c.start[t][i].state == Added && !c.start[t][i].upsert
    && t in m.metas && nav in m.metas[t] && (nav.kind == HasMany || nav.kind == ManyToMany)
    && CD.HoldsChild(c.start[t][i].entity.kids, nav, child)
  }

  /** The slot of a held child: its link names the instance that held it, and its entry is the child. */
  ghost predicate SlotOf(m: Model, c: Course, t: TypeId, i: nat, nav: Nav, child: Entity, k: nat, j: nat) {
    && k < |c.links| && j < |c.links[k].children| && LinkFits(c.stored, c.links[k]) && t in c.start && i < |c.start[t]|
    && c.links[k].childType == nav.related && c.links[k].throughTable == nav.throughTable
    && c.links[k].parentType == t && c.stored[t][c.links[k].parentIdx].entity.uid == c.start[t][i].entity.uid
    && IsChild(c.stored[nav.related][c.links[k].children[j]], child)
  }

  /** The child's entry: the same instance, with the state its key calls for. */
  predicate IsChild(e: Entry, child: Entity) {
    && e.entity.uid == child.uid && e.state == (if child.key > 0 then Unchanged else Added)
    && (child.key > 0 ==> e.entity.key == child.key)
  }

  lemma HeldChildSlot(m: Model, c: Course, t: TypeId, i: nat, nav: Nav, child: Entity) returns (k: nat, j: nat)
    requires AddsRan(m, c) && DeletesRan(m, c) && Stored(m, c) && Held(m, c, t, i, nav, child)
    ensures SlotOf(m, c, t, i, nav, child, k, j)
    ensures nav.related in c.expanded && c.links[k].children[j] < |c.expanded[nav.related]|
    ensures c.expanded[nav.related][c.links[k].children[j]].state == if child.key > 0 then Unchanged else Added
    ensures !c.expanded[nav.related][c.links[k].children[j]].upsert
  {
    hide Deletes.DeletesDrained, CD.AllTies, CA.LinkTies, CA.SlotsAreNew, CA.DrainedSet, RowsAfter, KeysAfter;
    hide AllFksAfter;
    DrainKeys(m, c);
    k, j := CA.HeldChildLinked(CD.Plan(CD.Adding, m.metas), c.start, c.added, c.links, m.types, t, i, nav, child);
    var l := c.links[k];
    var idx := l.children[j];
    assert LinkFits(c.stored, l);
    assert EntryLighter(c.added[nav.related][idx], c.expanded[nav.related][idx]);
    assert EntryLighter(c.added[l.parentType][l.parentIdx], c.expanded[l.parentType][l.parentIdx]);
    ShapeAt(c.expanded, c.stored, nav.related, idx);
    ShapeAt(c.expanded, c.stored, l.parentType, l.parentIdx);
  }

  /** After a save in a sound model, the row of every new child an Added entry held points to that very
      instance's key, in every column for its type. */
  lemma HeldChildPointsToParent(m: Model, c: Course, t: TypeId, i: nat, nav: Nav, child: Entity)
    returns (k: nat, j: nat)
    requires AddsRan(m, c) && DeletesRan(m, c) && Stored(m, c) && Fit(m, c) && Sound(m, c.graph)
    requires HeldNew(m, c, t, i, nav, child)
    ensures SlotOf(m, c, t, i, nav, child, k, j)
    ensures Realised(Watch(true, k, j, t, c.links[k].parentIdx, nav.related, c.links[k].children[j]),
                     c.stored, c.inserted.tables, m.infos)
  {
    hide CA.AddsDrained, Deletes.DeletesDrained, Realised, Stored, Backed;
    k, j := HeldChildSlot(m, c, t, i, nav, child);
    DrainKeys(m, c);
    var w := DrainedChildWatched(CD.Plan(CD.Adding, m.metas), c.start, c.added, c.links, m.types, c.expanded, k, j);
    EveryLinkRealised(m, c, w);
  }


  /** Navigations to the same type through the same join table name the same join columns. */
  ghost predicate ColumnsAgree(m: Model) {
    forall t, a, b :: t in m.metas && a in m.metas[t] && b in m.metas[t] && Collection(a) && Collection(b) ==>
      CA.SameColumns(a, b)
  }

  /** The place of a slot's join row in the join data. */
  ghost function Place(c: Course, k: nat, j: nat): nat
    requires LinksFit(c.stored, c.links) && k <= |c.links|
  {
    |c.before.joins| + RowCount(JoinParts(c.links, c.stored), k) + j
  }

  /** After a save every child an Added entry held in a many-to-many collection has its join row, with the
      key of the very instance that held it and its own. */
  lemma HeldChildJoined(m: Model, c: Course, t: TypeId, i: nat, nav: Nav, child: Entity) returns (k: nat, j: nat)
    requires AddsRan(m, c) && DeletesRan(m, c) && Stored(m, c) && Held(m, c, t, i, nav, child) && ColumnsAgree(m)
    requires nav.throughTable.Some? && nav.throughParent.Some? && nav.throughChild.Some?
    ensures SlotOf(m, c, t, i, nav, child, k, j)
    ensures Place(c, k, j) < |c.inserted.joins|
    ensures c.inserted.joins[Place(c, k, j)] == JoinRow(
      nav.throughTable.value, nav.throughParent.value, nav.throughChild.value,
      c.stored[t][c.links[k].parentIdx].entity.key,
      c.stored[nav.related][c.links[k].children[j]].entity.key)
  {
    hide Deletes.DeletesDrained, CD.AllTies, CA.LinkTies, CA.SlotsAreNew, CA.DrainedSet, Written, Flatten, RowCount;
    k, j := HeldChildSlot(m, c, t, i, nav, child);
    var plan := CD.Plan(CD.Adding, m.metas);
    assert CA.LinkOk(plan, c.added, c.links[k]);
    CA.LinkColumns(plan, c.added, c.links[k], nav);
    SlotJoined(c.links, c.stored, k, j);
  }

  /** Every join row a save adds is that of one slot of a link with a join table, and of no other. */
  lemma JoinRowsAreSlots(m: Model, c: Course, r: nat) returns (k: nat, j: nat)
    requires Stored(m, c) && |c.before.joins| <= r < |c.inserted.joins|
    ensures k < |c.links| && LinkFits(c.stored, c.links[k]) && Complete(c.links[k]) && j < |c.links[k].children|
    ensures r == Place(c, k, j) && c.inserted.joins[r] == RowOf(c.links[k], c.stored, j)
    ensures forall h: nat, i: nat ::
      h < |c.links| && Complete(c.links[h]) && i < |c.links[h].children| && Place(c, h, i) == r ==>
      h == k && i == j
  {
    hide Written, Flatten, RowCount;
    var parts := JoinParts(c.links, c.stored);
    k, j := JoinedSlot(c.links, c.stored, |c.links|, r - |c.before.joins|);
    forall h: nat, i: nat | h < |c.links| && Complete(c.links[h]) && i < |c.links[h].children| && Place(c, h, i) == r
      ensures h == k && i == j {
      assert LinkFits(c.stored, c.links[h]);
      OwnPlace(parts, k, j, h, i);
    }
  }

  // ---------------------------------------------------------------------------
  // Children with a key
  // ---------------------------------------------------------------------------

  /** The type's table after the insert phase: old rows stay, new ones are those of inserted entries. */
  lemma TableAfterSave(m: Model, c: Course, t: TypeId)
    requires AddsRan(m, c) && DeletesRan(m, c) && Stored(m, c) && t in c.start && t in c.before.tables
    ensures t in c.stored && t in c.inserted.tables
    ensures TableAfter(c.before.tables[t], c.stored[t], c.inserted.tables[t], SelfLinked(c.links, t), true)
  {
    hide CA.AddsDrained, Deletes.DeletesDrained, KeysAfter, AllFksAfter;
    DrainKeys(m, c);
    InOrder(m, c, t);
  }

  /** A held child that came with a key of its own but has no row, as a new one with a natural key does,
      comes in as Unchanged and gets no row, unless an inserted entry happens to have its key. */
  lemma KeyedChildNotInserted(m: Model, c: Course, t: TypeId, i: nat, nav: Nav, child: Entity) returns (k: nat, j: nat)
    requires AddsRan(m, c) && DeletesRan(m, c) && Stored(m, c) && Held(m, c, t, i, nav, child) && child.key > 0
    requires nav.related in c.before.tables && child.key !in c.before.tables[nav.related]
    ensures SlotOf(m, c, t, i, nav, child, k, j) && c.stored[nav.related][c.links[k].children[j]].state == Unchanged
    ensures nav.related in c.inserted.tables
    ensures child.key in c.inserted.tables[nav.related] ==>
      InsertedKey(c.stored[nav.related], |c.stored[nav.related]|, child.key)
  {
    hide CA.AddsDrained, Deletes.DeletesDrained, Stored;
    k, j := HeldChildSlot(m, c, t, i, nav, child);
    DrainKeys(m, c);
    TableAfterSave(m, c, nav.related);
  }

  /** A held child that has a row is linked in memory only: the row stays as it was, unless the type is
      linked to itself. */
  lemma KeyedChildRowKept(m: Model, c: Course, t: TypeId, i: nat, nav: Nav, child: Entity) returns (w: Watch)
    requires AddsRan(m, c) && DeletesRan(m, c) && Stored(m, c) && Held(m, c, t, i, nav, child) && child.key > 0
    requires nav.throughTable.None? && nav.related in m.infos && !SelfLinked(c.links, nav.related)
    requires nav.related in c.before.tables && child.key in c.before.tables[nav.related]
    ensures nav.related in c.inserted.tables && child.key in c.inserted.tables[nav.related]
    ensures c.inserted.tables[nav.related][child.key] == c.before.tables[nav.related][child.key]
    ensures w.parent == t && w.child == nav.related && Watching(w, c.expanded, c.links)
    ensures Watching(w, c.stored, c.links)
    ensures IsChild(c.stored[w.child][w.idx], child)
    ensures ChildFks(w, c.stored) == LinkedFks(w, ChildFks(w, c.expanded), m.infos, ParentKey(w, c.stored))
  {
    hide CA.AddsDrained, Deletes.DeletesDrained, KeysAfter, SlotOf, TablesAfter, RowsAfter, Flatten, Backed;
    var k, j := HeldChildSlot(m, c, t, i, nav, child);
    SlotParts(m, c, t, i, nav, child, k, j);
    DrainKeys(m, c);
    TableAfterSave(m, c, nav.related);
    w := DrainedChildWatched(CD.Plan(CD.Adding, m.metas), c.start, c.added, c.links, m.types, c.expanded, k, j);
    InOrder(m, c, t);
    WatchingKept(w, c.expanded, c.stored, c.links);
    assert FksAfter(w, ChildFks(w, c.expanded), c.stored, JobOf(m, c), DoneTypes(c.order, |c.order|, c.expanded.Keys));
  }

  lemma SlotParts(m: Model, c: Course, t: TypeId, i: nat, nav: Nav, child: Entity, k: nat, j: nat)
    requires SlotOf(m, c, t, i, nav, child, k, j)
    ensures k < |c.links| && j < |c.links[k].children| && c.links[k].parentType == t
    ensures c.links[k].childType == nav.related
    ensures c.links[k].throughTable == nav.throughTable && nav.related in c.stored
    ensures c.links[k].children[j] < |c.stored[nav.related]|
    ensures IsChild(c.stored[nav.related][c.links[k].children[j]], child)
  {
  }
}
