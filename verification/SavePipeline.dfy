/** The save as a whole: detection, drains, inserts with linkage, later phases, recovery and acceptance. */
module SavePipeline {
  import opened Wrappers
  import opened SaveModel
  import opened SaveLinkage
  import opened InsertPhase
  import opened SavePhases
  import opened SaveTracking
  import opened SaveAtomicity
  import CD = CascadeDrain
  import CA = CascadeAdds
  import Deletes = CascadeDeletes
  import DG = DependencyGraph
  import SavedLinks
  import Ready = SaveReady

  datatype Data = Data(tables: Tables, joins: seq<JoinRow>)

  type Db = Database<Data>

  datatype Error =
    OnSaving | Connection | Begin | AddsDrain(adds: CA.Error) | DeletesDrain(deletes: Deletes.Error)
  | Insert | Join | Later(stage: Stage) | CommitFailed | OnSaved

  /** What the save depends on: hooks, connection, whether its transaction begins or its savepoint is set, how
      many statements the database answers, the endings, and whether a failed save resets the key generators. */
  datatype World = World(saving: bool, connected: bool, begun: bool, left: nat, ends: Endings, rewinds: bool,
                         saved: bool)

  /** The model: registered types with navigations and properties, the names of their foreign keys, and
      which type's keys a table's column holds. */
  datatype Model = Model(types: seq<TypeId>, metas: Metas, infos: Infos, schema: Schema,
                         owners: map<(string, string), TypeId>)

  /** The course of a save: the sets after detection and after each drain, the links, the orders of types
      with how many were processed in memory, memory and data after the insert phase, and the tables after
      each later phase. */
  datatype Course = Course(
    start: Sets, added: Sets, links: seq<CA.Link>, expanded: Sets, deletes: Deletes.Expansions,
    graph: DG.Graph, order: seq<TypeId>, deleteOrder: seq<TypeId>, done: nat, stored: Sets, before: Data,
    inserted: Data, keys0: Keys, keys: Keys, stages: Stages, saved: Data)

  // ---------------------------------------------------------------------------
  // What the stages leave
  // ---------------------------------------------------------------------------

  ghost predicate AddsRan(m: Model, c: Course) {
    CA.AddsDrained(CD.Plan(CD.Adding, m.metas), c.start, c.added, c.links, m.types)
  }

  ghost predicate DeletesRan(m: Model, c: Course) {
    Deletes.DeletesDrained(CD.Plan(CD.Deleting, m.metas), c.added, c.expanded, m.types, c.deletes)
  }

  ghost predicate OrderFound(m: Model, c: Course) {
    DG.Built(m.metas, c.graph) && DG.Sorts(c.graph, c.order) && c.done <= |c.order|
  }

  function JobOf(m: Model, c: Course): Job {
    Job(m.infos, c.links)
  }

  /** Memory once `c.done` types of the order are processed: keys given, foreign keys written, nothing else. */
  ghost predicate Written(m: Model, c: Course, sets: Sets) {
    && OrderFound(m, c)
    && MemoryAfter(c.expanded, sets, JobOf(m, c), c.keys0, c.keys, DoneTypes(c.order, c.done, c.expanded.Keys))
  }

  /** All registered types of the order. */
  ghost function AllDone(c: Course): set<TypeId> {
    DoneTypes(c.order, |c.order|, c.expanded.Keys)
  }

  /** The rows of all inserted entries and the join rows, provided the tables were fit for the phase. */
  ghost predicate Stored(m: Model, c: Course) {
    && Written(m, c, c.stored) && c.done == |c.order| && LinksFit(c.stored, c.links)
    && TablesAfter(c.before.tables, c.stored, c.inserted.tables, c.links, AllDone(c))
    && c.inserted.joins == c.before.joins + Flatten(JoinParts(c.links, c.stored), |c.links|)
    && (Backed(c.expanded, m.infos, c.before.tables, c.keys0) ==>
         RowsAfter(c.expanded, c.stored, c.inserted.tables, JobOf(m, c), AllDone(c), c.order))
  }

  // ---------------------------------------------------------------------------
  // When a save goes through
  // ---------------------------------------------------------------------------

  /** Free keys for what is to be inserted, and a row of its own, without tokens, for each Modified and each
      Deleted entry. */
  ghost predicate RowsReady(m: Model, c: Course) {
    KeysFree(c.expanded, m.infos, c.before.tables, c.keys0) && StagesReady(m.infos, c.expanded, c.before.tables)
  }

  /** Statements of the insert phase, at most. */
  function InsertCost(c: Course): nat {
    PhaseCost(c.expanded, c.links, c.order, |c.order|) + |c.links|
  }

  /** Statements of the whole save, at most. */
  function Cost(c: Course): nat {
    InsertCost(c) + StagesCost(c.expanded, c.order, c.deleteOrder, c.deletes.directives)
  }

  /** Nothing stands in the way of a save once it has begun: every type reached is known, the rows are ready,
      the database answers all statements, and the commit of an own transaction succeeds. */
  ghost predicate Smooth(m: Model, c: Course, w: World, before: Db) {
    && CD.AllKnown(m.metas, c.start) && RowsReady(m, c) && w.left >= Cost(c)
    && (before.txn.None? ==> w.ends.committed)
  }

  /** The same from the sets after detection alone. */
  ghost predicate SmoothStart(m: Model, c: Course, w: World, before: Db, next: Keys) {
    && Ready.StartReady(m.metas, m.infos, c.start, Current(before).tables, next) && w.left >= Cost(c)
    && (before.txn.None? ==> w.ends.committed)
  }

  /** What is ready at the start is so after the drains. */
  lemma StartSuffices(m: Model, c: Course)
    requires AddsRan(m, c) && DeletesRan(m, c)
    requires Ready.StartReady(m.metas, m.infos, c.start, c.before.tables, c.keys0)
    ensures RowsReady(m, c)
  {
    hide CA.AddsDrained, Deletes.DeletesDrained, Ready.StartReady, KeysFree, StagesReady;
    Ready.ReadyThrough(m.metas, m.infos, c.start, c.added, c.links, c.expanded, c.deletes, m.types, c.before.tables,
                       c.keys0);
  }

  lemma {:induction false} ChosenAlike(kind: Kind, a: seq<Entry>, b: seq<Entry>, n: nat)
    requires SetShape(a, b) && n <= |a|
    ensures |Chosen(kind, a, n)| == |Chosen(kind, b, n)|
    ensures forall j :: 0 <= j < |Chosen(kind, a, n)| ==>
      Chosen(kind, a, n)[j].entity.key == Chosen(kind, b, n)[j].entity.key
  {
    if n > 0 {
      ChosenAlike(kind, a, b, n - 1);
      assert EntryShape(a[n - 1], b[n - 1]);
    }
  }

  lemma {:induction false} CountAlike(kind: Kind, a: Sets, b: Sets, order: seq<TypeId>, n: nat)
    requires SameShape(a, b) && n <= |order|
    ensures ChosenCount(kind, a, order, n) == ChosenCount(kind, b, order, n)
  {
    if n > 0 {
      CountAlike(kind, a, b, order, n - 1);
      var t := order[n - 1];
      if t in a {
        assert SetShape(a[t], b[t]);
        ChosenAlike(kind, a[t], b[t], |a[t]|);
      }
    }
  }

  lemma ReachableAlike(kind: Kind, info: TypeInfo, t0: Table, t: Table, a: seq<Entry>, b: seq<Entry>)
    requires SetShape(a, b) && t0.Keys <= t.Keys && Reachable(kind, info, t0, a)
    ensures Reachable(kind, info, t, b)
  {
    ChosenAlike(kind, a, b, |a|);
    var ca, cb := Chosen(kind, a, |a|), Chosen(kind, b, |b|);
    if AllThere(t0, ca) {
      forall i | 0 <= i < |cb| ensures cb[i].entity.key in t && KeyOnce(cb, i) {
        assert KeyOnce(ca, i) && ca[i].entity.key == cb[i].entity.key;
        forall j | 0 <= j < |cb| && j != i ensures cb[j].entity.key != cb[i].entity.key {
          assert ca[j].entity.key == cb[j].entity.key;
        }
      }
    }
  }

  /** The insert phase keeps what the later ones need. */
  lemma StoredReady(m: Model, c: Course)
    requires Stored(m, c) && forall t :: t in c.stored ==> t in m.infos
    ensures StagesReady(m.infos, c.expanded, c.before.tables) ==> StagesReady(m.infos, c.stored, c.inserted.tables)
    ensures StagesCost(c.stored, c.order, c.deleteOrder, c.deletes.directives)
         == StagesCost(c.expanded, c.order, c.deleteOrder, c.deletes.directives)
  {
    hide KeysAfter, AllFksAfter, RowsAfter, Flatten, Backed, Chosen, OrderFound;
    CountAlike(Upserting, c.expanded, c.stored, c.order, |c.order|);
    CountAlike(Updating, c.expanded, c.stored, c.order, |c.order|);
    CountAlike(Removing, c.expanded, c.stored, c.deleteOrder, |c.deleteOrder|);
    if StagesReady(m.infos, c.expanded, c.before.tables) {
      ReachableStored(m, c, Updating);
      ReachableStored(m, c, Removing);
    }
  }

  lemma ReachableStored(m: Model, c: Course, kind: Kind)
    requires Stored(m, c) && AllReachable(kind, m.infos, c.expanded, c.before.tables)
    ensures AllReachable(kind, m.infos, c.stored, c.inserted.tables)
  {
    hide KeysAfter, AllFksAfter, RowsAfter, Flatten, Backed, Reachable, OrderFound;
    forall t | t in c.stored && t in m.infos && t in c.inserted.tables
      ensures Reachable(kind, m.infos[t], c.inserted.tables[t], c.stored[t]) {
      assert Reachable(kind, m.infos[t], c.before.tables[t], c.expanded[t]);
      assert SetShape(c.expanded[t], c.stored[t]);
      assert TableAfter(c.before.tables[t], c.stored[t], c.inserted.tables[t], SelfLinked(c.links, t), t in AllDone(c));
      forall k | k in c.before.tables[t] ensures k in c.inserted.tables[t] { }
      ReachableAlike(kind, m.infos[t], c.before.tables[t], c.inserted.tables[t], c.expanded[t], c.stored[t]);
    }
  }

  /** What a failed save leaves in memory, by the step that failed: before the drains what detection
      found; after a failed drain children may be in no container and no set; after a failed INSERT the
      types processed so far have their keys and links, and later all have. */
  ghost predicate Leaves(m: Model, c: Course, error: Error, sets: Sets) {
    match error
    case OnSaving | Connection | Begin => sets == c.start
    case AddsDrain(_) => CA.Interrupted(CD.Plan(CD.Adding, m.metas), c.start, sets, c.links, m.types)
    case DeletesDrain(_) => AddsRan(m, c) && CD.Grown(CD.Plan(CD.Deleting, m.metas), c.added, sets)
    case Insert => AddsRan(m, c) && DeletesRan(m, c) && Written(m, c, sets)
    case _ => AddsRan(m, c) && DeletesRan(m, c) && Written(m, c, sets) && c.done == |c.order|
  }

  // ---------------------------------------------------------------------------
  // The save
  // ---------------------------------------------------------------------------

  class SavePipeline {
    const m: Model
    var sets: Sets
    var db: Db
    var next: Keys
    var savepointSeq: nat

    constructor (m: Model, sets: Sets, db: Db, next: Keys)
      ensures this.m == m && this.sets == sets && this.db == db && this.next == next
    {
      this.m, this.sets, this.db, this.next, savepointSeq := m, sets, db, next, 1;
    }

    ghost predicate Valid()
      reads this
    {
      Covers(m.types, sets) && Registered(sets, m.infos, Current(db).tables, next)
    }

    /** Drains children of Added, then of Deleted entries. */
    method DrainBoth(ghost c0: Course)
      returns (error: Option<Error>, links: seq<CA.Link>, directives: seq<Deletes.Directive>, ghost c: Course)
      requires Covers(m.types, sets) && c0.start == sets
      modifies this`sets
      ensures c == c0.(added := c.added, links := links, expanded := c.expanded, deletes := c.deletes)
      ensures error.None? ==>
        AddsRan(m, c) && DeletesRan(m, c) && sets == c.expanded && directives == c.deletes.directives
      ensures error.Some? ==> (error.value.AddsDrain? || error.value.DeletesDrain?) && Leaves(m, c, error.value, sets)
      ensures error.Some? ==> !CD.AllKnown(m.metas, c.start)
    {
      hide CA.AddsDrained, Deletes.DeletesDrained, CA.Interrupted, CD.Grown;
      var adds := new CA.SaveContext(m.types, m.metas, sets);
      var failed := adds.DrainCascadeAdds();
      sets, links, directives := adds.sets, adds.links, [];
      c := c0.(added := sets, links := links);
      if failed.Some? { return Some(AddsDrain(failed.value)), links, directives, c; }
      CA.DrainedCovers(CD.Plan(CD.Adding, m.metas), c.start, sets, links, m.types);
      var deletes := new Deletes.DeleteContext(m.types, m.metas, sets);
      var stopped := deletes.DrainCascadeDeletes();
      sets, directives := deletes.sets, deletes.directives;
      c := c.(expanded := sets,
              deletes := Deletes.Expansions(deletes.processed, deletes.directives, deletes.order, deletes.dropped));
      if stopped.Some? { return Some(DeletesDrain(stopped.value)), links, directives, c; }
      error := None;
    }

    /** The insert phase in topological order, then the join rows. */
    method InsertLinked(links: seq<CA.Link>, order: seq<TypeId>, left0: nat, ghost c0: Course)
      returns (error: Option<Error>, left: nat, ghost c: Course)
      requires db.txn.Some? && Registered(sets, m.infos, Current(db).tables, next) && LinksFit(sets, links)
      requires c0.links == links && c0.expanded == sets && c0.before == Current(db) && c0.keys0 == next
      requires c0.order == order
      requires DG.Built(m.metas, c0.graph) && DG.Sorts(c0.graph, order) && Distinct(order)
      modifies this`sets, this`db, this`next
      ensures c == c0.(done := c.done, stored := sets, inserted := Current(db), keys := next)
      ensures db.txn.Some? && db == old(db).(txn := Some(old(db).txn.value.(data := Current(db))))
      ensures Written(m, c, sets) && old(sets).Keys == sets.Keys
      ensures error.Some? ==> error.value == Insert || (error.value == Join && c.done == |c.order|)
      ensures error.None? ==> Stored(m, c) && forall t :: t in sets ==> t in m.infos && t in Current(db).tables
      ensures KeysFree(c.expanded, m.infos, c.before.tables, c.keys0) && left0 >= InsertCost(c) ==> error.None?
      ensures error.None? ==> left + InsertCost(c) >= left0
    {
      hide MemoryAfter, RowsAfter, TablesAfter, Backed, DG.Built, DG.Sorts, KeysFree, PhaseCost;
      var job := Job(m.infos, links);
      var data := db.txn.value.data;
      var phase := new InsertPhase(job, sets, data.tables, data.joins, next, left0);
      var ok;
      ghost var n;
      ok, n := phase.InsertAll(order);
      MemoryShape(sets, phase.sets, job, next, phase.next, DoneTypes(order, n, sets.Keys));
      error := if ok then None else Some(Insert);
      if ok {
        ghost var joined;
        ok, joined := phase.InsertJoins();
        if !ok { error := Some(Join); }
      }
      sets, next, left := phase.sets, phase.next, phase.left;
      db := db.(txn := Some(db.txn.value.(data := Data(phase.tables, phase.joins))));
      c := c0.(done := n, stored := sets, inserted := Current(db), keys := next);
    }

    /** Upserts and updates, SET NULL on untracked dependents, deletes with dependents first, and deletes of
        untracked dependents and join rows. */
    method RunLater(order: seq<TypeId>, deleteOrder: seq<TypeId>, directives: seq<Deletes.Directive>, left: nat,
                    ghost c0: Course) returns (error: Option<Error>, ghost c: Course)
      requires db.txn.Some? && c0.stored == sets && c0.inserted == Current(db) && directives == c0.deletes.directives
      requires Distinct(order) && Distinct(deleteOrder)
      requires forall t :: t in sets ==> t in m.infos && t in Current(db).tables && t in order && t in deleteOrder
      modifies this`db
      ensures db.txn.Some? && db == old(db).(txn := Some(old(db).txn.value.(data := Current(db))))
      ensures c == c0.(stages := c.stages, saved := Current(db)) && (error.Some? ==> error.value.Later?)
      ensures error.None? ==> LaterRan(m, c)
      ensures StagesReady(m.infos, sets, c0.inserted.tables) ==>
        left >= StagesCost(sets, order, deleteOrder, directives) ==> error.None?
    {
      hide AllRun, StagesReady, StagesCost;
      var data := db.txn.value.data;
      var phases := new LaterPhases(m.infos, m.schema, sets, data.tables, data.joins, left);
      var failed;
      ghost var stages;
      failed, stages := phases.RunAll(order, deleteOrder, directives);
      db := db.(txn := Some(db.txn.value.(data := Data(phases.tables, phases.joins))));
      c := c0.(stages := stages, saved := Current(db));
      error := if failed.Some? then Some(Later(failed.value)) else None;
    }

    /** The orders of types, the insert phase and the later ones. */
    method StoreAll(links: seq<CA.Link>, directives: seq<Deletes.Directive>, left0: nat, ghost c0: Course)
      returns (error: Option<Error>, ghost c: Course)
      requires db.txn.Some? && Registered(sets, m.infos, Current(db).tables, next) && LinksFit(sets, links)
      requires AddsRan(m, c0) && DeletesRan(m, c0) && c0.expanded == sets && c0.links == links
      requires directives == c0.deletes.directives && c0.before == Current(db) && c0.keys0 == next
      modifies this`sets, this`db, this`next
      ensures c.start == c0.start && c.before == c0.before && c.keys0 == c0.keys0 && c.keys == next
      ensures sets == c.stored && old(sets).Keys == sets.Keys
      ensures db.txn.Some? && db == old(db).(txn := Some(old(db).txn.value.(data := Current(db))))
      ensures error.Some? ==>
        (error.value.Insert? || error.value.Join? || error.value.Later?) && Leaves(m, c, error.value, sets)
      ensures error.None? ==> Saved(m, c, sets, Current(db))
      ensures RowsReady(m, c) && left0 >= Cost(c) ==> error.None?
    {
      hide CA.AddsDrained, Deletes.DeletesDrained, MemoryAfter, Stored, Registered, LinksFit, AllRun, DG.Built;
      hide DG.Sorts, KeysFree, StagesReady, StagesCost, PhaseCost;
      var g := DG.Build(m.metas);
      var order := DG.TopologicalSort(g);
      var deleteOrder := DG.DeletionOrder(g);
      AllInOrder(m, c0, g, order, deleteOrder);
      var left;
      error, left, c := InsertLinked(links, order, left0, c0.(graph := g, order := order, deleteOrder := deleteOrder));
      if error.Some? { return; }
      ghost var was := c;
      StoredReady(m, c);
      error, c := RunLater(order, deleteOrder, directives, left, c);
      OtherStages(m, was, c);
    }

    /** All that happens between entering and ending the transaction. */
    method RunSteps(w: World, ghost c0: Course) returns (error: Option<Error>, ghost c: Course)
      requires Valid() && db.txn.Some? && c0.start == sets && c0.before == Current(db) && c0.keys0 == next == c0.keys
      modifies this`sets, this`db, this`next
      ensures c.start == c0.start && c.before == c0.before && c.keys0 == c0.keys0 && c.keys == next
      ensures db.txn.Some? && db == old(db).(txn := Some(old(db).txn.value.(data := Current(db))))
      ensures error.Some? ==> Failing(error.value) && Leaves(m, c, error.value, sets)
      ensures error.None? ==> Saved(m, c, sets, Current(db)) && sets == c.stored && Covers(m.types, sets)
      ensures CD.AllKnown(m.metas, c.start) && RowsReady(m, c) && w.left >= Cost(c) ==> error.None?
      ensures Ready.StartReady(m.metas, m.infos, c.start, c.before.tables, c.keys0) && w.left >= Cost(c) ==> error.None?
    {
      hide CA.AddsDrained, Deletes.DeletesDrained, CA.Interrupted, CD.Grown, Written, Stored, Registered, RowsReady;
      hide Cost, CD.AllKnown, Ready.SetReady;
      var links, directives;
      error, links, directives, c := DrainBoth(c0);
      if error.Some? { return; }
      DrainsFit(m, c, Current(db).tables, next);
      error, c := StoreAll(links, directives, w.left, c);
      if Ready.StartReady(m.metas, m.infos, c.start, c.before.tables, c.keys0) { StartSuffices(m, c); }
    }

    /** Own transaction or savepoint, all steps, then recovery, or release or commit and acceptance. */
    method SaveWithin(w: World, ghost c0: Course) returns (error: Option<Error>, ghost c: Course)
      requires Valid() && c0.start == sets && c0.before == Current(db) && c0.keys0 == next == c0.keys
      modifies this
      ensures c.start == c0.start && c.before == c0.before && c.keys0 == c0.keys0
      ensures error.None? ==> Done(m, c, old(db), db, sets, next, w)
      ensures error.Some? ==> Fails(error.value, old(db), w) && Undone(m, c, old(db), db, sets, next, w, error.value)
      ensures Smooth(m, c, w, old(db)) || SmoothStart(m, c, w, old(db), old(next)) ==> error.None?
    {
      hide Leaves, Saved, Registered, RowsReady, Cost, CD.AllKnown, Ready.StartReady;
      ghost var before := db;
      var point, scoped, keys := savepointSeq, db.txn.Some?, next;
      savepointSeq := savepointSeq + 1;
      db := Entered(db, point);
      error, c := RunSteps(w, c0);
      RecoveryRestores(before, point, Current(db), w.ends);
      EndKeeps(before, point, Current(db), w.ends);
      if error.None? && !scoped && !w.ends.committed {
        LeavesComplete(m, c, Current(db));
        error := Some(CommitFailed);
      }
      if error.Some? {
        db := Recovered(db, scoped, point, w.ends);
        if w.rewinds { next := keys; }
        return;
      }
      db := Ended(db, scoped, point, w.ends);
      var tracked := new TrackedSets(m.types, sets);
      tracked.AcceptAll();
      sets := tracked.sets;
    }

    /** Detection and hooks around it; with nothing pending no transaction is opened. */
    method SaveChanges(w: World) returns (r: Result<(), Error>, ghost c: Course)
      requires Valid()
      modifies this
      ensures Detected(old(sets), c.start) && c.keys0 == old(next)
      ensures Outcome(m, c, old(db), db, sets, next, w, r)
      ensures w.saving && w.connected && w.begun && w.saved ==>
        Smooth(m, c, w, old(db)) || SmoothStart(m, c, w, old(db), old(next)) ==> r == Ok(())
    {
      hide Undone, Done, Registered, Smooth, SmoothStart;
      var tracked := new TrackedSets(m.types, sets);
      tracked.DetectChanges();
      var pending := tracked.AnyPending();
      sets := tracked.sets;
      DetectedRegistered(old(sets), sets, m, Current(db).tables, next);
      c := Course(sets, sets, [], sets, Deletes.Expansions({}, [], [], multiset{}), DG.Graph(map[], []), [], [], 0,
                  sets, Current(db), Current(db), next, next, Stages(map[], map[], map[], map[]), Current(db));
      if !w.saving { return Err(OnSaving), c; }
      if pending {
        if !w.connected { return Err(Connection), c; }
        if !w.begun { return Err(Begin), c; }
        var error;
        error, c := SaveWithin(w, c);
        if error.Some? { return Err(error.value), c; }
      }
      r := if w.saved then Ok(()) else Err(OnSaved);
    }
  }

  /** A failed save undoes its statements and takes nothing in memory back; generators may go back too. */
  ghost predicate Undone(m: Model, c: Course, before: Db, db: Db, sets: Sets, next: Keys, w: World, e: Error) {
    && Leaves(m, c, e, sets) && db.committed == before.committed && (db.txn.Some? <==> before.txn.Some?)
    && (before.txn.None? || (w.ends.undone && w.ends.unpointed) ==> db == before)
    && (before.txn.None? || w.ends.undone ==> Current(db) == Current(before))
    && next == if w.rewinds then c.keys0 else c.keys
  }

  /** A save that went through has its data in the caller's transaction or committed, and its entries accepted. */
  ghost predicate Done(m: Model, c: Course, before: Db, db: Db, sets: Sets, next: Keys, w: World) {
    && Saved(m, c, c.stored, Current(db)) && Accepted(c.stored, sets, m.types) && next == c.keys
    && (before.txn.None? ==> w.ends.committed && db == Database(Current(db), None))
    && (before.txn.Some? ==> db.committed == before.committed && db.txn.Some?)
    && (before.txn.Some? && w.ends.released ==> db.txn.value.points == before.txn.value.points)
  }

  /** All a save may come to, from the sets after detection on. */
  ghost predicate Outcome(m: Model, c: Course, before: Db, db: Db, sets: Sets, next: Keys, w: World,
                          r: Result<(), Error>) {
    && c.before == Current(before)
    && (if !w.saving then r == Err(OnSaving) && Untouched(c, before, db, sets, next)
        else if !HasPending(c.start) then r == Final(w) && Untouched(c, before, db, sets, next)
        else if !w.connected then r == Err(Connection) && Untouched(c, before, db, sets, next)
        else if !w.begun then r == Err(Begin) && Untouched(c, before, db, sets, next)
        else if r == Final(w) then Done(m, c, before, db, sets, next, w)
        else r.Err? && Fails(r.error, before, w)
             && Undone(m, c, before, db, sets, next, w, r.error))
  }

  /** A step fails, or the commit of the save's own transaction. */
  predicate Fails(e: Error, before: Db, w: World) {
    Failing(e) || (e == CommitFailed && before.txn.None? && !w.ends.committed)
  }

  lemma DetectedRegistered(a: Sets, b: Sets, m: Model, tables: Tables, next: Keys)
    requires Detected(a, b) && Registered(a, m.infos, tables, next) && Covers(m.types, a)
    ensures Registered(b, m.infos, tables, next) && Covers(m.types, b)
  {
  }

  function Final(w: World): Result<(), Error> {
    if w.saved then Ok(()) else Err(OnSaved)
  }

  ghost predicate Untouched(c: Course, before: Db, db: Db, sets: Sets, next: Keys) {
    sets == c.start && db == before && next == c.keys0
  }

  /** What goes wrong between entering and ending the transaction. */
  predicate Failing(e: Error) {
    !e.OnSaving? && !e.Connection? && !e.Begin? && !e.CommitFailed? && !e.OnSaved?
  }

  /** A save that went through up to its end. */
  ghost predicate Saved(m: Model, c: Course, sets: Sets, data: Data) {
    AddsRan(m, c) && DeletesRan(m, c) && Stored(m, c) && LaterRan(m, c) && sets == c.stored && data == c.saved
  }

  /** Each later phase has done its work on the tables the one before left. */
  ghost predicate LaterRan(m: Model, c: Course) {
    AllRun(m.infos, m.schema, c.stored, c.deletes.directives, c.stages, c.inserted.tables, c.inserted.joins,
           c.saved.tables, c.saved.joins)
  }

  /** Every registered type is in both orders. */
  lemma AllInOrder(m: Model, c: Course, g: DG.Graph, order: seq<TypeId>, deleteOrder: seq<TypeId>)
    requires AddsRan(m, c) && DeletesRan(m, c) && DG.Built(m.metas, g)
    requires forall t :: t in g.nodes ==> t in order && t in deleteOrder
    ensures forall t :: t in c.expanded ==> t in order && t in deleteOrder
  {
    hide CD.AllTies, CA.LinkTies, Deletes.News, CA.DrainedSet, Deletes.DrainedSet;
    forall t | t in c.expanded ensures t in order && t in deleteOrder {
      assert t in m.metas && t in DG.Elements(g.nodes);
    }
  }

  lemma LeavesComplete(m: Model, c: Course, data: Data)
    requires Saved(m, c, c.stored, data)
    ensures Leaves(m, c, CommitFailed, c.stored)
  {
  }

  /** The later phases do not matter to what came before. */
  lemma OtherStages(m: Model, a: Course, b: Course)
    requires b == a.(stages := b.stages, saved := b.saved) && AddsRan(m, a) && DeletesRan(m, a) && Stored(m, a)
    ensures AddsRan(m, b) && DeletesRan(m, b) && Stored(m, b) && Written(m, b, b.stored) && b.done == |b.order|
  {
    hide CA.AddsDrained, Deletes.DeletesDrained, MemoryAfter, RowsAfter, TablesAfter, Backed;
  }

  /** After both drains the sets have what the insert phase needs. */
  lemma DrainsFit(m: Model, c: Course, tables: Tables, next: Keys)
    requires AddsRan(m, c) && DeletesRan(m, c) && Registered(c.start, m.infos, tables, next)
    ensures Registered(c.expanded, m.infos, tables, next) && LinksFit(c.expanded, c.links)
    ensures c.expanded.Keys == c.start.Keys && Covers(m.types, c.expanded)
  {
    hide CD.AllTies, CA.LinkTies, Deletes.News, Stay;
    SavedLinks.DeletesLighter(CD.Plan(CD.Deleting, m.metas), c.added, c.expanded, m.types, c.deletes);
    SavedLinks.DrainedLinksFit(CD.Plan(CD.Adding, m.metas), c.start, c.added, c.links, m.types, c.expanded);
  }
}
