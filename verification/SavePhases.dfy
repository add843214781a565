/** The statements after the inserts: upserts, updates and deletes set by set, and those for dependents that
    are not tracked. */
module SavePhases {
  import opened Wrappers
  import opened SaveModel
  import opened SaveLinkage
  import opened InsertPhase
  import Deletes = CascadeDeletes

  datatype Kind = Upserting | Updating | Removing

  const MAX_PARAMS := 900

  predicate Concerns(kind: Kind, e: Entry) {
    match kind
    case Upserting => Upserts(e)
    case Updating => e.state == Modified
    case Removing => e.state == EntityState.Deleted
  }

  /** The entries a phase is about, in order. */
  function Chosen(kind: Kind, es: seq<Entry>, n: nat): seq<Entry>
    requires n <= |es|
  {
    if n == 0 then []
    else Chosen(kind, es, n - 1) + (if Concerns(kind, es[n - 1]) then [es[n - 1]] else [])
  }

  lemma {:induction false} ChosenAre(kind: Kind, es: seq<Entry>, n: nat)
    requires n <= |es|
    ensures forall j :: 0 <= j < |Chosen(kind, es, n)| ==> Concerns(kind, Chosen(kind, es, n)[j])
    ensures forall e :: e in Chosen(kind, es, n) <==> exists i :: 0 <= i < n && es[i] == e && Concerns(kind, e)
  {
    if n > 0 { ChosenAre(kind, es, n - 1); }
  }

  /** One of the entries from `a` up to `b` has the key. */
  predicate KeyIn(es: seq<Entry>, a: nat, b: nat, key: int)
    requires a <= b <= |es|
  {
    exists i :: a <= i < b && es[i].entity.key == key
  }

  ghost predicate KeyOnce(es: seq<Entry>, i: nat)
    requires i < |es|
  {
    forall j :: 0 <= j < |es| && j != i ==> es[j].entity.key != es[i].entity.key
  }

  // ---------------------------------------------------------------------------
  // Upserts
  // ---------------------------------------------------------------------------

  /** The first `n` entities are inserted, or their rows replaced. */
  ghost predicate Upserted(t0: Table, t: Table, es: seq<Entry>, n: nat)
    requires n <= |es|
  {
    && (forall k :: k in t <==> k in t0 || KeyIn(es, 0, n, k))
    && (forall k :: k in t0 && !KeyIn(es, 0, n, k) ==> t[k] == t0[k])
    && forall i :: 0 <= i < n && KeyOnce(es, i) ==> t[es[i].entity.key] == RecordOf(es[i].entity)
  }

  lemma KeyInNext(es: seq<Entry>, a: nat, n: nat, k: int)
    requires a <= n < |es|
    ensures KeyIn(es, a, n + 1, k) <==> KeyIn(es, a, n, k) || es[n].entity.key == k
  {
  }

  lemma UpsertStep(t0: Table, t: Table, es: seq<Entry>, n: nat)
    requires n < |es| && Upserted(t0, t, es, n)
    ensures Upserted(t0, t[es[n].entity.key := RecordOf(es[n].entity)], es, n + 1)
  {
    forall k ensures KeyIn(es, 0, n + 1, k) <==> KeyIn(es, 0, n, k) || es[n].entity.key == k { KeyInNext(es, 0, n, k); }
    forall i | 0 <= i < n && KeyOnce(es, i) ensures es[i].entity.key in t && es[i].entity.key != es[n].entity.key {
      assert KeyIn(es, 0, n, es[i].entity.key);
    }
  }

  method UpsertSet(t0: Table, es: seq<Entry>, left0: nat) returns (ok: bool, t: Table, left: nat)
    ensures left + |es| >= left0 && (ok ==> Upserted(t0, t, es, |es|)) && (left0 >= |es| ==> ok)
  {
    t, left := t0, left0;
    for n := 0 to |es|
      invariant Upserted(t0, t, es, n) && left + n == left0
    {
      if left == 0 { return false, t, 0; }
      left := left - 1;
      UpsertStep(t0, t, es, n);
      t := t[es[n].entity.key := RecordOf(es[n].entity)];
    }
    ok := true;
  }

  // ---------------------------------------------------------------------------
  // Updates
  // ---------------------------------------------------------------------------

  /** All properties but the key. */
  function AllProperties(info: TypeInfo): set<Property> {
    (set c | 0 <= c < |info.targets| :: FkProperty(c)) + (set c | 0 <= c < info.width :: ValueProperty(c))
  }

  /** The properties to set for a list of modified ones: those but the key, or all if none is listed. */
  function SetProperties(info: TypeInfo, modified: set<Property>): set<Property> {
    if modified == {} then AllProperties(info) else modified * AllProperties(info)
  }

  /** What any of the first `n` entries has as modified. */
  function Union(es: seq<Entry>, n: nat): set<Property>
    requires n <= |es|
  {
    if n == 0 then {} else Union(es, n - 1) + es[n - 1].modified
  }

  /** One statement for many rows, unless there are tokens to check or nothing to set. */
  predicate Batched(info: TypeInfo, es: seq<Entry>) {
    info.tokens == {} && SetProperties(info, Union(es, |es|)) != {}
  }

  /** The columns set in the row of entry `i`. */
  function Columns(info: TypeInfo, es: seq<Entry>, i: nat): set<Property>
    requires i < |es|
  {
    SetProperties(info, if Batched(info, es) then Union(es, |es|) else es[i].modified)
  }

  /** The row with the entity's values in the given columns. */
  function Assigned(r: Record, e: Entity, columns: set<Property>): Record {
    Record(
      seq(|r.fks|, c requires 0 <= c < |r.fks| =>
        if FkProperty(c) in columns && c < |e.fks| then e.fks[c] else r.fks[c]),
      seq(|r.values|, c requires 0 <= c < |r.values| =>
        if ValueProperty(c) in columns && c < |e.values| then e.values[c] else r.values[c]))
  }

  /** The value of a column, if it has one. */
  function ValueAt(fks: Row, values: seq<int>, p: Property): Option<int> {
    match p
    case KeyProperty => None
    case FkProperty(c) => if c < |fks| then fks[c] else None
    case ValueProperty(c) => if c < |values| then Some(values[c]) else None
  }

  /** The row has the tokens the entity was loaded with. */
  predicate TokensHold(info: TypeInfo, r: Record, original: Snapshot) {
    forall p :: p in info.tokens ==>
      && ValueAt(original.fks, original.values, p).Some?
      && ValueAt(r.fks, r.values, p) == ValueAt(original.fks, original.values, p)
  }

  /** Whether a statement with key and tokens reaches the entry's row; without an original there are none. */
  predicate RowReached(info: TypeInfo, t: Table, e: Entry) {
    && e.entity.key in t
    && (info.tokens == {} || (e.original.Some? && TokensHold(info, t[e.entity.key], e.original.value)))
  }

  /** Rows of the first `n` entries are set, as far as no two entries share a key; one row at a time, each was
      there as the entity was loaded, unless there was nothing to set. */
  ghost predicate Updated(info: TypeInfo, t0: Table, t: Table, es: seq<Entry>, n: nat)
    requires n <= |es|
  {
    && t.Keys == t0.Keys && (forall k :: k in t0 && !KeyIn(es, 0, n, k) ==> t[k] == t0[k])
    && (forall i :: 0 <= i < n && KeyOnce(es, i) && es[i].entity.key in t0 ==>
         t[es[i].entity.key] == Assigned(t0[es[i].entity.key], es[i].entity, Columns(info, es, i)))
    && forall i :: 0 <= i < n && KeyOnce(es, i) && !Batched(info, es) && SetProperties(info, es[i].modified) != {} ==>
         RowReached(info, t0, es[i])
  }

  lemma UpdateStep(info: TypeInfo, t0: Table, t: Table, es: seq<Entry>, n: nat, after: Table)
    requires n < |es| && Updated(info, t0, t, es, n) && after.Keys == t.Keys
    requires forall k :: k in t && k != es[n].entity.key ==> after[k] == t[k]
    requires KeyOnce(es, n) && es[n].entity.key in t ==>
      after[es[n].entity.key] == Assigned(t[es[n].entity.key], es[n].entity, Columns(info, es, n))
    requires !Batched(info, es) && SetProperties(info, es[n].modified) != {} ==> RowReached(info, t, es[n])
    ensures Updated(info, t0, after, es, n + 1)
  {
    forall k ensures KeyIn(es, 0, n + 1, k) <==> KeyIn(es, 0, n, k) || es[n].entity.key == k { KeyInNext(es, 0, n, k); }
    if KeyOnce(es, n) { assert !KeyIn(es, 0, n, es[n].entity.key); }
  }

  function Min(a: nat, b: nat): nat {
    if a < b then a else b
  }

  /** Rows per statement: two values for each column and row, and one for the row's key. */
  function RowsPerUpdate(columns: nat): (n: nat)
    ensures n > 0
  {
    var n := MAX_PARAMS / (2 * columns + 1);
    if n == 0 then 1 else n
  }

  lemma RowsPerUpdateFits(columns: nat)
    requires 2 * columns + 1 <= MAX_PARAMS
    ensures (2 * columns + 1) * RowsPerUpdate(columns) <= MAX_PARAMS < (2 * columns + 1) * (RowsPerUpdate(columns) + 1)
  {
    var each := 2 * columns + 1;
    assert each * (MAX_PARAMS / each) <= MAX_PARAMS < each * (MAX_PARAMS / each) + each;
  }

  /** The rows are there, for as many entries of their own. */
  ghost predicate AllThere(t: Table, es: seq<Entry>) {
    forall i :: 0 <= i < |es| ==> es[i].entity.key in t && KeyOnce(es, i)
  }

  ghost predicate Window(t: Table, es: seq<Entry>, a: nat, b: nat)
    requires a <= b <= |es|
  {
    exists i :: a <= i < b && es[i].entity.key in t
  }

  /** Every batch of `size` entries from `start` on has one whose row is there. */
  ghost predicate BatchesReach(t: Table, es: seq<Entry>, start: nat, size: nat)
    requires start <= |es| && size > 0
    decreases |es| - start
  {
    start == |es|
    || (Window(t, es, start, Min(start + size, |es|)) && BatchesReach(t, es, Min(start + size, |es|), size))
  }

  lemma NextBatch(t: Table, es: seq<Entry>, start: nat, size: nat)
    requires start < |es| && size > 0 && Window(t, es, start, Min(start + size, |es|))
    ensures BatchesReach(t, es, start, size) <==> BatchesReach(t, es, Min(start + size, |es|), size)
  {
  }

  lemma WindowStep(t: Table, es: seq<Entry>, a: nat, n: nat)
    requires a <= n < |es|
    ensures Window(t, es, a, n + 1) <==> Window(t, es, a, n) || es[n].entity.key in t
  {
  }

  lemma NoBatch(t: Table, es: seq<Entry>, size: nat)
    requires size > 0
    ensures BatchesReach(t, es, |es|, size)
  {
  }

  /** Batch after batch; of two entries with one key in a batch the first decides. A batch that reaches no
      row is a conflict. */
  method UpdateBatches(info: TypeInfo, t0: Table, es: seq<Entry>, left0: nat) returns (ok: bool, t: Table, left: nat)
    requires Batched(info, es)
    ensures left + |es| >= left0 && (ok ==> Updated(info, t0, t, es, |es|))
    ensures left0 >= |es| && AllThere(t0, es) ==> ok
    ensures ok ==> BatchesReach(t0, es, 0, RowsPerUpdate(|SetProperties(info, Union(es, |es|))|))
  {
    hide Window, BatchesReach;
    var columns := SetProperties(info, Union(es, |es|));
    var size := RowsPerUpdate(|columns|);
    t, left := t0, left0;
    var start := 0;
    while start < |es|
      invariant start <= |es| && Updated(info, t0, t, es, start) && left <= left0 <= left + start
      invariant BatchesReach(t0, es, start, size) ==> BatchesReach(t0, es, 0, size)
    {
      if left == 0 { return false, t, 0; }
      left := left - 1;
      var end, reached := Min(start + size, |es|), false;
      for i := start to end
        invariant Updated(info, t0, t, es, i) && (i > start && AllThere(t0, es) ==> reached)
        invariant reached ==> Window(t0, es, start, i)
      {
        WindowStep(t0, es, start, i);
        var key, was := es[i].entity.key, t;
        if key in t {
          reached := true;
          if !KeyIn(es, start, i, key) { t := t[key := Assigned(t[key], es[i].entity, columns)]; }
        }
        UpdateStep(info, t0, was, es, i, t);
      }
      if !reached { return false, t, left; }
      NextBatch(t0, es, start, size);
      start := end;
    }
    NoBatch(t0, es, size);
    ok := true;
  }

  method UpdatePerRow(info: TypeInfo, t0: Table, es: seq<Entry>, left0: nat) returns (ok: bool, t: Table, left: nat)
    requires !Batched(info, es)
    ensures left + |es| >= left0 && (ok ==> Updated(info, t0, t, es, |es|))
    ensures left0 >= |es| && AllThere(t0, es) && info.tokens == {} ==> ok
  {
    t, left := t0, left0;
    for n := 0 to |es|
      invariant Updated(info, t0, t, es, n) && left <= left0 <= left + n
    {
      var columns, was := SetProperties(info, es[n].modified), t;
      if columns != {} {
        if left == 0 { return false, t, 0; }
        left := left - 1;
        if !RowReached(info, t, es[n]) { return false, t, left; }
        t := t[es[n].entity.key := Assigned(t[es[n].entity.key], es[n].entity, columns)];
      } else if es[n].entity.key in t {
        AssignsNothing(t[es[n].entity.key], es[n].entity);
      }
      UpdateStep(info, t0, was, es, n, t);
    }
    ok := true;
  }

  lemma AssignsNothing(r: Record, e: Entity)
    ensures Assigned(r, e, {}) == r
  {
  }

  method UpdateSet(info: TypeInfo, t0: Table, es: seq<Entry>, left0: nat) returns (ok: bool, t: Table, left: nat)
    ensures left + |es| >= left0 && (ok ==> Updated(info, t0, t, es, |es|))
    ensures ok && Batched(info, es) ==>
      BatchesReach(t0, es, 0, RowsPerUpdate(|SetProperties(info, Union(es, |es|))|))
    ensures left0 >= |es| && AllThere(t0, es) && info.tokens == {} ==> ok
  {
    if Batched(info, es) {
      ok, t, left := UpdateBatches(info, t0, es, left0);
    } else {
      ok, t, left := UpdatePerRow(info, t0, es, left0);
    }
  }

  // ---------------------------------------------------------------------------
  // Deletes
  // ---------------------------------------------------------------------------

  /** The rows of the first `n` entries are gone, all others as before. */
  ghost predicate Removed(t0: Table, t: Table, es: seq<Entry>, n: nat)
    requires n <= |es|
  {
    && (forall k :: k in t <==> k in t0 && !KeyIn(es, 0, n, k))
    && forall k :: k in t ==> t[k] == t0[k]
  }

  lemma RemoveStep(t0: Table, t: Table, es: seq<Entry>, n: nat)
    requires n < |es| && Removed(t0, t, es, n)
    ensures Removed(t0, t - {es[n].entity.key}, es, n + 1)
  {
    forall k ensures KeyIn(es, 0, n + 1, k) <==> KeyIn(es, 0, n, k) || es[n].entity.key == k { KeyInNext(es, 0, n, k); }
  }

  /** With tokens each row was as the entity was loaded, unless entries share a key. */
  ghost predicate Checked(info: TypeInfo, t0: Table, es: seq<Entry>, n: nat)
    requires n <= |es|
  {
    forall i :: 0 <= i < n && KeyOnce(es, i) ==> RowReached(info, t0, es[i])
  }

  method RemoveBatches(t0: Table, es: seq<Entry>, left0: nat) returns (ok: bool, t: Table, left: nat)
    ensures left + |es| >= left0 && (ok ==> Removed(t0, t, es, |es|) && BatchesReach(t0, es, 0, MAX_PARAMS))
    ensures left0 >= |es| && AllThere(t0, es) ==> ok
  {
    hide Window, BatchesReach;
    t, left := t0, left0;
    var start := 0;
    while start < |es|
      invariant start <= |es| && Removed(t0, t, es, start) && left <= left0 <= left + start
      invariant BatchesReach(t0, es, start, MAX_PARAMS) ==> BatchesReach(t0, es, 0, MAX_PARAMS)
    {
      if left == 0 { return false, t, 0; }
      left := left - 1;
      var end, reached := Min(start + MAX_PARAMS, |es|), false;
      ghost var was := t;
      for i := start to end
        invariant Removed(t0, t, es, i) && (i > start && AllThere(t0, es) ==> reached)
        invariant reached ==> Window(t0, es, start, i)
      {
        WindowStep(t0, es, start, i);
        if AllThere(t0, es) { StillThere(t0, t, es, i); }
        if es[i].entity.key in t { reached := true; }
        RemoveStep(t0, t, es, i);
        t := t - {es[i].entity.key};
      }
      if !reached { return false, t, left; }
      NextBatch(t0, es, start, MAX_PARAMS);
      start := end;
    }
    NoBatch(t0, es, MAX_PARAMS);
    ok := true;
  }

  lemma StillThere(t0: Table, t: Table, es: seq<Entry>, n: nat)
    requires n < |es| && Removed(t0, t, es, n) && AllThere(t0, es)
    ensures es[n].entity.key in t
  {
    assert KeyOnce(es, n) && es[n].entity.key in t0;
    assert !KeyIn(es, 0, n, es[n].entity.key);
  }

  method RemovePerRow(info: TypeInfo, t0: Table, es: seq<Entry>, left0: nat) returns (ok: bool, t: Table, left: nat)
    ensures left + |es| >= left0 && (ok ==> Removed(t0, t, es, |es|) && Checked(info, t0, es, |es|))
  {
    t, left := t0, left0;
    for n := 0 to |es|
      invariant Removed(t0, t, es, n) && Checked(info, t0, es, n) && left <= left0 <= left + n
    {
      if left == 0 { return false, t, 0; }
      left := left - 1;
      if !RowReached(info, t, es[n]) { return false, t, left; }
      RemoveStep(t0, t, es, n);
      t := t - {es[n].entity.key};
    }
    ok := true;
  }

  // ---------------------------------------------------------------------------
  // One phase over all sets
  // ---------------------------------------------------------------------------

  /** What a phase does to the table of one set. */
  ghost predicate SetPhase(kind: Kind, info: TypeInfo, t0: Table, t: Table, set_: seq<Entry>) {
    var es := Chosen(kind, set_, |set_|);
    match kind
    case Upserting => Upserted(t0, t, es, |es|)
    case Updating =>
      && Updated(info, t0, t, es, |es|)
      && (Batched(info, es) ==> BatchesReach(t0, es, 0, RowsPerUpdate(|SetProperties(info, Union(es, |es|))|)))
    case Removing =>
      && Removed(t0, t, es, |es|)
      && (if info.tokens == {} then BatchesReach(t0, es, 0, MAX_PARAMS) else Checked(info, t0, es, |es|))
  }

  /** No statement of the phase meets a conflict: every row is there, for one entry, with no tokens to check. */
  ghost predicate Reachable(kind: Kind, info: TypeInfo, t: Table, set_: seq<Entry>) {
    kind.Upserting? || (info.tokens == {} && AllThere(t, Chosen(kind, set_, |set_|)))
  }

  /** Statements of a phase over the first `n` types of the order, at most. */
  function ChosenCount(kind: Kind, sets: Sets, order: seq<TypeId>, n: nat): nat
    requires n <= |order|
  {
    if n == 0 then 0
    else
      var t := order[n - 1];
      ChosenCount(kind, sets, order, n - 1) + (if t in sets then |Chosen(kind, sets[t], |sets[t]|)| else 0)
  }

  lemma {:induction false} MoreChosen(kind: Kind, sets: Sets, order: seq<TypeId>, m: nat, n: nat)
    requires m <= n <= |order|
    ensures ChosenCount(kind, sets, order, m) <= ChosenCount(kind, sets, order, n)
  {
    if m < n { MoreChosen(kind, sets, order, m, n - 1); }
  }

  ghost predicate AllReachable(kind: Kind, infos: Infos, sets: Sets, t: Tables) {
    forall u :: u in sets && u in infos && u in t ==> Reachable(kind, infos[u], t[u], sets[u])
  }

  /** More rows keep what is reachable so. */
  lemma StillReachable(kind: Kind, infos: Infos, sets: Sets, a: Tables, b: Tables)
    requires AllReachable(kind, infos, sets, a) && a.Keys == b.Keys && forall u :: u in a ==> a[u].Keys <= b[u].Keys
    ensures AllReachable(kind, infos, sets, b)
  {
    forall u | u in sets && u in infos && u in b ensures Reachable(kind, infos[u], b[u], sets[u]) {
      assert Reachable(kind, infos[u], a[u], sets[u]);
    }
  }

  /** Upserts and updates take no row away. */
  lemma RowsStay(kind: Kind, infos: Infos, sets: Sets, a: Tables, b: Tables, done: set<TypeId>)
    requires PhaseRun(kind, infos, sets, a, b, done) && !kind.Removing?
    ensures a.Keys == b.Keys && forall u :: u in a ==> a[u].Keys <= b[u].Keys
  {
    forall u | u in a ensures a[u].Keys <= b[u].Keys {
      if u in sets && u in infos && u in done { SetRowsStay(kind, infos[u], a[u], b[u], sets[u]); }
    }
  }

  lemma SetRowsStay(kind: Kind, info: TypeInfo, a: Table, b: Table, set_: seq<Entry>)
    requires SetPhase(kind, info, a, b, set_) && !kind.Removing?
    ensures a.Keys <= b.Keys
  {
    forall k | k in a ensures k in b { }
  }

  lemma PhaseStart(kind: Kind, infos: Infos, sets: Sets, t: Tables)
    ensures PhaseRun(kind, infos, sets, t, t, {})
  {
  }

  /** A type still to come has its table as at the start. */
  lemma PhaseAhead(kind: Kind, infos: Infos, sets: Sets, t0: Tables, t: Tables, done: set<TypeId>, u: TypeId)
    requires PhaseRun(kind, infos, sets, t0, t, done) && u !in done && u in t0
    ensures u in t && t[u] == t0[u]
  {
    hide SetPhase;
  }

  lemma PhaseStep(kind: Kind, infos: Infos, sets: Sets, t0: Tables, t: Tables, done: set<TypeId>, u: TypeId,
                  table: Table)
    requires PhaseRun(kind, infos, sets, t0, t, done) && u in t0 && u in sets && u in infos
    requires SetPhase(kind, infos[u], t0[u], table, sets[u])
    ensures PhaseRun(kind, infos, sets, t0, t[u := table], done + {u})
  {
    hide SetPhase;
  }

  lemma NullsStay(schema: Schema, ds: seq<Deletes.Directive>, a: Tables, b: Tables)
    requires Nulled(schema, ds, |ds|, a, b)
    ensures a.Keys == b.Keys && forall u :: u in a ==> a[u].Keys <= b[u].Keys
  {
  }

  lemma UpsertsReachable(infos: Infos, sets: Sets, t: Tables)
    ensures AllReachable(Upserting, infos, sets, t)
  {
  }

  /** What all stages need, on the tables before them. */
  ghost predicate StagesReady(infos: Infos, sets: Sets, t: Tables) {
    AllReachable(Updating, infos, sets, t) && AllReachable(Removing, infos, sets, t)
  }

  /** Statements of all stages, at most. */
  function StagesCost(sets: Sets, order: seq<TypeId>, deleteOrder: seq<TypeId>, ds: seq<Deletes.Directive>): nat {
    ChosenCount(Upserting, sets, order, |order|) + ChosenCount(Updating, sets, order, |order|) + |ds|
    + ChosenCount(Removing, sets, deleteOrder, |deleteOrder|) + |ds|
  }

  method RunSet(kind: Kind, info: TypeInfo, t0: Table, set_: seq<Entry>, left0: nat)
    returns (ok: bool, t: Table, left: nat)
    ensures ok ==> SetPhase(kind, info, t0, t, set_)
    ensures var es := Chosen(kind, set_, |set_|);
      left + |es| >= left0 && (left0 >= |es| && Reachable(kind, info, t0, set_) ==> ok)
  {
    var es: seq<Entry> := [];
    for n := 0 to |set_|
      invariant es == Chosen(kind, set_, n)
    {
      if Concerns(kind, set_[n]) { es := es + [set_[n]]; }
    }
    match kind {
      case Upserting => ok, t, left := UpsertSet(t0, es, left0);
      case Updating => ok, t, left := UpdateSet(info, t0, es, left0);
      case Removing =>
        if info.tokens == {} {
          ok, t, left := RemoveBatches(t0, es, left0);
        } else {
          ok, t, left := RemovePerRow(info, t0, es, left0);
        }
    }
  }

  /** What a phase does to the tables of the types in `done`. */
  ghost predicate PhaseRun(kind: Kind, infos: Infos, sets: Sets, t0: Tables, t: Tables, done: set<TypeId>) {
    && t.Keys == t0.Keys
    && forall u :: u in t0 ==>
         if u in sets && u in infos && u in done then SetPhase(kind, infos[u], t0[u], t[u], sets[u]) else t[u] == t0[u]
  }

  // ---------------------------------------------------------------------------
  // Statements for untracked dependents
  // ---------------------------------------------------------------------------

  /** The foreign key property behind a table's column. */
  datatype Target = Target(type_: TypeId, at: nat)

  /** Table and column names of the registered types' foreign keys. */
  type Schema = map<(string, string), Target>

  /** One of the first `n` statements names column `c` of the type and this value. */
  ghost predicate Hit(schema: Schema, ds: seq<Deletes.Directive>, n: nat, action: Deletes.Action, t: TypeId, c: nat,
                      v: Option<int>)
    requires n <= |ds|
  {
    exists i :: 0 <= i < n && HitBy(schema, ds[i], action, t, c, v)
  }

  predicate HitBy(schema: Schema, d: Deletes.Directive, action: Deletes.Action, t: TypeId, c: nat, v: Option<int>) {
    && d.action == action && (d.table, d.fkColumn) in schema && schema[(d.table, d.fkColumn)] == Target(t, c)
    && v == Some(d.key)
  }

  /** The statement is about a column of this type's table. */
  predicate Aims(schema: Schema, d: Deletes.Directive, action: Deletes.Action, t: TypeId) {
    d.action == action && (d.table, d.fkColumn) in schema && schema[(d.table, d.fkColumn)].type_ == t
  }

  /** A row with every column NULL that one of the first `n` SET NULL statements names with its value. */
  ghost predicate RowNulled(schema: Schema, ds: seq<Deletes.Directive>, n: nat, t: TypeId, r0: Record, r: Record)
    requires n <= |ds|
  {
    && r.values == r0.values && |r.fks| == |r0.fks|
    && forall c :: 0 <= c < |r.fks| ==>
         r.fks[c] == if Hit(schema, ds, n, Deletes.Nullify, t, c, r0.fks[c]) then None else r0.fks[c]
  }

  ghost predicate Nulled(schema: Schema, ds: seq<Deletes.Directive>, n: nat, t0: Tables, t: Tables)
    requires n <= |ds|
  {
    && t.Keys == t0.Keys
    && (forall u :: u in t0 ==> t[u].Keys == t0[u].Keys)
    && forall u, k :: u in t0 && k in t0[u] ==> RowNulled(schema, ds, n, u, t0[u][k], t[u][k])
  }

  function NullAt(r: Record, c: nat, key: int): Record {
    if c < |r.fks| && r.fks[c] == Some(key) then r.(fks := r.fks[c := None]) else r
  }

  lemma HitNext(schema: Schema, ds: seq<Deletes.Directive>, n: nat, action: Deletes.Action, t: TypeId, c: nat,
                v: Option<int>)
    requires n < |ds|
    ensures Hit(schema, ds, n + 1, action, t, c, v) <==>
      Hit(schema, ds, n, action, t, c, v) || HitBy(schema, ds[n], action, t, c, v)
  {
  }

  lemma NullStep(schema: Schema, ds: seq<Deletes.Directive>, n: nat, t: TypeId, r0: Record, r: Record)
    requires n < |ds| && RowNulled(schema, ds, n, t, r0, r)
    ensures Aims(schema, ds[n], Deletes.Nullify, t) ==>
      RowNulled(schema, ds, n + 1, t, r0, NullAt(r, schema[(ds[n].table, ds[n].fkColumn)].at, ds[n].key))
    ensures !Aims(schema, ds[n], Deletes.Nullify, t) ==> RowNulled(schema, ds, n + 1, t, r0, r)
  {
    forall c | 0 <= c < |r0.fks|
      ensures Hit(schema, ds, n + 1, Deletes.Nullify, t, c, r0.fks[c]) <==>
        Hit(schema, ds, n, Deletes.Nullify, t, c, r0.fks[c]) || HitBy(schema, ds[n], Deletes.Nullify, t, c, r0.fks[c]) {
      HitNext(schema, ds, n, Deletes.Nullify, t, c, r0.fks[c]);
    }
  }

  // ---------------------------------------------------------------------------
  // Direct deletes
  // ---------------------------------------------------------------------------

  ghost predicate RowHit(schema: Schema, ds: seq<Deletes.Directive>, n: nat, t: TypeId, r: Record)
    requires n <= |ds|
  {
    exists c :: 0 <= c < |r.fks| && Hit(schema, ds, n, Deletes.Delete, t, c, r.fks[c])
  }

  /** The rows none of the first `n` DELETE statements names with a value are left, as they were. */
  ghost predicate Purged(schema: Schema, ds: seq<Deletes.Directive>, n: nat, t0: Tables, t: Tables)
    requires n <= |ds|
  {
    && t.Keys == t0.Keys
    && (forall u, k :: u in t0 ==> (k in t[u] <==> k in t0[u] && !RowHit(schema, ds, n, u, t0[u][k])))
    && forall u, k :: u in t0 && k in t[u] ==> t[u][k] == t0[u][k]
  }

  predicate JoinHitBy(d: Deletes.Directive, j: JoinRow) {
    && d.action == Deletes.Delete && d.table == j.table
    && ((d.fkColumn == j.parentColumn && d.key == j.parentKey) || (d.fkColumn == j.childColumn && d.key == j.childKey))
  }

  predicate JoinHit(ds: seq<Deletes.Directive>, n: nat, j: JoinRow)
    requires n <= |ds|
  {
    exists i :: 0 <= i < n && JoinHitBy(ds[i], j)
  }

  /** The join rows no DELETE statement names. */
  function JoinsLeft(joins: seq<JoinRow>, len: nat, ds: seq<Deletes.Directive>, n: nat): seq<JoinRow>
    requires len <= |joins| && n <= |ds|
  {
    if len == 0 then []
    else JoinsLeft(joins, len - 1, ds, n) + (if JoinHit(ds, n, joins[len - 1]) then [] else [joins[len - 1]])
  }

  /** The join rows one statement leaves. */
  function JoinsWithout(joins: seq<JoinRow>, len: nat, d: Deletes.Directive): seq<JoinRow>
    requires len <= |joins|
  {
    if len == 0 then []
    else JoinsWithout(joins, len - 1, d) + (if JoinHitBy(d, joins[len - 1]) then [] else [joins[len - 1]])
  }

  lemma {:induction false} WithoutPush(joins: seq<JoinRow>, j: JoinRow, len: nat, d: Deletes.Directive)
    requires len <= |joins|
    ensures JoinsWithout(joins + [j], len, d) == JoinsWithout(joins, len, d)
  {
    if len > 0 { WithoutPush(joins, j, len - 1, d); }
  }

  lemma {:induction false} JoinsStep(joins: seq<JoinRow>, len: nat, ds: seq<Deletes.Directive>, n: nat)
    requires len <= |joins| && n < |ds|
    ensures var was := JoinsLeft(joins, len, ds, n); JoinsWithout(was, |was|, ds[n]) == JoinsLeft(joins, len, ds, n + 1)
  {
    if len > 0 {
      JoinsStep(joins, len - 1, ds, n);
      var was, j := JoinsLeft(joins, len - 1, ds, n), joins[len - 1];
      assert JoinHit(ds, n + 1, j) <==> JoinHit(ds, n, j) || JoinHitBy(ds[n], j);
      WithoutPush(was, j, |was|, ds[n]);
      assert was + [] == was;
    }
  }

  lemma {:induction false} JoinLeft(joins: seq<JoinRow>, len: nat, ds: seq<Deletes.Directive>, n: nat, j: JoinRow)
    requires len <= |joins| && n <= |ds|
    ensures j in JoinsLeft(joins, len, ds, n) <==> !JoinHit(ds, n, j) && exists i :: 0 <= i < len && joins[i] == j
  {
    if len > 0 { JoinLeft(joins, len - 1, ds, n, j); }
  }

  // ---------------------------------------------------------------------------
  // The phases
  // ---------------------------------------------------------------------------

  /** One SET NULL on the rows of its target. */
  lemma NulledStep(schema: Schema, ds: seq<Deletes.Directive>, n: nat, t0: Tables, t: Tables, after: Tables)
    requires n < |ds| && Nulled(schema, ds, n, t0, t) && after.Keys == t.Keys
    requires forall u :: u in t ==> after[u] == NulledTable(schema, ds[n], u, t[u])
    ensures Nulled(schema, ds, n + 1, t0, after)
  {
    forall u, k | u in t0 && k in t0[u] ensures RowNulled(schema, ds, n + 1, u, t0[u][k], after[u][k]) {
      assert RowNulled(schema, ds, n, u, t0[u][k], t[u][k]);
      NullStep(schema, ds, n, u, t0[u][k], t[u][k]);
    }
  }

  /** The table of a type after one SET NULL statement. */
  function NulledTable(schema: Schema, d: Deletes.Directive, u: TypeId, t: Table): Table {
    if Aims(schema, d, Deletes.Nullify, u) then
      map k | k in t :: NullAt(t[k], schema[(d.table, d.fkColumn)].at, d.key)
    else t
  }

  /** The table of a type after one DELETE statement. */
  function PurgedTable(schema: Schema, d: Deletes.Directive, u: TypeId, t: Table): Table {
    if Aims(schema, d, Deletes.Delete, u) then
      map k | k in t && !HasAt(t[k], schema[(d.table, d.fkColumn)].at, d.key) :: t[k]
    else t
  }

  predicate HasAt(r: Record, c: nat, key: int) {
    c < |r.fks| && r.fks[c] == Some(key)
  }

  predicate PurgesRow(schema: Schema, d: Deletes.Directive, t: TypeId, r: Record) {
    Aims(schema, d, Deletes.Delete, t) && HasAt(r, schema[(d.table, d.fkColumn)].at, d.key)
  }

  lemma RowHitNext(schema: Schema, ds: seq<Deletes.Directive>, n: nat, t: TypeId, r: Record)
    requires n < |ds|
    ensures RowHit(schema, ds, n + 1, t, r) <==> RowHit(schema, ds, n, t, r) || PurgesRow(schema, ds[n], t, r)
  {
    forall c | 0 <= c < |r.fks|
      ensures Hit(schema, ds, n + 1, Deletes.Delete, t, c, r.fks[c]) <==>
        Hit(schema, ds, n, Deletes.Delete, t, c, r.fks[c]) || HitBy(schema, ds[n], Deletes.Delete, t, c, r.fks[c]) {
      HitNext(schema, ds, n, Deletes.Delete, t, c, r.fks[c]);
    }
  }

  lemma PurgedStep(schema: Schema, ds: seq<Deletes.Directive>, n: nat, t0: Tables, t: Tables, after: Tables)
    requires n < |ds| && Purged(schema, ds, n, t0, t) && after.Keys == t.Keys
    requires forall u :: u in t ==> after[u] == PurgedTable(schema, ds[n], u, t[u])
    ensures Purged(schema, ds, n + 1, t0, after)
  {
    forall u, k | u in t0 ensures k in after[u] <==> k in t0[u] && !RowHit(schema, ds, n + 1, u, t0[u][k]) {
      if k in t0[u] { RowHitNext(schema, ds, n, u, t0[u][k]); }
    }
  }

  class LaterPhases {
    const infos: Infos
    const schema: Schema
    const sets: Sets
    var tables: Tables
    var joins: seq<JoinRow>
    var left: nat

    constructor (infos: Infos, schema: Schema, sets: Sets, tables: Tables, joins: seq<JoinRow>, left: nat)
      ensures this.infos == infos && this.schema == schema && this.sets == sets && this.tables == tables
      ensures this.joins == joins && this.left == left
    {
      this.infos, this.schema, this.sets := infos, schema, sets;
      this.tables, this.joins, this.left := tables, joins, left;
    }

    /** Upserts and updates, SET NULL on untracked dependents, deletes with dependents first, and deletes of
        untracked dependents and join rows. */
    method RunAll(order: seq<TypeId>, deleteOrder: seq<TypeId>, ds: seq<Deletes.Directive>)
      returns (failed: Option<Stage>, ghost s: Stages)
      requires Distinct(order) && Distinct(deleteOrder)
      requires forall t :: t in sets ==> t in infos && t in tables && t in order && t in deleteOrder
      modifies this`tables, this`joins, this`left
      ensures failed.None? ==> AllRun(infos, schema, sets, ds, s, old(tables), old(joins), tables, joins)
      ensures StagesReady(infos, sets, old(tables)) && old(left) >= StagesCost(sets, order, deleteOrder, ds) ==>
        failed.None?
    {
      hide PhaseRun, Nulled, Purged, JoinsLeft, AllReachable;
      ghost var ready := StagesReady(infos, sets, tables);
      UpsertsReachable(infos, sets, tables);
      s := Stages(tables, tables, tables, tables);
      var ok := RunPhase(Upserting, order);
      if !ok { return Some(Upsert), s; }
      RowsStay(Upserting, infos, sets, s.upserted, tables, sets.Keys);
      if ready {
        StillReachable(Updating, infos, sets, s.upserted, tables);
        StillReachable(Removing, infos, sets, s.upserted, tables);
      }
      s := s.(upserted := tables);
      ok := RunPhase(Updating, order);
      if !ok { return Some(Update), s; }
      RowsStay(Updating, infos, sets, s.upserted, tables, sets.Keys);
      if ready { StillReachable(Removing, infos, sets, s.upserted, tables); }
      s := s.(updated := tables);
      ok := NullDependents(ds);
      if !ok { return Some(Nullify), s; }
      NullsStay(schema, ds, s.updated, tables);
      if ready { StillReachable(Removing, infos, sets, s.updated, tables); }
      s := s.(nulled := tables);
      ok := RunPhase(Removing, deleteOrder);
      if !ok { return Some(Remove), s; }
      s := s.(removed := tables);
      ok := DeleteDependents(ds);
      failed := if ok then None else Some(Purge);
    }

    /** One phase over the sets in the given order of types. */
    method RunPhase(kind: Kind, order: seq<TypeId>) returns (ok: bool)
      requires Distinct(order) && forall t :: t in sets ==> t in infos && t in tables && t in order
      modifies this`tables, this`left
      ensures tables.Keys == old(tables).Keys
      ensures ok ==> PhaseRun(kind, infos, sets, old(tables), tables, sets.Keys)
      ensures left + ChosenCount(kind, sets, order, |order|) >= old(left)
      ensures AllReachable(kind, infos, sets, old(tables)) ==>
        old(left) >= ChosenCount(kind, sets, order, |order|) ==> ok
    {
      hide SetPhase, Reachable, PhaseRun;
      ghost var t0, left0 := tables, left;
      PhaseStart(kind, infos, sets, t0);
      assert DoneTypes(order, 0, sets.Keys) == {};
      for k := 0 to |order|
        invariant tables.Keys == t0.Keys && PhaseRun(kind, infos, sets, t0, tables, DoneTypes(order, k, sets.Keys))
        invariant left + ChosenCount(kind, sets, order, k) >= left0
      {
        MoreChosen(kind, sets, order, k + 1, |order|);
        DoneStep(order, k, sets.Keys);
        var t := order[k];
        if t in sets {
          PhaseAhead(kind, infos, sets, t0, tables, DoneTypes(order, k, sets.Keys), t);
          var table;
          ok, table, left := RunSet(kind, infos[t], tables[t], sets[t], left);
          if ok { PhaseStep(kind, infos, sets, t0, tables, DoneTypes(order, k, sets.Keys), t, table); }
          tables := tables[t := table];
          if !ok { return; }
        }
      }
      ok := true;
      assert DoneTypes(order, |order|, sets.Keys) == sets.Keys;
    }

    /** The SET NULL statements among the directives, in order. */
    method NullDependents(ds: seq<Deletes.Directive>) returns (ok: bool)
      modifies this`tables, this`left
      ensures tables.Keys == old(tables).Keys && (ok ==> Nulled(schema, ds, |ds|, old(tables), tables))
      ensures left + |ds| >= old(left) && (old(left) >= |ds| ==> ok)
    {
      ghost var t0 := tables;
      for n := 0 to |ds|
        invariant left + n >= old(left)
        invariant tables.Keys == t0.Keys && Nulled(schema, ds, n, t0, tables)
      {
        ghost var was := tables;
        if ds[n].action == Deletes.Nullify {
          if left == 0 { return false; }
          left := left - 1;
          if (ds[n].table, ds[n].fkColumn) in schema {
            var target := schema[(ds[n].table, ds[n].fkColumn)];
            if target.type_ in tables {
              tables := tables[target.type_ := NulledTable(schema, ds[n], target.type_, tables[target.type_])];
            }
          }
        }
        NulledStep(schema, ds, n, t0, was, tables);
      }
      ok := true;
    }

    /** The DELETE statements among the directives, in order, on rows and join rows. */
    method DeleteDependents(ds: seq<Deletes.Directive>) returns (ok: bool)
      modifies this`tables, this`joins, this`left
      ensures tables.Keys == old(tables).Keys
      ensures ok ==>
        Purged(schema, ds, |ds|, old(tables), tables) && joins == JoinsLeft(old(joins), |old(joins)|, ds, |ds|)
      ensures old(left) >= |ds| ==> ok
    {
      hide JoinsLeft, JoinsWithout, Purged, PurgedTable;
      ghost var t0, j0 := tables, joins;
      NonePurged(schema, ds, t0);
      assert j0[..|j0|] == j0;
      NoneHit(j0, |j0|, ds);
      for n := 0 to |ds|
        invariant tables.Keys == t0.Keys && Purged(schema, ds, n, t0, tables) && joins == JoinsLeft(j0, |j0|, ds, n)
        invariant left + n >= old(left)
      {
        ghost var was := tables;
        JoinsStep(j0, |j0|, ds, n);
        if ds[n].action == Deletes.Delete {
          if left == 0 { return false; }
          left := left - 1;
          if (ds[n].table, ds[n].fkColumn) in schema {
            var target := schema[(ds[n].table, ds[n].fkColumn)];
            if target.type_ in tables {
              tables := tables[target.type_ := PurgedTable(schema, ds[n], target.type_, tables[target.type_])];
            }
          }
          joins := JoinsWithout(joins, |joins|, ds[n]);
        } else {
          NotADelete(joins, |joins|, ds[n]);
          assert joins[..|joins|] == joins;
        }
        forall u | u in was ensures tables[u] == PurgedTable(schema, ds[n], u, was[u]) {
          if !Aims(schema, ds[n], Deletes.Delete, u) { NotAimed(schema, ds[n], u, was[u]); }
        }
        PurgedStep(schema, ds, n, t0, was, tables);
      }
      ok := true;
    }
  }

  datatype Stage = Upsert | Update | Nullify | Remove | Purge

  /** The tables after each stage but the last. */
  datatype Stages = Stages(upserted: Tables, updated: Tables, nulled: Tables, removed: Tables)

  /** All stages have run, from tables `t0` and join rows `j0` to `t` and `joins`. */
  ghost predicate AllRun(infos: Infos, schema: Schema, sets: Sets, ds: seq<Deletes.Directive>, s: Stages,
                         t0: Tables, j0: seq<JoinRow>, t: Tables, joins: seq<JoinRow>) {
    && PhaseRun(Upserting, infos, sets, t0, s.upserted, sets.Keys)
    && PhaseRun(Updating, infos, sets, s.upserted, s.updated, sets.Keys)
    && Nulled(schema, ds, |ds|, s.updated, s.nulled)
    && PhaseRun(Removing, infos, sets, s.nulled, s.removed, sets.Keys)
    && Purged(schema, ds, |ds|, s.removed, t) && joins == JoinsLeft(j0, |j0|, ds, |ds|)
  }

  lemma NonePurged(schema: Schema, ds: seq<Deletes.Directive>, t: Tables)
    ensures Purged(schema, ds, 0, t, t)
  {
  }

  lemma NotAimed(schema: Schema, d: Deletes.Directive, u: TypeId, t: Table)
    requires !Aims(schema, d, Deletes.Delete, u)
    ensures PurgedTable(schema, d, u, t) == t
  {
  }

  lemma {:induction false} NoneHit(joins: seq<JoinRow>, len: nat, ds: seq<Deletes.Directive>)
    requires len <= |joins|
    ensures JoinsLeft(joins, len, ds, 0) == joins[..len]
  {
    if len > 0 {
      NoneHit(joins, len - 1, ds);
      assert joins[..len] == joins[..len - 1] + [joins[len - 1]];
    }
  }

  lemma {:induction false} NotADelete(joins: seq<JoinRow>, len: nat, d: Deletes.Directive)
    requires len <= |joins| && d.action != Deletes.Delete
    ensures JoinsWithout(joins, len, d) == joins[..len]
  {
    if len > 0 {
      NotADelete(joins, len - 1, d);
      assert joins[..len] == joins[..len - 1] + [joins[len - 1]];
    }
  }
}
