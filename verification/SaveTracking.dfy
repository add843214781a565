/** Detection before a save and acceptance after it, on the sets joined with their tracker entries. */
module SaveTracking {
  import opened Wrappers
  import opened SaveModel
  import opened SqlAst
  import T = Tracker

  // ---------------------------------------------------------------------------
  // Detection
  // ---------------------------------------------------------------------------

  /** The properties whose value is not the original one. */
  function Changed(now: Snapshot, was: Snapshot): set<Property> {
    (if now.key != was.key then {KeyProperty} else {})
    + (set c | 0 <= c < |now.fks| && !(c < |was.fks| && was.fks[c] == now.fks[c]) :: FkProperty(c))
    + (set c | 0 <= c < |now.values| && !(c < |was.values| && was.values[c] == now.values[c]) :: ValueProperty(c))
  }

  /** The original has not this value there. */
  predicate Differs<V(==)>(now: seq<V>, was: seq<V>, c: nat) {
    c < |now| && (c >= |was| || was[c] != now[c])
  }

  /** A property is recorded exactly when its own value is not the original one. */
  lemma ChangedAre(now: Snapshot, was: Snapshot)
    ensures KeyProperty in Changed(now, was) <==> now.key != was.key
    ensures forall c :: FkProperty(c) in Changed(now, was) <==> Differs(now.fks, was.fks, c)
    ensures forall c :: ValueProperty(c) in Changed(now, was) <==> Differs(now.values, was.values, c)
  {
  }

  predicate SameWidth(a: Snapshot, b: Snapshot) {
    |a.fks| == |b.fks| && |a.values| == |b.values|
  }

  /** Nothing is changed exactly when the values are the same. */
  lemma ChangedExact(now: Snapshot, was: Snapshot)
    requires SameWidth(now, was)
    ensures Changed(now, was) == {} <==> now == was
  {
    if Changed(now, was) == {} {
      assert KeyProperty !in Changed(now, was);
      forall c | 0 <= c < |now.fks| ensures now.fks[c] == was.fks[c] { assert FkProperty(c) !in Changed(now, was); }
      forall c | 0 <= c < |now.values| ensures now.values[c] == was.values[c] {
        assert ValueProperty(c) !in Changed(now, was);
      }
    }
  }

  /** The entity's values are those of the original. */
  predicate InStep(e: Entry) {
    e.original.Some? ==> SnapshotOf(e.entity) == e.original.value
  }

  function DetectedEntry(e: Entry): Entry {
    if e.state != Unchanged || e.original.None? then e
    else if InStep(e) then e.(modified := {})
    else
      var changed := Changed(SnapshotOf(e.entity), e.original.value);
      if changed == {} then e else e.(state := Modified, modified := changed)
  }

  /** Unchanged entries whose values differ from their original become Modified, with the properties that do. */
  ghost predicate Detected(a: Sets, b: Sets) {
    a.Keys == b.Keys && forall t :: t in a ==> SetDetected(a[t], b[t], |a[t]|)
  }

  ghost predicate SetDetected(a: seq<Entry>, b: seq<Entry>, n: nat)
    requires n <= |a|
  {
    && |b| == |a| && (forall i :: 0 <= i < n ==> b[i] == DetectedEntry(a[i]))
    && forall i :: n <= i < |a| ==> b[i] == a[i]
  }

  /** The original has as many values as the entity. */
  ghost predicate Fitting(sets: Sets) {
    forall t, i :: t in sets && 0 <= i < |sets[t]| && sets[t][i].original.Some? ==>
      SameWidth(SnapshotOf(sets[t][i].entity), sets[t][i].original.value)
  }

  predicate Pending(e: Entry) {
    e.state == Added || e.state == Modified || e.state == Deleted
  }

  /** Some entry is Added, Modified or Deleted. */
  ghost predicate HasPending(sets: Sets) {
    exists t, i ::
        t in sets && 0 <= i < |sets[t]|
        && (sets[t][i].state == Added || sets[t][i].state == Modified || sets[t][i].state == EntityState.Deleted)
  }

  // ---------------------------------------------------------------------------
  // Acceptance
  // ---------------------------------------------------------------------------

  /** The tracker's half of an entry after one set's turn; only a set's own entries get a new original. The
      tracker forgets Deleted entries. */
  function AcceptedEntry(e: Entry, own: bool): Entry {
    match e.state
    case Added => Settled(e, own)
    case Modified => Settled(e, own)
    case Deleted => e.(state := Detached, upsert := false, original := None, modified := {})
    case _ => e
  }

  function Settled(e: Entry, own: bool): Entry {
    e.(state := Unchanged, modified := {}, original := if own then Some(SnapshotOf(e.entity)) else e.original)
  }

  /** The set whose turn it is drops its Deleted entries. */
  function OwnTurn(es: seq<Entry>, n: nat): seq<Entry>
    requires n <= |es|
  {
    if n == 0 then []
    else OwnTurn(es, n - 1) + (if es[n - 1].state == EntityState.Deleted then [] else [AcceptedEntry(es[n - 1], true)])
  }

  /** Any other set keeps its entries, the Deleted ones now untracked. */
  function OtherTurn(es: seq<Entry>, n: nat): seq<Entry>
    requires n <= |es|
  {
    if n == 0 then [] else OtherTurn(es, n - 1) + [AcceptedEntry(es[n - 1], false)]
  }

  function AfterTurn(es: seq<Entry>, own: bool): seq<Entry> {
    if own then OwnTurn(es, |es|) else OtherTurn(es, |es|)
  }

  ghost predicate TurnTaken(a: Sets, b: Sets, t: TypeId) {
    && a.Keys == b.Keys
    && forall u :: u in a ==> b[u] == AfterTurn(a[u], u == t)
  }

  /** After a save: the first set's turn has settled everything. */
  ghost predicate Accepted(a: Sets, b: Sets, types: seq<TypeId>) {
    if types == [] then b == a else TurnTaken(a, b, types[0])
  }

  predicate Quiet(e: Entry) {
    e.state == Unchanged || e.state == Detached
  }

  ghost predicate AllQuiet(sets: Sets) {
    forall t, i :: t in sets && 0 <= i < |sets[t]| ==> Quiet(sets[t][i])
  }

  lemma {:induction false} OtherTurnAt(es: seq<Entry>, n: nat)
    requires n <= |es|
    ensures |OtherTurn(es, n)| == n && forall i :: 0 <= i < n ==> OtherTurn(es, n)[i] == AcceptedEntry(es[i], false)
  {
    if n > 0 { OtherTurnAt(es, n - 1); }
  }

  /** What an own turn keeps: the entries that are not Deleted, settled. */
  lemma {:induction false} OwnTurnAre(es: seq<Entry>, n: nat, e: Entry)
    requires n <= |es|
    ensures e in OwnTurn(es, n) <==>
      exists i :: 0 <= i < n && es[i].state != EntityState.Deleted && e == AcceptedEntry(es[i], true)
  {
    if n > 0 { OwnTurnAre(es, n - 1, e); }
  }

  lemma TurnQuiets(a: Sets, b: Sets, t: TypeId)
    requires TurnTaken(a, b, t)
    ensures AllQuiet(b)
  {
    forall u, i | u in b && 0 <= i < |b[u]| ensures Quiet(b[u][i]) {
      if u == t { OwnTurnAre(a[u], |a[u]|, b[u][i]); } else { OtherTurnAt(a[u], |a[u]|); }
    }
  }

  lemma {:induction false} QuietTurns(es: seq<Entry>, n: nat)
    requires n <= |es| && forall i :: 0 <= i < |es| ==> Quiet(es[i])
    ensures OwnTurn(es, n) == OtherTurn(es, n) == es[..n]
  {
    if n > 0 {
      QuietTurns(es, n - 1);
      assert es[..n] == es[..n - 1] + [es[n - 1]];
    }
  }

  /** A turn after the first changes nothing. */
  lemma LaterTurn(a: Sets, b: Sets, t: TypeId)
    requires AllQuiet(a) && TurnTaken(a, b, t)
    ensures a == b
  {
    forall u | u in a ensures b[u] == a[u] {
      QuietTurns(a[u], |a[u]|);
      assert a[u][..|a[u]|] == a[u];
    }
  }

  class TrackedSets {
    const types: seq<TypeId>
    var sets: Sets

    constructor (types: seq<TypeId>, sets: Sets)
      ensures this.types == types && this.sets == sets
    {
      this.types, this.sets := types, sets;
    }

    method DetectSet(t: TypeId)
      requires t in sets
      modifies this`sets
      ensures sets.Keys == old(sets).Keys && sets == old(sets)[t := sets[t]]
      ensures SetDetected(old(sets)[t], sets[t], |old(sets)[t]|)
    {
      var es := sets[t];
      for i := 0 to |es|
        invariant SetDetected(old(sets)[t], es, i)
      {
        var e := es[i];
        if e.state == Unchanged && e.original.Some? {
          if SnapshotOf(e.entity) == e.original.value {
            es := es[i := e.(modified := {})];
          } else {
            var changed := Changed(SnapshotOf(e.entity), e.original.value);
            if changed != {} { es := es[i := e.(state := Modified, modified := changed)]; }
          }
        }
      }
      sets := sets[t := es];
    }

    method DetectChanges()
      requires Covers(types, sets)
      modifies this`sets
      ensures Detected(old(sets), sets)
    {
      ghost var before := sets;
      for k := 0 to |types|
        invariant sets.Keys == before.Keys
        invariant forall j :: 0 <= j < k ==> SetDetected(before[types[j]], sets[types[j]], |before[types[j]]|)
        invariant forall j :: k <= j < |types| ==> sets[types[j]] == before[types[j]]
      {
        DetectSet(types[k]);
      }
    }

    method AnyPending() returns (pending: bool)
      requires Covers(types, sets)
      ensures pending <==> HasPending(sets)
    {
      for k := 0 to |types|
        invariant forall j, i :: 0 <= j < k && 0 <= i < |sets[types[j]]| ==> !Pending(sets[types[j]][i])
      {
        var es := sets[types[k]];
        for i := 0 to |es|
          invariant forall h :: 0 <= h < i ==> !Pending(es[h])
        {
          if Pending(es[i]) { return true; }
        }
      }
      return false;
    }

    /** What one set's turn does to the set `u`. */
    method TurnSet(u: TypeId, own: bool)
      requires u in sets
      modifies this`sets
      ensures sets.Keys == old(sets).Keys
      ensures sets == old(sets)[u := AfterTurn(old(sets)[u], own)]
    {
      var es: seq<Entry> := [];
      for i := 0 to |sets[u]|
        invariant es == if own then OwnTurn(sets[u], i) else OtherTurn(sets[u], i)
      {
        if !own || sets[u][i].state != EntityState.Deleted { es := es + [AcceptedEntry(sets[u][i], own)]; }
      }
      sets := sets[u := es];
    }

    /** The turn of set `t`: the tracker goes through all its entries, whatever set they are in. */
    method TakeTurn(t: TypeId)
      requires Covers(types, sets)
      modifies this`sets
      ensures TurnTaken(old(sets), sets, t)
    {
      ghost var before := sets;
      for k := 0 to |types|
        invariant sets.Keys == before.Keys
        invariant forall j :: 0 <= j < k ==> sets[types[j]] == AfterTurn(before[types[j]], types[j] == t)
        invariant forall j :: k <= j < |types| ==> sets[types[j]] == before[types[j]]
      {
        TurnSet(types[k], types[k] == t);
      }
    }

    /** Every set has its turn, one after the other. */
    method AcceptAll()
      requires Covers(types, sets)
      modifies this`sets
      ensures Accepted(old(sets), sets, types)
    {
      ghost var before := sets;
      for k := 0 to |types|
        invariant Covers(types, sets)
        invariant if k == 0 then sets == before else TurnTaken(before, sets, types[0])
      {
        ghost var was := sets;
        TakeTurn(types[k]);
        if k > 0 {
          TurnQuiets(before, was, types[0]);
          LaterTurn(was, sets, types[k]);
        }
      }
    }
  }

  // ---------------------------------------------------------------------------
  // The same as the tracker's own
  // ---------------------------------------------------------------------------

  function StateOf(s: EntityState): T.EntityState
    requires s != Detached
  {
    match s
    case Added => T.Added
    case Unchanged => T.Unchanged
    case Modified => T.Modified
    case Deleted => T.Deleted
  }

  /** The names of a type's properties. */
  datatype Naming = Naming(key: string, fks: seq<string>, values: seq<string>)

  /** The properties of a type with as many names, and what each is called. */
  predicate Named(n: Naming, p: Property) {
    match p
    case KeyProperty => true
    case FkProperty(c) => c < |n.fks|
    case ValueProperty(c) => c < |n.values|
  }

  function NameOf(n: Naming, p: Property): string
    requires Named(n, p)
  {
    match p
    case KeyProperty => n.key
    case FkProperty(c) => n.fks[c]
    case ValueProperty(c) => n.values[c]
  }

  ghost predicate TellApart(n: Naming) {
    forall p, q :: Named(n, p) && Named(n, q) && p != q ==> NameOf(n, p) != NameOf(n, q)
  }

  /** The value of a property as the tracker's snapshot has it. */
  function FieldValue(s: Snapshot, p: Property): DbValue {
    match p
    case KeyProperty => Int(s.key)
    case FkProperty(c) => if c < |s.fks| && s.fks[c].Some? then Int(s.fks[c].value) else Null
    case ValueProperty(c) => if c < |s.values| then Int(s.values[c]) else Null
  }

  /** The tracker's snapshot of these values: one field for each property, in any order. */
  ghost predicate Renders(n: Naming, s: Snapshot, fields: T.Snapshot) {
    && |s.fks| == |n.fks| && |s.values| == |n.values| && |fields| == 1 + |n.fks| + |n.values| && T.UniqueFields(fields)
    && (forall p :: Named(n, p) ==> T.Get(fields, NameOf(n, p)) == Some(FieldValue(s, p)))
    && forall i :: 0 <= i < |fields| ==> exists p :: Named(n, p) && NameOf(n, p) == fields[i].name
  }

  /** The tracker's entry says the same: state, original, and the names of the changed properties. */
  ghost predicate Mirrors(n: Naming, e: Entry, tracked: T.TrackedEntry) {
    && e.state != Detached && tracked.state == StateOf(e.state) && tracked.upsert == e.upsert
    && (e.original.Some? <==> tracked.original.Some?)
    && (e.original.Some? ==> Renders(n, e.original.value, tracked.original.value))
    && (forall p :: Named(n, p) ==> (NameOf(n, p) in tracked.modified <==> p in e.modified))
    && forall name :: name in tracked.modified ==> exists p :: Named(n, p) && NameOf(n, p) == name
  }

  /** Accepting a joined entry is what the tracker does to its own: Deleted entries go, a set's own entries
      are accepted with their values, others without. */
  lemma AcceptsAsTracker(n: Naming, e: Entry, own: bool, tracked: T.TrackedEntry, now: T.Snapshot)
    requires Mirrors(n, e, tracked) && Renders(n, SnapshotOf(e.entity), now)
    ensures e.state == EntityState.Deleted <==> AcceptedEntry(e, own).state == Detached
    ensures e.state != EntityState.Deleted ==>
      Mirrors(n, AcceptedEntry(e, own), T.AcceptEntry(tracked, if own then Some(now) else None))
  {
  }

  lemma SameFieldsOf(n: Naming, a: Snapshot, b: Snapshot, fa: T.Snapshot, fb: T.Snapshot)
    requires Renders(n, a, fa) && Renders(n, b, fb)
    ensures T.SameFields(fa, fb)
  {
    forall i | 0 <= i < |fa| ensures T.Get(fb, fa[i].name).Some? {
      var p :| Named(n, p) && NameOf(n, p) == fa[i].name;
    }
  }

  lemma NamesOf(n: Naming, s: Snapshot, fields: T.Snapshot, name: string) returns (p: Property)
    requires Renders(n, s, fields) && T.Get(fields, name).Some?
    ensures Named(n, p) && NameOf(n, p) == name
  {
    var k := T.GetName(fields, name, 0);
    p :| Named(n, p) && NameOf(n, p) == fields[k].name;
  }

  /** The fields of a property differ exactly when it is changed. */
  lemma FieldDiffers(n: Naming, a: Snapshot, b: Snapshot, p: Property)
    requires Named(n, p) && |a.fks| == |b.fks| == |n.fks| && |a.values| == |b.values| == |n.values|
    ensures FieldValue(a, p) != FieldValue(b, p) <==> p in Changed(a, b)
  {
    ChangedAre(a, b);
  }

  /** Detection of a joined entry is the tracker's own detection from the same values: the same state, and
      the same properties recorded as changed. */
  lemma DetectsAsTracker(n: Naming, e: Entry, tracked: T.TrackedEntry, now: T.Snapshot)
    requires TellApart(n) && Mirrors(n, e, tracked) && Renders(n, SnapshotOf(e.entity), now)
    ensures Mirrors(n, DetectedEntry(e), T.DetectEntry(tracked, Some(now)))
  {
    if e.state == Unchanged && e.original.Some? {
      var a, b, o := SnapshotOf(e.entity), e.original.value, tracked.original.value;
      hide T.SameSnapshot, T.Changed;
      SameFieldsOf(n, a, b, now, o);
      T.DetectExact(tracked, now);
      ChangedExact(a, b);
      forall p | Named(n, p)
        ensures p in Changed(a, b) <==> T.Get(now, NameOf(n, p)) != T.Get(o, NameOf(n, p)) {
        FieldDiffers(n, a, b, p);
      }
      forall name | T.Get(now, name).Some? ensures exists p :: Named(n, p) && NameOf(n, p) == name {
        var p := NamesOf(n, a, now, name);
      }
      ChangedNamed(n, a, b);
    }
  }

  lemma ChangedNamed(n: Naming, a: Snapshot, b: Snapshot)
    requires |a.fks| == |n.fks| && |a.values| == |n.values|
    ensures forall p :: p in Changed(a, b) ==> Named(n, p)
  {
  }
}
