/** The change tracker: detection, accepting, and its agreement with the sets after a save. */
module Tracker {
  import opened Wrappers
  import opened SqlAst

  datatype Field = Field(name: string, value: DbValue)

  /** Property values in declaration order. */
  type Snapshot = seq<Field>

  datatype EntityState = Added | Unchanged | Modified | Deleted

  datatype TrackedEntry = TrackedEntry(type_: nat, state: EntityState, original: Option<Snapshot>,
                                       modified: seq<string>, upsert: bool)

  type Entries = map<nat, TrackedEntry>

  // ---------------------------------------------------------------------------
  // Snapshots
  // ---------------------------------------------------------------------------

  /** The first field of that name, from position `i` on. */
  function GetFrom(s: Snapshot, name: string, i: nat): Option<DbValue>
    requires i <= |s|
    decreases |s| - i
  {
    if i == |s| then None else if s[i].name == name then Some(s[i].value) else GetFrom(s, name, i + 1)
  }

  function Get(s: Snapshot, name: string): Option<DbValue> {
    GetFrom(s, name, 0)
  }

  /** As many fields, each found with its value in the other. */
  predicate SameSnapshot(a: Snapshot, b: Snapshot) {
    |a| == |b| && forall i :: 0 <= i < |a| ==> Get(b, a[i].name) == Some(a[i].value)
  }

  predicate UniqueFields(s: Snapshot) {
    forall i, j :: 0 <= i < j < |s| ==> s[i].name != s[j].name
  }

  /** The same field names, in any order. */
  predicate SameFields(a: Snapshot, b: Snapshot) {
    |a| == |b| && UniqueFields(a) && UniqueFields(b) && forall i :: 0 <= i < |a| ==> Get(b, a[i].name).Some?
  }

  lemma {:induction false} GetAt(s: Snapshot, i: nat, k: nat)
    requires i <= k < |s| && UniqueFields(s)
    ensures GetFrom(s, s[k].name, i) == Some(s[k].value)
    decreases k - i
  {
    if i < k { GetAt(s, i + 1, k); }
  }

  lemma {:induction false} GetName(s: Snapshot, name: string, i: nat) returns (k: nat)
    requires i <= |s| && GetFrom(s, name, i).Some?
    ensures i <= k < |s| && s[k].name == name && GetFrom(s, name, i) == Some(s[k].value)
    decreases |s| - i
  {
    if s[i].name == name { k := i; } else { k := GetName(s, name, i + 1); }
  }

  /** Order-independent equality is equality of the values field by field, and goes both ways. */
  lemma SameIsFieldwise(a: Snapshot, b: Snapshot)
    requires SameFields(a, b)
    ensures SameSnapshot(a, b) <==> forall name :: Get(a, name).Some? ==> Get(a, name) == Get(b, name)
  {
    if SameSnapshot(a, b) {
      forall name | Get(a, name).Some? ensures Get(a, name) == Get(b, name) {
        var k := GetName(a, name, 0);
      }
    } else {
      var i :| 0 <= i < |a| && Get(b, a[i].name) != Some(a[i].value);
      GetAt(a, 0, i);
    }
  }

  /** Names of the fields of the first `n` whose value is not the original one. */
  function Changed(current: Snapshot, original: Snapshot, n: nat): seq<string>
    requires n <= |current|
  {
    if n == 0 then []
    else
      var f := current[n - 1];
      Changed(current, original, n - 1) + (if Get(original, f.name) != Some(f.value) then [f.name] else [])
  }

  lemma {:induction false} ChangedAre(current: Snapshot, original: Snapshot, n: nat)
    requires n <= |current|
    ensures forall name :: name in Changed(current, original, n) <==>
      exists i :: 0 <= i < n && current[i].name == name && Get(original, name) != Some(current[i].value)
  {
    if n > 0 { ChangedAre(current, original, n - 1); }
  }

  // ---------------------------------------------------------------------------
  // Detection and acceptance of one entry
  // ---------------------------------------------------------------------------

  function DetectEntry(e: TrackedEntry, current: Option<Snapshot>): TrackedEntry {
    if e.state != Unchanged || e.original.None? || current.None? then e
    else if SameSnapshot(current.value, e.original.value) then e.(modified := [])
    else
      var changed := Changed(current.value, e.original.value, |current.value|);
      if changed == [] then e else e.(state := Modified, modified := changed)
  }

  /** An Unchanged entry becomes Modified exactly when some field differs, recording exactly those fields. */
  lemma DetectExact(e: TrackedEntry, current: Snapshot)
    requires e.state == Unchanged && e.original.Some? && SameFields(current, e.original.value)
    ensures var d, o := DetectEntry(e, Some(current)), e.original.value;
      && (d.state == Modified <==> exists name :: Get(current, name).Some? && Get(current, name) != Get(o, name))
      && (d.state != Modified ==> d == e.(modified := []))
      && (d.state == Modified ==>
            forall name :: name in d.modified <==> Get(current, name).Some? && Get(current, name) != Get(o, name))
  {
    var o := e.original.value;
    ChangedAre(current, o, |current|);
    SameIsFieldwise(current, o);
    forall name
      ensures name in Changed(current, o, |current|) <==>
        Get(current, name).Some? && Get(current, name) != Get(o, name) {
      ChangedField(current, o, name);
    }
  }

  lemma ChangedField(current: Snapshot, original: Snapshot, name: string)
    requires UniqueFields(current)
    ensures name in Changed(current, original, |current|) <==>
      Get(current, name).Some? && Get(current, name) != Get(original, name)
  {
    ChangedAre(current, original, |current|);
    if name in Changed(current, original, |current|) {
      var i :| 0 <= i < |current| && current[i].name == name && Get(original, name) != Some(current[i].value);
      GetAt(current, 0, i);
    } else if Get(current, name).Some? {
      var k := GetName(current, name, 0);
    }
  }

  function AcceptEntry(e: TrackedEntry, current: Option<Snapshot>): TrackedEntry {
    if e.state == Added || e.state == Modified then
      e.(state := Unchanged, modified := [], original := if current.Some? then current else e.original)
    else e
  }

  function Find(snaps: map<nat, Snapshot>, id: nat): Option<Snapshot> {
    if id in snaps then Some(snaps[id]) else None
  }

  function Detect(entries: Entries, snaps: map<nat, Snapshot>): Entries {
    map id | id in entries :: DetectEntry(entries[id], Find(snaps, id))
  }

  function Accept(entries: Entries, snaps: map<nat, Snapshot>): Entries {
    map id | id in entries && entries[id].state != Deleted :: AcceptEntry(entries[id], Find(snaps, id))
  }

  /** Added entries go; Modified and Deleted ones are Unchanged again, with the original they had. */
  function Reject(entries: Entries): Entries {
    map id | id in entries && entries[id].state != Added ::
      if entries[id].state == Unchanged then entries[id] else entries[id].(state := Unchanged, modified := [])
  }

  function WithoutType(entries: Entries, type_: nat): Entries {
    map id | id in entries && entries[id].type_ != type_ :: entries[id]
  }

  /** Detecting twice is detecting once. */
  lemma DetectIdempotent(entries: Entries, snaps: map<nat, Snapshot>)
    ensures Detect(Detect(entries, snaps), snaps) == Detect(entries, snaps)
  {
    forall id | id in entries
      ensures DetectEntry(DetectEntry(entries[id], Find(snaps, id)), Find(snaps, id))
           == DetectEntry(entries[id], Find(snaps, id)) {
    }
  }

  /** Pairs of entry id and current snapshot, as a set hands them to the tracker. */
  type Snapshots = seq<(nat, Snapshot)>

  /** The pairs collected into a hash map: a later pair replaces an earlier one. */
  function SnapMap(pairs: Snapshots, n: nat): map<nat, Snapshot>
    requires n <= |pairs|
  {
    if n == 0 then map[] else SnapMap(pairs, n - 1)[pairs[n - 1].0 := pairs[n - 1].1]
  }

  lemma {:induction false} SnapMapAt(pairs: Snapshots, n: nat)
    requires n <= |pairs| && forall i, j :: 0 <= i < j < |pairs| ==> pairs[i].0 != pairs[j].0
    ensures forall i :: 0 <= i < n ==> Find(SnapMap(pairs, n), pairs[i].0) == Some(pairs[i].1)
    ensures forall id :: id in SnapMap(pairs, n) ==> exists i :: 0 <= i < n && pairs[i].0 == id
  {
    if n > 0 { SnapMapAt(pairs, n - 1); }
  }

  predicate DistinctIds(pairs: Snapshots) {
    forall i, j :: 0 <= i < j < |pairs| ==> pairs[i].0 != pairs[j].0
  }

  /** Accepting entry by entry: Deleted ones are forgotten, Unchanged ones stay as they are, Added and Modified ones
      are Unchanged with nothing modified, and have the snapshot handed in for them, if any, as the original. */
  lemma AcceptedExactly(entries: Entries, pairs: Snapshots, id: nat)
    requires DistinctIds(pairs) && id in entries
    ensures var after, e := Accept(entries, SnapMap(pairs, |pairs|)), entries[id];
      && (id in after <==> e.state != Deleted)
      && (e.state == Unchanged ==> after[id] == e)
      && (e.state == Added || e.state == Modified ==>
           && after[id].state == Unchanged && after[id].modified == []
           && after[id].type_ == e.type_ && after[id].upsert == e.upsert
           && (forall i :: 0 <= i < |pairs| && pairs[i].0 == id ==> after[id].original == Some(pairs[i].1))
           && ((forall i :: 0 <= i < |pairs| ==> pairs[i].0 != id) ==> after[id].original == e.original))
  {
    SnapMapAt(pairs, |pairs|);
  }

  /** Detecting entry by entry: an Unchanged entry with an original and a snapshot of the same fields becomes
      Modified exactly when a field differs, with those fields; any entry without a snapshot, without an original
      or in another state stays as it is. */
  lemma DetectedExactly(entries: Entries, pairs: Snapshots, id: nat)
    requires DistinctIds(pairs) && id in entries
    ensures var after, e := Detect(entries, SnapMap(pairs, |pairs|)), entries[id];
      && after.Keys == entries.Keys
      && ((forall i :: 0 <= i < |pairs| ==> pairs[i].0 != id) || e.state != Unchanged || e.original.None? ==>
           after[id] == e)
      && forall i :: 0 <= i < |pairs| && pairs[i].0 == id && e.state == Unchanged && e.original.Some?
                     && SameFields(pairs[i].1, e.original.value) ==>
           DetectedFrom(e, after[id], pairs[i].1, e.original.value)
  {
    SnapMapAt(pairs, |pairs|);
    var e := entries[id];
    forall i | 0 <= i < |pairs| && pairs[i].0 == id && e.state == Unchanged && e.original.Some?
      && SameFields(pairs[i].1, e.original.value)
      ensures DetectedFrom(e, DetectEntry(e, Some(pairs[i].1)), pairs[i].1, e.original.value) {
      DetectExact(e, pairs[i].1);
    }
  }

  ghost predicate DetectedFrom(e: TrackedEntry, d: TrackedEntry, now: Snapshot, was: Snapshot) {
    && d.original == e.original && d.type_ == e.type_ && d.upsert == e.upsert
    && (d.state == Modified <==> exists name :: Get(now, name).Some? && Get(now, name) != Get(was, name))
    && (d.state == Modified ==>
         forall name :: name in d.modified <==> Get(now, name).Some? && Get(now, name) != Get(was, name))
    && (d.state != Modified ==> d.state == Unchanged && d.modified == [])
  }

  // ---------------------------------------------------------------------------
  // Runs
  // ---------------------------------------------------------------------------

  /** The tracker's entries and the next id it hands out. */
  datatype Book = Book(entries: Entries, nextId: nat)

  datatype Event =
    | Tracking(type_: nat, state: EntityState, original: Option<Snapshot>, upsert: bool)
    | Detecting(pairs: Snapshots)
    | Accepting(pairs: Snapshots)
    | Rejecting
    | Marking(id: nat, mark: EntityState)
    | Detaching(id: nat)
    | ClearingType(type_: nat)
    | Clearing

  function Step(b: Book, e: Event): Book {
    match e
    case Tracking(type_, state, original, upsert) =>
      Book(b.entries[b.nextId := TrackedEntry(type_, state, original, [], upsert)], b.nextId + 1)
    case Detecting(pairs) => b.(entries := Detect(b.entries, SnapMap(pairs, |pairs|)))
    case Accepting(pairs) => b.(entries := Accept(b.entries, SnapMap(pairs, |pairs|)))
    case Rejecting => b.(entries := Reject(b.entries))
    case Marking(id, mark) =>
      if id in b.entries then b.(entries := b.entries[id := b.entries[id].(state := mark)]) else b
    case Detaching(id) => b.(entries := b.entries - {id})
    case ClearingType(type_) => b.(entries := WithoutType(b.entries, type_))
    case Clearing => b.(entries := map[])
  }

  function Run(es: seq<Event>, n: nat): Book
    requires n <= |es|
  {
    if n == 0 then Book(map[], 0) else Step(Run(es, n - 1), es[n - 1])
  }

  /** The id handed out by the event at `k`. */
  function IdAt(es: seq<Event>, k: nat): nat
    requires k < |es|
  {
    Run(es, k).nextId
  }

  /** Ids only grow, whatever is detached, cleared or rejected in between: none is handed out twice. */
  lemma {:induction false} IdsGrow(es: seq<Event>, k: nat, n: nat)
    requires k < n <= |es| && es[k].Tracking?
    ensures IdAt(es, k) < Run(es, n).nextId
    ensures n < |es| && es[n].Tracking? ==> IdAt(es, k) < IdAt(es, n)
    decreases n
  {
    if k < n - 1 { IdsGrow(es, k, n - 1); }
  }

  /** What entry an id stands for after one event: the one just tracked, or the one it stood for before. */
  lemma StepStands(b: Book, e: Event, id: nat)
    requires id in Step(b, e).entries
    ensures e.Tracking? && id == b.nextId ==>
      Step(b, e).entries[id].type_ == e.type_ && Step(b, e).entries[id].upsert == e.upsert
    ensures !(e.Tracking? && id == b.nextId) ==>
      id in b.entries && Step(b, e).entries[id].type_ == b.entries[id].type_
      && Step(b, e).entries[id].upsert == b.entries[id].upsert
  {
    hide SnapMap, SameSnapshot, Changed;
  }

  /** An id in use stands for the one entry that was tracked when it was handed out. */
  lemma {:induction false} IdStandsForOne(es: seq<Event>, n: nat, id: nat) returns (k: nat)
    requires n <= |es| && id in Run(es, n).entries
    ensures k < n && es[k].Tracking? && IdAt(es, k) == id
    ensures Run(es, n).entries[id].type_ == es[k].type_ && Run(es, n).entries[id].upsert == es[k].upsert
    ensures forall j :: 0 <= j < n && es[j].Tracking? && IdAt(es, j) == id ==> j == k
  {
    hide Step;
    var b, e := Run(es, n - 1), es[n - 1];
    StepStands(b, e, id);
    if e.Tracking? && id == b.nextId {
      k := n - 1;
    } else {
      k := IdStandsForOne(es, n - 1, id);
    }
    forall j | 0 <= j < n && es[j].Tracking? && IdAt(es, j) == id ensures j == k {
      if j < k { IdsGrow(es, j, k); }
      if k < j { IdsGrow(es, k, j); }
    }
  }

  // ---------------------------------------------------------------------------
  // The tracker
  // ---------------------------------------------------------------------------

  class ChangeTracker {
    var entries: Entries
    var nextId: nat

    ghost function Now(): Book
      reads this
    {
      Book(entries, nextId)
    }

    /** Ids in use were handed out before. */
    ghost predicate Valid()
      reads this
    {
      forall id :: id in entries ==> id < nextId
    }

    constructor ()
      ensures Valid() && entries == map[] && nextId == 0
    {
      entries, nextId := map[], 0;
    }

    /** A new id, never handed out before: ids only grow. */
    method Track(type_: nat, state: EntityState, original: Option<Snapshot>, upsert: bool) returns (id: nat)
      requires Valid()
      modifies this
      ensures Valid() && id == old(nextId) < nextId && id !in old(entries)
      ensures Now() == Step(old(Now()), Tracking(type_, state, original, upsert))
    {
      id := nextId;
      nextId := nextId + 1;
      entries := entries[id := TrackedEntry(type_, state, original, [], upsert)];
    }

    /** Compares every entry with its current snapshot, in any order. */
    method DetectChanges(pairs: Snapshots)
      requires Valid()
      modifies this`entries
      ensures Valid() && Now() == Step(old(Now()), Detecting(pairs))
    {
      var snaps := SnapMap(pairs, |pairs|);
      var pending := entries.Keys;
      ghost var before := entries;
      while pending != {}
        invariant pending <= before.Keys == entries.Keys
        invariant forall id :: id in entries ==>
          entries[id] == if id in pending then before[id] else DetectEntry(before[id], Find(snaps, id))
      {
        var id :| id in pending;
        var e := entries[id];
        if e.state == Unchanged && e.original.Some? && id in snaps {
          if SameSnapshot(snaps[id], e.original.value) {
            entries := entries[id := e.(modified := [])];
          } else {
            var changed := Changed(snaps[id], e.original.value, |snaps[id]|);
            if changed != [] { entries := entries[id := e.(state := Modified, modified := changed)]; }
          }
        }
        pending := pending - {id};
      }
    }

    /** Deleted entries go; Added and Modified ones become Unchanged, with their snapshot as the original if
        there is one. */
    method AcceptAllChanges(pairs: Snapshots)
      requires Valid()
      modifies this`entries
      ensures Valid() && entries == Accept(old(entries), SnapMap(pairs, |pairs|))
    {
      var snaps := SnapMap(pairs, |pairs|);
      entries := map id | id in entries && entries[id].state != Deleted :: entries[id];
      var pending := entries.Keys;
      ghost var kept := entries;
      while pending != {}
        invariant pending <= kept.Keys == entries.Keys
        invariant forall id :: id in entries ==>
          entries[id] == if id in pending then kept[id] else AcceptEntry(kept[id], Find(snaps, id))
      {
        var id :| id in pending;
        var e := entries[id];
        if e.state == Added || e.state == Modified {
          entries := entries[id := e.(state := Unchanged, modified := [])];
          if id in snaps { entries := entries[id := entries[id].(original := Some(snaps[id]))]; }
        }
        pending := pending - {id};
      }
    }

    method RejectAllChanges()
      requires Valid()
      modifies this`entries
      ensures Valid() && Now() == Step(old(Now()), Rejecting)
    {
      entries := map id | id in entries && entries[id].state != Added :: entries[id];
      var pending := entries.Keys;
      ghost var kept := entries;
      while pending != {}
        invariant pending <= kept.Keys == entries.Keys
        invariant forall id :: id in entries ==>
          entries[id] == if id in pending || kept[id].state == Unchanged then kept[id]
                         else kept[id].(state := Unchanged, modified := [])
      {
        var id :| id in pending;
        var e := entries[id];
        if e.state == Modified || e.state == Deleted {
          entries := entries[id := e.(state := Unchanged, modified := [])];
        }
        pending := pending - {id};
      }
    }

    method SetState(id: nat, mark: EntityState)
      requires Valid()
      modifies this`entries
      ensures Valid() && Now() == Step(old(Now()), Marking(id, mark))
    {
      if id in entries { entries := entries[id := entries[id].(state := mark)]; }
    }

    method Detach(id: nat)
      requires Valid()
      modifies this`entries
      ensures Valid() && Now() == Step(old(Now()), Detaching(id))
    {
      entries := entries - {id};
    }

    method ClearByType(type_: nat)
      requires Valid()
      modifies this`entries
      ensures Valid() && Now() == Step(old(Now()), ClearingType(type_))
    {
      entries := map id | id in entries && entries[id].type_ != type_ :: entries[id];
    }

    /** Forgets all entries, but not which ids were handed out. */
    method Clear()
      requires Valid()
      modifies this`entries
      ensures Valid() && Now() == Step(old(Now()), Clearing)
    {
      entries := map[];
    }

    /** One set accepts: its Deleted entries leave it, and the tracker accepts with its snapshots. */
    method AcceptSet(sets: seq<DbSet>, k: nat, ghost before: Entries) returns (set_: DbSet)
      requires Valid() && k < |sets| && entries == AcceptedEntries(before, sets, k)
      modifies this`entries
      ensures Valid() && entries == AcceptedEntries(before, sets, k + 1)
      ensures set_ == AcceptedSet(before, sets, k)
    {
      set_ := Retained(sets[k], entries, |sets[k]|);
      AcceptAllChanges(set_);
    }

    /** After the data is saved every set accepts, one after the other. */
    method AcceptSets(sets: seq<DbSet>) returns (after: seq<DbSet>)
      requires Valid()
      modifies this`entries
      ensures Valid() && |after| == |sets| && entries == AcceptedEntries(old(entries), sets, |sets|)
      ensures forall k :: 0 <= k < |sets| ==> after[k] == AcceptedSet(old(entries), sets, k)
    {
      after := [];
      ghost var before := entries;
      for k := 0 to |sets|
        invariant Valid() && |after| == k && entries == AcceptedEntries(before, sets, k)
        invariant forall j :: 0 <= j < k ==> after[j] == AcceptedSet(before, sets, j)
      {
        var set_ := AcceptSet(sets, k, before);
        after := after + [set_];
      }
    }
  }

  // ---------------------------------------------------------------------------
  // Sets and tracker after a save
  // ---------------------------------------------------------------------------

  /** The entries of a set: tracker id and the entity's current values. */
  type DbSet = Snapshots

  /** The entries among the first `n` that the tracker does not have as Deleted. */
  function Retained(set_: DbSet, entries: Entries, n: nat): DbSet
    requires n <= |set_|
  {
    if n == 0 then []
    else
      var id := set_[n - 1].0;
      Retained(set_, entries, n - 1) + (if id in entries && entries[id].state == Deleted then [] else [set_[n - 1]])
  }

  /** The tracker after the first `n` sets have accepted. */
  function AcceptedEntries(entries: Entries, sets: seq<DbSet>, n: nat): Entries
    requires n <= |sets|
  {
    if n == 0 then entries
    else
      var before := AcceptedEntries(entries, sets, n - 1);
      var set_ := Retained(sets[n - 1], before, |sets[n - 1]|);
      Accept(before, SnapMap(set_, |set_|))
  }

  /** What is left of set `k` once it has accepted. */
  function AcceptedSet(entries: Entries, sets: seq<DbSet>, k: nat): DbSet
    requires k < |sets|
  {
    Retained(sets[k], AcceptedEntries(entries, sets, k), |sets[k]|)
  }

  /** The set entry is tracked as Unchanged with its current values as the original. */
  predicate InStep(x: (nat, Snapshot), entries: Entries) {
    x.0 in entries && entries[x.0].state == Unchanged && entries[x.0].original == Some(x.1)
  }

  ghost predicate SetInStep(set_: DbSet, entries: Entries) {
    forall i :: 0 <= i < |set_| ==> InStep(set_[i], entries)
  }

  /** Sets and tracker hold the same ids, each once. */
  ghost predicate Joined(sets: seq<DbSet>, entries: Entries) {
    && (forall k, i :: 0 <= k < |sets| && 0 <= i < |sets[k]| ==> sets[k][i].0 in entries)
    && (forall k, i, l, j | 0 <= k < |sets| && 0 <= i < |sets[k]| && 0 <= l < |sets| && 0 <= j < |sets[l]| ::
          sets[k][i].0 == sets[l][j].0 ==> k == l && i == j)
    && forall id :: id in entries ==> Held(sets, id)
  }

  predicate UnchangedInStep(x: (nat, Snapshot), entries: Entries)
    requires x.0 in entries
  {
    entries[x.0].state == Unchanged ==> InStep(x, entries)
  }

  predicate HeldBy(set_: DbSet, id: nat) {
    exists i :: 0 <= i < |set_| && set_[i].0 == id
  }

  predicate Held(sets: seq<DbSet>, id: nat) {
    exists k :: 0 <= k < |sets| && HeldBy(sets[k], id)
  }

  /** Sets and tracker hold the same ids, all Unchanged with the current values as original. */
  ghost predicate Agree(sets: seq<DbSet>, entries: Entries) {
    && (forall k :: 0 <= k < |sets| ==> SetInStep(sets[k], entries))
    && forall id :: id in entries ==> Held(sets, id)
  }

  predicate AllUnchanged(entries: Entries) {
    forall id :: id in entries ==> entries[id].state == Unchanged
  }

  /** The first set's turn settles the whole tracker: nothing is left for the other sets to accept. */
  lemma {:induction false} FirstSetDecides(entries: Entries, sets: seq<DbSet>, n: nat)
    requires 1 <= n <= |sets|
    ensures AllUnchanged(AcceptedEntries(entries, sets, n))
    ensures AcceptedEntries(entries, sets, n) == AcceptedEntries(entries, sets, 1)
  {
    hide SnapMap, Retained, AcceptEntry;
    if n > 1 {
      FirstSetDecides(entries, sets, n - 1);
      var before := AcceptedEntries(entries, sets, n - 1);
      var set_ := Retained(sets[n - 1], before, |sets[n - 1]|);
      NothingToAccept(before, SnapMap(set_, |set_|));
    } else {
      assert AcceptedEntries(entries, sets, 0) == entries;
      var set_ := Retained(sets[0], entries, |sets[0]|);
      AcceptSettles(entries, SnapMap(set_, |set_|));
    }
  }

  lemma NothingToAccept(entries: Entries, snaps: map<nat, Snapshot>)
    requires AllUnchanged(entries)
    ensures Accept(entries, snaps) == entries
  {
  }

  lemma AcceptSettles(entries: Entries, snaps: map<nat, Snapshot>)
    ensures AllUnchanged(Accept(entries, snaps))
  {
  }

  lemma {:induction false} NothingDropped(set_: DbSet, entries: Entries, n: nat)
    requires n <= |set_| && AllUnchanged(entries)
    ensures Retained(set_, entries, n) == set_[..n]
  {
    if n > 0 {
      NothingDropped(set_, entries, n - 1);
      assert set_[..n] == set_[..n - 1] + [set_[n - 1]];
    }
  }

  lemma {:induction false} RetainedAre(set_: DbSet, entries: Entries, n: nat)
    requires n <= |set_|
    ensures forall x :: x in Retained(set_, entries, n) <==>
      exists i :: 0 <= i < n && set_[i] == x && !(x.0 in entries && entries[x.0].state == Deleted)
  {
    if n > 0 { RetainedAre(set_, entries, n - 1); }
  }

  lemma {:induction false} RetainedDistinct(set_: DbSet, entries: Entries, n: nat)
    requires n <= |set_| && forall i, j :: 0 <= i < j < |set_| ==> set_[i].0 != set_[j].0
    ensures forall i, j :: 0 <= i < j < |Retained(set_, entries, n)| ==>
      Retained(set_, entries, n)[i].0 != Retained(set_, entries, n)[j].0
  {
    if n > 0 {
      RetainedDistinct(set_, entries, n - 1);
      RetainedAre(set_, entries, n - 1);
      var before := Retained(set_, entries, n - 1);
      forall i | 0 <= i < |before| ensures before[i].0 != set_[n - 1].0 {
        assert before[i] in before;
      }
    }
  }

  /** Whether accepting elsewhere leaves an entry in step. */
  predicate Settled(x: (nat, Snapshot), entries: Entries)
    requires x.0 in entries
  {
    entries[x.0].state != Deleted && entries[x.0].original == Some(x.1)
  }

  /** The entries of all sets but the first are settled. */
  ghost predicate LaterSettled(entries: Entries, sets: seq<DbSet>)
    requires Joined(sets, entries)
  {
    forall k, i :: 0 < k < |sets| && 0 <= i < |sets[k]| ==> Settled(sets[k][i], entries)
  }

  /** The Unchanged entries of the first set are in step. */
  ghost predicate FirstInStep(entries: Entries, sets: seq<DbSet>)
    requires |sets| > 0 && Joined(sets, entries)
  {
    forall i :: 0 <= i < |sets[0]| ==> UnchangedInStep(sets[0][i], entries)
  }

  /** An entry of the first set that is not Deleted ends in step exactly when it was not Unchanged or was in step. */
  lemma FirstEntryInStep(entries: Entries, sets: seq<DbSet>, i: nat)
    requires |sets| > 0 && Joined(sets, entries) && i < |sets[0]| && entries[sets[0][i].0].state != Deleted
    ensures InStep(sets[0][i], AcceptedEntries(entries, sets, 1)) <==> UnchangedInStep(sets[0][i], entries)
  {
    hide SnapMap, Retained;
    var set_ := Retained(sets[0], entries, |sets[0]|);
    assert AcceptedEntries(entries, sets, 0) == entries;
    RetainedDistinct(sets[0], entries, |sets[0]|);
    SnapMapAt(set_, |set_|);
    RetainedAre(sets[0], entries, |sets[0]|);
    assert sets[0][i] in set_;
    var h :| 0 <= h < |set_| && set_[h] == sets[0][i];
  }

  /** The entries of the first set that stay are in step afterwards exactly when its Unchanged ones were. */
  lemma FirstSetInStep(entries: Entries, sets: seq<DbSet>)
    requires |sets| > 0 && Joined(sets, entries)
    ensures SetInStep(Retained(sets[0], entries, |sets[0]|), AcceptedEntries(entries, sets, 1)) <==>
      FirstInStep(entries, sets)
  {
    hide InStep, UnchangedInStep, AcceptedEntries;
    var set_, after := Retained(sets[0], entries, |sets[0]|), AcceptedEntries(entries, sets, 1);
    RetainedAre(sets[0], entries, |sets[0]|);
    if SetInStep(set_, after) {
      forall i | 0 <= i < |sets[0]| ensures UnchangedInStep(sets[0][i], entries) {
        if entries[sets[0][i].0].state != Deleted {
          assert sets[0][i] in set_;
          var h :| 0 <= h < |set_| && set_[h] == sets[0][i];
          FirstEntryInStep(entries, sets, i);
        } else {
          DeletedSettled(sets[0][i], entries);
        }
      }
    }
    if FirstInStep(entries, sets) {
      forall h | 0 <= h < |set_| ensures InStep(set_[h], after) {
        assert set_[h] in set_;
        var i :| 0 <= i < |sets[0]| && sets[0][i] == set_[h]
                 && !(set_[h].0 in entries && entries[set_[h].0].state == Deleted);
        FirstEntryInStep(entries, sets, i);
      }
    }
  }

  lemma DeletedSettled(x: (nat, Snapshot), entries: Entries)
    requires x.0 in entries && entries[x.0].state == Deleted
    ensures UnchangedInStep(x, entries)
  {
  }

  /** An entry of a later set ends in step exactly when it was settled before. */
  lemma LaterEntryInStep(entries: Entries, sets: seq<DbSet>, k: nat, i: nat)
    requires 0 < k < |sets| && i < |sets[k]| && Joined(sets, entries)
    ensures InStep(sets[k][i], AcceptedEntries(entries, sets, 1)) <==> Settled(sets[k][i], entries)
  {
    hide SnapMap, Retained;
    var set_ := Retained(sets[0], entries, |sets[0]|);
    assert AcceptedEntries(entries, sets, 0) == entries;
    RetainedDistinct(sets[0], entries, |sets[0]|);
    SnapMapAt(set_, |set_|);
    RetainedAre(sets[0], entries, |sets[0]|);
    var x := sets[k][i];
    forall j | 0 <= j < |set_| ensures set_[j].0 != x.0 {
      assert set_[j] in set_;
      var h :| 0 <= h < |sets[0]| && sets[0][h] == set_[j];
    }
  }

  lemma StillHeld(entries: Entries, sets: seq<DbSet>, after: seq<DbSet>, id: nat)
    requires |sets| > 0 && |after| == |sets| && Joined(sets, entries) && id in entries && entries[id].state != Deleted
    requires after[0] == Retained(sets[0], entries, |sets[0]|) && forall k :: 0 < k < |sets| ==> after[k] == sets[k]
    ensures Held(after, id)
  {
    var k :| 0 <= k < |sets| && HeldBy(sets[k], id);
    var i :| 0 <= i < |sets[k]| && sets[k][i].0 == id;
    if k == 0 {
      RetainedAre(sets[0], entries, |sets[0]|);
      assert sets[0][i] in after[0];
      var j :| 0 <= j < |after[0]| && after[0][j] == sets[0][i];
      assert HeldBy(after[0], id);
    } else {
      assert HeldBy(after[k], id);
    }
  }

  /** Later sets keep all their entries: by their turn nothing is Deleted any more. */
  lemma LaterSetsKept(entries: Entries, sets: seq<DbSet>, k: nat)
    requires 0 < k < |sets|
    ensures AcceptedSet(entries, sets, k) == sets[k]
  {
    FirstSetDecides(entries, sets, k);
    NothingDropped(sets[k], AcceptedEntries(entries, sets, k), |sets[k]|);
    assert sets[k][..|sets[k]|] == sets[k];
  }

  lemma AllStillHeld(entries: Entries, sets: seq<DbSet>, after: seq<DbSet>)
    requires |sets| > 0 && |after| == |sets| && Joined(sets, entries)
    requires after[0] == Retained(sets[0], entries, |sets[0]|) && forall k :: 0 < k < |sets| ==> after[k] == sets[k]
    ensures forall id :: id in AcceptedEntries(entries, sets, 1) ==> Held(after, id)
  {
    assert AcceptedEntries(entries, sets, 0) == entries;
    forall id | id in AcceptedEntries(entries, sets, 1) ensures Held(after, id) {
      StillHeld(entries, sets, after, id);
    }
  }

  /** After a save sets and tracker agree exactly when every Unchanged entry of the first set was in step,
      which a linked child with a key is not, and every entry of the other sets was settled: a pending entry
      there loses its tracking, its original, or its removal from the set. */
  lemma AcceptAgrees(entries: Entries, sets: seq<DbSet>, after: seq<DbSet>)
    requires |sets| > 0 && |after| == |sets| && Joined(sets, entries)
    requires forall k :: 0 <= k < |sets| ==> after[k] == AcceptedSet(entries, sets, k)
    ensures Agree(after, AcceptedEntries(entries, sets, |sets|))
       <==> FirstInStep(entries, sets) && LaterSettled(entries, sets)
  {
    FirstSetDecides(entries, sets, |sets|);
    forall k | 0 < k < |sets| ensures after[k] == sets[k] {
      LaterSetsKept(entries, sets, k);
    }
    assert after[0] == Retained(sets[0], entries, |sets[0]|) by { assert after[0] == AcceptedSet(entries, sets, 0); }
    AgreeParts(entries, sets, after);
  }

  lemma AgreeParts(entries: Entries, sets: seq<DbSet>, after: seq<DbSet>)
    requires |sets| > 0 && |after| == |sets| && Joined(sets, entries)
    requires after[0] == Retained(sets[0], entries, |sets[0]|) && forall k :: 0 < k < |sets| ==> after[k] == sets[k]
    ensures Agree(after, AcceptedEntries(entries, sets, 1))
       <==> FirstInStep(entries, sets) && LaterSettled(entries, sets)
  {
    hide SetInStep, Settled;
    FirstSetInStep(entries, sets);
    AllStillHeld(entries, sets, after);
    LaterSetsInStep(entries, sets, after);
  }

  lemma LaterSetsInStep(entries: Entries, sets: seq<DbSet>, after: seq<DbSet>)
    requires |sets| > 0 && |after| == |sets| && Joined(sets, entries)
    requires forall k :: 0 < k < |sets| ==> after[k] == sets[k]
    ensures (forall k :: 0 < k < |sets| ==> SetInStep(after[k], AcceptedEntries(entries, sets, 1)))
       <==> LaterSettled(entries, sets)
  {
    forall k, i | 0 < k < |sets| && 0 <= i < |sets[k]|
      ensures InStep(sets[k][i], AcceptedEntries(entries, sets, 1)) <==> Settled(sets[k][i], entries) {
      LaterEntryInStep(entries, sets, k, i);
    }
    if forall k :: 0 < k < |sets| ==> SetInStep(after[k], AcceptedEntries(entries, sets, 1)) {
      forall k, i | 0 < k < |sets| && 0 <= i < |sets[k]| ensures Settled(sets[k][i], entries) {
        assert SetInStep(after[k], AcceptedEntries(entries, sets, 1));
        assert InStep(after[k][i], AcceptedEntries(entries, sets, 1));
      }
    }
  }

  /** Once sets and tracker agree the next detection finds nothing. */
  lemma NextDetectionFindsNothing(set_: DbSet, entries: Entries)
    requires AllUnchanged(entries) && SetInStep(set_, entries)
    requires forall i, j :: 0 <= i < j < |set_| ==> set_[i].0 != set_[j].0
    requires forall i :: 0 <= i < |set_| ==> UniqueFields(set_[i].1)
    ensures AllUnchanged(Detect(entries, SnapMap(set_, |set_|)))
  {
    SnapMapAt(set_, |set_|);
    forall id | id in entries ensures DetectEntry(entries[id], Find(SnapMap(set_, |set_|), id)).state == Unchanged {
      if id in SnapMap(set_, |set_|) {
        var i :| 0 <= i < |set_| && set_[i].0 == id;
        assert InStep(set_[i], entries);
        SameAsItself(set_[i].1);
      }
    }
  }

  lemma SameAsItself(s: Snapshot)
    requires UniqueFields(s)
    ensures SameSnapshot(s, s)
  {
    forall i | 0 <= i < |s| ensures Get(s, s[i].name) == Some(s[i].value) {
      GetAt(s, 0, i);
    }
  }

  /** One set with a child that came with a key and whose foreign key the save has set: sets and tracker
      disagree after accepting. */
  lemma KeyedChildDisagrees(entries: Entries, sets: seq<DbSet>, after: seq<DbSet>)
    requires entries == map[0 := TrackedEntry(0, Unchanged, Some([Field("parent_id", Null)]), [], false)]
    requires sets == [[(0, [Field("parent_id", Int(9))])]]
    requires |after| == 1 && after[0] == AcceptedSet(entries, sets, 0)
    ensures Joined(sets, entries) && !Agree(after, AcceptedEntries(entries, sets, 1))
  {
    assert HeldBy(sets[0], 0) && Held(sets, 0);
    AcceptAgrees(entries, sets, after);
    assert !UnchangedInStep(sets[0][0], entries);
  }

  /** An entry added through a later set keeps no original, so no later detection ever sees it change. */
  lemma LostOriginal(entries: Entries, sets: seq<DbSet>, k: nat, i: nat, snaps: map<nat, Snapshot>)
    requires 0 < k < |sets| && i < |sets[k]| && Joined(sets, entries)
    requires entries[sets[k][i].0].state == Added && entries[sets[k][i].0].original.None?
    ensures var final, id := AcceptedEntries(entries, sets, |sets|), sets[k][i].0;
      id in final && final[id].state == Unchanged && Detect(final, snaps)[id] == final[id]
  {
    FirstSetDecides(entries, sets, |sets|);
    assert AcceptedEntries(entries, sets, 0) == entries;
    var set_ := Retained(sets[0], entries, |sets[0]|);
    RetainedDistinct(sets[0], entries, |sets[0]|);
    SnapMapAt(set_, |set_|);
    RetainedAre(sets[0], entries, |sets[0]|);
    var x := sets[k][i];
    forall j | 0 <= j < |set_| ensures set_[j].0 != x.0 {
      assert set_[j] in set_;
      var h :| 0 <= h < |sets[0]| && sets[0][h] == set_[j];
    }
  }
}
