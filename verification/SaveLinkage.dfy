/** What the insert phase of a save does to foreign keys: in memory link by link, in rows by self-reference patches. */
module SaveLinkage {
  import opened Wrappers
  import opened SaveModel
  import CA = CascadeAdds

  /** A stored row: its foreign key columns and its other columns, in property order. */
  datatype Record = Record(fks: Row, values: seq<int>)

  /** The rows of a type under their keys. */
  type Table = map<int, Record>

  type Tables = map<TypeId, Table>

  /** The row an entity stands for. */
  function RecordOf(e: Entity): Record {
    Record(e.fks, e.values)
  }

  /** What the model says of a type: the types its foreign key properties point to, how many other
      properties it has besides the key, whether the database generates its key, and its concurrency tokens. */
  datatype TypeInfo = TypeInfo(targets: seq<TypeId>, width: nat, auto: bool, tokens: set<Property>)

  type Infos = map<TypeId, TypeInfo>

  /** The key each type's generator gives out next. */
  type Keys = map<TypeId, int>

  /** Every field that points to `target` gets the key. */
  function SetFk(fks: Row, targets: seq<TypeId>, target: TypeId, key: int): (r: Row)
    ensures |r| == |fks|
    ensures forall c :: 0 <= c < |fks| ==> r[c] == if c < |targets| && targets[c] == target then Some(key) else fks[c]
  {
    seq(|fks|, c requires 0 <= c < |fks| => if c < |targets| && targets[c] == target then Some(key) else fks[c])
  }

  /** The self-reference patch writes the first foreign key column, whatever it points to. */
  function PatchFirst(row: Row, key: int): Row {
    if |row| > 0 then row[0 := Some(key)] else row
  }

  function PatchRecord(r: Record, key: int): Record {
    r.(fks := PatchFirst(r.fks, key))
  }

  predicate Persists(e: Entry) {
    e.state == Added && !e.upsert
  }

  predicate Upserts(e: Entry) {
    e.state == Added && e.upsert
  }

  /** Not tracked, or inserted without regard to the rows there are. */
  predicate Aside(e: Entry) {
    e.state == Detached || Upserts(e)
  }

  predicate Stands(e: Entry) {
    e.state != Added && e.state != Detached
  }

  // ---------------------------------------------------------------------------
  // Shape of the data
  // ---------------------------------------------------------------------------

  /** Every set has its type's properties, table and key generator. */
  ghost predicate Registered(sets: Sets, infos: Infos, tables: Tables, next: Keys) {
    forall t :: t in sets ==> t in infos && t in tables && t in next
  }

  /** Entries have a field per foreign key property, generated keys lie above the stored ones, and no
      entry already there has the key of one to be inserted. */
  ghost predicate Backed(sets: Sets, infos: Infos, tables: Tables, next: Keys) {
    && Registered(sets, infos, tables, next)
    && forall t :: t in sets ==> SetBacked(sets[t], infos[t], tables[t], next[t])
  }

  ghost predicate SetBacked(es: seq<Entry>, info: TypeInfo, table: Table, next: int) {
    && KeysBelow(info, table, next)
    && forall i :: 0 <= i < |es| ==>
         && |es[i].entity.fks| == |info.targets|
         && (Stands(es[i]) ==> Known(es, es[i].entity.key, info, table, next))
  }

  /** The key is stored, or at least no inserted entry will get it. */
  ghost predicate Known(es: seq<Entry>, key: int, info: TypeInfo, table: Table, next: int) {
    || key in table
    || (if info.auto then key < next else forall j :: 0 <= j < |es| && Persists(es[j]) ==> es[j].entity.key != key)
  }

  ghost predicate FkSlot(links: seq<CA.Link>, k: nat, j: nat, t: TypeId, i: nat) {
    CA.SlotAt(links, k, j, t, i) && links[k].throughTable.None?
  }

  /** An entry through the phase: `idx` of type `child`, as a linked child of entry `at` of type `parent`,
      or unlinked, when it counts as its own parent. */
  datatype Watch = Watch(linked: bool, link: nat, slot: nat, parent: TypeId, at: nat, child: TypeId, idx: nat)

  /** A linked entry stands in one slot of one link without join table, an unlinked one in none. */
  ghost predicate Watching(w: Watch, sets: Sets, links: seq<CA.Link>) {
    && w.parent in sets && w.at < |sets[w.parent]| && w.child in sets && w.idx < |sets[w.child]|
    && (if w.linked
        then FkSlot(links, w.link, w.slot, w.child, w.idx)
          && links[w.link].parentType == w.parent && links[w.link].parentIdx == w.at
        else w.parent == w.child && w.at == w.idx)
    && (forall k, j :: FkSlot(links, k, j, w.child, w.idx) ==> w.linked && k == w.link && j == w.slot)
  }

  ghost predicate LinksFit(sets: Sets, links: seq<CA.Link>) {
    forall k :: 0 <= k < |links| ==> LinkFits(sets, links[k])
  }

  /** A link names entries there are; linked children are tracked and no upserts. */
  ghost predicate LinkFits(sets: Sets, l: CA.Link) {
    && l.parentType in sets && l.parentIdx < |sets[l.parentType]| && l.childType in sets
    && forall j :: 0 <= j < |l.children| ==>
         l.children[j] < |sets[l.childType]| && !Aside(sets[l.childType][l.children[j]])
  }

  /** The same entries but for keys of inserted ones and foreign keys. */
  ghost predicate SameShape(a: Sets, b: Sets) {
    a.Keys == b.Keys && forall t :: t in a ==> SetShape(a[t], b[t])
  }

  ghost predicate SetShape(a: seq<Entry>, b: seq<Entry>) {
    |a| == |b| && forall i :: 0 <= i < |a| ==> EntryShape(a[i], b[i])
  }

  ghost predicate EntryShape(a: Entry, b: Entry) {
    && b == a.(entity := a.entity.(key := b.entity.key, fks := b.entity.fks)) && |a.entity.fks| == |b.entity.fks|
    && (!Persists(a) ==> a.entity.key == b.entity.key)
  }

  lemma ShapeSelf(a: Sets)
    ensures SameShape(a, a)
  {
    forall t | t in a ensures SetShape(a[t], a[t]) {
      forall i | 0 <= i < |a[t]| ensures EntryShape(a[t][i], a[t][i]) { }
    }
  }

  lemma ShapeTwice(a: Sets, b: Sets, c: Sets)
    requires SameShape(a, b) && SameShape(b, c)
    ensures SameShape(a, c)
  {
    forall t | t in a ensures SetShape(a[t], c[t]) {
      assert SetShape(a[t], b[t]) && SetShape(b[t], c[t]);
      forall i | 0 <= i < |a[t]| ensures EntryShape(a[t][i], c[t][i]) {
        assert EntryShape(a[t][i], b[t][i]) && EntryShape(b[t][i], c[t][i]);
      }
    }
  }

  lemma ShapeAt(a: Sets, b: Sets, t: TypeId, i: nat)
    requires SameShape(a, b) && t in a && i < |a[t]|
    ensures t in b && |b[t]| == |a[t]| && EntryShape(a[t][i], b[t][i])
  {
    assert SetShape(a[t], b[t]);
  }

  lemma LinksFitKept(a: Sets, b: Sets, links: seq<CA.Link>)
    requires LinksFit(a, links) && SameShape(a, b)
    ensures LinksFit(b, links)
  {
    forall k | 0 <= k < |links| ensures LinkFits(b, links[k]) {
      var l := links[k];
      assert LinkFits(a, l);
      ShapeAt(a, b, l.parentType, l.parentIdx);
      forall j | 0 <= j < |l.children|
        ensures l.children[j] < |b[l.childType]| && !Aside(b[l.childType][l.children[j]]) {
        ShapeAt(a, b, l.childType, l.children[j]);
      }
      assert SetShape(a[l.childType], b[l.childType]);
    }
  }

  lemma WatchingKept(w: Watch, a: Sets, b: Sets, links: seq<CA.Link>)
    requires Watching(w, a, links) && SameShape(a, b)
    ensures Watching(w, b, links) && EntryShape(a[w.child][w.idx], b[w.child][w.idx])
  {
    ShapeAt(a, b, w.parent, w.at);
    ShapeAt(a, b, w.child, w.idx);
  }

  /** No other entry has this entry's key, upserts and untracked ones aside. */
  ghost predicate KeyAlone(es: seq<Entry>, idx: nat)
    requires idx < |es|
  {
    forall i :: 0 <= i < |es| && i != idx && !Aside(es[i]) ==> es[i].entity.key != es[idx].entity.key
  }

  // ---------------------------------------------------------------------------
  // Inserting one set
  // ---------------------------------------------------------------------------

  /** An inserted entry of a type with generated keys got one from `lo` up to `hi`; others keep theirs. */
  ghost predicate KeyGiven(e0: Entry, key: int, info: TypeInfo, lo: int, hi: int) {
    if Persists(e0) && info.auto then lo <= key < hi else key == e0.entity.key
  }

  /** Keys have been given to the first `n` entries, and nothing else has changed. */
  ghost predicate Keyed(es0: seq<Entry>, es: seq<Entry>, info: TypeInfo, lo: int, hi: int, n: nat)
    requires n <= |es0|
  {
    && |es| == |es0| && lo <= hi
    && (forall i :: 0 <= i < n ==>
         KeyGiven(es0[i], es[i].entity.key, info, lo, hi) && es[i] == WithKey(es0[i], es[i].entity.key))
    && (forall i :: n <= i < |es| ==> es[i] == es0[i])
  }

  function WithKey(e: Entry, key: int): Entry {
    e.(entity := e.entity.(key := key))
  }

  /** The key of an inserted entry among the first `n`. */
  ghost predicate InsertedKey(es: seq<Entry>, n: nat, key: int)
    requires n <= |es|
  {
    exists i :: 0 <= i < n && Persists(es[i]) && es[i].entity.key == key
  }

  /** The first `n` entries are inserted. */
  ghost predicate InsertedUpTo(es0: seq<Entry>, es: seq<Entry>, t0: Table, t: Table, n: nat)
    requires n <= |es0| == |es|
  {
    && (forall k :: k in t0 ==> k in t && t[k] == t0[k])
    && (forall k :: k in t ==> k in t0 || InsertedKey(es, n, k))
    && (forall i :: 0 <= i < n && Persists(es[i]) ==>
         es[i].entity.key in t && t[es[i].entity.key] == RecordOf(es[i].entity) && es[i].entity.key !in t0)
    && forall i, j :: 0 <= i < j < n && Persists(es[i]) && Persists(es[j]) ==> es[i].entity.key != es[j].entity.key
  }

  /** After its set is inserted, an inserted entry shares its key with no other entry that may be linked. */
  lemma InsertedAlone(es0: seq<Entry>, es: seq<Entry>, info: TypeInfo, t0: Table, t: Table, lo: int,
                      hi: int, idx: nat)
    requires Keyed(es0, es, info, lo, hi, |es0|) && InsertedUpTo(es0, es, t0, t, |es0|) && SetBacked(es0, info, t0, lo)
    requires idx < |es| && Persists(es[idx])
    ensures KeyAlone(es, idx)
  {
    forall i | 0 <= i < |es| && i != idx && !Aside(es[i]) ensures es[i].entity.key != es[idx].entity.key {
      if !Persists(es[i]) { assert Known(es0, es0[i].entity.key, info, t0, lo); }
    }
  }

  lemma InsertStep(es0: seq<Entry>, es: seq<Entry>, info: TypeInfo, t0: Table, t: Table, lo: int,
                   hi: int, n: nat, key: int)
    requires n < |es0| && Keyed(es0, es, info, lo, hi, n) && InsertedUpTo(es0, es, t0, t, n) && Persists(es[n])
    requires key !in t
    requires if info.auto then key == hi else key == es[n].entity.key
    ensures Keyed(es0, es[n := WithKey(es[n], key)], info, lo, if info.auto then hi + 1 else hi, n + 1)
    ensures InsertedUpTo(es0, es[n := WithKey(es[n], key)], t0, t[key := RecordOf(es[n].entity)], n + 1)
  {
    var after := es[n := WithKey(es[n], key)];
    assert Persists(after[n]) && after[n].entity.key == key;
    forall k | k in t && k !in t0 ensures InsertedKey(after, n + 1, k) {
      var i :| 0 <= i < n && Persists(es[i]) && es[i].entity.key == k;
      assert after[i] == es[i];
    }
  }

  lemma SkipStep(es0: seq<Entry>, es: seq<Entry>, t0: Table, t: Table, n: nat)
    requires n < |es0| == |es| && InsertedUpTo(es0, es, t0, t, n) && !Persists(es[n])
    ensures InsertedUpTo(es0, es, t0, t, n + 1)
  {
    forall k | k in t && k !in t0 ensures InsertedKey(es, n + 1, k) {
      var i :| 0 <= i < n && Persists(es[i]) && es[i].entity.key == k;
    }
  }

  /** Keys below the generator's next one. */
  ghost predicate KeysBelow(info: TypeInfo, table: Table, next: int) {
    info.auto ==> forall k :: k in table ==> k < next
  }

  /** How many of the first `n` entries are to be inserted. */
  function Inserts(es: seq<Entry>, n: nat): nat
    requires n <= |es|
  {
    if n == 0 then 0 else Inserts(es, n - 1) + (if Persists(es[n - 1]) then 1 else 0)
  }

  /** No INSERT meets a taken key: generated keys lie above the stored ones, own ones are free and differ. */
  ghost predicate FreeKeys(es: seq<Entry>, info: TypeInfo, table: Table, next: int) {
    if info.auto then KeysBelow(info, table, next)
    else
      && (forall i :: 0 <= i < |es| && Persists(es[i]) ==> es[i].entity.key !in table)
      && forall i, j :: 0 <= i < j < |es| && Persists(es[i]) && Persists(es[j]) ==> es[i].entity.key != es[j].entity.key
  }

  lemma {:induction false} SameInserts(a: seq<Entry>, b: seq<Entry>, n: nat)
    requires n <= |a| == |b| && forall i :: 0 <= i < |a| ==> (Persists(a[i]) <==> Persists(b[i]))
    ensures Inserts(a, n) == Inserts(b, n)
  {
    if n > 0 { SameInserts(a, b, n - 1); }
  }

  lemma {:induction false} MoreInserts(es: seq<Entry>, m: nat, n: nat)
    requires m <= n <= |es|
    ensures Inserts(es, m) <= Inserts(es, n)
  {
    if m < n { MoreInserts(es, m, n - 1); }
  }

  lemma BelowStep(info: TypeInfo, t: Table, hi: int, key: int, r: Record)
    requires info.auto ==> key == hi
    ensures KeysBelow(info, t, hi) ==> KeysBelow(info, t[key := r], if info.auto then hi + 1 else hi)
  {
  }

  /** With free keys the next entry's is free too. */
  lemma NextKeyFree(es0: seq<Entry>, es: seq<Entry>, info: TypeInfo, t0: Table, t: Table, lo: int, hi: int, n: nat)
    requires n < |es0| && Keyed(es0, es, info, lo, hi, n) && InsertedUpTo(es0, es, t0, t, n) && Persists(es[n])
    requires FreeKeys(es0, info, t0, lo) && (KeysBelow(info, t0, lo) ==> KeysBelow(info, t, hi))
    ensures (if info.auto then hi else es[n].entity.key) !in t
  {
    forall i | 0 <= i < n && Persists(es[i]) && !info.auto ensures es[i].entity.key != es[n].entity.key {
      assert KeyGiven(es0[i], es[i].entity.key, info, lo, hi);
    }
  }

  /** Inserts the Added entries that are not upserts, in order, and hands them their keys once all are
      in; fails on a taken key, or when the database has answered `left` statements. */
  method InsertSet(es0: seq<Entry>, info: TypeInfo, t0: Table, lo: int, left0: nat)
    returns (ok: bool, es: seq<Entry>, t: Table, hi: int, left: nat)
    ensures lo <= hi && left <= left0 && (KeysBelow(info, t0, lo) ==> KeysBelow(info, t, hi))
    ensures if ok then Keyed(es0, es, info, lo, hi, |es0|) && InsertedUpTo(es0, es, t0, t, |es0|) else es == es0
    ensures left0 >= Inserts(es0, |es0|) && FreeKeys(es0, info, t0, lo) ==> ok
    ensures ok ==> left == left0 - Inserts(es0, |es0|)
  {
    hide FreeKeys, KeysBelow;
    ok, es, t, hi, left := true, es0, t0, lo, left0;
    for n := 0 to |es0|
      invariant ok && Keyed(es0, es, info, lo, hi, n) && InsertedUpTo(es0, es, t0, t, n)
      invariant KeysBelow(info, t0, lo) ==> KeysBelow(info, t, hi)
      invariant left + Inserts(es0, n) == left0
    {
      MoreInserts(es0, n + 1, |es0|);
      if Persists(es[n]) {
        if FreeKeys(es0, info, t0, lo) { NextKeyFree(es0, es, info, t0, t, lo, hi, n); }
        if left == 0 { return false, es0, t, hi, 0; }
        left := left - 1;
        var key := if info.auto then hi else es[n].entity.key;
        if key in t { return false, es0, t, hi, left; }
        InsertStep(es0, es, info, t0, t, lo, hi, n, key);
        BelowStep(info, t, hi, key, RecordOf(es[n].entity));
        hi := if info.auto then hi + 1 else hi;
        t := t[key := RecordOf(es[n].entity)];
        es := es[n := WithKey(es[n], key)];
      } else {
        SkipStep(es0, es, t0, t, n);
      }
    }
  }

  lemma InsertedBacked(es0: seq<Entry>, es: seq<Entry>, info: TypeInfo, t0: Table, t: Table, lo: int,
                       hi: int)
    requires Keyed(es0, es, info, lo, hi, |es0|) && InsertedUpTo(es0, es, t0, t, |es0|) && SetBacked(es0, info, t0, lo)
    requires KeysBelow(info, t, hi)
    ensures SetBacked(es, info, t, hi)
  {
    forall i | 0 <= i < |es| && Stands(es[i]) ensures Known(es, es[i].entity.key, info, t, hi) {
      assert Known(es0, es0[i].entity.key, info, t0, lo);
    }
  }


  // ---------------------------------------------------------------------------
  // Foreign keys of one link
  // ---------------------------------------------------------------------------

  function WithFk(e: Entry, targets: seq<TypeId>, target: TypeId, key: int): Entry {
    e.(entity := e.entity.(fks := SetFk(e.entity.fks, targets, target, key)))
  }

  lemma WithFkTwice(e: Entry, targets: seq<TypeId>, target: TypeId, key: int)
    ensures WithFk(WithFk(e, targets, target, key), targets, target, key) == WithFk(e, targets, target, key)
  {
    var f := SetFk(e.entity.fks, targets, target, key);
    assert SetFk(f, targets, target, key) == f;
  }

  /** Writes the parent's key into the children's entities. */
  method FixChildren(es0: seq<Entry>, children: seq<nat>, targets: seq<TypeId>, target: TypeId, key: int)
    returns (es: seq<Entry>)
    requires forall j :: 0 <= j < |children| ==> children[j] < |es0|
    ensures |es| == |es0|
    ensures forall i :: 0 <= i < |es| ==>
      es[i] == if i in children then WithFk(es0[i], targets, target, key) else es0[i]
  {
    es := es0;
    for j := 0 to |children|
      invariant |es| == |es0|
      invariant forall i :: 0 <= i < |es| ==>
        es[i] == if i in children[..j] then WithFk(es0[i], targets, target, key) else es0[i]
    {
      var c := children[j];
      WithFkTwice(es0[c], targets, target, key);
      es := es[c := WithFk(es[c], targets, target, key)];
      assert children[..j + 1] == children[..j] + [c];
    }
    assert children[..|children|] == children;
  }

  /** A pending self-reference UPDATE: the foreign key to write and the row's key. */
  datatype Patch = Patch(fk: int, key: int)

  function PatchesOf(es: seq<Entry>, children: seq<nat>, fk: int): seq<Patch>
    requires forall j :: 0 <= j < |children| ==> children[j] < |es|
  {
    seq(|children|, j requires 0 <= j < |children| => Patch(fk, es[children[j]].entity.key))
  }

  method CollectPatches(patches0: seq<Patch>, es: seq<Entry>, children: seq<nat>, fk: int) returns (patches: seq<Patch>)
    requires forall j :: 0 <= j < |children| ==> children[j] < |es|
    ensures patches == patches0 + PatchesOf(es, children, fk)
  {
    patches := patches0;
    for j := 0 to |children|
      invariant |patches| == |patches0| + j && patches0 <= patches
      invariant forall h :: 0 <= h < j ==> patches[|patches0| + h] == Patch(fk, es[children[h]].entity.key)
    {
      patches := patches + [Patch(fk, es[children[j]].entity.key)];
    }
  }

  /** The patches for one row all write the same key; there is one exactly if `due`. */
  ghost predicate PatchesFor(patches: seq<Patch>, key: int, fk: int, due: bool) {
    && (forall i :: 0 <= i < |patches| && patches[i].key == key ==> due && patches[i].fk == fk)
    && (due ==> exists i :: 0 <= i < |patches| && patches[i].key == key)
  }

  /** The table once the patches have run: each row has the key its patches agree on. */
  ghost predicate PatchesRun(t0: Table, t: Table, patches: seq<Patch>) {
    && t.Keys == t0.Keys
    && forall k, fk, due :: k in t && PatchesFor(patches, k, fk, due) ==>
         t[k] == if due then PatchRecord(t0[k], fk) else t0[k]
  }

  /** Runs the patches on the type's table, as long as the database answers. */
  method ApplyPatches(t0: Table, patches: seq<Patch>, left0: nat)
    returns (ok: bool, t: Table, left: nat)
    ensures t.Keys == t0.Keys && (ok <==> left0 >= |patches|) && left == if ok then left0 - |patches| else 0
    ensures ok ==> PatchesRun(t0, t, patches)
  {
    t, left := t0, left0;
    for n := 0 to |patches|
      invariant t.Keys == t0.Keys && left + n == left0
      invariant forall k, fk, due :: k in t && PatchesFor(patches, k, fk, due) ==>
        t[k] == (if Patched(patches, n, k) then PatchRecord(t0[k], fk) else t0[k])
    {
      if left == 0 { return false, t, 0; }
      left := left - 1;
      var p := patches[n];
      if p.key in t {
        t := t[p.key := PatchRecord(t[p.key], p.fk)];
      }
      forall k, fk, due | k in t && PatchesFor(patches, k, fk, due)
        ensures t[k] == (if Patched(patches, n + 1, k) then PatchRecord(t0[k], fk) else t0[k]) {
        PatchedNext(patches, n, k);
      }
    }
    ok := true;
    forall k, fk, due | k in t && PatchesFor(patches, k, fk, due)
      ensures t[k] == if due then PatchRecord(t0[k], fk) else t0[k] {
      assert Patched(patches, |patches|, k) <==> due;
    }
  }

  ghost predicate Patched(patches: seq<Patch>, n: nat, key: int)
    requires n <= |patches|
  {
    exists i :: 0 <= i < n && patches[i].key == key
  }

  lemma PatchedNext(patches: seq<Patch>, n: nat, key: int)
    requires n < |patches|
    ensures Patched(patches, n + 1, key) <==> Patched(patches, n, key) || patches[n].key == key
  {
    if Patched(patches, n + 1, key) {
      var i :| 0 <= i < n + 1 && patches[i].key == key;
    }
  }

  // ---------------------------------------------------------------------------
  // All links of one parent type
  // ---------------------------------------------------------------------------

  /** Everything but foreign keys is the same. */
  ghost predicate SameButFks(a: Sets, b: Sets) {
    a.Keys == b.Keys && forall t :: t in a ==> EntriesSameButFks(a[t], b[t])
  }

  ghost predicate EntriesSameButFks(a: seq<Entry>, b: seq<Entry>) {
    |a| == |b| && forall i :: 0 <= i < |a| ==> EntrySameButFks(a[i], b[i])
  }

  ghost predicate EntrySameButFks(a: Entry, b: Entry) {
    |a.entity.fks| == |b.entity.fks| && b == a.(entity := a.entity.(fks := b.entity.fks))
  }

  lemma SelfSame(sets: Sets)
    ensures SameButFks(sets, sets)
  {
    forall u | u in sets ensures EntriesSameButFks(sets[u], sets[u]) {
      forall i | 0 <= i < |sets[u]| ensures EntrySameButFks(sets[u][i], sets[u][i]) { }
    }
  }

  lemma SameTwice(a: Sets, b: Sets, c: Sets)
    requires SameButFks(a, b) && SameButFks(b, c)
    ensures SameButFks(a, c)
  {
    forall t | t in a ensures EntriesSameButFks(a[t], c[t]) {
      assert EntriesSameButFks(a[t], b[t]) && EntriesSameButFks(b[t], c[t]);
      forall i | 0 <= i < |a[t]| ensures EntrySameButFks(a[t][i], c[t][i]) {
        assert EntrySameButFks(a[t][i], b[t][i]) && EntrySameButFks(b[t][i], c[t][i]);
      }
    }
  }

  lemma SameAt(a: Sets, b: Sets, t: TypeId, i: nat)
    requires SameButFks(a, b) && t in a && i < |a[t]|
    ensures t in b && |b[t]| == |a[t]| && EntrySameButFks(a[t][i], b[t][i])
  {
    assert EntriesSameButFks(a[t], b[t]);
  }

  lemma SameIsShape(a: Sets, b: Sets)
    requires SameButFks(a, b)
    ensures SameShape(a, b)
  {
    forall t | t in a ensures SetShape(a[t], b[t]) {
      assert EntriesSameButFks(a[t], b[t]);
      forall i | 0 <= i < |a[t]| ensures EntryShape(a[t][i], b[t][i]) {
        assert EntrySameButFks(a[t][i], b[t][i]);
      }
    }
  }

  function ChildFks(w: Watch, sets: Sets): Row
    requires w.child in sets && w.idx < |sets[w.child]|
  {
    sets[w.child][w.idx].entity.fks
  }

  function ChildKey(w: Watch, sets: Sets): int
    requires w.child in sets && w.idx < |sets[w.child]|
  {
    sets[w.child][w.idx].entity.key
  }

  function ParentKey(w: Watch, sets: Sets): int
    requires w.parent in sets && w.at < |sets[w.parent]|
  {
    sets[w.parent][w.at].entity.key
  }

  /** The foreign keys `fks` of the watched entry, once its link has written the parent's key. */
  function LinkedFks(w: Watch, fks: Row, infos: Infos, key: int): Row
    requires w.child in infos
  {
    SetFk(fks, infos[w.child].targets, w.parent, key)
  }

  /** What the phase works with: the model's types and the links of the drain. */
  datatype Job = Job(infos: Infos, links: seq<CA.Link>)

  predicate Due(w: Watch, t: TypeId, k: nat) {
    w.linked && w.parent == t && w.link < k
  }

  /** A watched entry once the links up to `k` of parent type `t` are fixed: its foreign keys, and the
      pending patches for its row, are those its own link calls for. */
  ghost predicate Fixing(w: Watch, sets0: Sets, sets: Sets, job: Job, t: TypeId, patches: seq<Patch>, k: nat)
    requires w.child in job.infos && t in job.infos && Watching(w, sets0, job.links) && SameButFks(sets0, sets)
  {
    SameAt(sets0, sets, w.child, w.idx);
    && ChildFks(w, sets) == (if Due(w, t, k) then LinkedFks(w, ChildFks(w, sets0), job.infos, ParentKey(w, sets0))
                             else ChildFks(w, sets0))
    && (w.child == t && KeyAlone(sets0[t], w.idx) ==>
         PatchesFor(patches, ChildKey(w, sets0), ParentKey(w, sets0), Due(w, t, k) && |job.infos[t].targets| > 0))
  }

  /** A link that mentions the watched entry is its own. */
  lemma OnlyOwnLink(w: Watch, sets: Sets, links: seq<CA.Link>, k: nat)
    requires Watching(w, sets, links) && k < |links| && links[k].throughTable.None?
    ensures links[k].childType == w.child && w.idx in links[k].children <==> w.linked && k == w.link
  {
    if links[k].childType == w.child && w.idx in links[k].children {
      var j :| 0 <= j < |links[k].children| && links[k].children[j] == w.idx;
      assert FkSlot(links, k, j, w.child, w.idx);
    }
  }

  /** The patches of one self-referencing link. */
  lemma PatchesStep(idx: nat, es: seq<Entry>, l: CA.Link, patches: seq<Patch>, more: seq<Patch>, pk: int, fk: int,
                    own: bool)
    requires idx < |es| && KeyAlone(es, idx) && (own <==> idx in l.children)
    requires forall j :: 0 <= j < |l.children| ==> l.children[j] < |es| && !Aside(es[l.children[j]])
    requires more == patches + PatchesOf(es, l.children, pk)
    requires own ==> pk == fk && PatchesFor(patches, es[idx].entity.key, fk, false)
    ensures !own ==> forall due ::
      PatchesFor(patches, es[idx].entity.key, fk, due) ==> PatchesFor(more, es[idx].entity.key, fk, due)
    ensures own ==> PatchesFor(more, es[idx].entity.key, fk, true)
  {
    var key, n := es[idx].entity.key, |patches|;
    forall i | n <= i < |more| && more[i].key == key ensures own && more[i].fk == pk {
      assert more[i] == Patch(pk, es[l.children[i - n]].entity.key);
      if l.children[i - n] != idx { assert false; }
    }
    assert forall i :: 0 <= i < n ==> more[i] == patches[i];
    if own {
      var j :| 0 <= j < |l.children| && l.children[j] == idx;
      assert more[n + j].key == key;
    }
  }

  /** What a link's fixup does: the children's foreign keys set, and patches if they have their parent's type. */
  ghost predicate LinkFixed(l: CA.Link, sets1: Sets, sets: Sets, infos: Infos, t: TypeId, patches1: seq<Patch>,
                            patches: seq<Patch>)
    requires LinkFits(sets1, l) && l.parentType == t && l.childType in infos && t in infos
  {
    var ct, pk := l.childType, sets1[t][l.parentIdx].entity.key;
    && ct in sets && |sets[ct]| == |sets1[ct]| && sets == sets1[ct := sets[ct]]
    && (forall i :: 0 <= i < |sets[ct]| ==>
         sets[ct][i] == if i in l.children then WithFk(sets1[ct][i], infos[ct].targets, t, pk) else sets1[ct][i])
    && patches == if ct == t && |infos[t].targets| > 0 then patches1 + PatchesOf(sets[ct], l.children, pk) else patches1
  }

  /** One link: foreign keys in memory, and patches when parent and child share their type. */
  method FixLink(l: CA.Link, sets1: Sets, infos: Infos, t: TypeId, patches1: seq<Patch>)
    returns (sets: Sets, patches: seq<Patch>)
    requires LinkFits(sets1, l) && l.parentType == t && t in infos && l.childType in infos
    ensures LinkFixed(l, sets1, sets, infos, t, patches1, patches) && SameButFks(sets1, sets)
  {
    var pk := sets1[t][l.parentIdx].entity.key;
    var es := FixChildren(sets1[l.childType], l.children, infos[l.childType].targets, t, pk);
    sets := sets1[l.childType := es];
    patches := patches1;
    if l.childType == t && |infos[t].targets| > 0 {
      patches := CollectPatches(patches1, es, l.children, pk);
    }
    FixedSame(sets1, l.childType, es) by {
      assert forall i :: 0 <= i < |es| ==> EntrySameButFks(sets1[l.childType][i], es[i]);
    }
  }

  lemma FixedSame(sets: Sets, ct: TypeId, es: seq<Entry>)
    requires ct in sets && EntriesSameButFks(sets[ct], es)
    ensures SameButFks(sets, sets[ct := es])
  {
    SelfSame(sets);
  }

  /** A watched entry through the fixup of link `k`. */
  lemma FixingStep(w: Watch, sets0: Sets, sets1: Sets, sets: Sets, job: Job, t: TypeId, patches1: seq<Patch>,
                   patches: seq<Patch>, k: nat)
    requires k < |job.links| && job.links[k].parentType == t && job.links[k].throughTable.None?
    requires w.child in job.infos && t in job.infos && job.links[k].childType in job.infos
    requires Watching(w, sets0, job.links) && SameButFks(sets0, sets1) && SameButFks(sets0, sets)
    requires Fixing(w, sets0, sets1, job, t, patches1, k)
    requires LinkFits(sets1, job.links[k]) && LinkFixed(job.links[k], sets1, sets, job.infos, t, patches1, patches)
    ensures Fixing(w, sets0, sets, job, t, patches, k + 1)
  {
    var l := job.links[k];
    OnlyOwnLink(w, sets0, job.links, k);
    SameAt(sets0, sets1, w.child, w.idx);
    SameAt(sets0, sets, w.child, w.idx);
    SameAt(sets0, sets1, w.parent, w.at);
    if w.child == t && KeyAlone(sets0[t], w.idx) && l.childType == t && |job.infos[t].targets| > 0 {
      KeyAloneKept(sets0[t], sets[t], w.idx);
      forall j | 0 <= j < |l.children| ensures !Aside(sets[t][l.children[j]]) {
        SameAt(sets0, sets, t, l.children[j]);
        SameAt(sets0, sets1, t, l.children[j]);
      }
      PatchesStep(w.idx, sets[t], l, patches1, patches, sets1[t][l.parentIdx].entity.key, ParentKey(w, sets0), w.linked
          && k == w.link);
    }
  }

  lemma KeyAloneKept(a: seq<Entry>, b: seq<Entry>, idx: nat)
    requires EntriesSameButFks(a, b) && idx < |a| && KeyAlone(a, idx)
    ensures KeyAlone(b, idx)
  {
    forall i | 0 <= i < |b| ensures EntrySameButFks(a[i], b[i]) { }
  }

  /** Every entry is fixed up to link `k`. */
  ghost predicate AllFixing(sets0: Sets, sets: Sets, job: Job, t: TypeId, patches: seq<Patch>, k: nat)
    requires t in job.infos && (forall u :: u in sets0 ==> u in job.infos) && SameButFks(sets0, sets)
  {
    forall w :: Watching(w, sets0, job.links) ==> Fixing(w, sets0, sets, job, t, patches, k)
  }

  /** Children of this type in the first `n` links whose parents have it too. */
  function SelfSlots(links: seq<CA.Link>, n: nat, t: TypeId): nat
    requires n <= |links|
  {
    if n == 0 then 0
    else
      var l := links[n - 1];
      SelfSlots(links, n - 1, t)
        + (if l.parentType == t && l.childType == t && l.throughTable.None? then |l.children| else 0)
  }

  /** An entry that may be linked has the key. */
  ghost predicate HasKey(es: seq<Entry>, key: int) {
    exists i :: 0 <= i < |es| && !Aside(es[i]) && es[i].entity.key == key
  }

  ghost predicate OnEntries(patches: seq<Patch>, es: seq<Entry>) {
    forall i :: 0 <= i < |patches| ==> HasKey(es, patches[i].key)
  }

  lemma HasKeyKept(a: seq<Entry>, b: seq<Entry>, key: int)
    requires EntriesSameButFks(a, b)
    ensures HasKey(a, key) <==> HasKey(b, key)
  {
    forall i | 0 <= i < |a| ensures a[i].entity.key == b[i].entity.key && (Aside(a[i]) <==> Aside(b[i])) {
      assert EntrySameButFks(a[i], b[i]);
    }
    if i :| 0 <= i < |a| && !Aside(a[i]) && a[i].entity.key == key { assert !Aside(b[i]); }
    if i :| 0 <= i < |b| && !Aside(b[i]) && b[i].entity.key == key { assert !Aside(a[i]); }
  }

  /** One link's patches are for its children's rows. */
  lemma PatchesOnEntries(l: CA.Link, sets1: Sets, sets: Sets, infos: Infos, t: TypeId, patches1: seq<Patch>,
                         patches: seq<Patch>)
    requires LinkFits(sets1, l) && l.parentType == t && l.childType in infos && t in infos && SameButFks(sets1, sets)
    requires LinkFixed(l, sets1, sets, infos, t, patches1, patches) && OnEntries(patches1, sets1[t])
    ensures OnEntries(patches, sets[t])
  {
    assert EntriesSameButFks(sets1[t], sets[t]);
    forall i | 0 <= i < |patches| ensures HasKey(sets[t], patches[i].key) {
      if i < |patches1| {
        HasKeyKept(sets1[t], sets[t], patches[i].key);
      } else {
        var c := l.children[i - |patches1|];
        assert EntrySameButFks(sets1[t][c], sets[t][c]);
        assert !Aside(sets[t][c]);
      }
    }
  }

  /** Some link has parent and children of this type. */
  ghost predicate SelfLinked(links: seq<CA.Link>, t: TypeId) {
    exists k :: 0 <= k < |links| && links[k].parentType == t && links[k].childType == t && links[k].throughTable.None?
  }

  method FixLinks(job: Job, sets0: Sets, t: TypeId) returns (sets: Sets, patches: seq<Patch>)
    requires LinksFit(sets0, job.links) && t in sets0 && forall u :: u in sets0 ==> u in job.infos
    ensures SameButFks(sets0, sets) && AllFixing(sets0, sets, job, t, patches, |job.links|)
    ensures patches != [] ==> SelfLinked(job.links, t)
    ensures |patches| <= SelfSlots(job.links, |job.links|, t) && OnEntries(patches, sets[t])
  {
    hide Fixing, Watching, LinkFixed, OnEntries;
    NoPatches(sets0[t]);
    sets, patches := sets0, [];
    SelfSame(sets0);
    StartFixing(sets0, job, t);
    for k := 0 to |job.links|
      invariant SameButFks(sets0, sets) && AllFixing(sets0, sets, job, t, patches, k)
      invariant patches != [] ==> SelfLinked(job.links, t)
      invariant |patches| <= SelfSlots(job.links, k, t) && OnEntries(patches, sets[t])
    {
      var l := job.links[k];
      SameIsShape(sets0, sets);
      LinksFitKept(sets0, sets, job.links);
      assert LinkFits(sets, l);
      if l.parentType == t && l.throughTable.None? {
        ghost var sets1, patches1 := sets, patches;
        sets, patches := FixLink(l, sets, job.infos, t, patches);
        SameTwice(sets0, sets1, sets);
        PatchCount(l, sets1, sets, job.infos, t, patches1, patches);
        PatchesOnEntries(l, sets1, sets, job.infos, t, patches1, patches);
        AllFixingStep(sets0, sets1, sets, job, t, patches1, patches, k);
      } else {
        SkippedLink(sets0, sets, job, t, patches, k);
      }
    }
  }

  lemma NoPatches(es: seq<Entry>)
    ensures OnEntries([], es)
  {
  }

  lemma PatchCount(l: CA.Link, sets1: Sets, sets: Sets, infos: Infos, t: TypeId, patches1: seq<Patch>,
                   patches: seq<Patch>)
    requires LinkFits(sets1, l) && l.parentType == t && l.childType in infos && t in infos
    requires LinkFixed(l, sets1, sets, infos, t, patches1, patches)
    ensures |patches| <= |patches1| + (if l.childType == t then |l.children| else 0)
  {
  }

  lemma StartFixing(sets0: Sets, job: Job, t: TypeId)
    requires t in job.infos && (forall u :: u in sets0 ==> u in job.infos) && SameButFks(sets0, sets0)
    ensures AllFixing(sets0, sets0, job, t, [], 0)
  {
  }

  lemma AllFixingStep(sets0: Sets, sets1: Sets, sets: Sets, job: Job, t: TypeId, patches1: seq<Patch>,
                      patches: seq<Patch>, k: nat)
    requires k < |job.links| && job.links[k].parentType == t && job.links[k].throughTable.None?
    requires t in job.infos && job.links[k].childType in job.infos && forall u :: u in sets0 ==> u in job.infos
    requires SameButFks(sets0, sets1) && SameButFks(sets0, sets) && AllFixing(sets0, sets1, job, t, patches1, k)
    requires LinkFits(sets1, job.links[k]) && LinkFixed(job.links[k], sets1, sets, job.infos, t, patches1, patches)
    ensures AllFixing(sets0, sets, job, t, patches, k + 1)
  {
    forall w | Watching(w, sets0, job.links) ensures Fixing(w, sets0, sets, job, t, patches, k + 1) {
      FixingStep(w, sets0, sets1, sets, job, t, patches1, patches, k);
    }
  }

  /** A link of another parent type, or with a join table, is no entry's link of this type. */
  lemma SkippedLink(sets0: Sets, sets: Sets, job: Job, t: TypeId, patches: seq<Patch>, k: nat)
    requires k < |job.links| && !(job.links[k].parentType == t && job.links[k].throughTable.None?)
    requires t in job.infos && (forall u :: u in sets0 ==> u in job.infos) && SameButFks(sets0, sets)
    requires AllFixing(sets0, sets, job, t, patches, k)
    ensures AllFixing(sets0, sets, job, t, patches, k + 1)
  {
    forall w | Watching(w, sets0, job.links) ensures Fixing(w, sets0, sets, job, t, patches, k + 1) {
      assert Fixing(w, sets0, sets, job, t, patches, k);
      assert w.linked ==> w.link != k || w.parent != t;
    }
  }
}
