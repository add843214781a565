/** The insert phase of a save: types in dependency order, then join rows; and what it leaves when it fails. */
module InsertPhase {
  import opened Wrappers
  import opened SaveModel
  import opened SaveLinkage
  import CA = CascadeAdds

  // ---------------------------------------------------------------------------
  // One type
  // ---------------------------------------------------------------------------

  /** The rows of type `t` are inserted, and its inserted entries have their keys. */
  ghost predicate RowsStep(s0: Sets, t0: Tables, n0: Keys, s: Sets, tables: Tables, next: Keys, infos: Infos, t: TypeId)
    requires Registered(s0, infos, t0, n0) && t in s0
  {
    && t in s && t in tables && t in next
    && s == s0[t := s[t]] && tables == t0[t := tables[t]] && next == n0[t := next[t]]
    && Keyed(s0[t], s[t], infos[t], n0[t], next[t], |s0[t]|) && InsertedUpTo(s0[t], s[t], t0[t], tables[t], |s0[t]|)
    && (KeysBelow(infos[t], t0[t], n0[t]) ==> KeysBelow(infos[t], tables[t], next[t]))
  }

  lemma KeyedShape(s0: Sets, es: seq<Entry>, info: TypeInfo, lo: int, hi: int, t: TypeId)
    requires t in s0 && Keyed(s0[t], es, info, lo, hi, |s0[t]|)
    ensures SameShape(s0, s0[t := es])
  {
    ShapeSelf(s0);
    forall i | 0 <= i < |es| ensures EntryShape(s0[t][i], es[i]) {
      assert KeyGiven(s0[t][i], es[i].entity.key, info, lo, hi);
    }
  }

  lemma RowsBacked(s0: Sets, t0: Tables, n0: Keys, s: Sets, tables: Tables, next: Keys, infos: Infos, t: TypeId)
    requires Backed(s0, infos, t0, n0) && t in s0 && RowsStep(s0, t0, n0, s, tables, next, infos, t)
    ensures Backed(s, infos, tables, next)
  {
    InsertedBacked(s0[t], s[t], infos[t], t0[t], tables[t], n0[t], next[t]);
  }

  /** Foreign keys do not matter to what the tables must have. */
  lemma FixedBacked(s0: Sets, s: Sets, infos: Infos, tables: Tables, next: Keys, t: TypeId, table: Table)
    requires Backed(s0, infos, tables, next) && SameButFks(s0, s) && t in s0 && table.Keys == tables[t].Keys
    ensures Backed(s, infos, tables[t := table], next)
  {
    forall u | u in s ensures SetBacked(s[u], infos[u], tables[t := table][u], next[u]) {
      assert SetBacked(s0[u], infos[u], tables[u], next[u]) && EntriesSameButFks(s0[u], s[u]);
      assert forall i :: 0 <= i < |s[u]| ==> EntrySameButFks(s0[u][i], s[u][i]);
      forall i | 0 <= i < |s[u]| && Stands(s[u][i])
        ensures Known(s[u], s[u][i].entity.key, infos[u], tables[t := table][u], next[u]) {
        assert Known(s0[u], s0[u][i].entity.key, infos[u], tables[u], next[u]);
      }
    }
  }

  // ---------------------------------------------------------------------------
  // What is left in memory
  // ---------------------------------------------------------------------------

  /** The keys once the types in `done` are inserted: generated ones are new, the others are the same. */
  ghost predicate KeysAfter(start: Sets, s: Sets, infos: Infos, n0: Keys, next: Keys, done: set<TypeId>) {
    && SameShape(start, s) && n0.Keys == next.Keys
    && forall t, i :: t in start && t in infos && t in n0 && 0 <= i < |start[t]| ==>
         KeyAfter(start[t][i], s, t, i, infos[t], n0[t], next[t], t in done)
  }

  ghost predicate KeyAfter(e0: Entry, s: Sets, t: TypeId, i: nat, info: TypeInfo, lo: int, hi: int, inserted: bool) {
    && lo <= hi && t in s && i < |s[t]|
    && (if inserted then KeyGiven(e0, s[t][i].entity.key, info, lo, hi) else s[t][i].entity.key == e0.entity.key)
  }

  /** The foreign keys once the types in `done` are inserted and their links fixed. */
  ghost predicate FksAfter(w: Watch, fks: Row, s: Sets, job: Job, done: set<TypeId>)
    requires w.child in job.infos && Watching(w, s, job.links)
  {
    ChildFks(w, s) == if w.linked && w.parent in done then LinkedFks(w, fks, job.infos, ParentKey(w, s)) else fks
  }

  ghost predicate AllFksAfter(start: Sets, s: Sets, job: Job, done: set<TypeId>)
    requires SameShape(start, s) && forall t :: t in start ==> t in job.infos
  {
    forall w :: Watching(w, start, job.links) ==>
      (WatchingKept(w, start, s, job.links); FksAfter(w, ChildFks(w, start), s, job, done))
  }

  /** Everything the phase may have changed in memory once the types in `done` are processed. */
  ghost predicate MemoryAfter(start: Sets, s: Sets, job: Job, n0: Keys, next: Keys, done: set<TypeId>) {
    && SameShape(start, s) && (forall t :: t in start ==> t in job.infos)
    && KeysAfter(start, s, job.infos, n0, next, done) && AllFksAfter(start, s, job, done)
  }

  lemma MemoryStart(start: Sets, job: Job, next: Keys)
    requires forall t :: t in start ==> t in job.infos && t in next
    ensures MemoryAfter(start, start, job, next, next, {}) && Unused(next, next, {})
  {
    ShapeSelf(start);
  }

  /** What processing type `type_` does to a watched entry in memory. */
  ghost predicate MemoryStep(w: Watch, s0: Sets, s: Sets, job: Job, type_: TypeId)
    requires w.child in job.infos && Watching(w, s0, job.links) && Watching(w, s, job.links)
  {
    && ChildFks(w, s)
         == (if w.linked && type_ == w.parent then LinkedFks(w, ChildFks(w, s0), job.infos, ParentKey(w, s))
                          else ChildFks(w, s0))
    && (type_ != w.parent ==> ParentKey(w, s) == ParentKey(w, s0))
  }

  lemma FksAfterStep(w: Watch, fks: Row, s0: Sets, s: Sets, job: Job, done: set<TypeId>, type_: TypeId)
    requires w.child in job.infos && Watching(w, s0, job.links) && Watching(w, s, job.links)
    requires FksAfter(w, fks, s0, job, done) && MemoryStep(w, s0, s, job, type_) && type_ !in done
    ensures FksAfter(w, fks, s, job, done + {type_})
  {
  }

  /** A type's rows inserted and its links fixed, as far as memory goes. */
  ghost predicate TypeInMemory(s0: Sets, s1: Sets, s: Sets, job: Job, t: TypeId, lo: int, hi: int)
    requires t in job.infos && forall u :: u in s0 ==> u in job.infos
  {
    && t in s0 && t in s1 && s1 == s0[t := s1[t]] && Keyed(s0[t], s1[t], job.infos[t], lo, hi, |s0[t]|)
    && SameButFks(s1, s) && exists patches :: AllFixing(s1, s, job, t, patches, |job.links|)
  }

  lemma TypeShape(s0: Sets, s1: Sets, s: Sets, job: Job, t: TypeId, lo: int, hi: int)
    requires t in job.infos && (forall u :: u in s0 ==> u in job.infos) && TypeInMemory(s0, s1, s, job, t, lo, hi)
    ensures SameShape(s0, s1) && SameShape(s1, s) && SameShape(s0, s)
  {
    KeyedShape(s0, s1[t], job.infos[t], lo, hi, t);
    SameIsShape(s1, s);
    ShapeTwice(s0, s1, s);
  }

  lemma MemoryStepOf(w: Watch, s0: Sets, s1: Sets, s: Sets, job: Job, t: TypeId, lo: int, hi: int)
    requires t in job.infos && (forall u :: u in s0 ==> u in job.infos) && TypeInMemory(s0, s1, s, job, t, lo, hi)
    requires Watching(w, s0, job.links)
    ensures Watching(w, s1, job.links) && Watching(w, s, job.links) && MemoryStep(w, s0, s, job, t)
  {
    TypeShape(s0, s1, s, job, t, lo, hi);
    WatchingKept(w, s0, s1, job.links);
    WatchingKept(w, s1, s, job.links);
    var patches :| AllFixing(s1, s, job, t, patches, |job.links|);
    assert Fixing(w, s1, s, job, t, patches, |job.links|);
    SameAt(s1, s, w.parent, w.at);
  }

  lemma KeysAfterStep(start: Sets, s0: Sets, s1: Sets, s: Sets, job: Job, n0: Keys, n1: Keys, t: TypeId, hi: int,
                      done: set<TypeId>)
    requires t in job.infos && (forall u :: u in s0 ==> u in job.infos) && t in n1 && t !in done
    requires KeysAfter(start, s0, job.infos, n0, n1, done) && n0[t] == n1[t]
    requires TypeInMemory(s0, s1, s, job, t, n1[t], hi)
    ensures KeysAfter(start, s, job.infos, n0, n1[t := hi], done + {t})
  {
    TypeShape(s0, s1, s, job, t, n1[t], hi);
    ShapeTwice(start, s0, s);
    forall u, i | u in start && u in job.infos && u in n0 && 0 <= i < |start[u]|
      ensures KeyAfter(start[u][i], s, u, i, job.infos[u], n0[u], n1[t := hi][u], u in done + {t}) {
      assert KeyAfter(start[u][i], s0, u, i, job.infos[u], n0[u], n1[u], u in done);
      ShapeAt(start, s, u, i);
      ShapeAt(start, s0, u, i);
      SameAt(s1, s, u, i);
      if u == t {
        assert KeyGiven(s0[t][i], s1[t][i].entity.key, job.infos[t], n1[t], hi);
      }
    }
  }

  lemma MemoryNext(start: Sets, s0: Sets, s1: Sets, s: Sets, job: Job, n0: Keys, n1: Keys, t: TypeId, hi: int,
                   done: set<TypeId>)
    requires MemoryAfter(start, s0, job, n0, n1, done) && t in job.infos && t in n1 && t !in done && n0[t] == n1[t]
    requires (forall u :: u in s0 ==> u in job.infos) && TypeInMemory(s0, s1, s, job, t, n1[t], hi)
    ensures MemoryAfter(start, s, job, n0, n1[t := hi], done + {t})
  {
    TypeShape(s0, s1, s, job, t, n1[t], hi);
    ShapeTwice(start, s0, s);
    KeysAfterStep(start, s0, s1, s, job, n0, n1, t, hi, done);
    forall w | Watching(w, start, job.links)
      ensures (WatchingKept(w, start, s, job.links); FksAfter(w, ChildFks(w, start), s, job, done + {t})) {
      WatchingKept(w, start, s0, job.links);
      WatchingKept(w, start, s, job.links);
      assert FksAfter(w, ChildFks(w, start), s0, job, done);
      MemoryStepOf(w, s0, s1, s, job, t, n1[t], hi);
      FksAfterStep(w, ChildFks(w, start), s0, s, job, done, t);
    }
  }

  // ---------------------------------------------------------------------------
  // What is stored
  // ---------------------------------------------------------------------------

  /** The row an inserted entry is stored with: as linked if its parent's type came first, patched in its
      first column when the parent has its own type. */
  function StoredRow(w: Watch, fks: Row, infos: Infos, parentKey: int, parentFirst: bool): Row
    requires w.child in infos
  {
    if !w.linked then fks
    else if w.parent == w.child then PatchFirst(fks, parentKey)
    else if parentFirst then LinkedFks(w, fks, infos, parentKey)
    else fks
  }

  /** The watched entry is stored under its own key, which no other entry has, with that row. */
  ghost predicate StoredAs(w: Watch, s: Sets, t: Tables, row: Row)
    requires w.child in s && w.idx < |s[w.child]|
  {
    && w.child in t && KeyAlone(s[w.child], w.idx) && ChildKey(w, s) in t[w.child]
    && t[w.child][ChildKey(w, s)] == Record(row, s[w.child][w.idx].entity.values)
  }

  /** What processing type `type_` does to an inserted entry's row. */
  ghost predicate RowStep(w: Watch, s0: Sets, t0: Tables, s: Sets, t: Tables, infos: Infos, type_: TypeId,
                          links: seq<CA.Link>)
    requires w.child in infos && Watching(w, s0, links) && Watching(w, s, links)
  {
    && (type_ == w.child ==> StoredAs(w, s, t, StoredRow(w, ChildFks(w, s0), infos, ParentKey(w, s), false)))
    && (type_ != w.child ==>
         && ChildKey(w, s) == ChildKey(w, s0) && (w.child in t0 ==> w.child in t && t[w.child] == t0[w.child])
         && s[w.child][w.idx].entity.values == s0[w.child][w.idx].entity.values
         && (KeyAlone(s0[w.child], w.idx) ==> KeyAlone(s[w.child], w.idx)))
  }

  /** An inserted entry while the types in `done` have been processed. */
  ghost predicate RowAfter(w: Watch, fks: Row, s: Sets, t: Tables, job: Job, done: set<TypeId>, parentFirst: bool)
    requires w.child in job.infos && Watching(w, s, job.links)
  {
    && (w.child in done ==> StoredAs(w, s, t, StoredRow(w, fks, job.infos, ParentKey(w, s), parentFirst)))
    && (w.linked && w.parent != w.child && w.child in done && w.parent !in done ==> !parentFirst)
  }

  lemma RowAfterStep(w: Watch, fks: Row, s0: Sets, t0: Tables, s: Sets, t: Tables, job: Job, done: set<TypeId>,
                     parentFirst: bool, type_: TypeId)
    requires w.child in job.infos && Watching(w, s0, job.links) && Watching(w, s, job.links) && type_ !in done
    requires RowAfter(w, fks, s0, t0, job, done, parentFirst) && FksAfter(w, fks, s0, job, done)
    requires MemoryStep(w, s0, s, job, type_) && RowStep(w, s0, t0, s, t, job.infos, type_, job.links)
    requires type_ == w.child && w.parent != w.child ==> (parentFirst <==> w.parent in done)
    ensures RowAfter(w, fks, s, t, job, done + {type_}, parentFirst)
  {
  }

  ghost predicate Precedes(order: seq<TypeId>, p: TypeId, c: TypeId) {
    exists i, j :: 0 <= i < j < |order| && order[i] == p && order[j] == c
  }

  /** The rows of all inserted entries once the types in `done` are processed. */
  ghost predicate RowsAfter(start: Sets, s: Sets, t: Tables, job: Job, done: set<TypeId>, order: seq<TypeId>) {
    && SameShape(start, s) && (forall u :: u in start ==> u in job.infos)
    && forall w :: Watching(w, start, job.links) && Persists(start[w.child][w.idx]) ==>
         (WatchingKept(w, start, s, job.links);
          RowAfter(w, ChildFks(w, start), s, t, job, done, Precedes(order, w.parent, w.child)))
  }

  /** The row of the watched entry after its own type's inserts and patches. */
  lemma OwnRow(w: Watch, s0: Sets, t0: Tables, n0: Keys, s1: Sets, t1: Tables, n1: Keys, s: Sets, table: Table,
               job: Job, patches: seq<Patch>)
    requires Backed(s0, job.infos, t0, n0) && Watching(w, s0, job.links) && Persists(s0[w.child][w.idx])
    requires RowsStep(s0, t0, n0, s1, t1, n1, job.infos, w.child) && SameShape(s0, s1)
    requires (forall u :: u in s1 ==> u in job.infos) && SameButFks(s1, s)
    requires AllFixing(s1, s, job, w.child, patches, |job.links|)
    requires PatchesRun(t1[w.child], table, patches)
    ensures Watching(w, s, job.links)
    ensures StoredAs(w, s, t1[w.child := table], StoredRow(w, ChildFks(w, s0), job.infos, ParentKey(w, s), false))
  {
    var t := w.child;
    WatchingKept(w, s0, s1, job.links);
    SameIsShape(s1, s);
    WatchingKept(w, s1, s, job.links);
    InsertedAlone(s0[t], s1[t], job.infos[t], t0[t], t1[t], n0[t], n1[t], w.idx);
    assert EntriesSameButFks(s1[t], s[t]);
    KeyAloneKept(s1[t], s[t], w.idx);
    SameAt(s1, s, t, w.idx);
    SameAt(s1, s, w.parent, w.at);
    assert Fixing(w, s1, s, job, t, patches, |job.links|);
    var due := Due(w, t, |job.links|) && |job.infos[t].targets| > 0;
    assert PatchesFor(patches, ChildKey(w, s1), ParentKey(w, s1), due);
    assert SetBacked(s0[t], job.infos[t], t0[t], n0[t]);
    assert KeyGiven(s0[t][w.idx], s1[t][w.idx].entity.key, job.infos[t], n0[t], n1[t]);
  }

  lemma RowStepOf(w: Watch, s0: Sets, t0: Tables, n0: Keys, s1: Sets, t1: Tables, n1: Keys, s: Sets,
                  table: Table,
                  job: Job, t: TypeId, patches: seq<Patch>)
    requires Backed(s0, job.infos, t0, n0) && Watching(w, s0, job.links) && Persists(s0[w.child][w.idx])
    requires t in s0 && RowsStep(s0, t0, n0, s1, t1, n1, job.infos, t) && SameShape(s0, s1)
    requires (forall u :: u in s1 ==> u in job.infos) && SameButFks(s1, s)
    requires AllFixing(s1, s, job, t, patches, |job.links|)
    requires PatchesRun(t1[t], table, patches)
    ensures Watching(w, s, job.links) && RowStep(w, s0, t0, s, t1[t := table], job.infos, t, job.links)
  {
    WatchingKept(w, s0, s1, job.links);
    SameIsShape(s1, s);
    WatchingKept(w, s1, s, job.links);
    if t == w.child {
      OwnRow(w, s0, t0, n0, s1, t1, n1, s, table, job, patches);
    } else {
      SameAt(s1, s, w.child, w.idx);
      assert EntriesSameButFks(s1[w.child], s[w.child]);
      if KeyAlone(s0[w.child], w.idx) { KeyAloneKept(s1[w.child], s[w.child], w.idx); }
    }
  }

  lemma RowsNext(start: Sets, s0: Sets, t0: Tables, n0: Keys, s1: Sets, t1: Tables, n1: Keys, s: Sets,
                 table: Table,
                 job: Job, t: TypeId, patches: seq<Patch>, done: set<TypeId>, order: seq<TypeId>)
    requires Backed(s0, job.infos, t0, n0) && t in s0 && t !in done && SameShape(start, s0)
    requires RowsAfter(start, s0, t0, job, done, order) && AllFksAfter(start, s0, job, done)
    requires RowsStep(s0, t0, n0, s1, t1, n1, job.infos, t)
    requires SameButFks(s1, s) && AllFixing(s1, s, job, t, patches, |job.links|) && PatchesRun(t1[t], table, patches)
    requires forall p :: p in start && p != t ==> (Precedes(order, p, t) <==> p in done)
    ensures RowsAfter(start, s, t1[t := table], job, done + {t}, order)
  {
    assert TypeInMemory(s0, s1, s, job, t, n0[t], n1[t]);
    TypeShape(s0, s1, s, job, t, n0[t], n1[t]);
    ShapeTwice(start, s0, s);
    forall w | Watching(w, start, job.links) && Persists(start[w.child][w.idx])
      ensures (WatchingKept(w, start, s, job.links);
               RowAfter(w, ChildFks(w, start), s, t1[t := table], job, done
                   + {t}, Precedes(order, w.parent, w.child))) {
      WatchingKept(w, start, s0, job.links);
      WatchingKept(w, start, s, job.links);
      MemoryStepOf(w, s0, s1, s, job, t, n0[t], n1[t]);
      RowStepOf(w, s0, t0, n0, s1, t1, n1, s, table, job, t, patches);
      assert FksAfter(w, ChildFks(w, start), s0, job, done);
      RowAfterStep(w, ChildFks(w, start), s0, t0, s, t1[t := table], job, done, Precedes(order, w.parent, w.child), t);
    }
  }

  /** A table with the types in `done` processed: no row goes, new rows are those of inserted entries, and
      old ones are the same unless the type is linked to itself and an entry has the row's key. */
  ghost predicate TableAfter(a: Table, es: seq<Entry>, b: Table, selfLinked: bool, done: bool) {
    if !done then b == a
    else
      && (forall k :: k in a ==> k in b) && (forall k :: k in b ==> k in a || InsertedKey(es, |es|, k))
      && (forall k :: k in a && !(selfLinked && HasKey(es, k)) ==> b[k] == a[k])
      && forall k :: k in a ==> !InsertedKey(es, |es|, k)
  }

  ghost predicate TablesAfter(t0: Tables, s: Sets, t: Tables, links: seq<CA.Link>, done: set<TypeId>) {
    t.Keys == t0.Keys && forall u :: u in t0 && u in s ==>
        TableAfter(t0[u], s[u], t[u], SelfLinked(links, u), u in done)
  }

  lemma SameInsertedKeys(a: seq<Entry>, b: seq<Entry>, key: int)
    requires EntriesSameButFks(a, b)
    ensures InsertedKey(a, |a|, key) <==> InsertedKey(b, |b|, key)
  {
    forall i | 0 <= i < |a| ensures a[i].entity.key == b[i].entity.key && (Persists(a[i]) <==> Persists(b[i])) {
      assert EntrySameButFks(a[i], b[i]);
    }
    if i :| 0 <= i < |a| && Persists(a[i]) && a[i].entity.key == key { assert Persists(b[i]); }
    if i :| 0 <= i < |b| && Persists(b[i]) && b[i].entity.key == key { assert Persists(a[i]); }
  }

  lemma TablesNext(start: Tables, s0: Sets, t0: Tables, n0: Keys, s1: Sets, t1: Tables, n1: Keys, s: Sets,
                   table: Table,
                   job: Job, t: TypeId, patches: seq<Patch>, done: set<TypeId>)
    requires Registered(s0, job.infos, t0, n0) && t in s0 && t !in done
    requires RowsStep(s0, t0, n0, s1, t1, n1, job.infos, t)
    requires TablesAfter(start, s0, t0, job.links, done) && SameButFks(s1, s)
    requires PatchesRun(t1[t], table, patches) && (patches != [] ==> SelfLinked(job.links, t))
    requires t in s && OnEntries(patches, s[t])
    ensures TablesAfter(start, s, t1[t := table], job.links, done + {t})
  {
    forall u | u in start && u in s
      ensures TableAfter(start[u], s[u], t1[t := table][u], SelfLinked(job.links, u), u in done + {t}) {
      assert EntriesSameButFks(s1[u], s[u]);
      assert TableAfter(start[u], s0[u], t0[u], SelfLinked(job.links, u), u in done);
      if u == t {
        OwnTable(start[t], s1[t], t1[t], s[t], table, patches, SelfLinked(job.links, t));
      } else {
        forall k ensures InsertedKey(s0[u], |s0[u]|, k) <==> InsertedKey(s[u], |s[u]|, k) {
          SameInsertedKeys(s0[u], s[u], k);
        }
        forall k ensures HasKey(s0[u], k) <==> HasKey(s[u], k) { HasKeyKept(s0[u], s[u], k); }
      }
    }
  }

  lemma OwnTable(a: Table, es1: seq<Entry>, t1: Table, es: seq<Entry>, table: Table,
                 patches: seq<Patch>,
                 selfLinked: bool)
    requires (forall k :: k in a ==> k in t1 && t1[k] == a[k])
    requires (forall k :: k in t1 ==> k in a || InsertedKey(es1, |es1|, k))
    requires forall k :: k in a ==> !InsertedKey(es1, |es1|, k)
    requires EntriesSameButFks(es1, es) && PatchesRun(t1, table, patches) && (patches != [] ==> selfLinked)
    requires OnEntries(patches, es)
    ensures TableAfter(a, es, table, selfLinked, true)
  {
    forall k ensures InsertedKey(es1, |es1|, k) <==> InsertedKey(es, |es|, k) { SameInsertedKeys(es1, es, k); }
    forall k | k in a && !(selfLinked && HasKey(es, k)) ensures table[k] == a[k] {
      assert PatchesFor(patches, k, 0, false);
    }
  }

  // ---------------------------------------------------------------------------
  // Join rows
  // ---------------------------------------------------------------------------

  datatype JoinRow = JoinRow(table: string, parentColumn: string, childColumn: string, parentKey: int, childKey: int)

  predicate Complete(l: CA.Link) {
    l.throughTable.Some? && l.throughParent.Some? && l.throughChild.Some?
  }

  function LinkJoins(l: CA.Link, sets: Sets): seq<JoinRow>
    requires LinkFits(sets, l)
  {
    if Complete(l) then
      seq(|l.children|, j requires 0 <= j < |l.children| =>
        JoinRow(l.throughTable.value, l.throughParent.value, l.throughChild.value,
                sets[l.parentType][l.parentIdx].entity.key, sets[l.childType][l.children[j]].entity.key))
    else []
  }

  /** The join rows of each link. */
  function JoinParts(links: seq<CA.Link>, sets: Sets): (parts: seq<seq<JoinRow>>)
    requires LinksFit(sets, links)
    ensures |parts| == |links|
  {
    seq(|links|, k requires 0 <= k < |links| => LinkJoins(links[k], sets))
  }

  lemma PartAt(links: seq<CA.Link>, sets: Sets, k: nat)
    requires LinksFit(sets, links) && k < |links|
    ensures LinkFits(sets, links[k]) && JoinParts(links, sets)[k] == LinkJoins(links[k], sets)
  {
  }

  function Flatten(parts: seq<seq<JoinRow>>, n: nat): seq<JoinRow>
    requires n <= |parts|
  {
    if n == 0 then [] else Flatten(parts, n - 1) + parts[n - 1]
  }

  /** Rows of the first `n` links. */
  function RowCount(parts: seq<seq<JoinRow>>, n: nat): nat
    requires n <= |parts|
  {
    if n == 0 then 0 else RowCount(parts, n - 1) + |parts[n - 1]|
  }

  lemma {:induction false} FlattenAt(parts: seq<seq<JoinRow>>, n: nat, k: nat, j: nat)
    requires k < n <= |parts| && j < |parts[k]|
    ensures RowCount(parts, k) + j < RowCount(parts, n) == |Flatten(parts, n)|
    ensures Flatten(parts, n)[RowCount(parts, k) + j] == parts[k][j]
  {
    FlattenLength(parts, n - 1);
    if k < n - 1 { FlattenAt(parts, n - 1, k, j); }
  }

  lemma {:induction false} FlattenLength(parts: seq<seq<JoinRow>>, n: nat)
    requires n <= |parts|
    ensures |Flatten(parts, n)| == RowCount(parts, n)
  {
    if n > 0 { FlattenLength(parts, n - 1); }
  }

  lemma Associate(a: seq<JoinRow>, b: seq<JoinRow>, c: seq<JoinRow>)
    ensures a + b + c == a + (b + c)
  {
  }

  // ---------------------------------------------------------------------------
  // The order of types
  // ---------------------------------------------------------------------------

  /** The registered types among the first `k` of the order. */
  ghost function DoneTypes(order: seq<TypeId>, k: nat, registered: set<TypeId>): set<TypeId>
    requires k <= |order|
  {
    set i | 0 <= i < k && order[i] in registered :: order[i]
  }

  lemma DoneStep(order: seq<TypeId>, k: nat, registered: set<TypeId>)
    requires Distinct(order) && k < |order|
    ensures order[k] !in DoneTypes(order, k, registered)
    ensures DoneTypes(order, 0, registered) == {}
    ensures order[k] in registered ==>
      DoneTypes(order, k + 1, registered) == DoneTypes(order, k, registered) + {order[k]}
    ensures order[k] !in registered ==> DoneTypes(order, k + 1, registered) == DoneTypes(order, k, registered)
    ensures forall p :: p in registered && p != order[k] ==>
      (Precedes(order, p, order[k]) <==> p in DoneTypes(order, k, registered))
  {
    forall p | p in registered && p != order[k]
      ensures Precedes(order, p, order[k]) <==> p in DoneTypes(order, k, registered) {
      if Precedes(order, p, order[k]) {
        var i, j :| 0 <= i < j < |order| && order[i] == p && order[j] == order[k];
        assert j == k;
      }
    }
  }

  // ---------------------------------------------------------------------------
  // The phase
  // ---------------------------------------------------------------------------

  /** Generators of types still to be processed have given out nothing. */
  ghost predicate Unused(n0: Keys, next: Keys, done: set<TypeId>) {
    n0.Keys == next.Keys && forall t :: t in n0 && t !in done ==> next[t] == n0[t]
  }

  /** A failed INSERT may have used up keys, which nothing in memory has. */
  lemma KeysUsedUp(start: Sets, s: Sets, job: Job, n0: Keys, next: Keys, t: TypeId, hi: int, done: set<TypeId>)
    requires MemoryAfter(start, s, job, n0, next, done) && t in next && t !in done && next[t] <= hi
    ensures MemoryAfter(start, s, job, n0, next[t := hi], done)
  {
    forall u, i | u in start && u in job.infos && u in n0 && 0 <= i < |start[u]|
      ensures KeyAfter(start[u][i], s, u, i, job.infos[u], n0[u], next[t := hi][u], u in done) {
      assert KeyAfter(start[u][i], s, u, i, job.infos[u], n0[u], next[u], u in done);
    }
  }

  lemma RowsStart(start: Sets, t: Tables, job: Job, order: seq<TypeId>)
    requires forall u :: u in start ==> u in job.infos
    ensures RowsAfter(start, start, t, job, {}, order)
  {
    ShapeSelf(start);
  }

  class InsertPhase {
    const job: Job
    var sets: Sets
    var tables: Tables
    var joins: seq<JoinRow>
    var next: Keys
    /** How many statements the database still answers. */
    var left: nat

    constructor (job: Job, sets: Sets, tables: Tables, joins: seq<JoinRow>, next: Keys, left: nat)
      ensures this.job == job && this.sets == sets && this.tables == tables && this.joins == joins
      ensures this.next == next && this.left == left
    {
      this.job, this.sets, this.tables, this.joins, this.next, this.left := job, sets, tables, joins, next, left;
    }

    ghost predicate Ready()
      reads this
    {
      Registered(sets, job.infos, tables, next) && LinksFit(sets, job.links)
    }

    /** Inserts the rows of one type; the entities get their keys only if all of them are in. */
    method InsertRows(t: TypeId) returns (ok: bool)
      requires Ready() && t in sets
      modifies this`sets, this`tables, this`next, this`left
      ensures Ready() && t in old(sets) && t in old(next) && t in next && next == old(next)[t := next[t]]
      ensures old(next)[t] <= next[t]
      ensures ok ==> RowsStep(old(sets), old(tables), old(next), sets, tables, next, job.infos, t)
      ensures ok ==> SameShape(old(sets), sets)
      ensures !ok ==> sets == old(sets)
      ensures FreeKeys(old(sets)[t], job.infos[t], old(tables)[t], old(next)[t]) ==>
        old(left) >= Inserts(old(sets)[t], |old(sets)[t]|) ==> ok
      ensures ok ==> left == old(left) - Inserts(old(sets)[t], |old(sets)[t]|)
    {
      var es, table, hi;
      ok, es, table, hi, left := InsertSet(sets[t], job.infos[t], tables[t], next[t], left);
      if ok {
        KeyedShape(sets, es, job.infos[t], next[t], hi, t);
        LinksFitKept(sets, sets[t := es], job.links);
      }
      sets, tables, next := sets[t := es], tables[t := table], next[t := hi];
    }

    /** Links the children of one type's entries in memory, then patches its self-references. */
    method FixAndPatch(t: TypeId) returns (ok: bool, ghost patches: seq<Patch>)
      requires Ready() && t in sets
      modifies this`sets, this`tables, this`left
      ensures Ready() && SameButFks(old(sets), sets)
      ensures (forall u :: u in old(sets) ==> u in job.infos)
           && AllFixing(old(sets), sets, job, t, patches, |job.links|)
      ensures t in old(tables) && t in tables && tables == old(tables)[t := tables[t]]
      ensures ok ==> PatchesRun(old(tables)[t], tables[t], patches)
      ensures old(left) >= SelfSlots(job.links, |job.links|, t) ==> ok
      ensures ok ==> left + SelfSlots(job.links, |job.links|, t) >= old(left)
      ensures (patches != [] ==> SelfLinked(job.links, t)) && t in sets && OnEntries(patches, sets[t])
    {
      var fixed, pending := FixLinks(job, sets, t);
      patches := pending;
      SameIsShape(sets, fixed);
      LinksFitKept(sets, fixed, job.links);
      sets := fixed;
      var table;
      ok, table, left := ApplyPatches(tables[t], pending, left);
      tables := tables[t := table];
    }

    /** The type at position `k` of the order. Failing, it leaves the type in memory either as it was or
        as if it had been processed. */
    method InsertNext(order: seq<TypeId>, k: nat, ghost start: Sets, ghost tables0: Tables, ghost n0: Keys,
                      ghost done: set<TypeId>, ghost backed: bool)
      returns (ok: bool, ghost written: bool)
      requires Ready() && k < |order| && order[k] in sets && order[k] !in done && SameShape(start, sets)
      requires MemoryAfter(start, sets, job, n0, next, done) && Unused(n0, next, done)
      requires TablesAfter(tables0, sets, tables, job.links, done)
      requires backed ==> Backed(sets, job.infos, tables, next) && RowsAfter(start, sets, tables, job, done, order)
      requires forall p :: p in start && p != order[k] ==> (Precedes(order, p, order[k]) <==> p in done)
      modifies this`sets, this`tables, this`next, this`left
      ensures Ready() && MemoryAfter(start, sets, job, n0, next, if written then done + {order[k]} else done)
      ensures ok ==> written && Unused(n0, next, done + {order[k]})
      ensures ok ==> TablesAfter(tables0, sets, tables, job.links, done + {order[k]})
      ensures FreeKeys(old(sets)[order[k]], job.infos[order[k]], old(tables)[order[k]], old(next)[order[k]]) ==>
        old(left) >= TypeCost(old(sets), job.links, order[k]) ==> ok
      ensures ok ==> left + TypeCost(old(sets), job.links, order[k]) >= old(left)
      ensures ok && backed ==>
        Backed(sets, job.infos, tables, next) && RowsAfter(start, sets, tables, job, done + {order[k]}, order)
    {
      var t := order[k];
      ghost var s0, t0, k0 := sets, tables, next;
      ok := InsertRows(t);
      if !ok {
        KeysUsedUp(start, s0, job, n0, k0, t, next[t], done);
        return false, false;
      }
      ghost var s1, t1 := sets, tables;
      ghost var patches;
      ok, patches := FixAndPatch(t);
      written := true;
      assert TypeInMemory(s0, s1, sets, job, t, k0[t], next[t]);
      MemoryNext(start, s0, s1, sets, job, n0, k0, t, next[t], done);
      if ok { TablesNext(tables0, s0, t0, k0, s1, t1, next, sets, tables[t], job, t, patches, done); }
      if ok && backed {
        RowsBacked(s0, t0, k0, s1, t1, next, job.infos, t);
        FixedBacked(s1, sets, job.infos, t1, next, t, tables[t]);
        RowsNext(start, s0, t0, k0, s1, t1, next, sets, tables[t], job, t, patches, done, order);
      }
    }

    /** Inserts every set's entries in the given order of types; `n` types are processed in memory. */
    method InsertAll(order: seq<TypeId>) returns (ok: bool, ghost n: nat)
      requires Ready() && Distinct(order)
      modifies this`sets, this`tables, this`next, this`left
      ensures Ready() && n <= |order| && (ok ==> n == |order|)
      ensures MemoryAfter(old(sets), sets, job, old(next), next, DoneTypes(order, n, old(sets).Keys))
      ensures ok ==> TablesAfter(old(tables), sets, tables, job.links, DoneTypes(order, |order|, old(sets).Keys))
      ensures ok && Backed(old(sets), job.infos, old(tables), old(next)) ==>
        RowsAfter(old(sets), sets, tables, job, DoneTypes(order, |order|, old(sets).Keys), order)
      ensures KeysFree(old(sets), job.infos, old(tables), old(next)) ==>
        old(left) >= PhaseCost(old(sets), job.links, order, |order|) ==> ok
      ensures ok ==> left + PhaseCost(old(sets), job.links, order, |order|) >= old(left)
    {
      hide MemoryAfter, RowsAfter, Backed, Precedes, TablesAfter, FreeKeys, TypeCost, Unused, LinksFit;
      ghost var start, tables0, n0, backed := sets, tables, next, Backed(sets, job.infos, tables, next);
      ghost var left0, free := left, KeysFree(sets, job.infos, tables, next);
      TablesStart(tables, sets, job.links);
      MemoryStart(sets, job, next);
      RowsStart(sets, tables, job, order);
      assert DoneTypes(order, 0, start.Keys) == {};
      n := 0;
      for k := 0 to |order|
        invariant n == k && Ready() && start.Keys == sets.Keys
        invariant MemoryAfter(start, sets, job, n0, next, DoneTypes(order, k, start.Keys))
        invariant Unused(n0, next, DoneTypes(order, k, start.Keys))
        invariant TablesAfter(tables0, sets, tables, job.links, DoneTypes(order, k, start.Keys))
        invariant backed ==> Backed(sets, job.infos, tables, next)
        invariant backed ==> RowsAfter(start, sets, tables, job, DoneTypes(order, k, start.Keys), order)
        invariant left + PhaseCost(start, job.links, order, k) >= left0
      {
        MoreCost(start, job.links, order, k + 1, |order|);
        DoneStep(order, k, start.Keys);
        if order[k] in sets {
          MemoryShape(start, sets, job, n0, next, DoneTypes(order, k, start.Keys));
          Untouched(start, sets, job, tables0, tables, n0, next, DoneTypes(order, k, start.Keys), order[k]);
          ghost var written;
          ok, written := InsertNext(order, k, start, tables0, n0, DoneTypes(order, k, start.Keys), backed);
          MemoryShape(start, sets, job, n0, next, DoneTypes(order, if written then k + 1 else k, start.Keys));
          if !ok { return false, if written then k + 1 else k; }
        }
        n := k + 1;
      }
      ok := true;
    }

    /** One INSERT of join rows per many-to-many link whose table and columns are known. */
    method InsertJoins() returns (ok: bool, ghost n: nat)
      requires LinksFit(sets, job.links)
      modifies this`joins, this`left
      ensures n <= |job.links| && joins == old(joins) + Flatten(JoinParts(job.links, sets), n)
      ensures (ok ==> n == |job.links| && left + |job.links| >= old(left)) && (old(left) >= |job.links| ==> ok)
    {
      hide JoinParts, LinkJoins, LinkFits;
      ghost var parts := JoinParts(job.links, sets);
      n := 0;
      for k := 0 to |job.links|
        invariant n == k && joins == old(joins) + Flatten(parts, k) && left + k >= old(left)
      {
        PartAt(job.links, sets, k);
        var rows := LinkJoins(job.links[k], sets);
        if rows != [] {
          if left == 0 { return false, k; }
          left := left - 1;
        }
        Associate(old(joins), Flatten(parts, k), rows);
        joins := joins + rows;
        n := k + 1;
      }
      ok := true;
    }
  }

  /** Statements a type takes: its INSERTs and the patches of its self-references. */
  function TypeCost(sets: Sets, links: seq<CA.Link>, t: TypeId): nat {
    (if t in sets then Inserts(sets[t], |sets[t]|) else 0) + SelfSlots(links, |links|, t)
  }

  /** Statements the first `n` types of the order take at most. */
  function PhaseCost(sets: Sets, links: seq<CA.Link>, order: seq<TypeId>, n: nat): nat
    requires n <= |order|
  {
    if n == 0 then 0
    else
      PhaseCost(sets, links, order, n - 1)
        + (if order[n - 1] in sets then TypeCost(sets, links, order[n - 1]) else 0)
  }

  lemma {:induction false} MoreCost(sets: Sets, links: seq<CA.Link>, order: seq<TypeId>, m: nat, n: nat)
    requires m <= n <= |order|
    ensures PhaseCost(sets, links, order, m) <= PhaseCost(sets, links, order, n)
  {
    if m < n { MoreCost(sets, links, order, m, n - 1); }
  }

  ghost predicate KeysFree(sets: Sets, infos: Infos, tables: Tables, next: Keys) {
    forall t :: t in sets && t in infos && t in tables && t in next ==> FreeKeys(sets[t], infos[t], tables[t], next[t])
  }

  /** A type still to be processed has its table, keys and INSERTs as at the start. */
  lemma Untouched(start: Sets, s: Sets, job: Job, t0: Tables, t: Tables, n0: Keys, next: Keys, done: set<TypeId>,
                  u: TypeId)
    requires MemoryAfter(start, s, job, n0, next, done) && Unused(n0, next, done)
    requires TablesAfter(t0, s, t, job.links, done)
    requires u in start && u !in done && u in s && u in job.infos && u in t0 && u in t && u in n0 && u in next
    ensures TypeCost(s, job.links, u) == TypeCost(start, job.links, u)
    ensures FreeKeys(start[u], job.infos[u], t0[u], n0[u]) ==> FreeKeys(s[u], job.infos[u], t[u], next[u])
  {
    assert SetShape(start[u], s[u]);
    assert TableAfter(t0[u], s[u], t[u], SelfLinked(job.links, u), false);
    forall i | 0 <= i < |start[u]|
      ensures (Persists(start[u][i]) <==> Persists(s[u][i])) && start[u][i].entity.key == s[u][i].entity.key {
      assert EntryShape(start[u][i], s[u][i]);
      assert KeyAfter(start[u][i], s, u, i, job.infos[u], n0[u], next[u], false);
    }
    SameInserts(start[u], s[u], |start[u]|);
  }

  lemma TablesStart(t: Tables, s: Sets, links: seq<CA.Link>)
    ensures TablesAfter(t, s, t, links, {})
  {
  }

  lemma MemoryShape(start: Sets, s: Sets, job: Job, n0: Keys, next: Keys, done: set<TypeId>)
    requires MemoryAfter(start, s, job, n0, next, done)
    ensures SameShape(start, s) && start.Keys == s.Keys
  {
  }
}
