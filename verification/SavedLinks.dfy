/** Linkage after the insert phase: what a child's row holds of its parent's key, and its join rows. */
module SavedLinks {
  import opened Wrappers
  import opened SaveModel
  import opened SaveLinkage
  import opened InsertPhase
  import CD = CascadeDrain
  import CA = CascadeAdds
  import Deletes = CascadeDeletes
  import DG = DependencyGraph

  // ---------------------------------------------------------------------------
  // Rows of linked children
  // ---------------------------------------------------------------------------

  /** From column `from` on, every foreign key to the parent's type has the key. */
  ghost predicate Points(row: Row, targets: seq<TypeId>, parent: TypeId, key: int, from: nat) {
    forall c :: from <= c < |row| && c < |targets| && targets[c] == parent ==> row[c] == Some(key)
  }

  /** The watched child's row points to its parent. */
  ghost predicate Realised(w: Watch, s: Sets, t: Tables, infos: Infos) {
    && w.child in infos && w.child in s && w.idx < |s[w.child]| && w.parent in s && w.at < |s[w.parent]|
    && w.child in t && ChildKey(w, s) in t[w.child]
    && Points(t[w.child][ChildKey(w, s)].fks, infos[w.child].targets, w.parent, ParentKey(w, s), 0)
  }

  /** Across types a link is realised exactly when the parent's type comes first or the child already
      pointed there; within a type exactly when every foreign key to the type but the first column
      already pointed there. */
  lemma LinkRealised(w: Watch, fks: Row, s: Sets, t: Tables, infos: Infos, links: seq<CA.Link>, parentFirst: bool)
    requires Watching(w, s, links) && w.linked && w.child in infos && |fks| == |infos[w.child].targets|
    requires StoredAs(w, s, t, StoredRow(w, fks, infos, ParentKey(w, s), parentFirst))
    ensures w.parent != w.child ==> (Realised(w, s, t, infos) <==>
      parentFirst || Points(fks, infos[w.child].targets, w.parent, ParentKey(w, s), 0))
    ensures w.parent == w.child ==>
      (Realised(w, s, t, infos) <==> Points(fks, infos[w.child].targets, w.parent, ParentKey(w, s), 1))
  {
    var row, key := t[w.child][ChildKey(w, s)].fks, ParentKey(w, s);
    forall c | 0 <= c < |fks| && (w.parent == w.child ==> c > 0) && (w.parent != w.child ==> !parentFirst)
      ensures fks[c] == Some(key) <==> row[c] == Some(key) { }
  }

  /** When the first foreign key of a self-referencing type points elsewhere, the patch puts the
      parent's key into that other column. */
  lemma PatchHitsOtherColumn(w: Watch, fks: Row, s: Sets, t: Tables, infos: Infos, links: seq<CA.Link>,
                             parentFirst: bool)
    requires Watching(w, s, links) && w.linked && w.child in infos && |fks| == |infos[w.child].targets|
    requires StoredAs(w, s, t, StoredRow(w, fks, infos, ParentKey(w, s), parentFirst)) && w.parent == w.child
    requires |fks| > 0 && infos[w.child].targets[0] != w.child
    ensures t[w.child][ChildKey(w, s)].fks[0] == Some(ParentKey(w, s))
  {
  }

  // ---------------------------------------------------------------------------
  // The order
  // ---------------------------------------------------------------------------

  /** In an order with principals first the parent of a link precedes the child. */
  lemma SoundOrderPrecedes(g: DG.Graph, order: seq<TypeId>, p: TypeId, c: TypeId)
    requires DG.PrincipalsFirst(g, order) && DG.DependsOn(g, c, p) && p in order && c in order
    ensures Precedes(order, p, c)
  {
    var i :| 0 <= i < |order| && order[i] == p;
    var j :| 0 <= j < |order| && order[j] == c;
    assert DG.DependsOn(g, order[j], order[i]);
  }

  lemma {:induction false} NavCounted(navs: seq<Nav>, n: nat, k: nat, c: TypeId)
    requires k < n <= |navs| && DG.MakesEdge(navs[k], c)
    ensures DG.NavCount(navs, n, c) > 0
  {
    if k < n - 1 { NavCounted(navs, n - 1, k, c); }
  }

  /** A link comes from a collection navigation, so that its child's type depends on its parent's. */
  lemma LinkDepends(plan: CD.Plan, sets: Sets, l: CA.Link, g: DG.Graph)
    requires plan.mode == CD.Adding && CA.LinkOk(plan, sets, l) && DG.Built(plan.metas, g)
    requires l.parentType != l.childType
    ensures DG.DependsOn(g, l.childType, l.parentType)
  {
    var nav :| nav in CD.Gone(plan, l.parentType) && CA.OfNav(l, nav);
    var navs := plan.metas[l.parentType];
    var k :| 0 <= k < |navs| && navs[k] == nav;
    NavCounted(navs, |navs|, k, l.childType);
    DG.BuiltGraph(plan.metas, g);
  }

  // ---------------------------------------------------------------------------
  // From the drains to the insert phase
  // ---------------------------------------------------------------------------

  /** The entries of `a` at the same indices in `b`, but for what their containers hold. */
  ghost predicate Lighter(a: Sets, b: Sets) {
    && a.Keys == b.Keys && (forall t :: t in a ==> |a[t]| <= |b[t]|)
    && forall t, i :: t in a && 0 <= i < |a[t]| ==> EntryLighter(a[t][i], b[t][i])
  }

  ghost predicate EntryLighter(a: Entry, b: Entry) {
    b == a.(entity := a.entity.(kids := b.entity.kids)) && (Persists(a) ==> b == a)
  }

  /** The second drain leaves what is to be inserted as it is. */
  lemma DeletesLighter(plan: CD.Plan, added: Sets, sets: Sets, types: seq<TypeId>, x: Deletes.Expansions)
    requires plan.mode == CD.Deleting && Deletes.DeletesDrained(plan, added, sets, types, x)
    ensures Lighter(added, sets)
  {
    hide CD.AllTies, Deletes.News, Stay;
    forall t | t in added ensures |added[t]| <= |sets[t]| {
      assert Deletes.DrainedSet(plan, t, added[t], sets[t]);
    }
    forall t, i | t in added && 0 <= i < |added[t]| ensures EntryLighter(added[t][i], sets[t][i]) {
      assert Deletes.DrainedSet(plan, t, added[t], sets[t]);
    }
  }

  /** The links of a drain fit the insert phase. */
  lemma DrainedLinksFit(plan: CD.Plan, start: Sets, added: Sets, links: seq<CA.Link>, types: seq<TypeId>, sets: Sets)
    requires CA.AddsDrained(plan, start, added, links, types) && Lighter(added, sets)
    ensures LinksFit(sets, links)
  {
    hide CD.AllTies, CA.LinkTies, CD.Final, CA.SlotsAreNew;
    forall k | 0 <= k < |links| ensures LinkFits(sets, links[k]) {
      assert CA.LinkOk(plan, added, links[k]);
      var ct := links[k].childType;
      forall j | 0 <= j < |links[k].children|
        ensures links[k].children[j] < |sets[ct]| && !Aside(sets[ct][links[k].children[j]]) {
        CA.SlotsNameNewEntries(plan, start, added, links, types, k, j);
        assert CA.DrainedSet(plan, ct, start[ct], added[ct]);
        assert EntryLighter(added[ct][links[k].children[j]], sets[ct][links[k].children[j]]);
      }
    }
  }

  /** An entry the drain added under a navigation without join table is watched under its parent. */
  lemma DrainedChildWatched(plan: CD.Plan, start: Sets, added: Sets, links: seq<CA.Link>, types: seq<TypeId>,
                            sets: Sets, k: nat, j: nat)
    returns (w: Watch)
    requires CA.AddsDrained(plan, start, added, links, types) && Lighter(added, sets)
    requires k < |links| && j < |links[k].children| && links[k].throughTable.None?
    ensures w == Watch(true, k, j, links[k].parentType, links[k].parentIdx, links[k].childType, links[k].children[j])
    ensures Watching(w, sets, links)
  {
    hide CD.AllTies, CA.LinkTies, CD.Final, CA.SlotsAreNew, CA.DrainedSet;
    var l := links[k];
    w := Watch(true, k, j, l.parentType, l.parentIdx, l.childType, l.children[j]);
    assert CA.LinkOk(plan, added, l);
    CA.SlotsNameNewEntries(plan, start, added, links, types, k, j);
    var h, m := CA.EachChildLinkedOnce(plan, start, added, links, types, w.child, w.idx);
    assert CA.SlotAt(links, k, j, w.child, w.idx);
    forall x: nat, y: nat | FkSlot(links, x, y, w.child, w.idx) ensures x == k && y == j {
      assert CA.SlotAt(links, x, y, w.child, w.idx);
    }
  }

  // ---------------------------------------------------------------------------
  // Join rows
  // ---------------------------------------------------------------------------

  /** The join row a slot of a complete link calls for. */
  function RowOf(l: CA.Link, sets: Sets, j: nat): JoinRow
    requires LinkFits(sets, l) && Complete(l) && j < |l.children|
  {
    JoinRow(l.throughTable.value, l.throughParent.value, l.throughChild.value,
            sets[l.parentType][l.parentIdx].entity.key, sets[l.childType][l.children[j]].entity.key)
  }

  /** Each slot of a complete many-to-many link has its own join row, with the keys of both ends: the
      rows of link `k` stand after those of the links before it. */
  lemma SlotJoined(links: seq<CA.Link>, sets: Sets, k: nat, j: nat)
    requires LinksFit(sets, links) && k < |links| && Complete(links[k]) && j < |links[k].children|
    ensures LinkFits(sets, links[k])
    ensures var parts := JoinParts(links, sets);
      && RowCount(parts, k) + j < |Flatten(parts, |links|)|
      && Flatten(parts, |links|)[RowCount(parts, k) + j] == RowOf(links[k], sets, j)
  {
    assert LinkFits(sets, links[k]);
    FlattenAt(JoinParts(links, sets), |links|, k, j);
  }

  /** Every join row is that of a slot of a complete link, at its place. */
  lemma {:induction false} JoinedSlot(links: seq<CA.Link>, sets: Sets, n: nat, r: nat) returns (k: nat, j: nat)
    requires LinksFit(sets, links) && n <= |links| && r < |Flatten(JoinParts(links, sets), n)|
    ensures k < n && LinkFits(sets, links[k]) && Complete(links[k]) && j < |links[k].children|
    ensures r == RowCount(JoinParts(links, sets), k) + j
    ensures Flatten(JoinParts(links, sets), n)[r] == RowOf(links[k], sets, j)
  {
    var parts := JoinParts(links, sets);
    FlattenLength(parts, n - 1);
    assert LinkFits(sets, links[n - 1]);
    if r < |Flatten(parts, n - 1)| {
      k, j := JoinedSlot(links, sets, n - 1, r);
    } else {
      k, j := n - 1, r - RowCount(parts, n - 1);
    }
  }

  /** Different slots have their rows at different places. */
  lemma OwnPlace(parts: seq<seq<JoinRow>>, k: nat, j: nat, h: nat, i: nat)
    requires k < |parts| && j < |parts[k]| && h < |parts| && i < |parts[h]|
    requires RowCount(parts, k) + j == RowCount(parts, h) + i
    ensures k == h && j == i
  {
    if k < h { FlattenAt(parts, h, k, j); }
    if h < k { FlattenAt(parts, k, h, i); }
  }
}
