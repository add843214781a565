/** The type-level dependency graph and its topological sort. */
module DependencyGraph {
  import opened SaveModel

  /** `edges[child]` lists the principals the child depends on, in the order navigations were met. */
  datatype Graph = Graph(edges: map<TypeId, seq<TypeId>>, nodes: seq<TypeId>)

  function Principals(g: Graph, child: TypeId): seq<TypeId> {
    if child in g.edges then g.edges[child] else []
  }

  /** The first `n` elements. */
  ghost function Front(s: seq<TypeId>, n: nat): set<TypeId>
    requires n <= |s|
  {
    set k | 0 <= k < n :: s[k]
  }

  ghost function Elements(s: seq<TypeId>): set<TypeId> {
    Front(s, |s|)
  }

  /** Registered types and types only known as dependents. */
  ghost function AllTypes(g: Graph): set<TypeId> {
    Elements(g.nodes) + g.edges.Keys
  }

  ghost predicate NoDuplicates(s: seq<TypeId>) {
    forall i, j :: 0 <= i < j < |s| ==> s[i] != s[j]
  }

  /** As `build` makes it: nodes are distinct and every principal is a node. */
  ghost predicate ValidGraph(g: Graph) {
    && NoDuplicates(g.nodes)
    && forall c, i :: c in g.edges && 0 <= i < |g.edges[c]| ==> g.edges[c][i] in Elements(g.nodes)
  }

  // ---------------------------------------------------------------------------
  // Building the graph
  // ---------------------------------------------------------------------------

  predicate MakesEdge(nav: Nav, c: TypeId) {
    nav.related == c && nav.kind in {HasMany, ManyToMany}
  }

  /** Collection navigations from `p` to `c` among the first `n` navigations of `p`. */
  function NavCount(navs: seq<Nav>, n: nat, c: TypeId): nat
    requires n <= |navs|
  {
    if n == 0 then 0 else NavCount(navs, n - 1, c) + (if MakesEdge(navs[n - 1], c) then 1 else 0)
  }

  function Times(ps: seq<TypeId>, n: nat, p: TypeId): nat
    requires n <= |ps|
  {
    if n == 0 then 0 else Times(ps, n - 1, p) + (if ps[n - 1] == p then 1 else 0)
  }

  function Edges(g: Graph, c: TypeId, p: TypeId): nat {
    Times(Principals(g, c), |Principals(g, c)|, p)
  }

  lemma {:induction false} TimesPrefix(s: seq<TypeId>, n: nat, t: TypeId, p: TypeId)
    requires n <= |s|
    ensures Times(s + [t], n, p) == Times(s, n, p)
  {
    if n > 0 { TimesPrefix(s, n - 1, t, p); }
  }

  /** Adds the edges of one registered type. */
  method AddEdges(g0: Graph, type_: TypeId, navs: seq<Nav>) returns (g: Graph)
    requires forall c :: Edges(g0, c, type_) == 0
    ensures g.nodes == g0.nodes
    ensures forall c :: Edges(g, c, type_) == NavCount(navs, |navs|, c)
    ensures forall c, p :: p != type_ ==> Edges(g, c, p) == Edges(g0, c, p)
  {
    g := g0;
    for k := 0 to |navs|
      invariant g.nodes == g0.nodes
      invariant forall c :: Edges(g, c, type_) == NavCount(navs, k, c)
      invariant forall c, p :: p != type_ ==> Edges(g, c, p) == Edges(g0, c, p)
    {
      if navs[k].kind == HasMany || navs[k].kind == ManyToMany {
        g := PushEdge(g, navs[k].related, type_);
      }
    }
  }

  method PushEdge(g0: Graph, child: TypeId, principal: TypeId) returns (g: Graph)
    ensures g.nodes == g0.nodes
    ensures forall c, p :: Edges(g, c, p) == Edges(g0, c, p) + (if c == child && p == principal then 1 else 0)
  {
    var was := if child in g0.edges then g0.edges[child] else [];
    g := g0.(edges := g0.edges[child := was + [principal]]);
    forall p ensures Edges(g, child, p) == Edges(g0, child, p) + (if p == principal then 1 else 0) {
      TimesPrefix(was, |was|, principal, p);
    }
  }

  /** One node per registered type and, from principal to child, one edge per collection navigation. */
  ghost predicate Built(metas: Metas, g: Graph) {
    && NoDuplicates(g.nodes) && Elements(g.nodes) == metas.Keys
    && forall c, p :: Edges(g, c, p) == (if p in metas then NavCount(metas[p], |metas[p]|, c) else 0)
  }

  /** Adds the types and their navigations, in any order. */
  method Build(metas: Metas) returns (g: Graph)
    ensures Built(metas, g)
  {
    g := Graph(map[], []);
    var pending := metas.Keys;
    assert Elements(g.nodes) == {};
    while pending != {}
      invariant pending <= metas.Keys && NoDuplicates(g.nodes) && Elements(g.nodes) == metas.Keys - pending
      invariant forall c, p ::
        Edges(g, c, p) == (if p in metas && p !in pending then NavCount(metas[p], |metas[p]|, c) else 0)
    {
      var t :| t in pending;
      FrontStep(g.nodes, t);
      assert t !in Elements(g.nodes);
      NoDuplicatesStep(g.nodes, t);
      ghost var was := g;
      g := g.(nodes := g.nodes + [t]);
      assert forall c, p :: Edges(g, c, p) == Edges(was, c, p);
      g := AddEdges(g, t, metas[t]);
      pending := pending - {t};
    }
  }

  lemma {:induction false} TimesZero(ps: seq<TypeId>, n: nat, p: TypeId)
    requires n <= |ps|
    ensures Times(ps, n, p) > 0 <==> exists k :: 0 <= k < n && ps[k] == p
  {
    if n > 0 { TimesZero(ps, n - 1, p); }
  }

  lemma {:induction false} TimesTwice(ps: seq<TypeId>, n: nat, p: TypeId)
    requires n <= |ps|
    ensures Times(ps, n, p) > 1 <==> exists i, j :: 0 <= i < j < n && ps[i] == ps[j] == p
  {
    if n > 0 {
      TimesTwice(ps, n - 1, p);
      TimesZero(ps, n - 1, p);
      if Times(ps, n, p) > 1 && ps[n - 1] == p {
        var k :| 0 <= k < n - 1 && ps[k] == p;
        assert ps[k] == ps[n - 1] == p;
      }
    }
  }

  /** In the built graph a principal is repeated exactly when it declares two collection
      navigations to the same other type, and `c` depends on `p` exactly when it declares one. */
  lemma BuiltGraph(metas: Metas, g: Graph)
    requires Built(metas, g)
    ensures ValidGraph(g)
    ensures forall c :: HasRepeats(g, c) <==> exists p :: p in metas && p != c && NavCount(metas[p], |metas[p]|, c) > 1
    ensures forall c, p :: DependsOn(g, c, p) <==> p in metas && p != c && NavCount(metas[p], |metas[p]|, c) > 0
  {
    forall c ensures HasRepeats(g, c) <==> exists p :: p in metas && p != c && NavCount(metas[p], |metas[p]|, c) > 1 {
      RepeatedNavs(metas, g, c);
    }
    forall c, p ensures p in Principals(g, c) <==> Edges(g, c, p) > 0 {
      TimesZero(Principals(g, c), |Principals(g, c)|, p);
    }
    forall c, i | c in g.edges && 0 <= i < |g.edges[c]| ensures g.edges[c][i] in Elements(g.nodes) {
      assert g.edges[c][i] in Principals(g, c);
      assert Edges(g, c, g.edges[c][i]) > 0;
    }
  }

  lemma RepeatedNavs(metas: Metas, g: Graph, c: TypeId)
    requires forall p :: Edges(g, c, p) == (if p in metas then NavCount(metas[p], |metas[p]|, c) else 0)
    ensures HasRepeats(g, c) <==> exists p :: p in metas && p != c && NavCount(metas[p], |metas[p]|, c) > 1
  {
    var ps := Principals(g, c);
    forall p ensures Edges(g, c, p) > 1 <==> exists i, j :: 0 <= i < j < |ps| && ps[i] == ps[j] == p {
      TimesTwice(ps, |ps|, p);
    }
    if HasRepeats(g, c) {
      var i, j :| 0 <= i < j < |ps| && ps[i] == ps[j] != c;
      assert Edges(g, c, ps[i]) > 1;
    }
  }

  // ---------------------------------------------------------------------------
  // In-degrees
  // ---------------------------------------------------------------------------

  /** Principals other than the type itself, repetitions counted. */
  function CountOthers(ps: seq<TypeId>, n: nat, c: TypeId): nat
    requires n <= |ps|
  {
    if n == 0 then 0 else CountOthers(ps, n - 1, c) + (if ps[n - 1] != c then 1 else 0)
  }

  /** The distinct principals other than the type itself that are already emitted. */
  ghost function Released(ps: seq<TypeId>, n: nat, c: TypeId, done: set<TypeId>): set<TypeId>
    requires n <= |ps|
  {
    set k | 0 <= k < n && ps[k] != c && ps[k] in done :: ps[k]
  }

  /** Some principal other than the type itself occurs twice. */
  ghost predicate Repeats(ps: seq<TypeId>, n: nat, c: TypeId)
    requires n <= |ps|
  {
    exists i, j :: 0 <= i < j < n && ps[i] == ps[j] != c
  }

  ghost predicate AllReleased(ps: seq<TypeId>, n: nat, c: TypeId, done: set<TypeId>)
    requires n <= |ps|
  {
    forall k :: 0 <= k < n && ps[k] != c ==> ps[k] in done
  }

  /** No principal is repeated and all are in `done`: the in-degree has reached zero. */
  ghost predicate Ready(g: Graph, c: TypeId, done: set<TypeId>) {
    var ps := Principals(g, c);
    !Repeats(ps, |ps|, c) && AllReleased(ps, |ps|, c, done)
  }

  lemma {:induction false} CountBounds(ps: seq<TypeId>, n: nat, c: TypeId, done: set<TypeId>)
    requires n <= |ps|
    ensures |Released(ps, n, c, done)| <= CountOthers(ps, n, c)
    ensures |Released(ps, n, c, done)| == CountOthers(ps, n, c) <==> !Repeats(ps, n, c) && AllReleased(ps, n, c, done)
  {
    if n > 0 {
      var p, r := ps[n - 1], Released(ps, n - 1, c, done);
      CountBounds(ps, n - 1, c, done);
      if p == c || p !in done || p in r {
        assert Released(ps, n, c, done) == r;
      } else {
        assert Released(ps, n, c, done) == r + {p};
      }
      if p != c && p in done {
        RepeatsLast(ps, n, c, done);
      }
    }
  }

  lemma RepeatsLast(ps: seq<TypeId>, n: nat, c: TypeId, done: set<TypeId>)
    requires 0 < n <= |ps| && ps[n - 1] != c && ps[n - 1] in done
    ensures Repeats(ps, n, c) <==> Repeats(ps, n - 1, c) || ps[n - 1] in Released(ps, n - 1, c, done)
  {
    if ps[n - 1] in Released(ps, n - 1, c, done) {
      var k :| 0 <= k < n - 1 && ps[k] == ps[n - 1];
    }
  }

  lemma ReleasedStep(ps: seq<TypeId>, c: TypeId, done: set<TypeId>, node: TypeId)
    requires node !in done
    ensures |Released(ps, |ps|, c, done + {node})|
         == |Released(ps, |ps|, c, done)| + (if node != c && node in ps then 1 else 0)
  {
    var before, after := Released(ps, |ps|, c, done), Released(ps, |ps|, c, done + {node});
    if node != c && node in ps {
      assert after == before + {node};
    } else {
      assert after == before;
    }
  }

  /** The in-degree kept for `c` once `done` has been emitted. */
  ghost function Degree(g: Graph, c: TypeId, done: set<TypeId>): int {
    var ps := Principals(g, c);
    CountOthers(ps, |ps|, c) - |Released(ps, |ps|, c, done)|
  }

  lemma DegreeZero(g: Graph, c: TypeId, done: set<TypeId>)
    ensures Degree(g, c, done) == 0 <==> Ready(g, c, done)
    ensures Degree(g, c, done) >= 0
  {
    CountBounds(Principals(g, c), |Principals(g, c)|, c, done);
  }

  lemma DegreeStep(g: Graph, c: TypeId, done: set<TypeId>, node: TypeId)
    requires node !in done
    ensures Degree(g, c, done + {node}) == Degree(g, c, done) - (if node != c && node in Principals(g, c) then 1 else 0)
  {
    ReleasedStep(Principals(g, c), c, done, node);
  }

  // ---------------------------------------------------------------------------
  // The sort
  // ---------------------------------------------------------------------------

  /** Types are emitted once, each after all its principals. */
  ghost predicate Emitted(g: Graph, e: seq<TypeId>) {
    NoDuplicates(e) && forall i :: 0 <= i < |e| ==> Ready(g, e[i], Front(e, i))
  }

  /** What the queue emits in all: nothing ready is left behind. */
  ghost predicate Emission(g: Graph, e: seq<TypeId>) {
    && Emitted(g, e) && Elements(e) <= AllTypes(g)
    && forall c :: c in AllTypes(g) && c !in Elements(e) ==> !Ready(g, c, Elements(e))
  }

  /** The nodes not emitted, in node order, as the final loop appends them. */
  function Leftover(nodes: seq<TypeId>, n: nat, e: seq<TypeId>): seq<TypeId>
    requires n <= |nodes|
  {
    if n == 0 then []
    else
      var before := Leftover(nodes, n - 1, e);
      if nodes[n - 1] in e || nodes[n - 1] in before then before else before + [nodes[n - 1]]
  }

  method InDegrees(g: Graph) returns (deg: map<TypeId, nat>)
    ensures deg.Keys == AllTypes(g)
    ensures forall c :: c in deg ==> deg[c] == Degree(g, c, {})
  {
    deg := map[];
    for k := 0 to |g.nodes|
      invariant deg.Keys == Front(g.nodes, k)
      invariant forall c :: c in deg ==> deg[c] == 0
    {
      if g.nodes[k] !in deg { deg := deg[g.nodes[k] := 0]; }
    }
    var pending := g.edges.Keys;
    while pending != {}
      invariant pending <= g.edges.Keys
      invariant deg.Keys == Elements(g.nodes) + (g.edges.Keys - pending)
      invariant forall c :: c in deg ==>
        deg[c] == if c in pending || c !in g.edges then 0 else CountOthers(g.edges[c], |g.edges[c]|, c)
    {
      var child :| child in pending;
      var was := if child in deg then deg[child] else 0;
      deg := deg[child := was + CountOthers(g.edges[child], |g.edges[child]|, child)];
      pending := pending - {child};
    }
    forall c | c in deg ensures deg[c] == Degree(g, c, {}) {
      assert Released(Principals(g, c), |Principals(g, c)|, c, {}) == {};
    }
  }

  /** The types of in-degree zero, in whatever order the hash map yields them. */
  method InitialQueue(deg: map<TypeId, nat>) returns (queue: seq<TypeId>)
    ensures NoDuplicates(queue)
    ensures forall c :: c in queue <==> c in deg && deg[c] == 0
  {
    queue := [];
    var pending := deg.Keys;
    while pending != {}
      invariant pending <= deg.Keys && NoDuplicates(queue)
      invariant forall c :: c in queue <==> c in deg && c !in pending && deg[c] == 0
    {
      var c :| c in pending;
      if deg[c] == 0 { queue := queue + [c]; }
      pending := pending - {c};
    }
  }

  /** Degrees count the principals still to come, those of `late` types as of `before`;
      exactly the types of degree zero are emitted or queued. */
  ghost predicate SortState(g: Graph, deg: map<TypeId, nat>, queue: seq<TypeId>, done: set<TypeId>,
                            late: set<TypeId>, before: set<TypeId>) {
    && deg.Keys == AllTypes(g) && done <= AllTypes(g)
    && NoDuplicates(queue) && (forall c :: c in queue ==> c !in done)
    && (forall c :: c in deg ==> deg[c] == Degree(g, c, if c in late then before else done))
    && (forall c :: c in queue || c in done <==> c in deg && deg[c] == 0)
  }

  /** One dependent of the hash map: lower its in-degree if `node` is a principal of it. */
  method LowerOne(g: Graph, deg0: map<TypeId, nat>, queue0: seq<TypeId>, result: seq<TypeId>, node: TypeId,
                  child: TypeId,
                  ghost before: set<TypeId>, ghost late: set<TypeId>)
    returns (deg: map<TypeId, nat>, queue: seq<TypeId>)
    requires child in g.edges && child in late && node !in before && Elements(result) == before + {node}
    requires SortState(g, deg0, queue0, before + {node}, late, before)
    ensures SortState(g, deg, queue, before + {node}, late - {child}, before)
  {
    deg, queue := deg0, queue0;
    DegreeStep(g, child, before, node);
    DegreeZero(g, child, before + {node});
    if node in g.edges[child] && node != child {
      if deg[child] > 0 { deg := deg[child := deg[child] - 1]; }
      if deg[child] == 0 && child !in result && child !in queue { queue := queue + [child]; }
    }
  }

  /** Lowers the in-degree of each dependent of `node`, in any order. */
  method LowerDependents(g: Graph, deg0: map<TypeId, nat>, queue0: seq<TypeId>, result: seq<TypeId>, node: TypeId,
                         ghost before: set<TypeId>)
    returns (deg: map<TypeId, nat>, queue: seq<TypeId>)
    requires node !in before && Elements(result) == before + {node}
    requires SortState(g, deg0, queue0, before + {node}, AllTypes(g), before)
    ensures SortState(g, deg, queue, before + {node}, {}, before)
  {
    deg, queue := deg0, queue0;
    var pending := g.edges.Keys;
    forall c | c in deg && c !in pending ensures deg[c] == Degree(g, c, before + {node}) {
      DegreeStep(g, c, before, node);
    }
    while pending != {}
      invariant pending <= g.edges.Keys
      invariant SortState(g, deg, queue, before + {node}, pending, before)
    {
      var child :| child in pending;
      deg, queue := LowerOne(g, deg, queue, result, node, child, before, pending);
      pending := pending - {child};
    }
  }

  lemma PopStep(g: Graph, deg: map<TypeId, nat>, queue: seq<TypeId>, done: set<TypeId>)
    requires queue != [] && SortState(g, deg, queue, done, {}, {})
    ensures Ready(g, queue[0], done) && queue[0] in AllTypes(g) && queue[0] !in done
    ensures SortState(g, deg, queue[1..], done + {queue[0]}, AllTypes(g), done)
  {
    var rest := queue[1..];
    assert forall i :: 0 <= i < |rest| ==> rest[i] == queue[i + 1];
    assert forall c :: c in queue <==> c == queue[0] || c in rest;
    DegreeZero(g, queue[0], done);
  }

  lemma FrontStep(s: seq<TypeId>, t: TypeId)
    ensures Elements(s + [t]) == Elements(s) + {t}
    ensures forall i :: 0 <= i <= |s| ==> Front(s + [t], i) == Front(s, i)
  {
    assert (s + [t])[|s|] == t;
    assert forall k :: 0 <= k < |s| ==> (s + [t])[k] == s[k];
  }

  lemma EmittedStep(g: Graph, e: seq<TypeId>, t: TypeId)
    requires Emitted(g, e) && t !in Elements(e) && Ready(g, t, Elements(e))
    ensures Emitted(g, e + [t])
  {
    FrontStep(e, t);
    var r := e + [t];
    forall i | 0 <= i < |r| ensures Ready(g, r[i], Front(r, i)) {
      if i < |e| { assert r[i] == e[i]; }
    }
  }

  /** One round of the emitting loop of Kahn's algorithm; hash iteration orders are arbitrary. */
  method EmitFront(g: Graph, deg0: map<TypeId, nat>, queue0: seq<TypeId>, result0: seq<TypeId>)
    returns (deg: map<TypeId, nat>, queue: seq<TypeId>, result: seq<TypeId>)
    requires queue0 != [] && SortState(g, deg0, queue0, Elements(result0), {}, {}) && Emitted(g, result0)
    ensures queue0[0] in AllTypes(g) - Elements(result0) && Elements(result) == Elements(result0) + {queue0[0]}
    ensures SortState(g, deg, queue, Elements(result), {}, {}) && Emitted(g, result)
  {
    var node := queue0[0];
    PopStep(g, deg0, queue0, Elements(result0));
    FrontStep(result0, node);
    EmittedStep(g, result0, node);
    result := result0 + [node];
    deg, queue := LowerDependents(g, deg0, queue0[1..], result, node, Elements(result0));
  }

  lemma QueueExhausted(g: Graph, deg: map<TypeId, nat>, e: seq<TypeId>)
    requires SortState(g, deg, [], Elements(e), {}, {}) && Emitted(g, e)
    ensures Emission(g, e)
  {
    forall c | c in AllTypes(g) && c !in Elements(e) ensures !Ready(g, c, Elements(e)) {
      DegreeZero(g, c, Elements(e));
    }
  }

  method DrainQueue(g: Graph, deg0: map<TypeId, nat>, queue0: seq<TypeId>) returns (result: seq<TypeId>)
    requires SortState(g, deg0, queue0, {}, {}, {})
    ensures Emission(g, result)
  {
    var deg, queue := deg0, queue0;
    result := [];
    assert Elements(result) == {};
    while queue != []
      invariant SortState(g, deg, queue, Elements(result), {}, {}) && Emitted(g, result)
      decreases AllTypes(g) - Elements(result)
    {
      deg, queue, result := EmitFront(g, deg, queue, result);
    }
    QueueExhausted(g, deg, result);
  }

  method AppendLeftover(nodes: seq<TypeId>, e: seq<TypeId>) returns (result: seq<TypeId>)
    ensures result == e + Leftover(nodes, |nodes|, e)
  {
    result := e;
    for k := 0 to |nodes|
      invariant result == e + Leftover(nodes, k, e)
    {
      if nodes[k] !in result { result := result + [nodes[k]]; }
    }
  }

  /** The queue's emission, then the nodes never reached in node order. */
  ghost predicate Sorts(g: Graph, order: seq<TypeId>) {
    exists e :: Emission(g, e) && order == e + Leftover(g.nodes, |g.nodes|, e)
  }

  /** Emits what the queue reaches, then appends what it never reached. */
  method KahnOrder(g: Graph) returns (result: seq<TypeId>)
    ensures Sorts(g, result)
  {
    var deg := InDegrees(g);
    var queue := InitialQueue(deg);
    var emitted := DrainQueue(g, deg, queue);
    result := AppendLeftover(g.nodes, emitted);
    assert result == emitted + Leftover(g.nodes, |g.nodes|, emitted);
  }

  function Reverse(s: seq<TypeId>): (r: seq<TypeId>)
    ensures |r| == |s| && forall i :: 0 <= i < |s| ==> r[i] == s[|s| - 1 - i]
  {
    if s == [] then [] else Reverse(s[1..]) + [s[0]]
  }

  // ---------------------------------------------------------------------------
  // When the order is right
  // ---------------------------------------------------------------------------

  /** Every principal stands before its dependents. */
  ghost predicate PrincipalsFirst(g: Graph, order: seq<TypeId>) {
    forall i, j :: 0 <= i < |order| && 0 <= j < |order| && DependsOn(g, order[j], order[i]) ==> i < j
  }

  ghost predicate DependsOn(g: Graph, c: TypeId, p: TypeId) {
    p != c && p in Principals(g, c)
  }

  ghost predicate Ranked(g: Graph, rank: TypeId -> nat) {
    forall c, p :: DependsOn(g, c, p) ==> rank(p) < rank(c)
  }

  /** Acyclic apart from self-edges. */
  ghost predicate Acyclic(g: Graph) {
    exists rank: TypeId -> nat :: Ranked(g, rank)
  }

  ghost predicate HasRepeats(g: Graph, c: TypeId) {
    Repeats(Principals(g, c), |Principals(g, c)|, c)
  }

  /** A type with a repeated principal never leaves the queue's waiting list, so it must not be
      the principal of another registered type. */
  ghost predicate RepeatsHarmless(g: Graph) {
    forall c, d {:trigger DependsOn(g, d, c)} :: c in g.nodes && d in g.nodes && HasRepeats(g, c) ==>
        !DependsOn(g, d, c)
  }

  ghost predicate Reordering(nodes: seq<TypeId>, order: seq<TypeId>) {
    NoDuplicates(order) && Elements(order) == Elements(nodes)
  }

  lemma {:induction false} LeftoverElements(nodes: seq<TypeId>, n: nat, e: seq<TypeId>)
    requires n <= |nodes| && NoDuplicates(e)
    ensures Elements(Leftover(nodes, n, e)) == Front(nodes, n) - Elements(e)
    ensures NoDuplicates(e + Leftover(nodes, n, e))
  {
    if n > 0 {
      LeftoverElements(nodes, n - 1, e);
      var before, t := Leftover(nodes, n - 1, e), nodes[n - 1];
      assert t in e <==> t in Elements(e);
      assert t in before <==> t in Elements(before);
      assert Front(nodes, n) == Front(nodes, n - 1) + {t};
      if t !in e && t !in before {
        FrontStep(before, t);
        NoDuplicatesStep(e + before, t);
        assert e + (before + [t]) == (e + before) + [t];
      }
    }
  }

  lemma NoDuplicatesStep(s: seq<TypeId>, t: TypeId)
    requires NoDuplicates(s) && t !in s
    ensures NoDuplicates(s + [t])
  {
  }

  /** The sorted list has no duplicates and contains every node, for every graph. */
  lemma SortComplete(g: Graph, e: seq<TypeId>)
    requires Emission(g, e)
    ensures NoDuplicates(e + Leftover(g.nodes, |g.nodes|, e))
    ensures forall t :: t in g.nodes ==> t in e + Leftover(g.nodes, |g.nodes|, e)
    ensures forall t :: t in e + Leftover(g.nodes, |g.nodes|, e) ==> t in AllTypes(g)
  {
    var rest := Leftover(g.nodes, |g.nodes|, e);
    LeftoverElements(g.nodes, |g.nodes|, e);
    forall t | t in g.nodes ensures t in e + rest {
      assert t in Elements(g.nodes);
      assert t in Elements(e) || t in Elements(rest);
    }
    forall t | t in e + rest ensures t in AllTypes(g) {
      assert t in Elements(e) || t in Elements(rest);
    }
  }

  /** What the queue never emitted waits for a repeated principal or another type that waits. */
  lemma Waiting(g: Graph, e: seq<TypeId>, c: TypeId) returns (p: TypeId)
    requires Emission(g, e) && ValidGraph(g) && c in g.nodes && c !in e && !HasRepeats(g, c)
    ensures p in g.nodes && p !in e && DependsOn(g, c, p)
  {
    var ps := Principals(g, c);
    assert c in Elements(g.nodes) && c !in Elements(e);
    assert !Ready(g, c, Elements(e));
    var k :| 0 <= k < |ps| && ps[k] != c && ps[k] !in Elements(e);
    p := ps[k];
    assert p in Elements(g.nodes);
  }

  lemma {:induction false} NoWaitingPair(g: Graph, e: seq<TypeId>, rank: TypeId -> nat, p: TypeId, d: TypeId)
    requires Emission(g, e) && ValidGraph(g) && Ranked(g, rank) && RepeatsHarmless(g)
    requires p in g.nodes && d in g.nodes && p !in e
    ensures !DependsOn(g, d, p)
    decreases rank(p)
  {
    if DependsOn(g, d, p) {
      var q := Waiting(g, e, p);
      NoWaitingPair(g, e, rank, q, p);
    }
  }

  /** A type the queue emitted comes after all its principals, whatever the graph. */
  lemma EmittedAfterPrincipals(g: Graph, e: seq<TypeId>, j: nat, p: TypeId)
    requires Emitted(g, e) && j < |e| && DependsOn(g, e[j], p)
    ensures p in Front(e, j)
  {
    var ps := Principals(g, e[j]);
    assert Ready(g, e[j], Front(e, j));
    var k :| 0 <= k < |ps| && ps[k] == p;
  }

  lemma EmittedPair(g: Graph, e: seq<TypeId>, i: nat, j: nat)
    requires Emitted(g, e) && i < |e| && j < |e| && DependsOn(g, e[j], e[i])
    ensures i < j
  {
    EmittedAfterPrincipals(g, e, j, e[i]);
  }

  lemma SameElements(a: seq<TypeId>, b: seq<TypeId>, t: TypeId)
    requires Elements(a) == Elements(b)
    ensures t in a <==> t in b
  {
    assert t in a <==> t in Elements(a);
    assert t in b <==> t in Elements(b);
  }

  lemma WaitingAt(g: Graph, e: seq<TypeId>, nodes: seq<TypeId>, i: nat)
    requires NoDuplicates(e) && Reordering(g.nodes, nodes) && |e| <= i < |e + Leftover(nodes, |nodes|, e)|
    ensures (e + Leftover(nodes, |nodes|, e))[i] in g.nodes && (e + Leftover(nodes, |nodes|, e))[i] !in e
  {
    var rest := Leftover(nodes, |nodes|, e);
    var t := (e + rest)[i];
    LeftoverElements(nodes, |nodes|, e);
    assert rest[i - |e|] == t && t in Elements(rest);
    SameElements(g.nodes, nodes, t);
  }

  lemma DependentWaits(g: Graph, e: seq<TypeId>, c: TypeId, d: TypeId)
    requires Emitted(g, e) && c !in e && DependsOn(g, d, c)
    ensures d !in e
  {
    forall j | 0 <= j < |e| ensures DependsOn(g, e[j], c) ==> c in Front(e, j) {
      if DependsOn(g, e[j], c) { EmittedAfterPrincipals(g, e, j, c); }
    }
  }

  lemma PairInOrder(g: Graph, e: seq<TypeId>, rank: TypeId -> nat, p: TypeId, i: nat, d: TypeId, j: nat)
    requires ValidGraph(g) && Emission(g, e) && Ranked(g, rank) && RepeatsHarmless(g) && DependsOn(g, d, p)
    requires Stands(g, e, p, i) && Stands(g, e, d, j)
    ensures i < j
  {
    if i < |e| && j < |e| {
      EmittedPair(g, e, i, j);
    } else if i >= |e| && j < |e| {
      DependentWaits(g, e, p, d);
    } else if i >= |e| {
      NoWaitingPair(g, e, rank, p, d);
    }
  }

  /** Where an element of the sorted list comes from. */
  ghost predicate Stands(g: Graph, e: seq<TypeId>, t: TypeId, i: nat) {
    if i < |e| then e[i] == t else t in g.nodes && t !in e
  }

  lemma StandsAt(g: Graph, e: seq<TypeId>, nodes: seq<TypeId>, i: nat)
    requires NoDuplicates(e) && Reordering(g.nodes, nodes) && i < |e + Leftover(nodes, |nodes|, e)|
    ensures Stands(g, e, (e + Leftover(nodes, |nodes|, e))[i], i)
  {
    if i >= |e| { WaitingAt(g, e, nodes, i); }
  }

  lemma SoundGivesOrder(g: Graph, e: seq<TypeId>, nodes: seq<TypeId>)
    requires ValidGraph(g) && Emission(g, e) && Reordering(g.nodes, nodes) && Acyclic(g) && RepeatsHarmless(g)
    ensures PrincipalsFirst(g, e + Leftover(nodes, |nodes|, e))
  {
    var order := e + Leftover(nodes, |nodes|, e);
    var rank: TypeId -> nat :| Ranked(g, rank);
    forall i, j | 0 <= i < |order| && 0 <= j < |order| && DependsOn(g, order[j], order[i]) ensures i < j {
      StandsAt(g, e, nodes, i);
      StandsAt(g, e, nodes, j);
      PairInOrder(g, e, rank, order[i], i, order[j], j);
    }
  }

  ghost function IndexIn(s: seq<TypeId>, t: TypeId): (i: nat)
    ensures i <= |s| && (t in s <==> i < |s|) && (i < |s| ==> s[i] == t)
  {
    if t in s then var i :| 0 <= i < |s| && s[i] == t; i else |s|
  }

  lemma OrderGivesRank(g: Graph, order: seq<TypeId>)
    requires ValidGraph(g) && PrincipalsFirst(g, order) && (forall t :: t in g.nodes ==> t in order)
    ensures Acyclic(g)
  {
    ghost var rank: TypeId -> nat := t => IndexIn(order, t);
    forall c, p | DependsOn(g, c, p) ensures rank(p) < rank(c) {
      var k :| 0 <= k < |Principals(g, c)| && Principals(g, c)[k] == p;
      assert p in Elements(g.nodes);
      assert p in order;
    }
    assert Ranked(g, rank);
  }

  /** The node order with `d` exchanged to the front. */
  function ToFront(nodes: seq<TypeId>, k: nat): seq<TypeId>
    requires k < |nodes|
  {
    nodes[k := nodes[0]][0 := nodes[k]]
  }

  lemma ToFrontReorders(nodes: seq<TypeId>, k: nat)
    requires NoDuplicates(nodes) && k < |nodes|
    ensures Reordering(nodes, ToFront(nodes, k))
  {
    var order := ToFront(nodes, k);
    forall t ensures t in Elements(order) <==> t in Elements(nodes) {
      if t in Elements(nodes) {
        var i :| 0 <= i < |nodes| && nodes[i] == t;
        assert order[if i == k then 0 else if i == 0 then k else i] == t;
      }
    }
  }

  lemma {:induction false} LeftoverFirst(nodes: seq<TypeId>, n: nat, e: seq<TypeId>)
    requires 0 < n <= |nodes| && nodes[0] !in e
    ensures |Leftover(nodes, n, e)| > 0 && Leftover(nodes, n, e)[0] == nodes[0]
  {
    if n > 1 { LeftoverFirst(nodes, n - 1, e); } else { assert Leftover(nodes, 0, e) == []; }
  }

  lemma FrontIsEarlier(g: Graph, nodes: seq<TypeId>, e: seq<TypeId>, c: TypeId)
    requires NoDuplicates(e) && nodes != [] && nodes[0] !in e && c in nodes && c !in e && DependsOn(g, nodes[0], c)
    ensures !PrincipalsFirst(g, e + Leftover(nodes, |nodes|, e))
  {
    var rest := Leftover(nodes, |nodes|, e);
    LeftoverFirst(nodes, |nodes|, e);
    LeftoverElements(nodes, |nodes|, e);
    assert c in Elements(nodes) && c !in Elements(e);
    assert c in Elements(rest);
    var i :| 0 <= i < |rest| && rest[i] == c;
    var order := e + rest;
    assert order[|e|] == nodes[0] && order[|e| + i] == c;
  }

  /** A waiting type that depends on a waiting type is put first by some node order. */
  lemma WaitingPairDisorders(g: Graph, e: seq<TypeId>, c: TypeId, d: TypeId) returns (nodes: seq<TypeId>)
    requires ValidGraph(g) && Emission(g, e) && c in g.nodes && d in g.nodes && c !in e && DependsOn(g, d, c)
    ensures Reordering(g.nodes, nodes) && !PrincipalsFirst(g, e + Leftover(nodes, |nodes|, e))
  {
    var k :| 0 <= k < |g.nodes| && g.nodes[k] == d;
    nodes := ToFront(g.nodes, k);
    ToFrontReorders(g.nodes, k);
    SameElements(g.nodes, nodes, c);
    DependentWaits(g, e, c, d);
    FrontIsEarlier(g, nodes, e, c);
  }

  /** What the queue emits leads to a sound save order for every hash order of the nodes exactly
      when the graph is acyclic apart from self-edges and repeated edges are harmless. */
  lemma SortSound(g: Graph, e: seq<TypeId>)
    requires ValidGraph(g) && Emission(g, e)
    ensures (forall nodes :: Reordering(g.nodes, nodes) ==> PrincipalsFirst(g, e + Leftover(nodes, |nodes|, e)))
        <==> Acyclic(g) && RepeatsHarmless(g)
  {
    if Acyclic(g) && RepeatsHarmless(g) {
      forall nodes | Reordering(g.nodes, nodes) ensures PrincipalsFirst(g, e + Leftover(nodes, |nodes|, e)) {
        SoundGivesOrder(g, e, nodes);
      }
    } else if forall nodes :: Reordering(g.nodes, nodes) ==> PrincipalsFirst(g, e + Leftover(nodes, |nodes|, e)) {
      SoundNeeded(g, e);
    }
  }

  lemma SoundNeeded(g: Graph, e: seq<TypeId>)
    requires ValidGraph(g) && Emission(g, e)
    requires forall nodes :: Reordering(g.nodes, nodes) ==> PrincipalsFirst(g, e + Leftover(nodes, |nodes|, e))
    ensures Acyclic(g) && RepeatsHarmless(g)
  {
    SortComplete(g, e);
    OrderGivesRank(g, e + Leftover(g.nodes, |g.nodes|, e));
    forall c, d | c in g.nodes && d in g.nodes && HasRepeats(g, c) ensures !DependsOn(g, d, c) {
      if DependsOn(g, d, c) {
        NeverReady(g, e, c);
        var nodes := WaitingPairDisorders(g, e, c, d);
      }
    }
  }

  lemma NeverReady(g: Graph, e: seq<TypeId>, c: TypeId)
    requires Emitted(g, e) && HasRepeats(g, c)
    ensures c !in e
  {
    forall i | 0 <= i < |e| ensures !HasRepeats(g, e[i]) {
      assert Ready(g, e[i], Front(e, i));
    }
  }

  // ---------------------------------------------------------------------------
  // What callers get
  // ---------------------------------------------------------------------------

  /** Every type once, and in a sound graph principals before dependents. */
  lemma SortGives(g: Graph, order: seq<TypeId>)
    requires Sorts(g, order)
    ensures NoDuplicates(order)
    ensures forall t :: t in g.nodes ==> t in order
    ensures forall t :: t in order ==> t in AllTypes(g)
    ensures ValidGraph(g) && Acyclic(g) && RepeatsHarmless(g) ==> PrincipalsFirst(g, order)
  {
    var e :| Emission(g, e) && order == e + Leftover(g.nodes, |g.nodes|, e);
    SortComplete(g, e);
    if ValidGraph(g) && Acyclic(g) && RepeatsHarmless(g) {
      SortSound(g, e);
      assert Reordering(g.nodes, g.nodes);
    }
  }

  method TopologicalSort(g: Graph) returns (result: seq<TypeId>)
    ensures Sorts(g, result) && NoDuplicates(result)
    ensures forall t :: t in g.nodes ==> t in result
    ensures forall t :: t in result ==> t in AllTypes(g)
    ensures ValidGraph(g) && Acyclic(g) && RepeatsHarmless(g) ==> PrincipalsFirst(g, result)
  {
    result := KahnOrder(g);
    SortGives(g, result);
  }

  /** Every dependent stands before its principals. */
  ghost predicate DependentsFirst(g: Graph, order: seq<TypeId>) {
    forall i, j :: 0 <= i < |order| && 0 <= j < |order| && DependsOn(g, order[j], order[i]) ==> j < i
  }

  /** A topological order reversed. */
  method DeletionOrder(g: Graph) returns (result: seq<TypeId>)
    ensures Sorts(g, Reverse(result)) && NoDuplicates(result) && forall t :: t in g.nodes ==> t in result
    ensures ValidGraph(g) && Acyclic(g) && RepeatsHarmless(g) ==> DependentsFirst(g, result)
  {
    var order := TopologicalSort(g);
    result := Reverse(order);
    assert Reverse(result) == order;
    forall t | t in g.nodes ensures t in result {
      var i :| 0 <= i < |order| && order[i] == t;
      assert result[|order| - 1 - i] == t;
    }
  }

  /** A principal (0) with two collections of one dependent (1), which has a dependent of its own (2): the
      first dependent never leaves the waiting list, and for this node order comes after its own dependent. */
  lemma RepeatedEdgeDisorders()
    ensures var g := Graph(map[1 := [0, 0], 2 := [1]], [0, 2, 1]);
      Sorts(g, [0, 2, 1]) && DependsOn(g, 2, 1) && !PrincipalsFirst(g, [0, 2, 1])
  {
    var g, order := Graph(map[1 := [0, 0], 2 := [1]], [0, 2, 1]), [0, 2, 1];
    var e := [0];
    assert Front(e, 0) == {} && Front(e, 1) == {0} && Elements(e) == {0};
    assert Principals(g, 0) == [] && Principals(g, 1) == [0, 0] && Principals(g, 2) == [1];
    assert Repeats([0, 0], 2, 1) by { assert [0, 0][0] == [0, 0][1] != 1; }
    assert !AllReleased([1], 1, 2, {0}) by { assert [1][0] != 2; }
    assert Elements(g.nodes) == {0, 1, 2} by { assert order[0] == 0 && order[1] == 2 && order[2] == 1; }
    assert Emission(g, e);
    assert Leftover(order, 0, e) == [] && Leftover(order, 1, e) == [] && Leftover(order, 2, e) == [2];
    assert Leftover(order, 3, e) == [2, 1];
    assert order == e + Leftover(g.nodes, |g.nodes|, e);
    assert DependsOn(g, order[1], order[2]);
  }
}
