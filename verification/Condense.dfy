// Condensation of a possibly cyclic execution graph: super-nodes, and a keyed Kahn order over them.

module Condense {
  import opened Prelude
  import opened Graphs
  import opened BlameInput

  // Members are in chronological order; the exit node is the last of them to finish.
  datatype SuperNode = SuperNode(
    members: seq<RunId>,
    exit: RunId,
    score: Option<real>,
    lowest: Option<real>,
    selfLoop: bool)

  // A super-node's id is its position in `supers`.
  datatype Condensation = Condensation(
    graph: Graph,
    dag: Graph,
    supers: seq<SuperNode>,
    superOf: map<RunId, nat>,
    topo: seq<nat>,
    sources: seq<nat>,
    sinks: seq<nat>)

  // ---------- Chronological sorting ----------

  ghost predicate IsLeast(key: nat -> Chron, s: set<nat>, m: nat) {
    m in s && forall x :: x in s && x != m ==> Before(key(m), key(x))
  }

  lemma {:induction false} LeastExists(key: nat -> Chron, s: set<nat>)
    requires s != {} && forall x, y :: x in s && y in s && x != y ==> key(x) != key(y)
    ensures exists m :: IsLeast(key, s, m)
  {
    var n :| n in s;
    if s == {n} {
      assert IsLeast(key, s, n);
    } else {
      LeastExists(key, s - {n});
      var m :| IsLeast(key, s - {n}, m);
      assert IsLeast(key, s, if Before(key(m), key(n)) then m else n);
    }
  }

  // What a heap keyed by `key` pops: the element with the least key.
  function Least(key: nat -> Chron, s: set<nat>): (m: nat)
    requires s != {} && forall x, y :: x in s && y in s && x != y ==> key(x) != key(y)
    ensures IsLeast(key, s, m)
  {
    LeastExists(key, s);
    var m :| m in s && forall x :: x in s && x != m ==> Before(key(m), key(x));
    m
  }

  ghost predicate Chronological(ends: map<RunId, real>, s: seq<RunId>) {
    forall i, j :: 0 <= i < j < |s| ==> Before(KeyOf(ends, s[i]), KeyOf(ends, s[j]))
  }

  lemma PrependLeast(ends: map<RunId, real>, s: set<RunId>, m: RunId, rest: seq<RunId>)
    requires m in s && Chronological(ends, rest) && Elements(rest) == s - {m}
    requires forall x :: x in s && x != m ==> Before(KeyOf(ends, m), KeyOf(ends, x))
    ensures Chronological(ends, [m] + rest) && Elements([m] + rest) == s
  {
    var r := [m] + rest;
    assert forall x :: x in rest <==> x in Elements(rest);
    forall i, j | 0 <= i < j < |r| ensures Before(KeyOf(ends, r[i]), KeyOf(ends, r[j])) {
      assert r[j] == rest[j - 1] && rest[j - 1] in Elements(rest);
      assert i > 0 ==> r[i] == rest[i - 1];
    }
  }

  function SortRuns(ends: map<RunId, real>, s: set<RunId>): (r: seq<RunId>)
    ensures Elements(r) == s && Chronological(ends, r)
  {
    if s == {} then [] else
      var m := Least((x: nat) => KeyOf(ends, x), s);
      var rest := SortRuns(ends, s - {m});
      PrependLeast(ends, s, m, rest);
      [m] + rest
  }

  // ---------- Strongly connected components ----------

  ghost predicate IsClassOf(g: Graph, s: set<RunId>, a: RunId) {
    s <= g.nodes && forall b :: b in g.nodes ==> (b in s <==> Mutual(g, a, b))
  }

  ghost predicate Listed(comps: seq<set<RunId>>, n: RunId) {
    exists i :: 0 <= i < |comps| && n in comps[i]
  }

  // Any numbering of the classes of mutual reachability: the order in which the library happens to
  // find them is not specified.
  ghost predicate IsSccListing(g: Graph, comps: seq<set<RunId>>) {
    && (forall i :: 0 <= i < |comps| ==> comps[i] != {})
    && (forall i, a :: 0 <= i < |comps| && a in comps[i] ==> IsClassOf(g, comps[i], a))
    && (forall n {:trigger Listed(comps, n)} :: n in g.nodes ==> Listed(comps, n))
    && Distinct(comps)
  }

  lemma SameComponent(g: Graph, comps: seq<set<RunId>>, i: nat, a: RunId, b: RunId)
    requires IsSccListing(g, comps) && i < |comps| && a in comps[i]
    ensures a in g.nodes
    ensures b in comps[i] ==> Reaches(g, a, b) && Reaches(g, b, a)
    ensures Reaches(g, a, b) && Reaches(g, b, a) ==> b in comps[i]
  {
    assert IsClassOf(g, comps[i], a);
    if Reaches(g, a, b) && Reaches(g, b, a) {
      ReachesInside(g, a, b);
    }
  }

  // Components that share a run are the same component.
  lemma ComponentsDisjoint(g: Graph, comps: seq<set<RunId>>, i: nat, j: nat, a: RunId)
    requires IsSccListing(g, comps) && i < |comps| && j < |comps| && a in comps[i] && a in comps[j]
    ensures i == j
  {
    hide Reaches;
    assert IsClassOf(g, comps[i], a) && IsClassOf(g, comps[j], a);
    assert comps[i] == comps[j];
  }

  // The lowest score known among the members.
  function LowestScore(inp: Input, ms: seq<RunId>): (low: Option<real>)
    ensures low.None? <==> forall m :: m in ms ==> ScoreOf(inp, m).None?
    ensures low.Some? ==> exists m :: m in ms && ScoreOf(inp, m) == low
    ensures low.Some? ==> forall m :: m in ms && ScoreOf(inp, m).Some? ==> low.value <= ScoreOf(inp, m).value
  {
    if ms == [] then None else
      var n := |ms| - 1;
      var rest, own := LowestScore(inp, ms[..n]), ScoreOf(inp, ms[n]);
      if own.None? || (rest.Some? && rest.value <= own.value) then rest else own
  }

  function MakeSuper(inp: Input, g: Graph, members: set<RunId>): SuperNode
    requires members != {}
  {
    var ms := SortRuns(inp.endTimes, members);
    assert ms == [] ==> Elements(ms) == {};
    SuperNode(ms, ms[|ms| - 1], ScoreOf(inp, ms[|ms| - 1]), LowestScore(inp, ms),
      |ms| == 1 && (ms[0], ms[0]) in g.edges)
  }

  // Some edge leads from one component into the other.
  predicate Crosses(g: Graph, from: set<RunId>, into: set<RunId>) {
    exists a, b :: a in from && b in into && (a, b) in g.edges
  }

  ghost predicate IsQuotient(g: Graph, comps: seq<set<RunId>>, dag: Graph) {
    && dag.Valid()
    && (forall i: nat :: i in dag.nodes <==> i < |comps|)
    && forall i: nat, j: nat :: (i, j) in dag.edges <==>
         i < |comps| && j < |comps| && i != j && Crosses(g, comps[i], comps[j])
  }

  lemma QuotientStep(g: Graph, comps: seq<set<RunId>>, i: nat, j: nat, a: RunId, b: RunId)
    requires g.Valid() && IsSccListing(g, comps)
    requires i < |comps| && j < |comps| && Crosses(g, comps[i], comps[j])
    requires a in comps[i] && b in comps[j]
    ensures Reaches(g, a, b)
  {
    var u, v :| u in comps[i] && v in comps[j] && (u, v) in g.edges;
    SameComponent(g, comps, i, a, u);
    SameComponent(g, comps, j, v, b);
    EdgeReaches(g, u, v);
    ReachesTrans(g, a, u, v);
    ReachesTrans(g, a, v, b);
  }

  lemma {:induction false} QuotientWalkLifts(g: Graph, comps: seq<set<RunId>>, dag: Graph, p: seq<nat>, a: RunId,
                                             b: RunId)
    requires g.Valid() && IsSccListing(g, comps) && IsQuotient(g, comps, dag) && IsWalk(dag, p)
    requires p[0] < |comps| && a in comps[p[0]]
    requires p[|p| - 1] < |comps| && b in comps[p[|p| - 1]]
    ensures Reaches(g, a, b)
    decreases |p|
  {
    hide Reaches, IsSccListing;
    if |p| == 1 {
      SameComponent(g, comps, p[0], a, b);
    } else {
      var k := |p| - 1;
      assert p[k - 1] in p && p[k - 1] in dag.nodes;
      assert (p[k - 1], p[k]) in dag.edges;
      SubWalk(dag, p, 0, k - 1);
      var q := p[0..k];
      assert q == p[0..k - 1 + 1];
      var u :| u in comps[p[k - 1]];
      QuotientWalkLifts(g, comps, dag, q, a, u);
      QuotientStep(g, comps, p[k - 1], p[k], u, b);
      ReachesTrans(g, a, u, b);
    }
  }

  lemma QuotientReach(g: Graph, comps: seq<set<RunId>>, dag: Graph, i: nat, j: nat, a: RunId, b: RunId)
    requires g.Valid() && IsSccListing(g, comps) && IsQuotient(g, comps, dag)
    requires i < |comps| && j < |comps| && a in comps[i] && b in comps[j] && Reaches(dag, i, j)
    ensures Reaches(g, a, b)
  {
    var p :| WalkFromTo(dag, i, j, p);
    QuotientWalkLifts(g, comps, dag, p, a, b);
  }

  // The quotient by mutual reachability has no cycle.
  lemma QuotientAcyclic(g: Graph, comps: seq<set<RunId>>, dag: Graph)
    requires g.Valid() && IsSccListing(g, comps) && IsQuotient(g, comps, dag)
    ensures Acyclic(dag)
  {
    forall i: nat, j: nat | i != j && Reaches(dag, i, j) ensures !Reaches(dag, j, i) {
      if Reaches(dag, j, i) {
        ReachesInside(dag, i, j);
        var a :| a in comps[i];
        var b :| b in comps[j];
        QuotientReach(g, comps, dag, i, j, a, b);
        QuotientReach(g, comps, dag, j, i, b, a);
        SameComponent(g, comps, i, a, b);
        ComponentsDisjoint(g, comps, i, j, b);
      }
    }
  }

  // ---------- The keyed Kahn loop ----------

  ghost predicate Ready(dag: Graph, done: set<nat>, n: nat) {
    n in dag.nodes && n !in done && forall p :: (p, n) in dag.edges ==> p in done
  }

  ghost predicate LeastReady(dag: Graph, key: nat -> Chron, done: set<nat>, n: nat) {
    Ready(dag, done, n) && forall m :: Ready(dag, done, m) && m != n ==> Before(key(n), key(m))
  }

  // Every position holds the least-key node among those whose predecessors all stand before it.
  ghost predicate IsKahnOrder(dag: Graph, key: nat -> Chron, topo: seq<nat>) {
    && |topo| == |dag.nodes|
    && forall k :: 0 <= k < |topo| ==> LeastReady(dag, key, Elements(topo[..k]), topo[k])
  }

  ghost predicate DistinctKeys(dag: Graph, key: nat -> Chron) {
    forall x, y :: x in dag.nodes && y in dag.nodes && x != y ==> key(x) != key(y)
  }

  function Pending(dag: Graph, done: set<nat>, n: nat): set<nat> {
    set p | p in dag.nodes && (p, n) in dag.edges && p !in done
  }

  lemma PendingAfter(dag: Graph, done: set<nat>, n: nat, s: nat)
    requires dag.Valid() && n !in done
    ensures |Pending(dag, done + {n}, s)| == |Pending(dag, done, s)| - (if (n, s) in dag.edges then 1 else 0)
  {
    assert Pending(dag, done + {n}, s) == Pending(dag, done, s) - {n};
  }

  lemma PendingEmpty(dag: Graph, done: set<nat>, n: nat)
    requires dag.Valid() && n in dag.nodes && n !in done
    ensures |Pending(dag, done, n)| == 0 <==> Ready(dag, done, n)
  {
    if |Pending(dag, done, n)| == 0 {
      assert Pending(dag, done, n) == {};
      forall p | (p, n) in dag.edges ensures p in done {
        assert p !in Pending(dag, done, n);
      }
    } else {
      var p :| p in Pending(dag, done, n);
    }
  }

  lemma SomethingReady(dag: Graph, done: set<nat>)
    requires dag.Valid() && Acyclic(dag) && done <= dag.nodes && done != dag.nodes
    ensures exists n :: Ready(dag, done, n)
  {
    assert !(dag.nodes <= done);
    var n :| n in dag.nodes && n !in done;
    var m := Minimal(dag, dag.nodes - done, n);
    assert Ready(dag, done, m);
  }

  ghost predicate Tracks(dag: Graph, done: set<nat>, indeg: map<nat, nat>, heap: set<nat>) {
    && indeg.Keys == dag.nodes
    && (forall n :: n in dag.nodes ==> indeg[n] == |Pending(dag, done, n)|)
    && forall n :: n in heap <==> Ready(dag, done, n)
  }

  // After `n` is popped: decrement its successors, and push those it was the last to hold back.
  method Release(dag: Graph, ghost key: nat -> Chron, ghost done: set<nat>, n: nat, indeg0: map<nat, nat>,
                 heap0: set<nat>)
    returns (indeg: map<nat, nat>, heap: set<nat>)
    requires dag.Valid() && Acyclic(dag) && LeastReady(dag, key, done, n) && Tracks(dag, done, indeg0, heap0)
    requires forall p, s :: (p, s) in dag.edges && s in done ==> p in done
    ensures Tracks(dag, done + {n}, indeg, heap)
  {
    indeg, heap := indeg0, heap0 - {n};
    var succs := set s | s in dag.nodes && (n, s) in dag.edges;
    forall s | s in dag.nodes && s !in succs ensures indeg[s] == |Pending(dag, done + {n}, s)| {
      PendingAfter(dag, done, n, s);
    }
    while succs != {}
      invariant succs <= dag.nodes && forall s :: s in succs ==> (n, s) in dag.edges
      invariant indeg.Keys == dag.nodes
      invariant forall s :: s in succs ==> indeg[s] == |Pending(dag, done, s)|
      invariant forall s :: s in dag.nodes - succs ==> indeg[s] == |Pending(dag, done + {n}, s)|
      invariant forall s :: s in heap <==> Ready(dag, done + {n}, s) && s !in succs
    {
      var s :| s in succs;
      succs := succs - {s};
      PendingAfter(dag, done, n, s);
      NoBackEdge(dag, n, s);
      PendingEmpty(dag, done + {n}, s);
      indeg := indeg[s := indeg[s] - 1];
      if indeg[s] == 0 {
        heap := heap + {s};
      }
    }
  }

  lemma ReadyIsOpen(dag: Graph, key: nat -> Chron, done: set<nat>, indeg: map<nat, nat>, heap: set<nat>)
    requires Tracks(dag, done, indeg, heap) && DistinctKeys(dag, key)
    ensures heap <= dag.nodes
    ensures forall x, y :: x in heap && y in heap && x != y ==> key(x) != key(y)
    ensures forall n :: IsLeast(key, heap, n) ==> LeastReady(dag, key, done, n)
  {
  }

  // The prefix emitted so far: each run the least ready one at its turn, and closed under predecessors.
  ghost predicate Emitted(dag: Graph, key: nat -> Chron, topo: seq<nat>, done: set<nat>) {
    && done == Elements(topo) && done <= dag.nodes && |done| == |topo|
    && (forall p, s :: (p, s) in dag.edges && s in done ==> p in done)
    && forall k :: 0 <= k < |topo| ==> LeastReady(dag, key, Elements(topo[..k]), topo[k])
  }

  lemma EmitNext(dag: Graph, key: nat -> Chron, topo: seq<nat>, done: set<nat>, n: nat)
    requires Emitted(dag, key, topo, done) && LeastReady(dag, key, done, n)
    ensures Emitted(dag, key, topo + [n], done + {n}) && |topo| < |dag.nodes|
  {
    KahnAppend(dag, key, topo, n);
    SubsetSize(done + {n}, dag.nodes);
  }

  method InDegrees(dag: Graph) returns (indeg: map<nat, nat>, heap: set<nat>)
    requires dag.Valid()
    ensures Tracks(dag, {}, indeg, heap)
  {
    indeg := map n | n in dag.nodes :: |Pending(dag, {}, n)|;
    heap := set n | n in dag.nodes && indeg[n] == 0;
    forall n | n in dag.nodes ensures n in heap <==> Ready(dag, {}, n) {
      PendingEmpty(dag, {}, n);
    }
  }

  method KahnOrder(dag: Graph, key: nat -> Chron) returns (topo: seq<nat>)
    requires dag.Valid() && Acyclic(dag) && DistinctKeys(dag, key)
    ensures IsKahnOrder(dag, key, topo)
  {
    var indeg, heap := InDegrees(dag);
    topo := [];
    ghost var done: set<nat> := {};
    hide Reaches, Tracks, LeastReady, Ready;
    while heap != {}
      invariant Emitted(dag, key, topo, done) && Tracks(dag, done, indeg, heap)
      decreases |dag.nodes| - |topo|
    {
      ReadyIsOpen(dag, key, done, indeg, heap);
      var n := Least(key, heap);
      indeg, heap := Release(dag, key, done, n, indeg, heap);
      EmitNext(dag, key, topo, done, n);
      topo := topo + [n];
      done := done + {n};
    }
    NothingLeft(dag, done, indeg, heap);
  }

  lemma NothingLeft(dag: Graph, done: set<nat>, indeg: map<nat, nat>, heap: set<nat>)
    requires dag.Valid() && Acyclic(dag) && done <= dag.nodes && Tracks(dag, done, indeg, heap) && heap == {}
    ensures done == dag.nodes
  {
    if done != dag.nodes {
      SomethingReady(dag, done);
    }
  }

  lemma KahnAppend(dag: Graph, key: nat -> Chron, topo: seq<nat>, n: nat)
    requires forall k :: 0 <= k < |topo| ==> LeastReady(dag, key, Elements(topo[..k]), topo[k])
    requires LeastReady(dag, key, Elements(topo), n)
    ensures Elements(topo + [n]) == Elements(topo) + {n}
    ensures forall k :: 0 <= k < |topo + [n]| ==> LeastReady(dag, key, Elements((topo + [n])[..k]), (topo + [n])[k])
  {
    var t := topo + [n];
    forall k | 0 <= k < |t| ensures LeastReady(dag, key, Elements(t[..k]), t[k]) {
      assert t[..k] == topo[..k];
      assert k == |topo| ==> topo[..k] == topo;
    }
  }

  // Everything once, predecessors first.
  lemma KahnCovers(dag: Graph, key: nat -> Chron, topo: seq<nat>)
    requires dag.Valid() && IsKahnOrder(dag, key, topo)
    ensures ProperTopo(dag, topo)
  {
    forall i, j | 0 <= i < j < |topo| ensures topo[i] != topo[j] {
      assert LeastReady(dag, key, Elements(topo[..j]), topo[j]);
      assert topo[..j][i] in Elements(topo[..j]);
    }
    forall i | 0 <= i < |topo| ensures topo[i] in dag.nodes {
      assert LeastReady(dag, key, Elements(topo[..i]), topo[i]);
    }
    DistinctCount(topo);
    SubsetSize(Elements(topo), dag.nodes);
    forall i, j | 0 <= i < |topo| && 0 <= j < |topo| && (topo[i], topo[j]) in dag.edges ensures i < j {
      assert LeastReady(dag, key, Elements(topo[..j]), topo[j]);
      assert topo[i] in Elements(topo[..j]);
      var k :| 0 <= k < j && topo[..j][k] == topo[i];
    }
  }

  // A Kahn order over distinct keys is unique.
  lemma LeastOnce(dag: Graph, key: nat -> Chron, done: set<nat>, n: nat, m: nat)
    requires LeastReady(dag, key, done, n) && LeastReady(dag, key, done, m)
    ensures n == m
  {
    hide Ready;
  }

  lemma {:induction false} KahnUnique(dag: Graph, key: nat -> Chron, s: seq<nat>, t: seq<nat>, k: nat)
    requires IsKahnOrder(dag, key, s) && IsKahnOrder(dag, key, t) && k <= |s|
    ensures s[..k] == t[..k]
  {
    if k > 0 {
      KahnUnique(dag, key, s, t, k - 1);
      LeastOnce(dag, key, Elements(s[..k - 1]), s[k - 1], t[k - 1]);
      hide LeastReady;
      assert s[..k] == s[..k - 1] + [s[k - 1]] && t[..k] == t[..k - 1] + [t[k - 1]];
    }
  }

  // ---------- The condensation ----------

  function ExitKey(ends: map<RunId, real>, supers: seq<SuperNode>): nat -> Chron {
    (i: nat) => if i < |supers| then KeyOf(ends, supers[i].exit) else Chron(None, 0)
  }

  predicate IsSource(dag: Graph, n: nat) {
    forall p :: p in dag.nodes ==> (p, n) !in dag.edges
  }

  predicate IsSink(dag: Graph, n: nat) {
    forall s :: s in dag.nodes ==> (n, s) !in dag.edges
  }

  function Sources(dag: Graph, topo: seq<nat>): seq<nat> {
    Filter(topo, n => IsSource(dag, n))
  }

  function Sinks(dag: Graph, topo: seq<nat>): seq<nat> {
    Filter(topo, n => IsSink(dag, n))
  }

  ghost predicate SupersOf(inp: Input, g: Graph, comps: seq<set<RunId>>, supers: seq<SuperNode>) {
    && |supers| == |comps|
    && forall i :: 0 <= i < |comps| ==> comps[i] != {} && supers[i] == MakeSuper(inp, g, comps[i])
  }

  ghost predicate Locates(g: Graph, comps: seq<set<RunId>>, superOf: map<RunId, nat>) {
    && superOf.Keys == g.nodes
    && forall n :: n in superOf ==> superOf[n] < |comps| && n in comps[superOf[n]]
  }

  // `c` is the condensation of `inp` when the components are numbered as in `comps`.
  ghost predicate Condensed(inp: Input, comps: seq<set<RunId>>, c: Condensation) {
    && c.graph == BuildGraph(inp.nodes, inp.edges)
    && IsSccListing(c.graph, comps)
    && IsQuotient(c.graph, comps, c.dag)
    && SupersOf(inp, c.graph, comps, c.supers)
    && Locates(c.graph, comps, c.superOf)
    && IsKahnOrder(c.dag, ExitKey(inp.endTimes, c.supers), c.topo)
    && c.sources == Sources(c.dag, c.topo) && c.sinks == Sinks(c.dag, c.topo)
  }

  ghost predicate ProperSuper(inp: Input, g: Graph, sn: SuperNode) {
    && |sn.members| > 0 && Chronological(inp.endTimes, sn.members)
    && sn.exit == sn.members[|sn.members| - 1]
    && sn.score == ScoreOf(inp, sn.exit)
    && (sn.selfLoop <==> |sn.members| == 1 && (sn.exit, sn.exit) in g.edges)
    && forall a, b {:trigger Mutual(g, a, b)} :: a in sn.members && b in sn.members ==> Mutual(g, a, b)
  }

  ghost predicate ProperTopo(dag: Graph, topo: seq<nat>) {
    && Distinct(topo) && Elements(topo) == dag.nodes
    && forall i, j :: 0 <= i < |topo| && 0 <= j < |topo| && (topo[i], topo[j]) in dag.edges ==> i < j
  }

  ghost predicate ProperMembers(g: Graph, supers: seq<SuperNode>, superOf: map<RunId, nat>) {
    && superOf.Keys == g.nodes
    && (forall n :: n in superOf ==> superOf[n] < |supers| && n in supers[superOf[n]].members)
    && forall i: nat, n :: i < |supers| && n in supers[i].members ==> n in superOf && superOf[n] == i
  }

  ghost predicate ProperEnds(dag: Graph, topo: seq<nat>, sources: seq<nat>, sinks: seq<nat>) {
    && (forall s {:trigger s in sources} {:trigger IsSource(dag, s)} :: s in sources <==> s in topo && IsSource(dag, s))
    && forall s {:trigger s in sinks} {:trigger IsSink(dag, s)} :: s in sinks <==> s in topo && IsSink(dag, s)
  }

  // What every later stage may rely on.
  ghost predicate WellFormed(inp: Input, c: Condensation) {
    && c.graph == BuildGraph(inp.nodes, inp.edges)
    && c.dag.Valid() && Acyclic(c.dag)
    && (forall i: nat :: i in c.dag.nodes <==> i < |c.supers|)
    && ProperTopo(c.dag, c.topo)
    && ProperMembers(c.graph, c.supers, c.superOf)
    && (forall i :: 0 <= i < |c.supers| ==> ProperSuper(inp, c.graph, c.supers[i]))
    && ProperEnds(c.dag, c.topo, c.sources, c.sinks)
  }

  lemma ProperSupers(inp: Input, g: Graph, comps: seq<set<RunId>>, supers: seq<SuperNode>, i: nat)
    requires IsSccListing(g, comps) && SupersOf(inp, g, comps, supers) && i < |comps|
    ensures ProperSuper(inp, g, supers[i]) && Elements(supers[i].members) == comps[i]
    ensures forall n :: n in supers[i].members <==> n in comps[i]
    ensures supers[i].exit in comps[i]
  {
    hide Reaches;
    var sn := supers[i];
    assert sn == MakeSuper(inp, g, comps[i]);
    assert forall n :: n in sn.members <==> n in Elements(sn.members);
    forall a, b | a in sn.members && b in sn.members ensures Mutual(g, a, b) {
      SameComponent(g, comps, i, a, b);
    }
  }

  lemma MembersProper(inp: Input, g: Graph, comps: seq<set<RunId>>, supers: seq<SuperNode>, superOf: map<RunId, nat>)
    requires IsSccListing(g, comps) && SupersOf(inp, g, comps, supers) && Locates(g, comps, superOf)
    ensures ProperMembers(g, supers, superOf)
  {
    hide Reaches, IsSccListing, SupersOf, MakeSuper;
    SuperCount(inp, g, comps, supers);
    forall i: nat, n | i < |comps| ensures n in supers[i].members <==> n in comps[i] {
      ProperSupers(inp, g, comps, supers, i);
    }
    forall i: nat, n | i < |supers| && n in supers[i].members ensures n in superOf && superOf[n] == i {
      SameComponent(g, comps, i, n, n);
      ComponentsDisjoint(g, comps, i, superOf[n], n);
    }
  }

  lemma SuperCount(inp: Input, g: Graph, comps: seq<set<RunId>>, supers: seq<SuperNode>)
    requires SupersOf(inp, g, comps, supers)
    ensures |supers| == |comps|
  {
  }

  lemma QuotientBasics(g: Graph, comps: seq<set<RunId>>, dag: Graph)
    requires IsQuotient(g, comps, dag)
    ensures dag.Valid() && forall i: nat :: i in dag.nodes <==> i < |comps|
  {
  }

  lemma ExitsDiffer(inp: Input, g: Graph, comps: seq<set<RunId>>, supers: seq<SuperNode>, i: nat, j: nat)
    requires IsSccListing(g, comps) && SupersOf(inp, g, comps, supers)
    requires i < |comps| && j < |comps| && i != j
    ensures supers[i].exit != supers[j].exit
  {
    hide Reaches;
    ProperSupers(inp, g, comps, supers, i);
    ProperSupers(inp, g, comps, supers, j);
    if supers[i].exit == supers[j].exit {
      ComponentsDisjoint(g, comps, i, j, supers[i].exit);
    }
  }

  lemma ExitKeysDiffer(inp: Input, g: Graph, comps: seq<set<RunId>>, supers: seq<SuperNode>, dag: Graph)
    requires IsSccListing(g, comps) && SupersOf(inp, g, comps, supers)
    requires forall i: nat :: i in dag.nodes <==> i < |comps|
    ensures DistinctKeys(dag, ExitKey(inp.endTimes, supers))
  {
    hide Reaches, IsSccListing, SupersOf;
    SuperCount(inp, g, comps, supers);
    forall i, j | i in dag.nodes && j in dag.nodes && i != j ensures supers[i].exit != supers[j].exit {
      ExitsDiffer(inp, g, comps, supers, i, j);
    }
  }

  lemma CondensedIsWellFormed(inp: Input, comps: seq<set<RunId>>, c: Condensation)
    requires Condensed(inp, comps, c)
    ensures WellFormed(inp, c)
  {
    hide Reaches, IsSccListing, IsQuotient, IsKahnOrder, Acyclic, SupersOf, Locates, ProperTopo, ProperMembers,
      ProperSuper;
    QuotientBasics(c.graph, comps, c.dag);
    SuperCount(inp, c.graph, comps, c.supers);
    QuotientAcyclic(c.graph, comps, c.dag);
    KahnCovers(c.dag, ExitKey(inp.endTimes, c.supers), c.topo);
    MembersProper(inp, c.graph, comps, c.supers, c.superOf);
    forall i | 0 <= i < |c.supers| ensures ProperSuper(inp, c.graph, c.supers[i]) {
      ProperSupers(inp, c.graph, comps, c.supers, i);
    }
  }

  // A numbering of the components always exists: collect them in the order of the runs listed.
  method SccListing(g: Graph, order: seq<RunId>) returns (comps: seq<set<RunId>>)
    requires g.Valid() && Elements(order) == g.nodes
    ensures IsSccListing(g, comps)
  {
    hide IsClassOf, Listed, Reaches;
    comps := [];
    var covered: set<RunId> := {};
    NothingListed(g);
    for k := 0 to |order|
      invariant Partial(g, comps, covered) && forall i :: 0 <= i < k ==> order[i] in covered
    {
      hide Partial;
      if order[k] !in covered {
        assert order[k] in Elements(order);
        var comp := ComponentOf(g, order[k]);
        AddComponent(g, comps, covered, order[k], comp);
        comps, covered := comps + [comp], covered + comp;
      }
    }
    assert forall n :: n in order <==> n in Elements(order);
    Complete(g, comps, covered);
  }

  lemma Complete(g: Graph, comps: seq<set<RunId>>, covered: set<RunId>)
    requires Partial(g, comps, covered) && g.nodes <= covered
    ensures IsSccListing(g, comps)
  {
    hide IsClassOf, Listed;
  }

  ghost predicate Partial(g: Graph, comps: seq<set<RunId>>, covered: set<RunId>) {
    && (forall i :: 0 <= i < |comps| ==> comps[i] != {} && comps[i] <= covered)
    && (forall i, a :: 0 <= i < |comps| && a in comps[i] ==> IsClassOf(g, comps[i], a))
    && (forall n {:trigger Listed(comps, n)} :: n in covered ==> Listed(comps, n))
    && Distinct(comps)
  }

  lemma NothingListed(g: Graph)
    ensures Partial(g, [], {})
  {
  }

  method ComponentOf(g: Graph, n: RunId) returns (s: set<RunId>)
    requires g.Valid() && n in g.nodes
    ensures n in s && IsClassOf(g, s, n)
  {
    var out := ReachableFrom(g, n);
    var back := AncestorsOf(g, n);
    ReachesSelf(g, n);
    s := out * (back + {n});
    forall b | b in s ensures b in g.nodes {
      ReachesInside(g, n, b);
    }
  }

  lemma ClassIsShared(g: Graph, s: set<RunId>, n: RunId, a: RunId)
    requires IsClassOf(g, s, n) && n in s && a in s
    ensures IsClassOf(g, s, a)
  {
    hide Reaches;
    assert Mutual(g, n, a);
    forall b | b in g.nodes ensures b in s <==> Mutual(g, a, b) {
      if b in s {
        assert Mutual(g, n, b);
        ReachesTrans(g, a, n, b);
        ReachesTrans(g, b, n, a);
      } else if Mutual(g, a, b) {
        ReachesTrans(g, n, a, b);
        ReachesTrans(g, b, a, n);
      }
    }
  }

  lemma AddComponent(g: Graph, comps: seq<set<RunId>>, covered: set<RunId>, n: RunId, comp: set<RunId>)
    requires Partial(g, comps, covered) && n !in covered && n in comp && IsClassOf(g, comp, n)
    ensures Partial(g, comps + [comp], covered + comp)
  {
    hide Reaches;
    var out := comps + [comp];
    forall a | a in comp ensures IsClassOf(g, comp, a) {
      ClassIsShared(g, comp, n, a);
    }
    forall m | m in covered + comp ensures Listed(out, m) {
      if m in covered {
        assert Listed(comps, m);
        var i :| 0 <= i < |comps| && m in comps[i];
        assert m in out[i];
      } else {
        assert m in out[|comps|];
      }
    }
  }

  method Condense(inp: Input, comps: seq<set<RunId>>) returns (c: Condensation)
    requires IsSccListing(BuildGraph(inp.nodes, inp.edges), comps)
    ensures Condensed(inp, comps, c)
  {
    var g := BuildGraph(inp.nodes, inp.edges);
    var dag := Quotient(g, comps);
    var supers, superOf := MakeSupers(inp, g, comps);
    QuotientAcyclic(g, comps, dag);
    ExitKeysDiffer(inp, g, comps, supers, dag);
    hide Reaches, IsSccListing, IsQuotient, SupersOf, Locates, Acyclic, DistinctKeys;
    var topo := KahnOrder(dag, ExitKey(inp.endTimes, supers));
    c := Condensation(g, dag, supers, superOf, topo, Sources(dag, topo), Sinks(dag, topo));
  }

  function Indices(n: nat): (s: set<nat>)
    ensures forall i: nat :: i in s <==> i < n
  {
    if n == 0 then {} else Indices(n - 1) + {n - 1}
  }

  method Quotient(g: Graph, comps: seq<set<RunId>>) returns (dag: Graph)
    ensures IsQuotient(g, comps, dag)
  {
    var ids := Indices(|comps|);
    dag := Graph(ids, set i, j | i in ids && j in ids && i != j && Crosses(g, comps[i], comps[j]) :: (i, j));
  }

  ghost predicate LocatesUpTo(comps: seq<set<RunId>>, k: nat, superOf: map<RunId, nat>) {
    && k <= |comps|
    && (forall i, n :: 0 <= i < k && n in comps[i] ==> n in superOf)
    && forall n :: n in superOf ==> superOf[n] < k && n in comps[superOf[n]]
  }

  function Locate(superOf: map<RunId, nat>, members: set<RunId>, sid: nat): map<RunId, nat> {
    superOf + map m | m in members :: sid
  }

  lemma LocateNext(comps: seq<set<RunId>>, k: nat, superOf: map<RunId, nat>)
    requires k < |comps| && LocatesUpTo(comps, k, superOf)
    ensures LocatesUpTo(comps, k + 1, Locate(superOf, comps[k], k))
  {
  }

  lemma LocatedAll(g: Graph, comps: seq<set<RunId>>, superOf: map<RunId, nat>)
    requires IsSccListing(g, comps) && LocatesUpTo(comps, |comps|, superOf)
    ensures Locates(g, comps, superOf)
  {
    hide Reaches, IsSccListing;
    ListingCovers(g, comps);
  }

  method MakeSupers(inp: Input, g: Graph, comps: seq<set<RunId>>) returns (supers: seq<SuperNode>, superOf: map<RunId,
                    nat>)
    requires IsSccListing(g, comps)
    ensures SupersOf(inp, g, comps, supers) && Locates(g, comps, superOf)
  {
    hide Reaches, IsSccListing, MakeSuper, LocatesUpTo, Locate, Locates;
    ComponentsNonempty(g, comps);
    supers, superOf := [], map[];
    assert LocatesUpTo(comps, 0, superOf) by {
      LocateNone(comps);
    }
    for sid := 0 to |comps|
      invariant |supers| == sid && forall i :: 0 <= i < sid ==> supers[i] == MakeSuper(inp, g, comps[i])
      invariant LocatesUpTo(comps, sid, superOf)
    {
      supers := supers + [MakeSuper(inp, g, comps[sid])];
      LocateNext(comps, sid, superOf);
      superOf := Locate(superOf, comps[sid], sid);
    }
    LocatedAll(g, comps, superOf);
  }

  lemma LocateNone(comps: seq<set<RunId>>)
    ensures LocatesUpTo(comps, 0, map[])
  {
  }

  lemma ComponentsNonempty(g: Graph, comps: seq<set<RunId>>)
    requires IsSccListing(g, comps)
    ensures forall i :: 0 <= i < |comps| ==> comps[i] != {}
  {
  }

  lemma ListingCovers(g: Graph, comps: seq<set<RunId>>)
    requires IsSccListing(g, comps)
    ensures forall i, n :: 0 <= i < |comps| && n in comps[i] ==> n in g.nodes
    ensures forall n :: n in g.nodes ==> exists i :: 0 <= i < |comps| && n in comps[i]
  {
    forall i, n | 0 <= i < |comps| && n in comps[i] ensures n in g.nodes {
      SameComponent(g, comps, i, n, n);
    }
    forall n | n in g.nodes ensures exists i :: 0 <= i < |comps| && n in comps[i] {
      assert Listed(comps, n);
    }
  }
}
