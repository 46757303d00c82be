// The advisory shape of the execution graph, and the one shape that discounts attribution.

module Topology {
  import opened Prelude
  import opened Graphs
  import opened Condense
  import opened BlameInput

  // ---------- Weak connectivity and degrees ----------

  function Undirected(g: Graph): (u: Graph)
    ensures g.Valid() ==> u.Valid()
  {
    Graph(g.nodes, g.edges + set e | e in g.edges :: (e.1, e.0))
  }

  ghost predicate WeaklyConnected(g: Graph) {
    forall a, b :: a in g.nodes && b in g.nodes ==> Reaches(Undirected(g), a, b)
  }

  function EdgesInto(g: Graph, v: nat): set<(nat, nat)> {
    set e | e in g.edges && e.1 == v
  }

  function EdgesFrom(g: Graph, v: nat): set<(nat, nat)> {
    set e | e in g.edges && e.0 == v
  }

  ghost predicate IsSimplePath(g: Graph) {
    var k := |g.nodes|;
    k > 0 &&
    if k == 1 then g.edges == {}
    else |g.edges| == k - 1 && WeaklyConnected(g) &&
         forall v :: v in g.nodes ==> |EdgesInto(g, v)| <= 1 && |EdgesFrom(g, v)| <= 1
  }

  // ---------- The independent reading: a line ----------

  ghost predicate Consecutive(p: seq<nat>, a: nat, b: nat) {
    exists i: nat, j: nat :: j == i + 1 < |p| && p[i] == a && p[j] == b
  }

  // The nodes listed once each, with exactly the consecutive edges.
  ghost predicate IsLine(g: Graph, p: seq<nat>) {
    && p != [] && Distinct(p) && Elements(p) == g.nodes
    && forall a: nat, b: nat :: (a, b) in g.edges <==> Consecutive(p, a, b)
  }

  lemma OneOf<T>(s: set<T>, x: T, y: T)
    requires |s| <= 1 && x in s && y in s
    ensures x == y
  {
    SubsetSize({x, y}, s);
  }

  lemma AtMostOne<T>(s: set<T>)
    requires forall x, y :: x in s && y in s ==> x == y
    ensures |s| <= 1
  {
    if s != {} {
      var x :| x in s;
      assert s == {x};
    }
  }

  lemma {:induction false} TargetsCount(edges: set<(nat, nat)>)
    ensures |set e | e in edges :: e.1| <= |edges|
  {
    if edges != {} {
      var e :| e in edges;
      TargetsCount(edges - {e});
      assert (set x | x in edges :: x.1) == (set x | x in edges - {e} :: x.1) + {e.1};
    }
  }

  // Fewer edges than nodes: some node has no edge into it.
  lemma RootExists(g: Graph) returns (root: nat)
    requires g.Valid() && |g.edges| < |g.nodes|
    ensures root in g.nodes && EdgesInto(g, root) == {}
  {
    var targets := set e | e in g.edges :: e.1;
    TargetsCount(g.edges);
    assert targets <= g.nodes by {
      forall t | t in targets ensures t in g.nodes {
        var e :| e in g.edges && e.1 == t;
        assert (e.0, e.1) in g.edges;
      }
    }
    assert targets != g.nodes;
    root :| root in g.nodes && root !in targets;
    assert forall e :: e in EdgesInto(g, root) ==> e.1 in targets;
  }

  // A path from a root, following the only way on.
  ghost predicate Followed(g: Graph, p: seq<nat>) {
    && p != [] && Distinct(p) && (forall x :: x in p ==> x in g.nodes) && EdgesInto(g, p[0]) == {}
    && forall i: nat, j: nat :: j == i + 1 < |p| ==> (p[i], p[j]) in g.edges
  }

  ghost predicate Unbranched(g: Graph) {
    forall v :: v in g.nodes ==> |EdgesInto(g, v)| <= 1 && |EdgesFrom(g, v)| <= 1
  }

  lemma NothingInto(g: Graph, v: nat)
    requires EdgesInto(g, v) == {}
    ensures forall a: nat :: (a, v) !in g.edges
  {
    forall a: nat ensures (a, v) !in g.edges {
      assert (a, v) !in EdgesInto(g, v);
    }
  }

  lemma NothingFrom(g: Graph, v: nat)
    requires EdgesFrom(g, v) == {}
    ensures forall b: nat :: (v, b) !in g.edges
  {
    forall b: nat ensures (v, b) !in g.edges {
      assert (v, b) !in EdgesFrom(g, v);
    }
  }

  lemma SameSource(g: Graph, a: nat, b: nat, v: nat)
    requires g.Valid() && Unbranched(g) && (a, v) in g.edges && (b, v) in g.edges
    ensures a == b
  {
    OneOf(EdgesInto(g, v), (a, v), (b, v));
  }

  lemma SameTarget(g: Graph, v: nat, a: nat, b: nat)
    requires g.Valid() && Unbranched(g) && (v, a) in g.edges && (v, b) in g.edges
    ensures a == b
  {
    OneOf(EdgesFrom(g, v), (v, a), (v, b));
  }

  lemma NewStop(g: Graph, p: seq<nat>, s: nat)
    requires g.Valid() && Unbranched(g) && Followed(g, p) && (p[|p| - 1], s) in g.edges
    ensures Followed(g, p + [s])
  {
    if s in p {
      var k :| 0 <= k < |p| && p[k] == s;
      NothingInto(g, p[0]);
      if k > 0 {
        var i: nat := k - 1;
        assert (p[i], p[k]) in g.edges;
        SameSource(g, p[i], p[|p| - 1], s);
      }
    }
    var q := p + [s];
    forall i: nat, j: nat | j == i + 1 < |q| ensures (q[i], q[j]) in g.edges {
      if j < |p| {
        assert (p[i], p[j]) in g.edges;
      }
    }
  }

  lemma {:induction false} FollowOn(g: Graph, p: seq<nat>) returns (q: seq<nat>)
    requires g.Valid() && Unbranched(g) && Followed(g, p)
    ensures Followed(g, q) && EdgesFrom(g, q[|q| - 1]) == {}
    decreases |g.nodes| - |p|
  {
    DistinctBound(p, g.nodes);
    if EdgesFrom(g, p[|p| - 1]) == {} {
      q := p;
    } else {
      var e :| e in EdgesFrom(g, p[|p| - 1]);
      assert e == (p[|p| - 1], e.1);
      NewStop(g, p, e.1);
      DistinctBound(p + [e.1], g.nodes);
      q := FollowOn(g, p + [e.1]);
    }
  }

  // Nothing leaves or enters a complete path, so a connected graph is all of it.
  lemma FollowedIsAll(g: Graph, p: seq<nat>)
    requires g.Valid() && Unbranched(g) && WeaklyConnected(g) && Followed(g, p) && EdgesFrom(g, p[|p| - 1]) == {}
    ensures IsLine(g, p)
  {
    forall a, b | (a, b) in g.edges && (a in p || b in p) ensures Consecutive(p, a, b) && a in p && b in p {
      EdgeOnPath(g, p, a, b);
    }
    var u := Undirected(g);
    forall x | x in g.nodes ensures x in Elements(p) {
      assert p[0] in p && p[0] in Elements(p);
      forall y, z | y in Elements(p) && (y, z) in u.edges ensures z in Elements(p) {
        assert (y, z) in g.edges || (z, y) in g.edges;
      }
      ClosedUnderReach(u, Elements(p), p[0], x);
    }
    forall a: nat, b: nat | Consecutive(p, a, b) ensures (a, b) in g.edges {
      var i: nat, j: nat :| j == i + 1 < |p| && p[i] == a && p[j] == b;
    }
  }

  lemma EdgeOnPath(g: Graph, p: seq<nat>, a: nat, b: nat)
    requires g.Valid() && Unbranched(g) && Followed(g, p) && EdgesFrom(g, p[|p| - 1]) == {}
    requires (a, b) in g.edges && (a in p || b in p)
    ensures Consecutive(p, a, b) && a in p && b in p
  {
    if a in p {
      var i: nat :| i < |p| && p[i] == a;
      NothingFrom(g, p[|p| - 1]);
      var j := i + 1;
      assert (p[i], p[j]) in g.edges;
      SameTarget(g, a, b, p[j]);
    } else {
      var j: nat :| j < |p| && p[j] == b;
      NothingInto(g, p[0]);
      var i: nat := j - 1;
      assert (p[i], p[j]) in g.edges;
      SameSource(g, a, p[i], b);
    }
  }

  lemma SimplePathIsLine(g: Graph) returns (p: seq<nat>)
    requires g.Valid() && IsSimplePath(g)
    ensures IsLine(g, p)
  {
    if |g.nodes| == 1 {
      var v :| v in g.nodes;
      p := [v];
      OneNode(g, v);
    } else {
      var root := RootExists(g);
      p := FollowOn(g, [root]);
      FollowedIsAll(g, p);
    }
  }

  lemma OneNode(g: Graph, v: nat)
    requires |g.nodes| == 1 && v in g.nodes && g.edges == {}
    ensures IsLine(g, [v])
  {
    forall x | x in g.nodes ensures x == v {
      OneOf(g.nodes, x, v);
    }
  }

  // ---------- And back ----------

  lemma {:induction false} LineEdgeCount(p: seq<nat>, edges: set<(nat, nat)>)
    requires p != [] && Distinct(p) && forall a: nat, b: nat :: (a, b) in edges <==> Consecutive(p, a, b)
    ensures |edges| == |p| - 1
  {
    if |p| == 1 {
      assert forall e: (nat, nat) :: e in edges <==> Consecutive(p, e.0, e.1);
      assert edges == {};
    } else {
      var n := |p| - 1;
      var last := (p[n - 1], p[n]);
      var front := p[..n];
      assert last in edges by {
        var i: nat, j: nat := n - 1, n;
        assert p[i] == last.0 && p[j] == last.1;
      }
      forall a: nat, b: nat ensures (a, b) in edges - {last} <==> Consecutive(front, a, b) {
        FrontSteps(p, a, b);
      }
      LineEdgeCount(front, edges - {last});
    }
  }

  lemma FrontSteps(p: seq<nat>, a: nat, b: nat)
    requires |p| > 1 && Distinct(p)
    ensures Consecutive(p[..|p| - 1], a, b) <==> Consecutive(p, a, b) && (a, b) != (p[|p| - 2], p[|p| - 1])
  {
    var front := p[..|p| - 1];
    if Consecutive(front, a, b) {
      var i: nat, j: nat :| j == i + 1 < |front| && front[i] == a && front[j] == b;
      assert p[i] == a && p[j] == b;
    }
    if Consecutive(p, a, b) && (a, b) != (p[|p| - 2], p[|p| - 1]) {
      var i: nat, j: nat :| j == i + 1 < |p| && p[i] == a && p[j] == b;
      assert front[i] == a && front[j] == b;
    }
  }

  lemma LineUnbranched(g: Graph, p: seq<nat>)
    requires g.Valid() && IsLine(g, p)
    ensures Unbranched(g)
  {
    forall v | v in g.nodes ensures |EdgesInto(g, v)| <= 1 && |EdgesFrom(g, v)| <= 1 {
      forall x, y | x in EdgesInto(g, v) && y in EdgesInto(g, v) ensures x == y {
        assert Consecutive(p, x.0, v) && Consecutive(p, y.0, v);
      }
      forall x, y | x in EdgesFrom(g, v) && y in EdgesFrom(g, v) ensures x == y {
        assert Consecutive(p, v, x.1) && Consecutive(p, v, y.1);
      }
      AtMostOne(EdgesInto(g, v));
      AtMostOne(EdgesFrom(g, v));
    }
  }

  lemma {:induction false} LineReaches(g: Graph, p: seq<nat>, i: nat, j: nat)
    requires g.Valid() && IsLine(g, p) && i <= j < |p|
    ensures Reaches(Undirected(g), p[i], p[j]) && Reaches(Undirected(g), p[j], p[i])
    decreases j - i
  {
    var u := Undirected(g);
    assert p[j] in Elements(p) && p[i] in Elements(p);
    ReachesSelf(u, p[i]);
    if i < j {
      var k: nat := j - 1;
      LineReaches(g, p, i, k);
      assert Consecutive(p, p[k], p[j]);
      assert (p[k], p[j]) in g.edges && (p[j], p[k]) in u.edges;
      EdgeReaches(u, p[k], p[j]);
      EdgeReaches(u, p[j], p[k]);
      ReachesTrans(u, p[i], p[k], p[j]);
      ReachesTrans(u, p[j], p[k], p[i]);
    }
  }

  lemma LineIsSimplePath(g: Graph, p: seq<nat>)
    requires g.Valid() && IsLine(g, p)
    ensures IsSimplePath(g)
  {
    DistinctCount(p);
    LineEdgeCount(p, g.edges);
    LineUnbranched(g, p);
    hide Reaches;
    forall a, b | a in g.nodes && b in g.nodes ensures Reaches(Undirected(g), a, b) {
      assert a in Elements(p) && b in Elements(p);
      var i: nat :| i < |p| && p[i] == a;
      var j: nat :| j < |p| && p[j] == b;
      LineReaches(g, p, if i <= j then i else j, if i <= j then j else i);
    }
  }

  // Main result: the counting test accepts exactly the lines.
  lemma SimplePathIffLine(g: Graph)
    requires g.Valid()
    ensures IsSimplePath(g) <==> exists p :: IsLine(g, p)
  {
    hide IsSimplePath, IsLine;
    if IsSimplePath(g) {
      var p := SimplePathIsLine(g);
    }
    if p :| IsLine(g, p) {
      LineIsSimplePath(g, p);
    }
  }

  // ---------- What a line says nothing about ----------

  // The most super-nodes any path goes through.
  ghost predicate IsDepth(dag: Graph, d: nat) {
    && (dag.nodes == {} <==> d == 0)
    && (d > 0 ==> exists p :: IsWalk(dag, p) && |p| == d)
    && forall p :: IsWalk(dag, p) ==> |p| <= d
  }

  lemma {:induction false} WalkIsStretch(g: Graph, p: seq<nat>, q: seq<nat>) returns (at: nat)
    requires IsLine(g, p) && IsWalk(g, q)
    ensures at + |q| <= |p| && forall k :: 0 <= k < |q| ==> q[k] == p[at + k]
  {
    if |q| == 1 {
      assert q[0] in q && q[0] in Elements(p);
      at :| at < |p| && p[at] == q[0];
    } else {
      var n := |q| - 1;
      assert forall x :: x in q[..n] ==> x in q;
      at := WalkIsStretch(g, p, q[..n]);
      assert (q[n - 1], q[n]) in g.edges;
      var i: nat, j: nat :| j == i + 1 < |p| && p[i] == q[n - 1] && p[j] == q[n];
      assert q[..n][n - 1] == p[at + (n - 1)];
      assert i == at + (n - 1);
    }
  }

  // Main result: on a line the depth is the number of nodes.
  lemma LineDepth(g: Graph, p: seq<nat>, d: nat)
    requires IsLine(g, p) && IsDepth(g, d)
    ensures d == |p| == |g.nodes|
  {
    DistinctCount(p);
    assert p[0] in Elements(p);
    assert forall x :: x in p ==> x in Elements(p);
    forall i, j | 0 <= i < |p| && j == i + 1 < |p| ensures (p[i], p[j]) in g.edges {
      assert Consecutive(p, p[i], p[j]);
    }
    assert IsWalk(g, p);
    var q :| IsWalk(g, q) && |q| == d;
    var at := WalkIsStretch(g, p, q);
  }

  function Without(g: Graph, v: nat): (r: Graph)
    ensures g.Valid() ==> r.Valid()
  {
    Graph(g.nodes - {v}, set e | e in g.edges && e.0 != v && e.1 != v)
  }

  // Main result: on a line every interior node is an articulation point, so naming one says only where it stands.
  lemma InteriorSeparates(g: Graph, p: seq<nat>, m: nat)
    requires g.Valid() && IsLine(g, p) && 0 < m < |p| - 1
    ensures !WeaklyConnected(Without(g, p[m]))
    ensures forall i, j :: 0 <= i < m < j < |p| ==> !Reaches(Undirected(Without(g, p[m])), p[i], p[j])
  {
    var h := Without(g, p[m]);
    var before := Elements(p[..m]);
    forall x, y | x in before && (x, y) in Undirected(h).edges ensures y in before {
      assert (x, y) in h.edges || (y, x) in h.edges;
      StaysBefore(g, p, m, x, y);
    }
    forall i, j | 0 <= i < m < j < |p| ensures !Reaches(Undirected(h), p[i], p[j]) {
      assert p[..m][i] == p[i] && p[i] in before;
      NotBefore(p, m, j);
      if Reaches(Undirected(h), p[i], p[j]) {
        ClosedUnderReach(Undirected(h), before, p[i], p[j]);
      }
    }
    var last := |p| - 1;
    assert p[0] in Elements(p) && p[last] in Elements(p);
    assert p[0] in h.nodes && p[last] in h.nodes;
  }

  lemma NotBefore(p: seq<nat>, m: nat, j: nat)
    requires Distinct(p) && m <= j < |p|
    ensures p[j] !in Elements(p[..m])
  {
  }

  lemma StaysBefore(g: Graph, p: seq<nat>, m: nat, x: nat, y: nat)
    requires IsLine(g, p) && m < |p| && x in p[..m] && x != p[m] && y != p[m]
    requires (x, y) in g.edges || (y, x) in g.edges
    ensures y in p[..m]
  {
    var k: nat :| k < m && p[..m][k] == x;
    if (x, y) in g.edges {
      assert Consecutive(p, x, y);
      var i: nat, j: nat :| j == i + 1 < |p| && p[i] == x && p[j] == y;
      assert p[k] == x && i == k;
      assert p[..m][j] == y;
    } else {
      assert Consecutive(p, y, x);
      var i: nat, j: nat :| j == i + 1 < |p| && p[i] == y && p[j] == x;
      assert p[k] == x && j == k;
      assert p[..m][i] == y;
    }
  }

  // ---------- The archetype ----------

  datatype Shape =
    Disconnected | SingleNode | Mesh | PipelineWithFeedback | CyclicGraph | Pipeline | Star | Hierarchy | PlainDag

  predicate HasNontrivial(comps: seq<set<RunId>>) {
    exists s :: s in comps && |s| >= 2
  }

  function BidirectionalPairs(g: Graph): nat {
    |set e | e in g.edges && e.0 < e.1 && (e.1, e.0) in g.edges|
  }

  // At least half of the possible edges inside the component are there.
  predicate Dense(g: Graph, s: set<RunId>) {
    var internal := |set e | e in g.edges && e.0 in s && e.1 in s && e.0 != e.1|;
    |s| >= 4 && 2 * internal >= |s| * (|s| - 1)
  }

  predicate IsMesh(g: Graph, comps: seq<set<RunId>>) {
    BidirectionalPairs(g) >= 2 || exists s :: s in comps && |s| >= 2 && Dense(g, s)
  }

  function Successors(g: Graph, v: nat): set<nat> {
    set w | w in g.nodes && (v, w) in g.edges
  }

  predicate IsRoot(g: Graph, v: nat) {
    v in g.nodes && EdgesInto(g, v) == {}
  }

  predicate OnlyRoot(g: Graph, v: nat) {
    IsRoot(g, v) && forall w :: w in g.nodes && IsRoot(g, w) ==> w == v
  }

  // One root one hop from every other node, with at most one extra sink that every spoke alone feeds.
  predicate IsStar(g: Graph) {
    exists root :: root in g.nodes && OnlyRoot(g, root) &&
      var others, spokes := g.nodes - {root}, Successors(g, root);
      others != {} &&
      if spokes == others then |g.edges| == |others|
      else
        spokes != {} && |others - spokes| == 1 && |g.edges| == 2 * |spokes| &&
        forall agg :: agg in others - spokes ==>
          EdgesFrom(g, agg) == {} && forall s :: s in spokes ==> Successors(g, s) == {agg}
  }

  predicate IsRootedTree(g: Graph) {
    exists root :: root in g.nodes && OnlyRoot(g, root) && forall v :: v in g.nodes - {root} ==> |EdgesInto(g, v)| == 1
  }

  // First match wins.
  ghost function ShapeOf(g: Graph, comps: seq<set<RunId>>, dag: Graph, depth: nat): Shape {
    if g.nodes != {} && !WeaklyConnected(g) then Disconnected
    else if |g.nodes| == 1 then SingleNode
    else if HasNontrivial(comps) then
      if IsMesh(g, comps) then Mesh else if IsSimplePath(dag) then PipelineWithFeedback else CyclicGraph
    else if Acyclic(g) && IsSimplePath(g) then Pipeline
    else if Acyclic(g) && IsStar(g) then Star
    else if Acyclic(g) && IsRootedTree(g) && depth >= 3 then Hierarchy
    else PlainDag
  }

  ghost predicate ChainShaped(g: Graph, comps: seq<set<RunId>>, dag: Graph, depth: nat) {
    depth >= 3 && (ShapeOf(g, comps, dag, depth) == Pipeline || ShapeOf(g, comps, dag, depth) == PipelineWithFeedback)
  }

  // Without cycles the condensation is the graph itself, renumbered.
  lemma LineCondenses(g: Graph, comps: seq<set<RunId>>, dag: Graph, p: seq<nat>) returns (q: seq<nat>)
    requires g.Valid() && IsSccListing(g, comps) && IsQuotient(g, comps, dag) && !HasNontrivial(comps) && IsLine(g, p)
    ensures IsLine(dag, q) && |q| == |p|
  {
    hide Reaches, IsClassOf;
    forall i | 0 <= i < |comps| ensures exists a :: comps[i] == {a} && a in g.nodes {
      assert comps[i] in comps;
      var a :| a in comps[i];
      SameComponent(g, comps, i, a, a);
      forall b | b in comps[i] ensures a == b {
        OneOf(comps[i], a, b);
      }
      assert comps[i] == {a};
    }
    q := [];
    for k := 0 to |p|
      invariant |q| == k && forall i :: 0 <= i < k ==> q[i] < |comps| && comps[q[i]] == {p[i]}
    {
      assert p[k] in Elements(p);
      assert Listed(comps, p[k]);
      var i: nat :| i < |comps| && p[k] in comps[i];
      var a :| comps[i] == {a} && a in g.nodes;
      q := q + [i];
    }
    forall i, j | 0 <= i < j < |q| ensures q[i] != q[j] {
      assert p[i] in comps[q[i]] && p[j] in comps[q[j]];
    }
    forall x | x in dag.nodes ensures x in Elements(q) {
      var a :| comps[x] == {a} && a in g.nodes;
      assert a in Elements(p);
      var i :| 0 <= i < |p| && p[i] == a;
      ComponentsDisjoint(g, comps, x, q[i], a);
    }
    assert forall x :: x in Elements(q) ==> x in dag.nodes;
    LineEdgesCondense(g, comps, dag, p, q);
  }

  lemma LineEdgesCondense(g: Graph, comps: seq<set<RunId>>, dag: Graph, p: seq<nat>, q: seq<nat>)
    requires IsQuotient(g, comps, dag) && IsLine(g, p) && |q| == |p| && Distinct(q) && Elements(q) == dag.nodes
    requires forall i :: 0 <= i < |q| ==> q[i] < |comps| && comps[q[i]] == {p[i]}
    ensures IsLine(dag, q)
  {
    forall a: nat, b: nat ensures (a, b) in dag.edges <==> Consecutive(q, a, b) {
      if (a, b) in dag.edges {
        assert a in dag.nodes && b in dag.nodes && a in Elements(q) && b in Elements(q);
        var i: nat :| i < |q| && q[i] == a;
        var j: nat :| j < |q| && q[j] == b;
        assert Crosses(g, comps[a], comps[b]);
        assert (p[i], p[j]) in g.edges;
        assert Consecutive(p, p[i], p[j]);
        assert j == i + 1;
      }
      if Consecutive(q, a, b) {
        var i: nat, j: nat :| j == i + 1 < |q| && q[i] == a && q[j] == b;
        assert Consecutive(p, p[i], p[j]);
        assert (p[i], p[j]) in g.edges && p[i] in comps[a] && p[j] in comps[b];
        assert Crosses(g, comps[a], comps[b]);
      }
    }
  }

  // Main result: the flag that discounts attribution is raised only on a line of `depth` super-nodes, where
  // taking out any interior one disconnects the rest.
  lemma ChainIsLine(g: Graph, comps: seq<set<RunId>>, dag: Graph, depth: nat) returns (line: seq<nat>)
    requires g.Valid() && IsSccListing(g, comps) && IsQuotient(g, comps, dag) && IsDepth(dag, depth)
    requires ChainShaped(g, comps, dag, depth)
    ensures IsLine(dag, line) && depth == |line| == |dag.nodes| && depth >= 3
    ensures forall m :: 0 < m < depth - 1 ==> !WeaklyConnected(Without(dag, line[m]))
  {
    hide IsSccListing, IsDepth, IsLine, WeaklyConnected, IsSimplePath, IsStar, IsRootedTree, IsMesh, HasNontrivial,
      Acyclic;
    QuotientValid(g, comps, dag);
    if HasNontrivial(comps) {
      line := SimplePathIsLine(dag);
    } else {
      var p := SimplePathIsLine(g);
      line := LineCondenses(g, comps, dag, p);
    }
    LineDepth(dag, line, depth);
    forall m | 0 < m < depth - 1 ensures !WeaklyConnected(Without(dag, line[m])) {
      InteriorSeparates(dag, line, m);
    }
  }

  lemma QuotientValid(g: Graph, comps: seq<set<RunId>>, dag: Graph)
    requires IsQuotient(g, comps, dag)
    ensures dag.Valid()
  {
  }

  lemma LineForward(g: Graph, p: seq<nat>, a: nat, b: nat)
    requires IsLine(g, p) && Reaches(g, a, b) && Reaches(g, b, a)
    ensures a == b
  {
    var q :| WalkFromTo(g, a, b, q);
    var r :| WalkFromTo(g, b, a, r);
    var i := WalkIsStretch(g, p, q);
    var j := WalkIsStretch(g, p, r);
    assert p[i] == a && p[i + (|q| - 1)] == b && p[j] == b && p[j + (|r| - 1)] == a;
    assert i + (|q| - 1) == j && j + (|r| - 1) == i;
  }

  lemma NoSelfStep(p: seq<nat>, a: nat)
    requires Distinct(p)
    ensures !Consecutive(p, a, a)
  {
  }

  lemma LineAcyclic(g: Graph, p: seq<nat>)
    requires IsLine(g, p)
    ensures Acyclic(g)
  {
    forall a: nat ensures (a, a) !in g.edges {
      NoSelfStep(p, a);
    }
    forall a, b | a != b && Reaches(g, a, b) ensures !Reaches(g, b, a) {
      if Reaches(g, b, a) {
        LineForward(g, p, a, b);
      }
    }
  }

  // The chain flag, read off the graph: a line without cycles, or a line of components that is no mesh.
  ghost predicate IsChain(g: Graph, comps: seq<set<RunId>>, dag: Graph) {
    if HasNontrivial(comps) then !IsMesh(g, comps) && WeaklyConnected(g) && |g.nodes| != 1 && exists p :: IsLine(dag, p)
    else exists p :: IsLine(g, p)
  }

  // Main result: exactly when the flag is raised.
  lemma ChainIff(g: Graph, comps: seq<set<RunId>>, dag: Graph, depth: nat)
    requires g.Valid() && IsSccListing(g, comps) && IsQuotient(g, comps, dag) && IsDepth(dag, depth)
    ensures ChainShaped(g, comps, dag, depth) <==> depth >= 3 && IsChain(g, comps, dag)
  {
    QuotientValid(g, comps, dag);
    hide IsSccListing, IsQuotient, IsDepth, IsLine, WeaklyConnected, IsSimplePath, IsStar, IsRootedTree, IsMesh,
      HasNontrivial, Acyclic;
    SimplePathIffLine(dag);
    SimplePathIffLine(g);
    if !HasNontrivial(comps) {
      if p :| IsLine(g, p) {
        LineAcyclic(g, p);
        LineLength(g, p);
        var q := LineCondenses(g, comps, dag, p);
        LineDepth(dag, q, depth);
        if |g.nodes| > 1 {
          PathConnected(g);
        }
      }
    }
  }

  lemma AtLeastTwo<T>(s: set<T>)
    ensures |s| >= 2 <==> exists x, y :: x in s && y in s && x != y
  {
    if |s| >= 2 {
      var x :| x in s;
      assert |s - {x}| > 0;
      var y :| y in s - {x};
    }
    if x, y :| x in s && y in s && x != y {
      assert {x, y} <= s && |{x, y}| == 2;
      SubsetSize({x, y}, s);
    }
  }

  // Two nodes that feed each other, the smaller first.
  predicate Mutual(g: Graph, e: (nat, nat)) {
    e in g.edges && (e.1, e.0) in g.edges && e.0 < e.1
  }

  // Main result: exactly when a graph is a mesh. It hangs together, has more than one node and a cycle through two, and
  // either two different pairs feed each other or a component of four or more holds half of all edges it could hold.
  lemma MeshIff(g: Graph, comps: seq<set<RunId>>, dag: Graph, depth: nat)
    ensures ShapeOf(g, comps, dag, depth) == Mesh <==>
      && (g.nodes == {} || WeaklyConnected(g)) && |g.nodes| != 1 && (exists s :: s in comps && |s| >= 2)
      && ((exists e, f :: Mutual(g, e) && Mutual(g, f) && e != f) ||
        exists s :: s in comps && |s| >= 4 &&
          2 * |set e | e in g.edges && e.0 in s && e.1 in s && e.0 != e.1| >= |s| * (|s| - 1))
  {
    var pairs := set e | e in g.edges && e.0 < e.1 && (e.1, e.0) in g.edges;
    AtLeastTwo(pairs);
    assert forall e :: e in pairs <==> Mutual(g, e);
    hide WeaklyConnected, IsSimplePath, Acyclic, IsStar, IsRootedTree;
    if exists e, f :: Mutual(g, e) && Mutual(g, f) && e != f {
      var e, f :| Mutual(g, e) && Mutual(g, f) && e != f;
      assert e in pairs && f in pairs;
    }
    forall s | s in comps
      ensures |s| >= 2 && Dense(g, s) <==>
        |s| >= 4 && 2 * |set e | e in g.edges && e.0 in s && e.1 in s && e.0 != e.1| >= |s| * (|s| - 1)
    {
    }
  }

  lemma LineLength(g: Graph, p: seq<nat>)
    requires IsLine(g, p)
    ensures |g.nodes| == |p| > 0
  {
    DistinctCount(p);
  }

  lemma PathConnected(g: Graph)
    requires IsSimplePath(g) && |g.nodes| > 1
    ensures WeaklyConnected(g)
  {
    hide Reaches;
  }
}
