// The findings export's own cycle search, and its agreement with the engine's components.

module LoopChain {
  import opened Prelude
  import opened Graphs
  import opened BlameInput
  import opened Condense
  import opened Loops

  // ---------- Adjacency ----------

  function Next(adj: map<nat, seq<nat>>, v: nat): seq<nat> {
    if v in adj then adj[v] else []
  }

  ghost predicate IsAdjacency(ids: seq<nat>, edges: seq<(nat, nat)>, adj: map<nat, seq<nat>>) {
    && adj.Keys == Elements(ids)
    && forall v: nat, w: nat :: w in Next(adj, v) <==> v in ids && (v, w) in edges
  }

  // Edges from an unknown node are dropped; an unknown target is kept, and leads nowhere.
  method Adjacency(ids: seq<nat>, edges: seq<(nat, nat)>) returns (adj: map<nat, seq<nat>>)
    ensures IsAdjacency(ids, edges, adj)
  {
    adj := map v | v in ids :: [];
    for k := 0 to |edges|
      invariant IsAdjacency(ids, edges[..k], adj)
    {
      var e := edges[k];
      assert edges[..k + 1] == edges[..k] + [e];
      if e.0 in adj {
        adj := adj[e.0 := adj[e.0] + [e.1]];
      }
    }
    assert edges[..|edges|] == edges;
  }

  // ---------- The stack search ----------

  // A closed walk of at least one edge through `v`.
  ghost predicate OnCycle(g: Graph, v: nat) {
    exists u :: (v, u) in g.edges && Reaches(g, u, v)
  }

  // What is on the stack or seen lies after `from`.
  ghost predicate After(g: Graph, from: nat, x: nat) {
    x in g.nodes ==> exists u :: (from, u) in g.edges && Reaches(g, u, x)
  }

  ghost predicate Searching(ids: seq<nat>, edges: seq<(nat, nat)>, adj: map<nat, seq<nat>>, from: nat, seen: set<nat>,
                            stack: seq<nat>) {
    && IsAdjacency(ids, edges, adj) && from in ids && from !in seen
    && (forall x :: x in seen || x in stack ==> After(BuildGraph(ids, edges), from, x))
    && (forall x :: x in Next(adj, from) ==> x in seen || x in stack)
    && forall x: nat, y: nat :: x in seen && y in Next(adj, x) ==> y in seen || y in stack
  }

  lemma SearchStarts(ids: seq<nat>, edges: seq<(nat, nat)>, adj: map<nat, seq<nat>>, from: nat)
    requires IsAdjacency(ids, edges, adj) && from in ids
    ensures Searching(ids, edges, adj, from, {}, Next(adj, from))
  {
    var g := BuildGraph(ids, edges);
    forall x | x in Next(adj, from) ensures After(g, from, x) {
      if x in g.nodes {
        ReachesSelf(g, x);
        assert (from, x) in g.edges;
      }
    }
  }

  lemma SearchSkips(ids: seq<nat>, edges: seq<(nat, nat)>, adj: map<nat, seq<nat>>, from: nat, seen: set<nat>,
                    stack: seq<nat>)
    requires Searching(ids, edges, adj, from, seen, stack) && stack != [] && stack[|stack| - 1] in seen
    ensures Searching(ids, edges, adj, from, seen, stack[..|stack| - 1])
  {
    hide IsAdjacency, After;
    var rest := stack[..|stack| - 1];
    assert stack == rest + [stack[|stack| - 1]];
  }

  lemma SearchExpands(ids: seq<nat>, edges: seq<(nat, nat)>, adj: map<nat, seq<nat>>, from: nat, seen: set<nat>,
                      stack: seq<nat>)
    requires Searching(ids, edges, adj, from, seen, stack) && stack != [] && stack[|stack| - 1] != from
    ensures Searching(ids, edges, adj, from, seen + {stack[|stack| - 1]}, stack[..|stack| - 1] +
      Next(adj, stack[|stack| - 1]))
  {
    var g := BuildGraph(ids, edges);
    var cur := stack[|stack| - 1];
    var rest := stack[..|stack| - 1];
    assert stack == rest + [cur] && cur in stack;
    forall y | y in Next(adj, cur) ensures After(g, from, y) {
      AfterStep(ids, edges, adj, from, cur, y);
    }
    hide After;
  }

  lemma AfterStep(ids: seq<nat>, edges: seq<(nat, nat)>, adj: map<nat, seq<nat>>, from: nat, cur: nat, y: nat)
    requires IsAdjacency(ids, edges, adj) && y in Next(adj, cur) && After(BuildGraph(ids, edges), from, cur)
    ensures After(BuildGraph(ids, edges), from, y)
  {
    var g := BuildGraph(ids, edges);
    if y in g.nodes {
      assert cur in g.nodes && (cur, y) in g.edges;
      var u :| (from, u) in g.edges && Reaches(g, u, cur);
      EdgeReaches(g, cur, y);
      ReachesTrans(g, u, cur, y);
    }
  }

  lemma SearchFails(ids: seq<nat>, edges: seq<(nat, nat)>, adj: map<nat, seq<nat>>, from: nat, seen: set<nat>)
    requires Searching(ids, edges, adj, from, seen, [])
    ensures !OnCycle(BuildGraph(ids, edges), from)
  {
    var g := BuildGraph(ids, edges);
    if OnCycle(g, from) {
      var u :| (from, u) in g.edges && Reaches(g, u, from);
      assert u in Next(adj, from);
      forall x, y | x in seen && (x, y) in g.edges ensures y in seen {
        assert y in Next(adj, x);
      }
      ClosedUnderReach(g, seen, u, from);
    }
  }

  // Every target an edge can lead to.
  function Universe(ids: seq<nat>, edges: seq<(nat, nat)>): set<nat> {
    set e | e in edges :: e.1
  }

  method ReachesItself(ids: seq<nat>, edges: seq<(nat, nat)>, adj: map<nat, seq<nat>>, from: nat) returns (found: bool)
    requires IsAdjacency(ids, edges, adj) && from in ids
    ensures found <==> OnCycle(BuildGraph(ids, edges), from)
  {
    var seen, stack := {}, Next(adj, from);
    SearchStarts(ids, edges, adj, from);
    ghost var all := Universe(ids, edges);
    while stack != []
      invariant Searching(ids, edges, adj, from, seen, stack)
      invariant seen <= all && forall x :: x in stack ==> x in all
      decreases |all - seen|, |stack|
    {
      var cur := stack[|stack| - 1];
      assert cur in stack;
      if cur == from {
        Returned(ids, edges, adj, from, seen, stack);
        return true;
      }
      if cur in seen {
        SearchSkips(ids, edges, adj, from, seen, stack);
        stack := stack[..|stack| - 1];
      } else {
        SearchExpands(ids, edges, adj, from, seen, stack);
        SubsetSize(all - (seen + {cur}), all - seen);
        seen, stack := seen + {cur}, stack[..|stack| - 1] + Next(adj, cur);
      }
    }
    SearchFails(ids, edges, adj, from, seen);
    found := false;
  }

  lemma Returned(ids: seq<nat>, edges: seq<(nat, nat)>, adj: map<nat, seq<nat>>, from: nat, seen: set<nat>,
                 stack: seq<nat>)
    requires Searching(ids, edges, adj, from, seen, stack) && from in stack
    ensures OnCycle(BuildGraph(ids, edges), from)
  {
  }

  // The members of a cycle, in the order the nodes are listed.
  method DetectLoopChain(ids: seq<nat>, edges: seq<(nat, nat)>) returns (loop: seq<nat>)
    ensures forall v :: v in loop <==> v in ids && OnCycle(BuildGraph(ids, edges), v)
  {
    var adj := Adjacency(ids, edges);
    loop := [];
    for k := 0 to |ids|
      invariant forall v :: v in loop <==> v in ids[..k] && OnCycle(BuildGraph(ids, edges), v)
    {
      hide IsAdjacency, OnCycle;
      assert ids[..k + 1] == ids[..k] + [ids[k]];
      var found := ReachesItself(ids, edges, adj, ids[k]);
      if found {
        loop := loop + [ids[k]];
      }
    }
    assert ids[..|ids|] == ids;
  }

  // ---------- Agreement with the engine ----------

  // The component a run is located in, and the super-node made of it.
  lemma SuperIsComponent(inp: Input, comps: seq<set<RunId>>, c: Condensation, v: RunId)
    requires Condensed(inp, comps, c) && v in c.graph.nodes
    ensures c.graph == BuildGraph(inp.nodes, inp.edges) && IsSccListing(c.graph, comps)
    ensures v in c.superOf && c.superOf[v] < |c.supers| && c.superOf[v] < |comps| && v in comps[c.superOf[v]]
    ensures ProperSuper(inp, c.graph, c.supers[c.superOf[v]])
    ensures forall n :: n in c.supers[c.superOf[v]].members <==> n in comps[c.superOf[v]]
  {
    hide Reaches, IsKahnOrder, IsQuotient, IsSccListing, ProperSuper, Sources, Sinks;
    ProperSupers(inp, c.graph, comps, c.supers, c.superOf[v]);
  }

  lemma CycleIsComponent(inp: Input, comps: seq<set<RunId>>, c: Condensation, v: RunId, u: RunId)
    requires Condensed(inp, comps, c) && v in c.graph.nodes && (v, u) in c.graph.edges && Reaches(c.graph, u, v)
    ensures v in c.superOf && c.superOf[v] < |c.supers| && IsCycle(c.supers[c.superOf[v]])
  {
    hide *;
    SuperIsComponent(inp, comps, c, v);
    EdgeReaches(c.graph, v, u);
    SameComponent(c.graph, comps, c.superOf[v], v, u);
    EdgeClosesCycle(inp, c.graph, c.supers[c.superOf[v]], v, u);
  }

  lemma EdgeClosesCycle(inp: Input, g: Graph, sn: SuperNode, v: RunId, u: RunId)
    requires ProperSuper(inp, g, sn) && v in sn.members && u in sn.members && (v, u) in g.edges
    ensures IsCycle(sn)
  {
    hide Mutual, Chronological;
    if |sn.members| == 1 {
      assert sn.members[0] == v == u;
    }
  }

  lemma ComponentIsCycle(inp: Input, c: Condensation, v: RunId)
    requires WellFormed(inp, c) && v in c.superOf && c.superOf[v] < |c.supers| && IsCycle(c.supers[c.superOf[v]])
    ensures OnCycle(c.graph, v)
  {
    hide Reaches, ProperTopo, Acyclic;
    var sn := c.supers[c.superOf[v]];
    assert ProperSuper(inp, c.graph, sn) && v in sn.members;
    if |sn.members| == 1 {
      assert sn.members[0] == v == sn.exit;
      ReachesSelf(c.graph, v);
    } else {
      OtherMember(inp, c.graph, sn, v);
      var w :| w in sn.members && w != v;
      assert Mutual(c.graph, v, w);
      var u := FirstStep(c.graph, v, w);
      ReachesTrans(c.graph, u, w, v);
    }
  }

  lemma OtherMember(inp: Input, g: Graph, sn: SuperNode, v: RunId)
    requires ProperSuper(inp, g, sn) && |sn.members| > 1
    ensures exists w :: w in sn.members && w != v
  {
    hide Mutual;
    assert Before(KeyOf(inp.endTimes, sn.members[0]), KeyOf(inp.endTimes, sn.members[1]));
    assert sn.members[0] in sn.members && sn.members[1] in sn.members;
  }

  // Main result: the search finds exactly the runs of multi-member components and the self-loops.
  lemma SearchAgrees(inp: Input, comps: seq<set<RunId>>, c: Condensation, v: RunId)
    requires Condensed(inp, comps, c) && v in inp.nodes
    ensures v in c.superOf && c.superOf[v] < |c.supers|
    ensures OnCycle(BuildGraph(inp.nodes, inp.edges), v) <==> IsCycle(c.supers[c.superOf[v]])
  {
    CondensedIsWellFormed(inp, comps, c);
    MemberPlaced(inp, c, v);
    hide Condensed, WellFormed, Reaches, IsCycle;
    GraphOf(inp, comps, c);
    if OnCycle(c.graph, v) {
      var u :| (v, u) in c.graph.edges && Reaches(c.graph, u, v);
      EdgeInside(c.graph, v, u);
      CycleIsComponent(inp, comps, c, v, u);
    }
    if IsCycle(c.supers[c.superOf[v]]) {
      ComponentIsCycle(inp, c, v);
    }
  }

  lemma EdgeInside(g: Graph, v: nat, u: nat)
    requires g.Valid() && (v, u) in g.edges
    ensures v in g.nodes
  {
  }

  lemma GraphOf(inp: Input, comps: seq<set<RunId>>, c: Condensation)
    requires Condensed(inp, comps, c)
    ensures c.graph == BuildGraph(inp.nodes, inp.edges)
  {
    hide IsSccListing, IsQuotient, SupersOf, Locates, IsKahnOrder;
  }

  lemma MemberPlaced(inp: Input, c: Condensation, v: RunId)
    requires WellFormed(inp, c) && v in inp.nodes
    ensures v in c.superOf && c.superOf[v] < |c.supers|
  {
    hide Reaches, ProperTopo, ProperSuper, Acyclic;
  }
}
