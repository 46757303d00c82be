// Finite directed graphs and reachability: the contracts of the graph library the engine calls.

module Graphs {
  import opened Prelude

  datatype Graph = Graph(nodes: set<nat>, edges: set<(nat, nat)>) {
    ghost predicate Valid() {
      forall a, b :: (a, b) in edges ==> a in nodes && b in nodes
    }
  }

  // Edges that name an unknown node are ignored, and so are repetitions and the order of the lists.
  function BuildGraph(nodes: seq<nat>, edges: seq<(nat, nat)>): (g: Graph)
    ensures g.Valid()
  {
    Graph(set n | n in nodes, set e | e in edges && e.0 in nodes && e.1 in nodes)
  }

  ghost predicate IsWalk(g: Graph, p: seq<nat>) {
    && |p| > 0
    && (forall x :: x in p ==> x in g.nodes)
    && forall i, j :: 0 <= i < |p| && j == i + 1 < |p| ==> (p[i], p[j]) in g.edges
  }

  ghost predicate WalkFromTo(g: Graph, a: nat, b: nat, p: seq<nat>) {
    IsWalk(g, p) && p[0] == a && p[|p| - 1] == b
  }

  ghost predicate Reaches(g: Graph, a: nat, b: nat) {
    exists p :: WalkFromTo(g, a, b, p)
  }

  ghost predicate Mutual(g: Graph, a: nat, b: nat) {
    Reaches(g, a, b) && Reaches(g, b, a)
  }

  ghost predicate Acyclic(g: Graph) {
    && (forall a :: (a, a) !in g.edges)
    && forall a, b :: a != b && Reaches(g, a, b) ==> !Reaches(g, b, a)
  }

  // `networkx.ancestors`: everything with a walk into `n`, except `n` itself.
  ghost predicate IsAncestor(g: Graph, a: nat, n: nat) {
    a != n && Reaches(g, a, n)
  }

  lemma ReachesSelf(g: Graph, a: nat)
    requires a in g.nodes
    ensures Reaches(g, a, a)
  {
    assert WalkFromTo(g, a, a, [a]);
  }

  lemma ReachesInside(g: Graph, a: nat, b: nat)
    requires Reaches(g, a, b)
    ensures a in g.nodes && b in g.nodes
  {
  }

  lemma JoinWalks(g: Graph, a: nat, b: nat, c: nat, p: seq<nat>, q: seq<nat>)
    requires WalkFromTo(g, a, b, p) && WalkFromTo(g, b, c, q)
    ensures WalkFromTo(g, a, c, p + q[1..])
  {
    var r := p + q[1..];
    forall i, j | 0 <= i < |r| && j == i + 1 < |r| ensures (r[i], r[j]) in g.edges {
      if j >= |p| {
        assert r[j] == q[j - |p| + 1];
        assert i >= |p| ==> r[i] == q[i - |p| + 1];
      }
    }
  }

  lemma ReachesTrans(g: Graph, a: nat, b: nat, c: nat)
    requires Reaches(g, a, b) && Reaches(g, b, c)
    ensures Reaches(g, a, c)
  {
    var p :| WalkFromTo(g, a, b, p);
    var q :| WalkFromTo(g, b, c, q);
    JoinWalks(g, a, b, c, p, q);
  }

  lemma EdgeReaches(g: Graph, a: nat, b: nat)
    requires g.Valid() && (a, b) in g.edges
    ensures Reaches(g, a, b)
  {
    assert WalkFromTo(g, a, b, [a, b]);
  }

  // The part of a walk between two of its positions is a walk.
  lemma SubWalk(g: Graph, p: seq<nat>, i: nat, j: nat)
    requires IsWalk(g, p) && i <= j < |p|
    ensures WalkFromTo(g, p[i], p[j], p[i..j + 1])
  {
    var q := p[i..j + 1];
    forall x | x in q ensures x in g.nodes {
      assert x in p;
    }
  }

  // A nontrivial walk ends with an edge out of something its start already reaches.
  lemma LastStep(g: Graph, a: nat, b: nat) returns (c: nat)
    requires Reaches(g, a, b) && a != b
    ensures Reaches(g, a, c) && (c, b) in g.edges
  {
    var p :| WalkFromTo(g, a, b, p);
    c := p[|p| - 2];
    SubWalk(g, p, 0, |p| - 2);
  }

  lemma FirstStep(g: Graph, a: nat, b: nat) returns (c: nat)
    requires Reaches(g, a, b) && a != b
    ensures (a, c) in g.edges && Reaches(g, c, b)
  {
    var p :| WalkFromTo(g, a, b, p);
    c := p[1];
    SubWalk(g, p, 1, |p| - 1);
  }

  // In an acyclic graph no edge leads back to something that reaches its source.
  lemma NoBackEdge(g: Graph, a: nat, b: nat)
    requires g.Valid() && Acyclic(g) && (a, b) in g.edges
    ensures a != b && !Reaches(g, b, a)
  {
    EdgeReaches(g, a, b);
  }

  ghost function Upstream(g: Graph, n: nat): set<nat> {
    set a | a in g.nodes && Reaches(g, a, n)
  }

  ghost function Downstream(g: Graph, n: nat): set<nat> {
    set a | a in g.nodes && Reaches(g, n, a)
  }

  // Some node of a nonempty set has no predecessor in the set: one with the fewest ancestors.
  lemma {:induction false} Minimal(g: Graph, s: set<nat>, n: nat) returns (m: nat)
    requires g.Valid() && Acyclic(g) && s <= g.nodes && n in s
    ensures m in s && Reaches(g, m, n) && forall a :: a in s ==> (a, m) !in g.edges
    decreases |Upstream(g, n)|
  {
    if a :| a in s && (a, n) in g.edges {
      NoBackEdge(g, a, n);
      EdgeReaches(g, a, n);
      forall x | x in Upstream(g, a) ensures x in Upstream(g, n) {
        ReachesTrans(g, x, a, n);
      }
      ReachesSelf(g, n);
      assert n in Upstream(g, n) && n !in Upstream(g, a);
      SubsetSize(Upstream(g, a), Upstream(g, n));
      m := Minimal(g, s, a);
      ReachesTrans(g, m, a, n);
    } else {
      m := n;
      ReachesSelf(g, n);
    }
  }

  // Walking forward in an acyclic graph ends at a node without successors.
  lemma {:induction false} ReachesSink(g: Graph, n: nat) returns (t: nat)
    requires g.Valid() && Acyclic(g) && n in g.nodes
    ensures t in g.nodes && Reaches(g, n, t) && forall b :: (t, b) !in g.edges
    decreases |Downstream(g, n)|
  {
    if b :| (n, b) in g.edges {
      NoBackEdge(g, n, b);
      EdgeReaches(g, n, b);
      forall x | x in Downstream(g, b) ensures x in Downstream(g, n) {
        ReachesTrans(g, n, b, x);
      }
      ReachesSelf(g, n);
      assert n in Downstream(g, n) && n !in Downstream(g, b);
      SubsetSize(Downstream(g, b), Downstream(g, n));
      t := ReachesSink(g, b);
      ReachesTrans(g, n, b, t);
    } else {
      t := n;
      ReachesSelf(g, n);
    }
  }

  // A set that contains `a` and is closed under edges contains everything `a` reaches.
  lemma ClosedUnderReach(g: Graph, s: set<nat>, a: nat, b: nat)
    requires a in s && Reaches(g, a, b)
    requires forall x, y :: x in s && (x, y) in g.edges ==> y in s
    ensures b in s
  {
    var p :| WalkFromTo(g, a, b, p);
    ClosedAlong(g, s, p, |p| - 1);
  }

  lemma {:induction false} ClosedAlong(g: Graph, s: set<nat>, p: seq<nat>, k: nat)
    requires IsWalk(g, p) && p[0] in s && k < |p|
    requires forall x, y :: x in s && (x, y) in g.edges ==> y in s
    ensures p[k] in s
  {
    if k > 0 {
      ClosedAlong(g, s, p, k - 1);
    }
  }

  // `networkx.descendants` together with the start: a work-list search.
  method ReachableFrom(g: Graph, n: nat) returns (s: set<nat>)
    requires g.Valid() && n in g.nodes
    ensures forall b :: b in s <==> Reaches(g, n, b)
  {
    s := {n};
    var todo := {n};
    ReachesSelf(g, n);
    while todo != {}
      invariant todo <= s <= g.nodes && n in s
      invariant forall b :: b in s ==> Reaches(g, n, b)
      invariant forall x, y :: x in s - todo && (x, y) in g.edges ==> y in s
      decreases g.nodes - s, todo
    {
      var x :| x in todo;
      var news := set y | y in g.nodes && (x, y) in g.edges && y !in s;
      forall y | y in news ensures Reaches(g, n, y) {
        EdgeReaches(g, x, y);
        ReachesTrans(g, n, x, y);
      }
      assert news == {} ==> s + news == s;
      todo := todo - {x} + news;
      s := s + news;
    }
    forall b | Reaches(g, n, b) ensures b in s {
      ClosedUnderReach(g, s, n, b);
    }
  }

  function Reversed(g: Graph): (r: Graph)
    ensures g.Valid() ==> r.Valid()
  {
    Graph(g.nodes, set e | e in g.edges :: (e.1, e.0))
  }

  function ReversedSeq(p: seq<nat>): (r: seq<nat>)
    ensures |r| == |p| && forall i :: 0 <= i < |p| ==> r[i] == p[|p| - 1 - i]
  {
    seq(|p|, i requires 0 <= i < |p| => p[|p| - 1 - i])
  }

  lemma ReversedWalk(g: Graph, a: nat, b: nat, p: seq<nat>)
    requires WalkFromTo(g, a, b, p)
    ensures WalkFromTo(Reversed(g), b, a, ReversedSeq(p))
  {
    var r := ReversedSeq(p);
    forall x | x in r ensures x in g.nodes {
      var i :| 0 <= i < |r| && r[i] == x;
      assert x == p[|p| - 1 - i];
    }
    forall i, j | 0 <= i < |r| && j == i + 1 < |r| ensures (r[i], r[j]) in Reversed(g).edges {
      assert (p[|p| - 1 - j], p[|p| - 1 - i]) in g.edges;
    }
  }

  lemma ReversedReaches(g: Graph, a: nat, b: nat)
    ensures Reaches(g, a, b) <==> Reaches(Reversed(g), b, a)
  {
    if Reaches(g, a, b) {
      var p :| WalkFromTo(g, a, b, p);
      ReversedWalk(g, a, b, p);
    }
    if Reaches(Reversed(g), b, a) {
      var p :| WalkFromTo(Reversed(g), b, a, p);
      ReversedWalk(Reversed(g), b, a, p);
      assert Reversed(Reversed(g)).edges == g.edges by {
        forall e | e in g.edges ensures e in Reversed(Reversed(g)).edges {
          assert (e.1, e.0) in Reversed(g).edges;
        }
      }
    }
  }

  method AncestorsOf(g: Graph, n: nat) returns (s: set<nat>)
    requires g.Valid() && n in g.nodes
    ensures forall a :: a in s <==> IsAncestor(g, a, n)
  {
    var r := ReachableFrom(Reversed(g), n);
    forall a ensures Reaches(Reversed(g), n, a) <==> Reaches(g, a, n) {
      ReversedReaches(g, a, n);
    }
    s := r - {n};
  }
}
