// The condensation does not depend on how a run was written down: neither on the order of the
// node and edge lists nor on the numbering of the components.

module Encoding {
  import opened Prelude
  import opened Graphs
  import opened BlameInput
  import opened Condense

  // Position by position, the two topological orders hold the same super-node with the same edges.
  ghost predicate Alike(c: Condensation, d: Condensation) {
    && c.graph == d.graph
    && |c.topo| == |d.topo|
    && (forall i :: 0 <= i < |c.topo| ==> c.topo[i] < |c.supers| && d.topo[i] < |d.supers|)
    && (forall i :: 0 <= i < |c.topo| ==> c.supers[c.topo[i]] == d.supers[d.topo[i]])
    && forall i, j :: 0 <= i < |c.topo| && 0 <= j < |c.topo| ==>
         ((c.topo[i], c.topo[j]) in c.dag.edges <==> (d.topo[i], d.topo[j]) in d.dag.edges)
  }

  ghost predicate Twins(a: seq<set<RunId>>, b: seq<set<RunId>>, i: nat, j: nat) {
    i < |a| && j < |b| && a[i] == b[j]
  }

  // What the two listings have in common: a one-to-one pairing of their positions.
  ghost predicate Paired(a: seq<set<RunId>>, b: seq<set<RunId>>) {
    Distinct(a) && Distinct(b) && forall s :: s in a <==> s in b
  }

  // A class listed on one side is listed on the other.
  lemma ClassListed(g: Graph, a: seq<set<RunId>>, b: seq<set<RunId>>, s: set<RunId>, n: RunId)
    requires IsSccListing(g, a) && IsSccListing(g, b) && s in a && n in s
    ensures s in b
  {
    hide Reaches, IsSccListing;
    var i: nat :| i < |a| && a[i] == s;
    SameComponent(g, a, i, n, n);
    ListingCovers(g, b);
    var j: nat :| j < |b| && n in b[j];
    ClassAt(g, a, i, n);
    ClassAt(g, b, j, n);
    assert a[i] == b[j];
  }

  lemma ClassAt(g: Graph, a: seq<set<RunId>>, i: nat, n: RunId)
    requires IsSccListing(g, a) && i < |a| && n in a[i]
    ensures IsClassOf(g, a[i], n)
  {
  }

  lemma ListingsPaired(g: Graph, a: seq<set<RunId>>, b: seq<set<RunId>>)
    requires IsSccListing(g, a) && IsSccListing(g, b)
    ensures Paired(a, b)
  {
    ListingDistinct(g, a);
    ListingDistinct(g, b);
    hide IsSccListing;
    forall s ensures s in a <==> s in b {
      if s in a || s in b {
        var n :| n in s;
        if s in a { ClassListed(g, a, b, s, n); } else { ClassListed(g, b, a, s, n); }
      }
    }
  }

  lemma ListingDistinct(g: Graph, a: seq<set<RunId>>)
    requires IsSccListing(g, a)
    ensures Distinct(a) && forall s :: s in a ==> s != {}
  {
  }

  lemma PairedSizes(a: seq<set<RunId>>, b: seq<set<RunId>>)
    requires Paired(a, b)
    ensures |a| == |b|
  {
    assert Elements(a) == Elements(b);
    DistinctCount(a);
    DistinctCount(b);
  }

  ghost function Twin(a: seq<set<RunId>>, b: seq<set<RunId>>, i: nat): (j: nat)
    requires Paired(a, b) && i < |a|
    ensures Twins(a, b, i, j)
  {
    assert a[i] in b;
    var j: nat :| j < |b| && b[j] == a[i];
    j
  }

  ghost predicate SameQuotients(a: seq<set<RunId>>, b: seq<set<RunId>>, p: Graph, q: Graph, kp: nat -> Chron,
                                kq: nat -> Chron) {
    && (forall i: nat :: i in p.nodes <==> i < |a|)
    && (forall j: nat :: j in q.nodes <==> j < |b|)
    && (forall i: nat, j: nat :: Twins(a, b, i, j) ==> kp(i) == kq(j))
    && forall i: nat, j: nat, i': nat, j': nat :: Twins(a, b, i, j) && Twins(a, b, i', j') ==>
         ((i, i') in p.edges <==> (j, j') in q.edges)
  }

  ghost function Carry(a: seq<set<RunId>>, b: seq<set<RunId>>, s: seq<nat>): (t: seq<nat>)
    requires Paired(a, b) && forall x :: x in s ==> x < |a|
    ensures |t| == |s| && forall k :: 0 <= k < |s| ==> Twins(a, b, s[k], t[k])
  {
    seq(|s|, k requires 0 <= k < |s| => assert s[k] in s; Twin(a, b, s[k]))
  }

  lemma CarriedReady(a: seq<set<RunId>>, b: seq<set<RunId>>, p: Graph, q: Graph, kp: nat -> Chron, kq: nat -> Chron,
                     s: seq<nat>, t: seq<nat>, n: nat, m: nat)
    requires Paired(a, b) && SameQuotients(a, b, p, q, kp, kq) && p.Valid() && q.Valid()
    requires |s| == |t| && forall k :: 0 <= k < |s| ==> Twins(a, b, s[k], t[k])
    requires Twins(a, b, n, m)
    ensures Ready(p, Elements(s), n) ==> Ready(q, Elements(t), m)
  {
    if Ready(p, Elements(s), n) {
      forall k | 0 <= k < |t| ensures t[k] != m {
        assert s[k] in Elements(s);
        assert s[k] != n;
      }
      forall x | (x, m) in q.edges ensures x in Elements(t) {
        var y := Twin(b, a, x);
        assert Twins(a, b, y, x);
        assert (y, n) in p.edges;
        var k :| 0 <= k < |s| && s[k] == y;
        assert t[k] == x;
      }
    }
  }

  lemma CarriedLeast(a: seq<set<RunId>>, b: seq<set<RunId>>, p: Graph, q: Graph, kp: nat -> Chron, kq: nat -> Chron,
                     s: seq<nat>, t: seq<nat>, n: nat, m: nat)
    requires Paired(a, b) && SameQuotients(a, b, p, q, kp, kq) && p.Valid() && q.Valid()
    requires |s| == |t| && forall k :: 0 <= k < |s| ==> Twins(a, b, s[k], t[k])
    requires Twins(a, b, n, m) && LeastReady(p, kp, Elements(s), n)
    ensures LeastReady(q, kq, Elements(t), m)
  {
    CarriedReady(a, b, p, q, kp, kq, s, t, n, m);
    SameQuotientsBack(a, b, p, q, kp, kq);
    forall x | Ready(q, Elements(t), x) && x != m ensures Before(kq(m), kq(x)) {
      var y := Twin(b, a, x);
      assert Twins(a, b, y, x);
      CarriedReady(b, a, q, p, kq, kp, t, s, x, y);
      assert y != n;
    }
  }

  lemma SameQuotientsBack(a: seq<set<RunId>>, b: seq<set<RunId>>, p: Graph, q: Graph, kp: nat -> Chron,
                          kq: nat -> Chron)
    requires SameQuotients(a, b, p, q, kp, kq)
    ensures SameQuotients(b, a, q, p, kq, kp)
  {
    assert forall i: nat, j: nat :: Twins(b, a, j, i) ==> Twins(a, b, i, j);
  }

  lemma CarriedOrder(a: seq<set<RunId>>, b: seq<set<RunId>>, p: Graph, q: Graph, kp: nat -> Chron, kq: nat -> Chron,
                     s: seq<nat>, t: seq<nat>)
    requires Paired(a, b) && SameQuotients(a, b, p, q, kp, kq) && p.Valid() && q.Valid()
    requires |s| == |t| && forall k :: 0 <= k < |s| ==> Twins(a, b, s[k], t[k])
    requires IsKahnOrder(p, kp, s) && |p.nodes| == |q.nodes|
    ensures IsKahnOrder(q, kq, t)
  {
    forall k | 0 <= k < |t| ensures LeastReady(q, kq, Elements(t[..k]), t[k]) {
      CarriedLeast(a, b, p, q, kp, kq, s[..k], t[..k], s[k], t[k]);
    }
  }

  lemma NodeCount(dag: Graph, n: nat)
    requires forall i: nat :: i in dag.nodes <==> i < n
    ensures |dag.nodes| == n
  {
    var s := seq(n, (i: nat) => i);
    assert Elements(s) == dag.nodes by {
      forall i: nat | i < n ensures i in s {
        assert s[i] == i;
      }
    }
    DistinctCount(s);
  }

  lemma {:induction false} LowestAgrees(x: Input, y: Input, ms: seq<RunId>)
    requires SameRun(x, y)
    ensures LowestScore(x, ms) == LowestScore(y, ms)
  {
    if ms != [] {
      LowestAgrees(x, y, ms[..|ms| - 1]);
    }
  }

  lemma SuperAgrees(x: Input, y: Input, g: Graph, members: set<RunId>)
    requires SameRun(x, y) && members != {}
    ensures MakeSuper(x, g, members) == MakeSuper(y, g, members)
  {
    LowestAgrees(x, y, SortRuns(x.endTimes, members));
  }

  lemma SupersAgree(x: Input, y: Input, g: Graph, a: seq<set<RunId>>, b: seq<set<RunId>>, s: seq<SuperNode>,
                    t: seq<SuperNode>)
    requires SameRun(x, y) && SupersOf(x, g, a, s) && SupersOf(y, g, b, t)
    ensures forall i: nat, j: nat :: Twins(a, b, i, j) ==> i < |s| && j < |t| && s[i] == t[j]
    ensures forall i: nat, j: nat :: Twins(a, b, i, j) ==> ExitKey(x.endTimes, s)(i) == ExitKey(y.endTimes, t)(j)
  {
    hide MakeSuper;
    forall i: nat, j: nat | Twins(a, b, i, j) ensures s[i] == t[j] {
      SuperAgrees(x, y, g, a[i]);
    }
  }

  lemma QuotientsAgree(g: Graph, a: seq<set<RunId>>, b: seq<set<RunId>>, p: Graph, q: Graph, kp: nat -> Chron,
                       kq: nat -> Chron)
    requires IsQuotient(g, a, p) && IsQuotient(g, b, q) && Distinct(a) && Distinct(b)
    requires forall i: nat, j: nat :: Twins(a, b, i, j) ==> kp(i) == kq(j)
    ensures SameQuotients(a, b, p, q, kp, kq)
  {
    hide Crosses;
    forall i: nat, j: nat, i': nat, j': nat | Twins(a, b, i, j) && Twins(a, b, i', j')
      ensures (i, i') in p.edges <==> (j, j') in q.edges
    {
      assert (i, i') in p.edges <==> i != i' && Crosses(g, a[i], a[i']);
    }
  }

  lemma GraphsAgree(x: Input, y: Input)
    requires SameRun(x, y)
    ensures BuildGraph(x.nodes, x.edges) == BuildGraph(y.nodes, y.edges)
  {
  }

  // The second topological order is the first one carried across the pairing.
  lemma OrdersAgree(g: Graph, a: seq<set<RunId>>, b: seq<set<RunId>>, p: Graph, q: Graph, kp: nat -> Chron,
                    kq: nat -> Chron,
                    s: seq<nat>, t: seq<nat>)
    requires IsQuotient(g, a, p) && IsQuotient(g, b, q) && Paired(a, b)
    requires forall i: nat, j: nat :: Twins(a, b, i, j) ==> kp(i) == kq(j)
    requires IsKahnOrder(p, kp, s) && IsKahnOrder(q, kq, t)
    ensures |s| == |t| && forall k :: 0 <= k < |s| ==> Twins(a, b, s[k], t[k])
    ensures forall i, j :: 0 <= i < |s| && 0 <= j < |s| ==> ((s[i], s[j]) in p.edges <==> (t[i], t[j]) in q.edges)
  {
    QuotientsAgree(g, a, b, p, q, kp, kq);
    QuotientBasics(g, a, p);
    QuotientBasics(g, b, q);
    KahnCovers(p, kp, s);
    PairedSizes(a, b);
    NodeCount(p, |a|);
    NodeCount(q, |b|);
    assert forall k :: k in s ==> k in Elements(s);
    hide IsQuotient, IsKahnOrder;
    var r := Carry(a, b, s);
    KahnLength(p, kp, s);
    CarriedOrder(a, b, p, q, kp, kq, s, r);
    KahnLength(q, kq, t);
    KahnUnique(q, kq, r, t, |r|);
    assert r == r[..|r|] == t[..|r|] == t;
  }

  // Main result: permuting the input lists and renumbering the components changes nothing but the ids.
  lemma CondensationIndependent(x: Input, y: Input, a: seq<set<RunId>>, b: seq<set<RunId>>, c: Condensation,
                                d: Condensation)
    requires SameRun(x, y) && Condensed(x, a, c) && Condensed(y, b, d)
    ensures Alike(c, d)
  {
    hide Reaches, IsSccListing, IsKahnOrder, Locates, SupersOf, IsQuotient;
    GraphsAgree(x, y);
    ListingsPaired(c.graph, a, b);
    SupersAgree(x, y, c.graph, a, b, c.supers, d.supers);
    hide Paired;
    OrdersAgree(c.graph, a, b, c.dag, d.dag, ExitKey(x.endTimes, c.supers), ExitKey(y.endTimes, d.supers), c.topo,
      d.topo);
  }

  lemma KahnLength(dag: Graph, key: nat -> Chron, t: seq<nat>)
    requires IsKahnOrder(dag, key, t)
    ensures |t| == |dag.nodes|
  {
  }
}
