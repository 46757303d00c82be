// The propagation path: the least shortest path from the culprit to a sink of the condensation.

module Propagation {
  import opened Prelude
  import opened Graphs
  import opened BlameInput
  import opened Condense

  // ---------- Ordering of hops and of paths ----------

  // Most degraded first, unknown last, then chronological.
  datatype StepKey = StepKey(score: Option<real>, at: Chron)

  predicate StepLess(a: StepKey, b: StepKey) {
    if a.score.None? != b.score.None? then a.score.Some?
    else if a.score != b.score then a.score.value < b.score.value
    else Before(a.at, b.at)
  }

  predicate LexLess(s: seq<StepKey>, t: seq<StepKey>) {
    t != [] && (s == [] || StepLess(s[0], t[0]) || (s[0] == t[0] && LexLess(s[1..], t[1..])))
  }

  lemma {:induction false} LexTrichotomy(s: seq<StepKey>, t: seq<StepKey>)
    requires |s| == |t| && forall k :: 0 <= k < |s| ==> s[k] == t[k] || s[k].at != t[k].at
    ensures s == t || LexLess(s, t) || LexLess(t, s)
  {
    if s != [] {
      LexTrichotomy(s[1..], t[1..]);
      assert s == [s[0]] + s[1..] && t == [t[0]] + t[1..];
    }
  }

  lemma {:induction false} LexTransitive(s: seq<StepKey>, t: seq<StepKey>, u: seq<StepKey>)
    requires |s| == |t| == |u| && LexLess(s, t) && LexLess(t, u)
    ensures LexLess(s, u)
  {
    if s[0] == t[0] == u[0] {
      LexTransitive(s[1..], t[1..], u[1..]);
    }
  }

  lemma {:induction false} LexIrreflexive(s: seq<StepKey>)
    ensures !LexLess(s, s)
  {
    if s != [] {
      LexIrreflexive(s[1..]);
    }
  }

  // Extending two prefixes of equal length by the same hop preserves their order.
  lemma {:induction false} LexExtend(s: seq<StepKey>, t: seq<StepKey>, x: StepKey)
    requires |s| == |t| && LexLess(s, t)
    ensures LexLess(s + [x], t + [x])
  {
    var s', t' := s + [x], t + [x];
    assert s'[1..] == s[1..] + [x] && t'[1..] == t[1..] + [x];
    if s[0] == t[0] && !StepLess(s[0], t[0]) {
      LexExtend(s[1..], t[1..], x);
    }
  }

  function StepOf(inp: Input, c: Condensation, sid: nat): StepKey
    requires sid < |c.supers|
  {
    StepKey(c.supers[sid].score, KeyOf(inp.endTimes, c.supers[sid].exit))
  }

  predicate InRange(c: Condensation, p: seq<nat>) {
    forall x :: x in p ==> x < |c.supers|
  }

  // One key per hop, so none for the start.
  function Steps(inp: Input, c: Condensation, p: seq<nat>): (r: seq<StepKey>)
    requires p != [] && InRange(c, p)
    ensures |r| == |p| - 1
  {
    seq(|p| - 1, k requires 0 <= k < |p| - 1 => assert p[k + 1] in p; StepOf(inp, c, p[k + 1]))
  }

  predicate PathLess(inp: Input, c: Condensation, p: seq<nat>, q: seq<nat>)
    requires p != [] && q != [] && InRange(c, p) && InRange(c, q)
  {
    |p| < |q| || (|p| == |q| && LexLess(Steps(inp, c, p), Steps(inp, c, q)))
  }

  ghost predicate PathBetween(c: Condensation, a: nat, b: nat, p: seq<nat>) {
    InRange(c, p) && WalkFromTo(c.dag, a, b, p)
  }

  // The fewest hops and, among those, the lexicographically least keys: strictly below every other path.
  ghost predicate IsLeastPath(inp: Input, c: Condensation, a: nat, b: nat, p: seq<nat>) {
    && PathBetween(c, a, b, p)
    && forall q :: PathBetween(c, a, b, q) && q != p ==> PathLess(inp, c, p, q)
  }

  lemma {:induction false} ExitsAreDistinct(inp: Input, c: Condensation, i: nat, j: nat)
    requires WellFormed(inp, c) && i < |c.supers| && j < |c.supers| && c.supers[i].exit == c.supers[j].exit
    ensures i == j
  {
    hide Reaches, ProperTopo, Acyclic;
    assert ProperSuper(inp, c.graph, c.supers[i]) && ProperSuper(inp, c.graph, c.supers[j]);
    var e := c.supers[i].exit;
    assert e in c.supers[i].members && e in c.supers[j].members;
    assert c.superOf[e] == i && c.superOf[e] == j;
  }

  lemma StepsDiffer(inp: Input, c: Condensation, p: seq<nat>, q: seq<nat>)
    requires WellFormed(inp, c) && InRange(c, p) && InRange(c, q) && |p| == |q| > 0 && p[0] == q[0] && p != q
    ensures Steps(inp, c, p) != Steps(inp, c, q)
    ensures forall k :: 0 <= k < |p| - 1 ==>
      Steps(inp, c, p)[k] == Steps(inp, c, q)[k] || Steps(inp, c, p)[k].at != Steps(inp, c, q)[k].at
  {
    hide WellFormed;
    forall k | 0 <= k < |p|
      ensures p[k] == q[k] || (k > 0 && Steps(inp, c, p)[k - 1].at != Steps(inp, c, q)[k - 1].at)
    {
      assert p[k] in p && q[k] in q;
      if p[k] != q[k] && c.supers[p[k]].exit == c.supers[q[k]].exit {
        ExitsAreDistinct(inp, c, p[k], q[k]);
      }
    }
    var k :| 0 <= k < |p| && p[k] != q[k];
    forall j | 0 <= j < |p| - 1
      ensures Steps(inp, c, p)[j] == Steps(inp, c, q)[j] || Steps(inp, c, p)[j].at != Steps(inp, c, q)[j].at
    {
      assert p[j + 1] == q[j + 1] || Steps(inp, c, p)[j].at != Steps(inp, c, q)[j].at;
    }
  }

  // Two different paths from one start are never tied: the order of the predecessors cannot matter.
  lemma PathTrichotomy(inp: Input, c: Condensation, p: seq<nat>, q: seq<nat>)
    requires WellFormed(inp, c) && InRange(c, p) && InRange(c, q) && p != [] && q != [] && p[0] == q[0]
    ensures p == q || PathLess(inp, c, p, q) || PathLess(inp, c, q, p)
  {
    if |p| == |q| && p != q {
      StepsDiffer(inp, c, p, q);
      LexTrichotomy(Steps(inp, c, p), Steps(inp, c, q));
    }
  }

  lemma PathTransitive(inp: Input, c: Condensation, p: seq<nat>, q: seq<nat>, r: seq<nat>)
    requires InRange(c, p) && InRange(c, q) && InRange(c, r) && p != [] && q != [] && r != []
    requires PathLess(inp, c, p, q) && PathLess(inp, c, q, r)
    ensures PathLess(inp, c, p, r)
  {
    if |p| == |r| {
      LexTransitive(Steps(inp, c, p), Steps(inp, c, q), Steps(inp, c, r));
    }
  }

  lemma StepsExtend(inp: Input, c: Condensation, p: seq<nat>, s: nat)
    requires InRange(c, p) && p != [] && s < |c.supers|
    ensures InRange(c, p + [s]) && Steps(inp, c, p + [s]) == Steps(inp, c, p) + [StepOf(inp, c, s)]
  {
    var q := p + [s];
    forall k | 0 <= k < |p| - 1 ensures Steps(inp, c, q)[k] == Steps(inp, c, p)[k] {
      assert q[k + 1] == p[k + 1];
    }
  }

  lemma PathExtend(inp: Input, c: Condensation, p: seq<nat>, q: seq<nat>, s: nat)
    requires InRange(c, p) && InRange(c, q) && p != [] && q != [] && s < |c.supers| && PathLess(inp, c, p, q)
    ensures InRange(c, p + [s]) && InRange(c, q + [s]) && PathLess(inp, c, p + [s], q + [s])
  {
    StepsExtend(inp, c, p, s);
    StepsExtend(inp, c, q, s);
    if |p| == |q| {
      LexExtend(Steps(inp, c, p), Steps(inp, c, q), StepOf(inp, c, s));
    }
  }

  lemma LeastPathUnique(inp: Input, c: Condensation, a: nat, b: nat, p: seq<nat>, q: seq<nat>)
    requires IsLeastPath(inp, c, a, b, p) && IsLeastPath(inp, c, a, b, q)
    ensures p == q
  {
    if p != q {
      assert PathLess(inp, c, p, q) && PathLess(inp, c, q, p);
      LexTransitive(Steps(inp, c, p), Steps(inp, c, q), Steps(inp, c, p));
      LexIrreflexive(Steps(inp, c, p));
    }
  }

  // ---------- The dynamic program ----------

  datatype Entry = Entry(hops: nat, keys: seq<StepKey>, pred: Option<nat>)

  predicate Better(a: Entry, b: Entry) {
    a.hops < b.hops || (a.hops == b.hops && LexLess(a.keys, b.keys))
  }

  function Extend(e: Entry, p: nat, step: StepKey): Entry {
    Entry(e.hops + 1, e.keys + [step], Some(p))
  }

  // Entry `e` of node `s` stands for the least path `w`.
  ghost predicate Records(inp: Input, c: Condensation, start: nat, s: nat, e: Entry, w: seq<nat>) {
    && IsLeastPath(inp, c, start, s, w)
    && e.hops == |w| - 1 && e.keys == Steps(inp, c, w)
  }

  ghost predicate Linked(best: map<nat, Entry>, ways: map<nat, seq<nat>>, s: nat) {
    && s in best && s in ways
    && if best[s].pred.None? then ways[s] == [s]
       else var p := best[s].pred.value; p in best && p in ways && ways[s] == ways[p] + [s]
  }

  ghost predicate Table(inp: Input, c: Condensation, start: nat, best: map<nat, Entry>, ways: map<nat, seq<nat>>) {
    && (forall s :: s in best <==> s in ways)
    && (forall s :: s in best ==> Records(inp, c, start, s, best[s], ways[s]))
    && forall s :: s in best ==> Linked(best, ways, s)
  }

  // The table covers exactly what `start` reaches among the nodes seen so far.
  ghost predicate Covers(c: Condensation, start: nat, seen: set<nat>, best: map<nat, Entry>) {
    forall s :: s in best <==> (s == start || s in seen) && Reaches(c.dag, start, s)
  }

  ghost predicate IsBestOption(best: map<nat, Entry>, preds: set<nat>, step: StepKey, p: nat) {
    preds <= best.Keys && p in preds && forall q :: q in preds ==>
      !Better(Extend(best[q], q, step), Extend(best[p], p, step))
  }

  lemma BetterTransitive(a: Entry, b: Entry, e: Entry)
    requires |a.keys| == a.hops && |b.keys| == b.hops && |e.keys| == e.hops
    requires Better(a, b) && Better(b, e)
    ensures Better(a, e)
  {
    if a.hops == e.hops {
      LexTransitive(a.keys, b.keys, e.keys);
    }
  }

  method BestOption(best: map<nat, Entry>, preds: set<nat>, step: StepKey) returns (p: nat)
    requires preds != {} && preds <= best.Keys && forall s :: s in best ==> |best[s].keys| == best[s].hops
    ensures IsBestOption(best, preds, step, p)
  {
    p :| p in preds;
    var todo := preds - {p};
    LexIrreflexive(Extend(best[p], p, step).keys);
    while todo != {}
      invariant todo <= preds && p in preds
      invariant forall q :: q in preds - todo ==> !Better(Extend(best[q], q, step), Extend(best[p], p, step))
    {
      var n :| n in todo;
      todo := todo - {n};
      var candidate, current := Extend(best[n], n, step), Extend(best[p], p, step);
      if Better(candidate, current) {
        forall q | q in preds - todo ensures !Better(Extend(best[q], q, step), candidate) {
          if q == n {
            LexIrreflexive(candidate.keys);
          } else if Better(Extend(best[q], q, step), candidate) {
            BetterTransitive(Extend(best[q], q, step), candidate, current);
          }
        }
        p := n;
      }
    }
  }

  // A path that ends in `s` away from the start is a path to one of its predecessors, and one more hop.
  lemma SplitPath(c: Condensation, start: nat, s: nat, q: seq<nat>) returns (r: seq<nat>, p: nat)
    requires PathBetween(c, start, s, q) && s != start
    ensures q == r + [s] && PathBetween(c, start, p, r) && (p, s) in c.dag.edges
  {
    var k := |q| - 2;
    r, p := q[..k + 1], q[k];
    SubWalk(c.dag, q, 0, k);
    assert r == q[0..k + 1];
    assert forall x :: x in r ==> x in q;
  }

  lemma AppendHop(c: Condensation, start: nat, p: nat, s: nat, w: seq<nat>)
    requires PathBetween(c, start, p, w) && s < |c.supers| && s in c.dag.nodes && (p, s) in c.dag.edges
    ensures PathBetween(c, start, s, w + [s])
  {
    var r := w + [s];
    forall i, j | 0 <= i < |r| && j == i + 1 < |r| ensures (r[i], r[j]) in c.dag.edges {
      if j == |w| {
        assert r[i] == p;
      }
    }
  }

  lemma OptionOrder(inp: Input, c: Condensation, start: nat, best: map<nat, Entry>, ways: map<nat, seq<nat>>, s: nat,
                    p: nat, q: nat)
    requires Table(inp, c, start, best, ways) && s < |c.supers| && p in best && q in best
    requires !Better(Extend(best[q], q, StepOf(inp, c, s)), Extend(best[p], p, StepOf(inp, c, s)))
    ensures InRange(c, ways[p] + [s]) && InRange(c, ways[q] + [s])
    ensures !PathLess(inp, c, ways[q] + [s], ways[p] + [s])
  {
    assert Records(inp, c, start, p, best[p], ways[p]) && Records(inp, c, start, q, best[q], ways[q]);
    StepsExtend(inp, c, ways[p], s);
    StepsExtend(inp, c, ways[q], s);
  }

  // The greedy choice per node is optimal.
  lemma GreedyIsOptimal(inp: Input, c: Condensation, start: nat, best: map<nat, Entry>, ways: map<nat, seq<nat>>,
                        s: nat, preds: set<nat>, p: nat)
    requires WellFormed(inp, c) && Table(inp, c, start, best, ways) && s < |c.supers| && s in c.dag.nodes && s != start
    requires preds <= best.Keys && (forall q :: q in preds ==> (q, s) in c.dag.edges)
    requires forall q :: (q, s) in c.dag.edges && Reaches(c.dag, start, q) ==> q in preds
    requires IsBestOption(best, preds, StepOf(inp, c, s), p)
    ensures p in ways && IsLeastPath(inp, c, start, s, ways[p] + [s])
    ensures Records(inp, c, start, s, Extend(best[p], p, StepOf(inp, c, s)), ways[p] + [s])
  {
    hide WellFormed, Table;
    TableAt(inp, c, start, best, ways, p);
    var w := ways[p];
    AppendHop(c, start, p, s, w);
    StepsExtend(inp, c, w, s);
    forall q | PathBetween(c, start, s, q) && q != w + [s] ensures PathLess(inp, c, w + [s], q) {
      var r, x := SplitPath(c, start, s, q);
      assert x in preds;
      TableAt(inp, c, start, best, ways, x);
      var v := ways[x];
      OptionOrder(inp, c, start, best, ways, s, p, x);
      if r != v {
        PathExtend(inp, c, v, r, s);
      }
      PathTrichotomy(inp, c, w + [s], q);
      if PathLess(inp, c, q, w + [s]) && r != v {
        PathTransitive(inp, c, v + [s], q, w + [s]);
      }
    }
  }

  lemma TableAt(inp: Input, c: Condensation, start: nat, best: map<nat, Entry>, ways: map<nat, seq<nat>>, p: nat)
    requires Table(inp, c, start, best, ways) && p in best
    ensures p in ways && Records(inp, c, start, p, best[p], ways[p]) && Linked(best, ways, p)
    ensures |best[p].keys| == best[p].hops && p < |c.supers|
  {
    assert Records(inp, c, start, p, best[p], ways[p]);
    assert p in ways[p];
  }

  lemma TableExtend(inp: Input, c: Condensation, start: nat, best: map<nat, Entry>, ways: map<nat, seq<nat>>,
                    s: nat, p: nat, step: StepKey)
    requires Table(inp, c, start, best, ways) && p in best && s !in best
    requires Records(inp, c, start, s, Extend(best[p], p, step), ways[p] + [s])
    ensures Table(inp, c, start, best[s := Extend(best[p], p, step)], ways[s := ways[p] + [s]])
  {
    hide Records;
    var best', ways' := best[s := Extend(best[p], p, step)], ways[s := ways[p] + [s]];
    forall x | x in best' ensures Linked(best', ways', x) {
      if x != s {
        assert Linked(best, ways, x);
      }
    }
  }

  lemma StartEntry(inp: Input, c: Condensation, start: nat)
    requires WellFormed(inp, c) && start < |c.supers|
    ensures Table(inp, c, start, map[start := Entry(0, [], None)], map[start := [start]])
    ensures Covers(c, start, {}, map[start := Entry(0, [], None)])
  {
    ReachesSelf(c.dag, start);
    assert WalkFromTo(c.dag, start, start, [start]);
    forall q | PathBetween(c, start, start, q) && q != [start] ensures PathLess(inp, c, [start], q) {
      assert q == [q[0]] + q[1..];
    }
  }

  // Predecessors stand earlier in the topological order, so the table already knows the reachable ones.
  lemma PredecessorsSeen(inp: Input, c: Condensation, start: nat, k: nat, best: map<nat, Entry>, p: nat)
    requires WellFormed(inp, c) && k < |c.topo| && Covers(c, start, Elements(c.topo[..k]), best)
    requires (p, c.topo[k]) in c.dag.edges && Reaches(c.dag, start, p)
    ensures p in best
  {
    hide Reaches, ProperMembers, ProperSuper, Acyclic;
    assert p in Elements(c.topo);
    var i :| 0 <= i < |c.topo| && c.topo[i] == p;
    assert c.topo[..k][i] == p;
  }

  lemma CoversNext(inp: Input, c: Condensation, start: nat, k: nat, best: map<nat, Entry>, best': map<nat, Entry>)
    requires WellFormed(inp, c) && start < |c.supers| && k < |c.topo| && Covers(c, start, Elements(c.topo[..k]), best)
    requires forall s :: s in best' <==> s in best || (s == c.topo[k] && exists p :: p in best && (p, s) in c.dag.edges)
    ensures Covers(c, start, Elements(c.topo[..k + 1]), best')
  {
    hide WellFormed, Reaches;
    var sid := c.topo[k];
    WellFormedDag(inp, c);
    assert Elements(c.topo[..k + 1]) == Elements(c.topo[..k]) + {sid} by {
      assert c.topo[..k + 1] == c.topo[..k] + [sid];
    }
    if p :| p in best && (p, sid) in c.dag.edges {
      EdgeReaches(c.dag, p, sid);
      ReachesTrans(c.dag, start, p, sid);
    } else if Reaches(c.dag, start, sid) && sid != start {
      var p := LastStep(c.dag, start, sid);
      PredecessorsSeen(inp, c, start, k, best, p);
    }
  }

  lemma WellFormedDag(inp: Input, c: Condensation)
    requires WellFormed(inp, c)
    ensures c.dag.Valid() && Acyclic(c.dag) && forall i: nat :: i in c.dag.nodes <==> i < |c.supers|
  {
  }

  lemma TopoInRange(inp: Input, c: Condensation)
    requires WellFormed(inp, c)
    ensures forall k :: 0 <= k < |c.topo| ==> c.topo[k] in c.dag.nodes && c.topo[k] < |c.supers|
  {
    hide ProperMembers, ProperSuper, Reaches, Acyclic;
    forall k | 0 <= k < |c.topo| ensures c.topo[k] in c.dag.nodes {
      assert c.topo[k] in Elements(c.topo);
    }
  }

  lemma NotYetSeen(inp: Input, c: Condensation, start: nat, k: nat, best: map<nat, Entry>)
    requires WellFormed(inp, c) && k < |c.topo| && Covers(c, start, Elements(c.topo[..k]), best) && c.topo[k] != start
    ensures c.topo[k] !in best
  {
    hide ProperMembers, ProperSuper, Reaches, Acyclic;
  }

  function KnownPreds(c: Condensation, best: map<nat, Entry>, sid: nat): set<nat> {
    set p | p in best && (p, sid) in c.dag.edges
  }

  lemma OptionsReady(inp: Input, c: Condensation, start: nat, k: nat, best: map<nat, Entry>, ways: map<nat, seq<nat>>)
    requires WellFormed(inp, c) && k < |c.topo| && c.topo[k] != start
    requires Table(inp, c, start, best, ways) && Covers(c, start, Elements(c.topo[..k]), best)
    ensures c.topo[k] !in best && KnownPreds(c, best, c.topo[k]) <= best.Keys
    ensures forall s :: s in best ==> |best[s].keys| == best[s].hops
    ensures forall q :: q in KnownPreds(c, best, c.topo[k]) ==> (q, c.topo[k]) in c.dag.edges
    ensures forall q :: (q, c.topo[k]) in c.dag.edges && Reaches(c.dag, start, q) ==>
      q in KnownPreds(c, best, c.topo[k])
  {
    hide Reaches, WellFormed, Table, Covers;
    var sid := c.topo[k];
    NotYetSeen(inp, c, start, k, best);
    forall s | s in best ensures |best[s].keys| == best[s].hops {
      TableAt(inp, c, start, best, ways, s);
    }
    forall q | (q, sid) in c.dag.edges && Reaches(c.dag, start, q) ensures q in KnownPreds(c, best, sid) {
      PredecessorsSeen(inp, c, start, k, best, q);
    }
  }

  method Improve(inp: Input, c: Condensation, start: nat, k: nat, best: map<nat, Entry>, ghost ways: map<nat, seq<nat>>)
    returns (best': map<nat, Entry>, ghost ways': map<nat, seq<nat>>)
    requires WellFormed(inp, c) && k < |c.topo| && c.topo[k] != start && c.topo[k] < |c.supers|
    requires c.topo[k] in c.dag.nodes
    requires Table(inp, c, start, best, ways) && Covers(c, start, Elements(c.topo[..k]), best)
    requires KnownPreds(c, best, c.topo[k]) != {}
    ensures Table(inp, c, start, best', ways') && best'.Keys == best.Keys + {c.topo[k]}
    ensures start in best ==> best'[start] == best[start]
  {
    hide *;
    var sid := c.topo[k];
    OptionsReady(inp, c, start, k, best, ways);
    var preds := KnownPreds(c, best, sid);
    var step := StepOf(inp, c, sid);
    var p := BestOption(best, preds, step);
    OptionInside(best, preds, step, p);
    GreedyIsOptimal(inp, c, start, best, ways, sid, preds, p);
    TableExtend(inp, c, start, best, ways, sid, p, step);
    best' := best[sid := Extend(best[p], p, step)];
    ways' := ways[sid := ways[p] + [sid]];
  }

  lemma OptionInside(best: map<nat, Entry>, preds: set<nat>, step: StepKey, p: nat)
    requires IsBestOption(best, preds, step, p)
    ensures p in preds && p in best
  {
  }

  lemma CoversGrown(inp: Input, c: Condensation, start: nat, k: nat, best: map<nat, Entry>, best': map<nat, Entry>)
    requires WellFormed(inp, c) && start < |c.supers| && k < |c.topo| && Covers(c, start, Elements(c.topo[..k]), best)
    requires start in best
    requires best'.Keys == best.Keys + if KnownPreds(c, best, c.topo[k]) != {} then {c.topo[k]} else {}
    ensures Covers(c, start, Elements(c.topo[..k + 1]), best')
  {
    hide WellFormed, Reaches, Covers;
    forall s ensures s in best' <==> s in best || (s == c.topo[k] && exists p :: p in best && (p, s) in c.dag.edges) {
      assert s in best' <==> s in best'.Keys;
      if s == c.topo[k] {
        assert (exists p :: p in best && (p, s) in c.dag.edges) <==> KnownPreds(c, best, s) != {} by {
          if p :| p in best && (p, s) in c.dag.edges {
            assert p in KnownPreds(c, best, s);
          }
        }
      }
    }
    CoversNext(inp, c, start, k, best, best');
  }

  // One round of the loop: the node at position k of the topological order.
  method Visit(inp: Input, c: Condensation, start: nat, k: nat, best: map<nat, Entry>, ghost ways: map<nat, seq<nat>>)
    returns (best': map<nat, Entry>, ghost ways': map<nat, seq<nat>>)
    requires WellFormed(inp, c) && start < |c.supers| && k < |c.topo| && start in best
    requires Table(inp, c, start, best, ways) && Covers(c, start, Elements(c.topo[..k]), best)
    ensures Table(inp, c, start, best', ways') && Covers(c, start, Elements(c.topo[..k + 1]), best')
    ensures start in best' && best'[start] == best[start]
  {
    hide *;
    best', ways' := best, ways;
    TopoInRange(inp, c);
    if c.topo[k] != start && KnownPreds(c, best, c.topo[k]) != {} {
      best', ways' := Improve(inp, c, start, k, best, ways);
    }
    CoversGrown(inp, c, start, k, best, best');
  }

  method FillTable(inp: Input, c: Condensation, start: nat) returns (best: map<nat, Entry>, ghost ways: map<nat,
                   seq<nat>>)
    requires WellFormed(inp, c) && start < |c.supers|
    ensures Table(inp, c, start, best, ways) && Covers(c, start, Elements(c.topo), best)
    ensures start in best && best[start].pred == None
  {
    hide *;
    best, ways := map[start := Entry(0, [], None)], map[start := [start]];
    StartEntry(inp, c, start);
    NothingSeen(c);
    for k := 0 to |c.topo|
      invariant Table(inp, c, start, best, ways) && Covers(c, start, Elements(c.topo[..k]), best)
      invariant start in best && best[start].pred == None
    {
      best, ways := Visit(inp, c, start, k, best, ways);
    }
    assert c.topo[..|c.topo|] == c.topo;
  }

  lemma NothingSeen(c: Condensation)
    ensures Elements(c.topo[..0]) == {}
  {
  }

  // `best` linked back from the target: the recorded path, read off predecessor by predecessor.
  method WalkBack(inp: Input, c: Condensation, start: nat, target: nat, best: map<nat, Entry>, ghost ways: map<nat,
                  seq<nat>>)
    returns (path: seq<nat>)
    requires Table(inp, c, start, best, ways) && target in best && start in best && best[start].pred == None
    ensures target in ways && path == ways[target]
  {
    TableAt(inp, c, start, best, ways, target);
    hide *;
    var at := target;
    path := [target];
    ghost var tail: seq<nat> := [];
    while at != start
      invariant at in best && at in ways && target in ways && path == [at] + tail
      invariant ways[target] == ways[at] + tail
      decreases best[at].hops
    {
      LinkedBack(inp, c, start, at, best, ways);
      var p := best[at].pred.value;
      Regroup(ways[p], at, tail);
      tail := [at] + tail;
      at := p;
      path := [at] + path;
    }
    StartWay(inp, c, start, best, ways);
  }

  lemma Regroup(w: seq<nat>, x: nat, tail: seq<nat>)
    ensures (w + [x]) + tail == w + ([x] + tail)
  {
  }

  // Away from the start an entry points at a predecessor whose path is one hop shorter.
  lemma LinkedBack(inp: Input, c: Condensation, start: nat, s: nat, best: map<nat, Entry>, ways: map<nat, seq<nat>>)
    requires Table(inp, c, start, best, ways) && s in best && s != start
    ensures best[s].pred.Some? && best[s].pred.value in best && best[s].pred.value in ways && s in ways
    ensures ways[s] == ways[best[s].pred.value] + [s] && best[best[s].pred.value].hops < best[s].hops
  {
    hide IsLeastPath;
    TableAt(inp, c, start, best, ways, s);
    RecordedStart(inp, c, start, s, best[s], ways[s]);
    var p := best[s].pred.value;
    TableAt(inp, c, start, best, ways, p);
  }

  lemma RecordedStart(inp: Input, c: Condensation, start: nat, s: nat, e: Entry, w: seq<nat>)
    requires Records(inp, c, start, s, e, w)
    ensures w != [] && w[0] == start
  {
  }

  lemma StartWay(inp: Input, c: Condensation, start: nat, best: map<nat, Entry>, ways: map<nat, seq<nat>>)
    requires Table(inp, c, start, best, ways) && start in best && best[start].pred == None
    ensures start in ways && ways[start] == [start]
  {
    assert Linked(best, ways, start);
  }

  method BestPath(inp: Input, c: Condensation, start: nat, target: nat) returns (path: seq<nat>)
    requires WellFormed(inp, c) && start < |c.supers| && target < |c.supers|
    ensures Reaches(c.dag, start, target) ==> IsLeastPath(inp, c, start, target, path)
    ensures !Reaches(c.dag, start, target) ==> path == [start]
  {
    var best, ways := FillTable(inp, c, start);
    AllCovered(inp, c, start, target, best);
    hide WellFormed, Reaches, Table, Covers, IsLeastPath;
    if target !in best {
      return [start];
    }
    path := WalkBack(inp, c, start, target, best, ways);
    TableAt(inp, c, start, best, ways, target);
  }

  lemma AllCovered(inp: Input, c: Condensation, start: nat, target: nat, best: map<nat, Entry>)
    requires WellFormed(inp, c) && target < |c.supers| && Covers(c, start, Elements(c.topo), best)
    ensures target in best <==> Reaches(c.dag, start, target)
  {
    hide Reaches, ProperMembers, ProperSuper, Acyclic;
  }

  // ---------- The target and the whole path ----------

  ghost predicate StrictOn(less: (RunId, RunId) -> bool, s: set<RunId>) {
    && (forall x, y :: x in s && y in s && x != y ==> less(x, y) != less(y, x))
    && forall x, y, z :: x in s && y in s && z in s && less(x, y) && less(y, z) ==> less(x, z)
  }

  ghost predicate IsFirst(less: (RunId, RunId) -> bool, s: set<RunId>, m: RunId) {
    m in s && forall x :: x in s && x != m ==> less(m, x)
  }

  lemma {:induction false} FirstExists(less: (RunId, RunId) -> bool, s: set<RunId>)
    requires s != {} && StrictOn(less, s)
    ensures exists m :: IsFirst(less, s, m)
  {
    var n :| n in s;
    if s == {n} {
      assert IsFirst(less, s, n);
    } else {
      FirstExists(less, s - {n});
      var m :| IsFirst(less, s - {n}, m);
      assert IsFirst(less, s, if less(m, n) then m else n);
    }
  }

  function First(less: (RunId, RunId) -> bool, s: set<RunId>): (m: RunId)
    requires s != {} && StrictOn(less, s)
    ensures IsFirst(less, s, m)
  {
    FirstExists(less, s);
    var m :| m in s && forall x :: x in s && x != m ==> less(m, x);
    m
  }

  // The last of the runs to finish.
  function Latest(inp: Input, s: set<RunId>): (m: RunId)
    requires s != {}
    ensures m in s && forall x :: x in s && x != m ==> Before(KeyOf(inp.endTimes, x), KeyOf(inp.endTimes, m))
  {
    First((x: nat, y: nat) => Before(KeyOf(inp.endTimes, y), KeyOf(inp.endTimes, x)), s)
  }

  function RunStep(inp: Input, run: RunId): StepKey {
    StepKey(ScoreOf(inp, run), KeyOf(inp.endTimes, run))
  }

  // The lowest score, unknown ones last, ties by time.
  function Worst(inp: Input, s: set<RunId>): (m: RunId)
    requires s != {}
    ensures m in s && forall x :: x in s && x != m ==> StepLess(RunStep(inp, m), RunStep(inp, x))
  {
    First((x: nat, y: nat) => StepLess(RunStep(inp, x), RunStep(inp, y)), s)
  }

  // Original terminals whose super-node is a candidate.
  function Terms(c: Condensation, cand: set<nat>): set<RunId> {
    set t | t in c.graph.nodes && IsSink(c.graph, t) && t in c.superOf && c.superOf[t] in cand
  }

  function Exits(c: Condensation, cand: set<nat>): set<RunId> {
    set s | s in cand && s < |c.supers| :: c.supers[s].exit
  }

  function Scored(inp: Input, s: set<RunId>): set<RunId> {
    set t | t in s && ScoreOf(inp, t).Some?
  }

  // A super-node is chosen through its exit node, whose score it carries.
  function TargetRun(inp: Input, terms: set<RunId>, exits: set<RunId>): (r: RunId)
    requires exits != {}
    ensures r in terms || (terms == {} && r in exits)
  {
    if inp.terminal.Some? && inp.terminal.value.bad && terms != {} then Latest(inp, terms)
    else if Scored(inp, terms) != {} then Worst(inp, Scored(inp, terms))
    else if terms != {} then Latest(inp, terms)
    else if Scored(inp, exits) != {} then Worst(inp, Scored(inp, exits))
    else Latest(inp, exits)
  }

  lemma ExitsLocated(inp: Input, c: Condensation, s: nat)
    requires WellFormed(inp, c) && s < |c.supers|
    ensures c.supers[s].exit in c.superOf && c.superOf[c.supers[s].exit] == s
  {
    hide Reaches, ProperTopo, Acyclic;
    assert ProperSuper(inp, c.graph, c.supers[s]);
    assert c.supers[s].exit in c.supers[s].members;
  }

  lemma TargetLocated(inp: Input, c: Condensation, cand: set<nat>)
    requires WellFormed(inp, c) && cand != {} && forall s :: s in cand ==> s < |c.supers|
    ensures Exits(c, cand) != {}
    ensures var r := TargetRun(inp, Terms(c, cand), Exits(c, cand)); r in c.superOf && c.superOf[r] in cand
  {
    hide WellFormed;
    var s :| s in cand;
    assert c.supers[s].exit in Exits(c, cand);
    var r := TargetRun(inp, Terms(c, cand), Exits(c, cand));
    if r in Exits(c, cand) {
      var x :| x in cand && x < |c.supers| && c.supers[x].exit == r;
      ExitsLocated(inp, c, x);
    }
  }

  function PickTarget(inp: Input, c: Condensation, cand: set<nat>): (t: nat)
    requires WellFormed(inp, c) && cand != {} && forall s :: s in cand ==> s < |c.supers|
    ensures t in cand
  {
    TargetLocated(inp, c, cand);
    c.superOf[TargetRun(inp, Terms(c, cand), Exits(c, cand))]
  }

  ghost function ReachableSinks(c: Condensation, start: nat): set<nat> {
    set s | s in c.sinks && Reaches(c.dag, start, s)
  }

  // From every super-node some sink is reachable, so a target always exists.
  lemma SinkReachable(inp: Input, c: Condensation, start: nat)
    requires WellFormed(inp, c) && start < |c.supers|
    ensures ReachableSinks(c, start) != {} && forall s :: s in c.sinks ==> s < |c.supers|
  {
    WellFormedDag(inp, c);
    TopoInRange(inp, c);
    var t := ReachesSink(c.dag, start);
    SinkListed(inp, c, t);
    hide WellFormed;
    assert t in ReachableSinks(c, start);
    SinksInRange(inp, c);
  }

  lemma SinkListed(inp: Input, c: Condensation, t: nat)
    requires WellFormed(inp, c) && t in c.dag.nodes && forall b :: (t, b) !in c.dag.edges
    ensures t in c.sinks
  {
    hide Reaches, ProperMembers, ProperSuper, Acyclic;
    assert t in Elements(c.topo);
    assert IsSink(c.dag, t);
  }

  lemma SinksInRange(inp: Input, c: Condensation)
    requires WellFormed(inp, c)
    ensures forall s :: s in c.sinks ==> s in c.dag.nodes && s < |c.supers| && IsSink(c.dag, s)
  {
    hide Reaches, ProperMembers, ProperSuper, Acyclic;
    forall s | s in c.sinks ensures s in c.dag.nodes {
      assert s in Elements(c.topo);
    }
  }

  // The sink the path leads to: the preferred one when it is reachable, else the preferred reachable one.
  ghost function TargetOf(inp: Input, c: Condensation, start: nat): (t: nat)
    requires WellFormed(inp, c) && start < |c.supers|
    ensures t in c.sinks && Reaches(c.dag, start, t)
  {
    SinkReachable(inp, c, start);
    var all := Elements(c.sinks);
    assert forall s :: s in ReachableSinks(c, start) ==> s in all;
    var t := PickTarget(inp, c, all);
    if Reaches(c.dag, start, t) then t else PickTarget(inp, c, ReachableSinks(c, start))
  }

  function Expand(c: Condensation, sids: seq<nat>): seq<RunId>
    requires InRange(c, sids)
  {
    if sids == [] then [] else
      assert sids[0] in sids;
      assert forall x :: x in sids[1..] ==> x in sids;
      c.supers[sids[0]].members + Expand(c, sids[1..])
  }

  ghost predicate IsPropagation(inp: Input, c: Condensation, culprit: RunId, sids: seq<nat>, path: seq<RunId>)
    requires WellFormed(inp, c) && culprit in c.superOf
  {
    && c.superOf[culprit] < |c.supers|
    && IsLeastPath(inp, c, c.superOf[culprit], TargetOf(inp, c, c.superOf[culprit]), sids)
    && path == Expand(c, sids)
  }

  method PropagationPath(inp: Input, c: Condensation, culprit: RunId) returns (path: seq<RunId>)
    requires WellFormed(inp, c)
    ensures culprit !in c.superOf ==> path == []
    ensures culprit in c.superOf ==> exists sids :: IsPropagation(inp, c, culprit, sids, path)
  {
    if culprit !in c.superOf {
      return [];
    }
    var start := c.superOf[culprit];
    WellFormedDag(inp, c);
    var reachable := ReachableFrom(c.dag, start);
    SinkReachable(inp, c, start);
    var reachableSinks := set s | s in c.sinks && s in reachable;
    assert reachableSinks == ReachableSinks(c, start);
    var target := PickTarget(inp, c, Elements(c.sinks));
    if target !in reachable {
      target := PickTarget(inp, c, reachableSinks);
    }
    hide WellFormed, Reaches, IsLeastPath;
    assert target == TargetOf(inp, c, start);
    var sids := BestPath(inp, c, start, target);
    LeastInRange(inp, c, start, target, sids);
    path := ExpandAll(c, sids);
    assert IsPropagation(inp, c, culprit, sids, path);
  }

  lemma LeastInRange(inp: Input, c: Condensation, a: nat, b: nat, p: seq<nat>)
    requires IsLeastPath(inp, c, a, b, p)
    ensures InRange(c, p) && p != [] && p[0] == a && p[|p| - 1] == b
  {
  }

  lemma SuffixInRange(c: Condensation, s: seq<nat>, k: nat)
    requires InRange(c, s) && k <= |s|
    ensures InRange(c, s[k..])
  {
    forall x | x in s[k..] ensures x in s {
      var i :| 0 <= i < |s[k..]| && s[k..][i] == x;
      assert s[k + i] == x;
    }
  }

  method ExpandAll(c: Condensation, sids: seq<nat>) returns (path: seq<RunId>)
    requires InRange(c, sids)
    ensures path == Expand(c, sids)
  {
    path := [];
    for k := 0 to |sids|
      invariant InRange(c, sids[k..]) && path + Expand(c, sids[k..]) == Expand(c, sids)
    {
      assert sids[k] in sids;
      path := path + c.supers[sids[k]].members;
      assert sids[k..][1..] == sids[k + 1..];
      SuffixInRange(c, sids, k + 1);
    }
  }

  // A walk in an acyclic graph repeats no node.
  lemma WalkDistinct(g: Graph, p: seq<nat>)
    requires g.Valid() && Acyclic(g) && IsWalk(g, p)
    ensures Distinct(p)
  {
    forall i, j | 0 <= i < j < |p| ensures p[i] != p[j] {
      SubWalk(g, p, i + 1, j);
      assert (p[i], p[i + 1]) in g.edges;
      NoBackEdge(g, p[i], p[i + 1]);
    }
  }

  lemma {:induction false} ExpandContents(inp: Input, c: Condensation, sids: seq<nat>)
    requires WellFormed(inp, c) && InRange(c, sids)
    ensures forall r :: r in Expand(c, sids) <==> r in c.superOf && c.superOf[r] in sids
  {
    hide WellFormed;
    if sids != [] {
      assert sids[0] in sids && forall x :: x in sids[1..] ==> x in sids;
      ExpandContents(inp, c, sids[1..]);
      SuperContents(inp, c, sids[0]);
      assert Expand(c, sids) == c.supers[sids[0]].members + Expand(c, sids[1..]);
      assert sids == [sids[0]] + sids[1..];
      hide Expand, InRange;
    }
  }

  lemma SuperContents(inp: Input, c: Condensation, s: nat)
    requires WellFormed(inp, c) && s < |c.supers|
    ensures forall r :: r in c.supers[s].members <==> r in c.superOf && c.superOf[r] == s
    ensures Distinct(c.supers[s].members) && |c.supers[s].members| > 0
  {
    hide Reaches, ProperTopo, Acyclic;
    assert ProperSuper(inp, c.graph, c.supers[s]);
  }

  lemma DistinctConcat(a: seq<RunId>, b: seq<RunId>)
    requires Distinct(a) && Distinct(b) && forall x :: x in a ==> x !in b
    ensures Distinct(a + b)
  {
    var s := a + b;
    forall i, j | 0 <= i < j < |s| ensures s[i] != s[j] {
      if i < |a| <= j {
        assert s[i] in a && s[j] in b;
      }
    }
  }

  predicate IsSuffix(s: seq<RunId>, t: seq<RunId>) {
    |s| <= |t| && t[|t| - |s|..] == s
  }

  lemma {:induction false} ExpandDistinct(inp: Input, c: Condensation, sids: seq<nat>)
    requires WellFormed(inp, c) && InRange(c, sids) && Distinct(sids)
    ensures Distinct(Expand(c, sids))
  {
    if sids != [] {
      hide WellFormed;
      assert sids[0] in sids && forall x :: x in sids[1..] ==> x in sids;
      ExpandDistinct(inp, c, sids[1..]);
      ExpandContents(inp, c, sids[1..]);
      SuperContents(inp, c, sids[0]);
      DistinctConcat(c.supers[sids[0]].members, Expand(c, sids[1..]));
    }
  }

  lemma {:induction false} ExpandEnds(c: Condensation, sids: seq<nat>)
    requires InRange(c, sids) && sids != []
    ensures sids[0] < |c.supers| && sids[|sids| - 1] < |c.supers|
    ensures c.supers[sids[0]].members <= Expand(c, sids)
    ensures IsSuffix(c.supers[sids[|sids| - 1]].members, Expand(c, sids))
  {
    assert sids[0] in sids && sids[|sids| - 1] in sids && forall x :: x in sids[1..] ==> x in sids;
    if |sids| == 1 {
      assert Expand(c, sids) == c.supers[sids[0]].members;
    } else {
      ExpandEnds(c, sids[1..]);
    }
  }

  // The path starts with the culprit's super-node, ends with a sink's, and repeats no run.
  lemma PropagationShape(inp: Input, c: Condensation, culprit: RunId, sids: seq<nat>, path: seq<RunId>)
    requires WellFormed(inp, c) && culprit in c.superOf && IsPropagation(inp, c, culprit, sids, path)
    ensures Distinct(path) && culprit in path
    ensures InRange(c, sids) && sids != [] && sids[0] == c.superOf[culprit] && IsWalk(c.dag, sids)
    ensures sids[|sids| - 1] in c.sinks
    ensures c.supers[sids[0]].members <= path
    ensures IsSuffix(c.supers[sids[|sids| - 1]].members, path)
  {
    var start := c.superOf[culprit];
    LeastInRange(inp, c, start, TargetOf(inp, c, start), sids);
    WellFormedDag(inp, c);
    WalkDistinct(c.dag, sids);
    hide WellFormed, Reaches, Acyclic;
    ExpandDistinct(inp, c, sids);
    ExpandContents(inp, c, sids);
    assert sids[0] in sids;
    ExpandEnds(c, sids);
  }
}
