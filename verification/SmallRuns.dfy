// Small concrete runs: what their condensation and their analysis look like.

module SmallRuns {
  import opened Prelude
  import opened Graphs
  import opened BlameInput
  import opened Condense
  import opened Propagation
  import opened CutPoint
  import opened Localize
  import opened Origins
  import opened Evidence
  import opened FindingIndex
  import opened Emit
  import opened Support
  import opened Derive
  import opened Loops
  import opened CandidateFacts
  import opened Cascade
  import opened Gaps
  import opened Soundness
  import opened Verdicts
  import opened Blame
  import opened Guarantees
  import opened Repeats

  // ---------- The condensation of a small run ----------

  function Last(s: seq<RunId>): RunId
    requires s != []
  {
    s[|s| - 1]
  }

  ghost predicate InRow(rows: seq<seq<RunId>>, i: nat, r: RunId) {
    i < |rows| && r in rows[i]
  }

  // Classes of mutual reachability, each in order of time, listed so that every edge leads to the same class or
  // a later one and every class is left after those before it.
  ghost predicate LaidOut(inp: Input, rows: seq<seq<RunId>>) {
    var g := BuildGraph(inp.nodes, inp.edges);
    && (forall i :: 0 <= i < |rows| ==> rows[i] != [] && Chronological(inp.endTimes, rows[i]))
    && (forall i: nat, r :: InRow(rows, i, r) ==> r in g.nodes)
    && (forall r :: r in g.nodes ==> exists i: nat :: InRow(rows, i, r))
    && (forall i: nat, j: nat, a: RunId, b: RunId ::
       InRow(rows, i, a) && InRow(rows, j, b) && (a == b || (a, b) in g.edges) ==> i <= j)
    && (forall i: nat, a: RunId, b: RunId :: InRow(rows, i, a) && InRow(rows, i, b) ==> Reaches(g, a, b))
    && forall i, j :: 0 <= i < j < |rows| ==>
       Before(KeyOf(inp.endTimes, Last(rows[i])), KeyOf(inp.endTimes, Last(rows[j])))
  }

  function Classes(rows: seq<seq<RunId>>): seq<set<RunId>> {
    seq(|rows|, i requires 0 <= i < |rows| => Elements(rows[i]))
  }

  lemma NeverBack(inp: Input, rows: seq<seq<RunId>>, i: nat, j: nat, a: RunId, b: RunId)
    requires LaidOut(inp, rows) && InRow(rows, i, a) && InRow(rows, j, b)
    requires Reaches(BuildGraph(inp.nodes, inp.edges), a, b)
    ensures i <= j
  {
    var g := BuildGraph(inp.nodes, inp.edges);
    var later := set r | r in g.nodes && exists k: nat :: i <= k && InRow(rows, k, r);
    hide Reaches, Chronological;
    forall x, y | x in later && (x, y) in g.edges ensures y in later {
      var k: nat :| i <= k && InRow(rows, k, x);
      var l: nat :| InRow(rows, l, y);
    }
    ClosedUnderReach(g, later, a, b);
    var k: nat :| i <= k && InRow(rows, k, b);
  }

  lemma RowIsClass(inp: Input, rows: seq<seq<RunId>>, i: nat, a: RunId, b: RunId)
    requires LaidOut(inp, rows) && InRow(rows, i, a) && b in BuildGraph(inp.nodes, inp.edges).nodes
    ensures b in rows[i] <==> Mutual(BuildGraph(inp.nodes, inp.edges), a, b)
  {
    var g := BuildGraph(inp.nodes, inp.edges);
    var j: nat :| InRow(rows, j, b);
    if Mutual(g, a, b) {
      NeverBack(inp, rows, i, j, a, b);
      NeverBack(inp, rows, j, i, b, a);
    }
    hide Reaches, Chronological;
    if b in rows[i] {
      assert InRow(rows, i, b);
    }
  }

  lemma RowsListed(inp: Input, rows: seq<seq<RunId>>)
    requires LaidOut(inp, rows)
    ensures forall i :: 0 <= i < |rows| ==> rows[i] != []
    ensures forall i, a :: 0 <= i < |rows| && a in rows[i] ==> a in BuildGraph(inp.nodes, inp.edges).nodes
    ensures forall n :: n in BuildGraph(inp.nodes, inp.edges).nodes ==> exists i :: 0 <= i < |rows| && n in rows[i]
    ensures forall i, j, r :: 0 <= i < |rows| && 0 <= j < |rows| && r in rows[i] && r in rows[j] ==> i == j
  {
    hide Reaches, Chronological, BuildGraph;
    forall i, a | 0 <= i < |rows| && a in rows[i] ensures a in BuildGraph(inp.nodes, inp.edges).nodes {
      assert InRow(rows, i, a);
    }
    forall n | n in BuildGraph(inp.nodes, inp.edges).nodes ensures exists i :: 0 <= i < |rows| && n in rows[i] {
      var i: nat :| InRow(rows, i, n);
    }
    forall i, j, r | 0 <= i < |rows| && 0 <= j < |rows| && r in rows[i] && r in rows[j] ensures i == j {
      assert InRow(rows, i, r) && InRow(rows, j, r);
    }
  }

  lemma LaidOutListing(inp: Input, rows: seq<seq<RunId>>)
    requires LaidOut(inp, rows)
    ensures IsSccListing(BuildGraph(inp.nodes, inp.edges), Classes(rows))
  {
    hide LaidOut, Mutual, BuildGraph;
    var g, comps := BuildGraph(inp.nodes, inp.edges), Classes(rows);
    RowsListed(inp, rows);
    forall i | 0 <= i < |comps| ensures comps[i] != {} {
      assert rows[i][0] in comps[i];
    }
    forall i: nat, a | 0 <= i < |comps| && a in comps[i] ensures IsClassOf(g, comps[i], a) {
      forall b | b in g.nodes ensures b in comps[i] <==> Mutual(g, a, b) {
        RowIsClass(inp, rows, i, a, b);
      }
    }
    forall n | n in g.nodes ensures Listed(comps, n) {
      var i :| 0 <= i < |rows| && n in rows[i];
      assert n in comps[i];
    }
    forall i, j | 0 <= i < j < |comps| ensures comps[i] != comps[j] {
      assert rows[j][0] in rows[j] && rows[j][0] in comps[j];
    }
  }

  // Two chronological lists of the same runs are the same list.
  lemma {:induction false} ChronologicalUnique(ends: map<RunId, real>, s: seq<RunId>, t: seq<RunId>)
    requires Chronological(ends, s) && Chronological(ends, t) && Elements(s) == Elements(t)
    ensures s == t
  {
    if s != [] {
      assert s[0] in Elements(s);
    }
    if t != [] {
      assert t[0] in Elements(t);
    }
    if s != [] && t != [] {
      assert s[0] in t && t[0] in s;
      assert s[0] == t[0];
      forall r ensures r in Elements(s[1..]) <==> r in Elements(t[1..]) {
        assert r in Elements(s) <==> r in s[1..] || r == s[0];
        assert r in Elements(t) <==> r in t[1..] || r == t[0];
        assert s[0] !in s[1..] && t[0] !in t[1..];
      }
      ChronologicalUnique(ends, s[1..], t[1..]);
    }
  }

  function Counting(n: nat): seq<nat> {
    seq(n, i => i)
  }

  // What the condensation of such a run looks like.
  ghost predicate IsLaidOut(inp: Input, rows: seq<seq<RunId>>, c: Condensation) {
    && WellFormed(inp, c) && c.topo == Counting(|rows|) && |c.supers| == |rows|
    && (forall i :: 0 <= i < |rows| ==> rows[i] != [] && c.supers[i].members == rows[i])
    && (forall i :: 0 <= i < |rows| ==>
       c.supers[i].exit == Last(rows[i]) && c.supers[i].score == ScoreOf(inp, Last(rows[i])))
    && forall i: nat, j: nat :: (i, j) in c.dag.edges <==>
         i < |rows| && j < |rows| && i != j && Crosses(c.graph, Elements(rows[i]), Elements(rows[j]))
  }

  lemma RowSuper(inp: Input, rows: seq<seq<RunId>>, c: Condensation, i: nat)
    requires LaidOut(inp, rows) && SupersOf(inp, c.graph, Classes(rows), c.supers) && i < |rows|
    ensures i < |c.supers| && rows[i] != [] && c.supers[i].members == rows[i]
    ensures c.supers[i].exit == Last(rows[i]) && c.supers[i].score == ScoreOf(inp, Last(rows[i]))
  {
    hide Reaches;
    ChronologicalUnique(inp.endTimes, rows[i], SortRuns(inp.endTimes, Elements(rows[i])));
    assert Classes(rows)[i] == Elements(rows[i]);
  }

  lemma OrderedUp(inp: Input, rows: seq<seq<RunId>>, g: Graph, dag: Graph)
    requires LaidOut(inp, rows) && g == BuildGraph(inp.nodes, inp.edges) && IsQuotient(g, Classes(rows), dag)
    ensures forall i: nat, j: nat :: (i, j) in dag.edges ==> i < j
    ensures forall i: nat, j: nat :: i < j < |rows| ==>
      rows[i] != [] && rows[j] != [] && Before(KeyOf(inp.endTimes, Last(rows[i])), KeyOf(inp.endTimes, Last(rows[j])))
  {
    hide Reaches, Chronological;
    forall i: nat, j: nat | (i, j) in dag.edges ensures i < j {
      var a, b :| a in Classes(rows)[i] && b in Classes(rows)[j] && (a, b) in g.edges;
      assert InRow(rows, i, a) && InRow(rows, j, b);
    }
  }

  // Where edges and keys both rise with the ids, the ids themselves are the keyed order.
  lemma UpIsKahn(dag: Graph, key: nat -> Chron, n: nat)
    requires dag.Valid() && forall i: nat :: i in dag.nodes <==> i < n
    requires forall i: nat, j: nat :: (i, j) in dag.edges ==> i < j
    requires forall i: nat, j: nat :: i < j < n ==> Before(key(i), key(j))
    ensures IsKahnOrder(dag, key, Counting(n))
  {
    var up := Counting(n);
    assert Elements(up) == dag.nodes by {
      forall i: nat | i < n ensures i in Elements(up) {
        assert up[i] == i;
      }
    }
    DistinctCount(up);
    forall k | 0 <= k < |up| ensures LeastReady(dag, key, Elements(up[..k]), up[k]) {
      forall i: nat ensures i in Elements(up[..k]) <==> i < k {
        if i < k {
          assert up[..k][i] == i;
        }
      }
    }
  }

  lemma LaidOutOrder(inp: Input, rows: seq<seq<RunId>>, c: Condensation)
    requires LaidOut(inp, rows) && Condensed(inp, Classes(rows), c)
    requires |c.supers| == |rows| && forall i :: 0 <= i < |rows| ==> rows[i] != [] && c.supers[i].exit == Last(rows[i])
    ensures c.topo == Counting(|rows|)
  {
    hide *;
    var up, key := Counting(|rows|), ExitKey(inp.endTimes, c.supers);
    CondensedParts(inp, Classes(rows), c);
    OrderedUp(inp, rows, c.graph, c.dag);
    KeysAre(inp.endTimes, c.supers);
    QuotientNodes(c.graph, rows, c.dag);
    UpIsKahn(c.dag, key, |rows|);
    KahnLength(c.dag, key, c.topo, up);
    KahnUnique(c.dag, key, c.topo, up, |up|);
    assert c.topo == c.topo[..|up|] && up == up[..|up|];
  }

  lemma CondensedParts(inp: Input, comps: seq<set<RunId>>, c: Condensation)
    requires Condensed(inp, comps, c)
    ensures c.graph == BuildGraph(inp.nodes, inp.edges) && IsQuotient(c.graph, comps, c.dag)
    ensures SupersOf(inp, c.graph, comps, c.supers) && IsKahnOrder(c.dag, ExitKey(inp.endTimes, c.supers), c.topo)
  {
    hide IsSccListing, IsQuotient, SupersOf, Locates, IsKahnOrder;
  }

  lemma KeysAre(ends: map<RunId, real>, supers: seq<SuperNode>)
    ensures forall i: nat :: i < |supers| ==> ExitKey(ends, supers)(i) == KeyOf(ends, supers[i].exit)
  {
  }

  lemma QuotientNodes(g: Graph, rows: seq<seq<RunId>>, dag: Graph)
    requires IsQuotient(g, Classes(rows), dag)
    ensures dag.Valid() && forall i: nat :: i in dag.nodes <==> i < |rows|
  {
    hide Crosses;
  }

  lemma KahnLength(dag: Graph, key: nat -> Chron, s: seq<nat>, t: seq<nat>)
    requires IsKahnOrder(dag, key, s) && IsKahnOrder(dag, key, t)
    ensures |s| == |t|
  {
  }

  lemma LaidOutEdges(inp: Input, rows: seq<seq<RunId>>, c: Condensation)
    requires IsQuotient(c.graph, Classes(rows), c.dag)
    ensures forall i: nat, j: nat :: (i, j) in c.dag.edges <==>
      (i < |rows| && j < |rows| && i != j && Crosses(c.graph, Elements(rows[i]), Elements(rows[j])))
  {
    hide Crosses;
  }

  lemma LaidOutShape(inp: Input, rows: seq<seq<RunId>>, c: Condensation)
    requires LaidOut(inp, rows) && Condensed(inp, Classes(rows), c)
    ensures IsLaidOut(inp, rows, c)
  {
    hide WellFormed, LaidOut, IsSccListing, IsQuotient, IsKahnOrder, Locates, SupersOf, Classes, BuildGraph;
    CondensedIsWellFormed(inp, Classes(rows), c);
    SupersCounted(inp, rows, c);
    forall i: nat | i < |rows|
      ensures i < |c.supers| && rows[i] != [] && c.supers[i].members == rows[i]
      ensures c.supers[i].exit == Last(rows[i]) && c.supers[i].score == ScoreOf(inp, Last(rows[i]))
    {
      RowSuper(inp, rows, c, i);
    }
    LaidOutOrder(inp, rows, c);
    LaidOutEdges(inp, rows, c);
  }

  lemma SupersCounted(inp: Input, rows: seq<seq<RunId>>, c: Condensation)
    requires SupersOf(inp, c.graph, Classes(rows), c.supers)
    ensures |c.supers| == |rows|
  {
  }

  // ---------- The analysis of a small run ----------

  lemma {:induction false} NoneBucketed(inp: Input, c: Condensation, k: nat, b: Bucket)
    requires k <= |c.topo| && b != NoOrigin && forall i :: 0 <= i < |c.topo| ==> c.topo[i] < |c.supers|
    requires forall i :: 0 <= i < k ==> BucketOf(inp, c, c.topo[i]) != b
    ensures Bucketed(inp, c, k, b) == []
  {
    if k > 0 {
      BucketedNext(inp, c, k - 1, b);
      NoneBucketed(inp, c, k - 1, b);
    }
  }

  lemma {:induction false} NoneInside(inp: Input, c: Condensation, k: nat, already: set<nat>)
    requires k <= |c.topo| && forall i :: 0 <= i < |c.topo| ==> c.topo[i] < |c.supers|
    requires forall i :: 0 <= i < k ==> InternalCandidate(inp, c, c.topo[i]).None?
    ensures Internal(inp, c, k, already) == []
  {
    if k > 0 {
      InternalNext(inp, c, k - 1, already);
      NoneInside(inp, c, k - 1, already);
    } else {
      InternalNone(inp, c, already);
    }
  }

  lemma AloneInside(inp: Input, c: Condensation, sid: nat)
    requires sid < |c.supers| && |c.supers[sid].members| < 2
    ensures InternalCandidate(inp, c, sid).None?
  {
    hide UnknownUpstream, Qualified, Worst, Channels, MemberRecovered, Lowest, TiedMembers;
  }

  lemma NothingBroke(inp: Input, c: Condensation)
    requires forall i :: 0 <= i < |c.topo| ==> c.topo[i] < |c.supers|
    requires forall i :: 0 <= i < |c.topo| ==>
      BucketOf(inp, c, c.topo[i]) == NoOrigin && |c.supers[c.topo[i]].members| < 2
    ensures Broken(inp, c) == [] && Bucketed(inp, c, |c.topo|, RecoveredBoundary) == []
  {
    forall i | 0 <= i < |c.topo| ensures InternalCandidate(inp, c, c.topo[i]).None? {
      AloneInside(inp, c, c.topo[i]);
    }
    hide BucketOf, InternalCandidate;
    NoneBucketed(inp, c, |c.topo|, DropOrigin);
    NoneBucketed(inp, c, |c.topo|, Propagating);
    NoneBucketed(inp, c, |c.topo|, RecoveredBoundary);
    NoneInside(inp, c, |c.topo|, SuperIds(SharpOrigins(inp, c)));
  }

  lemma NoDeclines(inp: Input, c: Condensation)
    requires WellFormed(inp, c) && inp.config.cumMinEdges >= 1
    requires forall h: nat :: h < |c.supers| && Healthy(inp, c.supers[h].score) ==> NextRun(inp, c, h).None?
    ensures Chains(inp, c) == []
  {
    ChainsReadyIff(inp, c);
    hide WellFormed, Chains, NextRun, Healthy, IsErosionChain;
    var chains := Chains(inp, c);
    if chains != [] {
      assert chains[0] in chains;
      var h := Declining(inp, c, chains[0]);
    }
  }

  lemma Declining(inp: Input, c: Condensation, ch: Chain) returns (h: nat)
    requires IsErosionChain(inp, c, ch) && inp.config.cumMinEdges >= 1
    ensures h < |c.supers| && Healthy(inp, c.supers[h].score) && NextRun(inp, c, h).Some?
  {
    hide NextRun;
    h := ch.superIds[0];
    assert StepsTo(inp, c, ch.superIds[0], ch.superIds[1]);
  }

  lemma {:induction false} KeepsAll<T>(s: seq<T>, keep: T -> bool)
    requires forall i :: 0 <= i < |s| ==> keep(s[i])
    ensures Filter(s, keep) == s
  {
    if s != [] {
      KeepsAll(s[1..], keep);
    }
  }

  lemma OnlyHard(inp: Input, c: Condensation)
    requires WellFormed(inp, c) && forall i :: 0 <= i < |c.topo| ==> c.topo[i] < |c.supers|
    requires Broken(inp, c) == [] && Bucketed(inp, c, |c.topo|, RecoveredBoundary) == [] && Chains(inp, c) == []
    ensures Steady(inp, c) && ContentOrigins(inp, c) == [] && Candidates(inp, c) == HardOrigins(inp, c)
  {
    hide WellFormed, Chains, Broken, Bucketed, HardOrigins;
    NoChains(inp, c);
    assert ContentFinal(inp, c) == [];
    KeepsAll(HardOrigins(inp, c), (x: Candidate) => x.run !in RunsOf([]));
  }

  lemma NoVerifierNoGap(inp: Input, g: Graph, culprits: seq<RunId>)
    requires inp.verifierNames == {}
    ensures AllGaps(inp, g, culprits) == [] && Asserted(AllGaps(inp, g, culprits)) == []
  {
    NoScoredGaps(inp, SortRuns(map[], g.nodes));
    NoPassedGaps(inp, g, culprits, SortRuns(map[], g.nodes));
    hide ScoredGaps, PassedGaps;
  }

  lemma {:induction false} NoScoredGaps(inp: Input, runs: seq<RunId>)
    requires inp.verifierNames == {}
    ensures ScoredGaps(inp, runs) == []
  {
    if runs != [] {
      NoScoredGaps(inp, runs[..|runs| - 1]);
    }
  }

  lemma {:induction false} NoPassedGaps(inp: Input, g: Graph, culprits: seq<RunId>, runs: seq<RunId>)
    requires inp.verifierNames == {}
    ensures PassedGaps(inp, g, culprits, runs) == []
  {
    if runs != [] {
      NoPassedGaps(inp, g, culprits, runs[..|runs| - 1]);
    }
  }

  lemma NotReplacedHere(inp: Input, c: Condensation, row: Row)
    requires RowReady(c, row) && inp.verifierNames == {}
    ensures !Replaced(inp, c, row)
    ensures FinalVerdict(inp, c, row) == RowVerdict(inp, c, row)
    ensures FinalCulprits(inp, c, row) == RowCulprits(inp, c, row)
    ensures Unsupported(inp, c, row) <==> Starved(inp, c, row)
  {
    NoVerifierNoGap(inp, c.graph, RowCulprits(inp, c, row));
    hide AllGaps, RowCulprits, RowVerdict, Starved;
  }

  // No cycle, or cycles too short to be suspicious, and agents without names.
  lemma Calm(inp: Input, c: Condensation, a: Analysis, anomalies: seq<Anomaly>)
    requires Analyzed(inp, c, a, anomalies)
    requires forall s, an :: s in c.supers ==> !IsAnomaly(inp, s, an)
    ensures anomalies == []
  {
    hide Analyzed, IsAnomaly;
    if anomalies != [] {
      var s, an := SomeAnomaly(inp, c, a, anomalies);
    }
  }

  lemma SomeAnomaly(inp: Input, c: Condensation, a: Analysis, anomalies: seq<Anomaly>) returns (s: SuperNode,
                    an: Anomaly)
    requires Analyzed(inp, c, a, anomalies) && anomalies != []
    ensures s in c.supers && IsAnomaly(inp, s, an)
  {
    var at := AnalyzedParts(inp, c, a, anomalies);
    hide WellFormed, IsAnalysis, IsAnomaly, IsBenign;
    s, an := c.supers[c.topo[at[0]]], anomalies[0];
  }

  lemma AloneIsNoAnomaly(inp: Input, s: SuperNode, an: Anomaly)
    requires |s.members| == 1 && !s.selfLoop
    ensures !IsAnomaly(inp, s, an)
  {
  }
}
