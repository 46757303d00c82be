// What the engine guarantees over every input, and an input on which the validation stops it.

module Guarantees {
  import opened Prelude
  import opened Graphs
  import opened BlameInput
  import opened Condense
  import opened Propagation
  import opened CutPoint
  import opened Origins
  import opened Evidence
  import opened FindingIndex
  import opened Emit
  import opened Support
  import opened Derive
  import opened Loops
  import opened CandidateFacts
  import opened Cascade
  import opened Gaps
  import opened Soundness
  import opened Verdicts
  import opened Blame

  predicate StaleIsUncheckable(inp: Input) {
    inp.terminal.Some? && inp.terminal.value.stale ==> !inp.terminal.value.checkable
  }

  lemma BadIsLive(inp: Input)
    requires StaleIsUncheckable(inp) && TerminalBad(inp)
    ensures LiveBad(inp)
  {
  }

  lemma LowIsEvidence(inp: Input, x: Candidate)
    requires Grounded(inp, x) && x.drop.None?
    ensures OwnEvidence(inp, x.run)
  {
  }

  lemma NeverStarved(inp: Input, c: Condensation, x: Candidate)
    requires Story(inp, c, x) && !InCycle(c, x) && StaleIsUncheckable(inp)
    ensures !StarvedOrigin(inp, x) && (x.superId < |c.supers| ==> !StarvedDrill(inp, c, x))
  {
    SccInside(inp, c, x);
    hide PointsInside, BreaksInside, HardFault, OwnEvidence, LiveBad, TerminalBad, StaleIsUncheckable, Grounded, Worst,
      MeasuredFall;
    if x.drop.None? && x.via == Both {
      LowIsEvidence(inp, x);
    }
    if TerminalBad(inp) {
      BadIsLive(inp);
    }
    if x.via == Content && x.drop.None? {
      LowIsEvidence(inp, x);
    }
  }

  lemma NoCycles(c: Condensation, x: Candidate)
    requires Singletons(c)
    ensures !InCycle(c, x)
  {
  }

  // Main result: without cycles, and with stale verdicts kept uncheckable, no input can make the engine
  // emit a defect without support.
  lemma NeverUnsupported(inp: Input, c: Condensation, a: Analysis, anomalies: seq<Anomaly>)
    requires Analyzed(inp, c, a, anomalies) && CascadeReady(c, a, anomalies) && RowReady(c, RowOf(inp, c, a, anomalies))
    requires Singletons(c) && StaleIsUncheckable(inp)
    ensures !Unsupported(inp, c, RowOf(inp, c, a, anomalies))
  {
    hide *;
    var row := RowOf(inp, c, a, anomalies);
    AnalyzedIsReady(inp, c, a, anomalies);
    RowFits(inp, c, a, anomalies);
    FabricationFits(inp, c, a, anomalies);
    if TerminalBad(inp) {
      BadIsLive(inp);
    }
    forall x | x in a.candidates
      ensures !StarvedOrigin(inp, x) && (x.superId < |c.supers| ==> !StarvedDrill(inp, c, x))
    {
      Seated(inp, c, a.candidates, x);
      NoCycles(c, x);
      NeverStarved(inp, c, x);
    }
    if row.OneOrigin? {
      assert row.origin in a.candidates;
      SingleFits(inp, c, Nowhere(), row.origin);
    }
    NotStarvedMeans(inp, c, row, a.candidates);
  }

  ghost function Nowhere(): Index {
    Index([], map[], [], map[], map[], map[], map[], map[], map[], map[], None, None, None, map[], map[])
  }

  lemma NotStarvedMeans(inp: Input, c: Condensation, row: Row, xs: seq<Candidate>)
    requires RowReady(c, row) && forall x :: x in xs ==> !StarvedOrigin(inp, x)
    requires row.Runaway? ==> forall x :: x in row.others ==> x in xs
    requires row.ManyOrigins? ==> row.origins == xs
    requires row.OneOrigin? ==> row.origin.superId < |c.supers| && !StarvedDrill(inp, c, row.origin)
    requires row.ContentUnplaced? || row.WholeOnly? ==> LiveBad(inp)
    ensures !Unsupported(inp, c, row)
  {
    hide StarvedOrigin, StarvedDrill, LiveBad, Replaced;
  }

  // Main result: a member the engine drills to with several origins always has a recorded fall or a score
  // below the threshold.
  lemma DrilledMemberStands(inp: Input, c: Condensation, all: seq<Candidate>, xs: seq<Candidate>, x: Candidate)
    requires WellFormed(inp, c) && Told(inp, c, all) && x in xs && x in all && Placed(c, xs) && Moves(inp, c, x)
    ensures Resolved(inp, c, x) in c.supers[x.superId].members
    ensures Resolved(inp, c, x) in OnRecord(inp, c, all, xs) || Low(inp, Resolved(inp, c, x))
  {
    Seated(inp, c, all, x);
    DrillFacts(inp, c, x);
    SccInside(inp, c, x);
    hide WellFormed, Drill, LoopRuns, BreaksInside, HardFault, Told, AtExit, Low, PointsInside;
    if Drill(inp, c, x).fall.Some? {
      assert Resolved(inp, c, x) in Recorded(inp, c, x);
      assert Resolved(inp, c, x) in AllRecorded(inp, c, xs);
    } else {
      PointedLow(inp, c, x);
    }
  }

  lemma PointedLow(inp: Input, c: Condensation, x: Candidate)
    requires Story(inp, c, x) && x.via == Content && x.sccMember.Some?
    ensures PointsInside(inp, c, x)
  {
    hide PointsInside;
  }

  // ---------- Several culprits ----------

  // Main result: the verdict names several culprits exactly when two are reported that differ; several
  // candidates in one place report one culprit, repeated, and a loop alone reports runs of its own cycle.
  lemma SeveralMeansDistinct(inp: Input, c: Condensation, a: Analysis, anomalies: seq<Anomaly>)
    requires Analyzed(inp, c, a, anomalies) && CascadeReady(c, a, anomalies) && RowReady(c, RowOf(inp, c, a, anomalies))
    ensures var row := RowOf(inp, c, a, anomalies);
      FinalVerdict(inp, c, row) == MultiCulprit ==>
        exists r, s :: r in FinalCulprits(inp, c, row) && s in FinalCulprits(inp, c, row) && r != s
    ensures var row := RowOf(inp, c, a, anomalies);
      row.ManyOrigins? && FinalVerdict(inp, c, row) != MultiCulprit ==>
        forall r, s :: r in RowCulprits(inp, c, row) && s in RowCulprits(inp, c, row) ==> r == s
    ensures var row := RowOf(inp, c, a, anomalies);
      row.Runaway? && FinalVerdict(inp, c, row) != MultiCulprit ==>
        forall r, s :: r in RowCulprits(inp, c, row) && s in RowCulprits(inp, c, row) ==>
          r in c.superOf && s in c.superOf && c.superOf[r] == c.superOf[s]
  {
    hide *;
    var row := RowOf(inp, c, a, anomalies);
    AnalyzedIsReady(inp, c, a, anomalies);
    AnalysisOf(inp, c, a, anomalies);
    RowFits(inp, c, a, anomalies);
    VerdictCases(inp, c, row);
    if row.Runaway? {
      RunawayFits(c, a, row.anomaly, row.others);
      if row.others != [] {
        OthersTold(inp, c, a.candidates, row.others);
        assert row.others[0] in row.others;
        LoopMember(inp, c, row.anomaly);
        LoopHasCulprit(row.anomaly);
        LoopSeat(inp, c, row.anomaly);
        RunawayPair(inp, c, row.anomaly, row.others);
      } else {
        LoopAloneStaysInside(inp, c, row.anomaly);
        assert row == Runaway(row.anomaly, []);
      }
    } else if row.ManyOrigins? {
      ManyFits(c, row.origins);
      ManyNames(inp, c, row.origins);
      if TwoPlaces(row.origins) {
        var x, y := Places(row.origins);
        ListedResolved(inp, c, row.origins, x);
        ListedResolved(inp, c, row.origins, y);
      } else {
        OnePlace(inp, c, a);
      }
    }
  }

  lemma VerdictCases(inp: Input, c: Condensation, row: Row)
    requires RowReady(c, row)
    ensures FinalVerdict(inp, c, row) == MultiCulprit ==>
      FinalCulprits(inp, c, row) == RowCulprits(inp, c, row) &&
      ((row.Runaway? && row.others != []) || (row.ManyOrigins? && TwoPlaces(row.origins)))
    ensures row.ManyOrigins? && TwoPlaces(row.origins) ==> FinalVerdict(inp, c, row) == MultiCulprit
    ensures row.Runaway? && row.others != [] ==> FinalVerdict(inp, c, row) == MultiCulprit
  {
    hide TwoPlaces, AllGaps, RowCulprits, Drill, TerminalBad, QualityUnmeasured;
  }

  lemma ListedResolved(inp: Input, c: Condensation, xs: seq<Candidate>, x: Candidate)
    requires WellFormed(inp, c) && Told(inp, c, xs) && Placed(c, xs) && x in xs
    ensures x.superId < |c.supers| && Resolved(inp, c, x) in AllResolved(inp, c, xs)
    ensures Resolved(inp, c, x) in c.superOf && c.superOf[Resolved(inp, c, x)] == x.superId
  {
    hide WellFormed, Told, Resolved;
    Seated(inp, c, xs, x);
    ResolvedInside(inp, c, x);
    var i :| 0 <= i < |xs| && xs[i] == x;
    assert AllResolved(inp, c, xs)[i] in AllResolved(inp, c, xs);
  }

  lemma RunawayPair(inp: Input, c: Condensation, an: Anomaly, others: seq<Candidate>)
    requires WellFormed(inp, c) && Told(inp, c, others) && Placed(c, others) && others != []
    requires RowReady(c, Runaway(an, others))
    requires LoopCulprits(an) != [] && an.members[0] in c.superOf
    requires forall x :: x in others ==> x.superId != c.superOf[an.members[0]]
    requires forall r :: r in LoopCulprits(an) ==> r in c.superOf && c.superOf[r] == c.superOf[an.members[0]]
    ensures exists r, s ::
      r in RowCulprits(inp, c, Runaway(an, others)) && s in RowCulprits(inp, c, Runaway(an, others)) && r != s
  {
    assert others[0] in others;
    ListedResolved(inp, c, others, others[0]);
    hide WellFormed, Told, Resolved, LoopCulprits, AllResolved;
    var r, s := LoopCulprits(an)[0], Resolved(inp, c, others[0]);
    assert r in LoopCulprits(an) && s !in LoopCulprits(an);
    var all := RowCulprits(inp, c, Runaway(an, others));
    assert r in all && s in all;
  }

  // ---------- A run that cannot be reported ----------

  // A two-run cycle whose exit broke a contract unscored, and whose other member was judged healthy.
  const SETTINGS := Config(0.5, 0.3, 0.1, 0.3, 2, 0.05, 10, 3.0, 5, 0.5, 0.3, 0.3, 0.3, 0.3, 4)

  const JUDGED := NodeScore(Some(0.9), false, None, [], [], [], None, {})

  const BREACHED := NodeScore(None, false, None, [], [Violation("format", "markdown", "html")], [], None, {})

  const RETRY :=
    Input([0, 1], [(0, 1), (1, 0)], map[0 := JUDGED, 1 := BREACHED], map[0 := 0.0, 1 := 1.0], map[], {}, None, map[],
    SETTINGS, map[], map[], map[])

  lemma RetryGraph()
    ensures var g := BuildGraph(RETRY.nodes, RETRY.edges);
      g.nodes == {0, 1} && (0, 1) in g.edges && (1, 0) in g.edges && Mutual(g, 0, 1) && Mutual(g, 1, 0)
  {
    var g := BuildGraph(RETRY.nodes, RETRY.edges);
    assert RETRY.nodes[0] == 0 && RETRY.nodes[1] == 1 && RETRY.edges[0] == (0, 1) && RETRY.edges[1] == (1, 0);
    assert (0, 1) in RETRY.edges && (1, 0) in RETRY.edges;
    EdgeReaches(g, 0, 1);
    EdgeReaches(g, 1, 0);
  }

  // Whatever the numbering, there is one super-node, holding both runs and leaving through run 1.
  lemma RetrySuper(comps: seq<set<RunId>>, c: Condensation)
    requires Condensed(RETRY, comps, c)
    ensures |c.supers| == 1 && c.supers[0].exit == 1 && Elements(c.supers[0].members) == {0, 1} && c.topo == [0]
    ensures |c.supers[0].members| == 2 && WellFormed(RETRY, c)
  {
    hide Reaches, IsKahnOrder, IsQuotient, Locates, Sources, Sinks;
    RetryGraph();
    CondensedIsWellFormed(RETRY, comps, c);
    RetryComponent(c.graph, comps);
    ProperSupers(RETRY, c.graph, comps, c.supers, 0);
    var ms := c.supers[0].members;
    assert 0 in Elements(ms) && 1 in Elements(ms);
    RetryExit(ms);
    RetryOrder(c);
  }

  lemma RetryComponent(g: Graph, comps: seq<set<RunId>>)
    requires g == BuildGraph(RETRY.nodes, RETRY.edges) && IsSccListing(g, comps)
    ensures comps == [{0, 1}]
  {
    RetryGraph();
    forall i | 0 <= i < |comps| ensures comps[i] == {0, 1} {
      RetryClass(g, comps, i);
    }
    OnlyOne(g, comps);
  }

  lemma OnlyOne(g: Graph, comps: seq<set<RunId>>)
    requires IsSccListing(g, comps) && 0 in g.nodes && forall i :: 0 <= i < |comps| ==> comps[i] == {0, 1}
    ensures comps == [{0, 1}]
  {
    hide IsClassOf;
    assert Listed(comps, 0);
    var k :| 0 <= k < |comps| && 0 in comps[k];
    forall i | 0 <= i < |comps| ensures i == k && comps[i] == {0, 1} {
      SameIndex(comps, i, k);
    }
    assert comps[0] == {0, 1} && comps[|comps| - 1] == {0, 1};
  }

  lemma SameIndex(comps: seq<set<RunId>>, i: nat, k: nat)
    requires Distinct(comps) && i < |comps| && k < |comps| && comps[i] == comps[k]
    ensures i == k
  {
  }

  lemma RetryClass(g: Graph, comps: seq<set<RunId>>, i: nat)
    requires g.nodes == {0, 1} && Mutual(g, 0, 1) && IsSccListing(g, comps) && i < |comps|
    ensures comps[i] == {0, 1}
  {
    hide Reaches, IsClassOf;
    var n :| n in comps[i];
    assert IsClassOf(g, comps[i], n);
    WholeClass(g, comps[i], n);
  }

  lemma WholeClass(g: Graph, s: set<RunId>, n: RunId)
    requires g.nodes == {0, 1} && Mutual(g, 0, 1) && IsClassOf(g, s, n) && n in s
    ensures s == {0, 1}
  {
    hide Reaches;
    ReachesSelf(g, n);
  }

  lemma RetryExit(ms: seq<RunId>)
    requires Elements(ms) == {0, 1} && Chronological(RETRY.endTimes, ms)
    ensures |ms| == 2 && ms[1] == 1
  {
    assert forall r :: r in ms <==> r in Elements(ms);
    assert 0 in ms && 1 in ms;
    var i :| 0 <= i < |ms| && ms[i] == 0;
    var j :| 0 <= j < |ms| && ms[j] == 1;
    assert Distinct(ms);
    DistinctCount(ms);
  }

  lemma RetryOrder(c: Condensation)
    requires WellFormed(RETRY, c) && |c.supers| == 1
    ensures c.topo == [0]
  {
    hide *;
    TopoOf(c);
    OneStop(c.dag, c.topo);
  }

  lemma TopoOf(c: Condensation)
    requires WellFormed(RETRY, c) && |c.supers| == 1
    ensures ProperTopo(c.dag, c.topo) && forall i: nat :: i in c.dag.nodes <==> i == 0
  {
    hide Reaches, ProperSuper, ProperMembers, Acyclic, ProperTopo;
  }

  lemma OneStop(dag: Graph, topo: seq<nat>)
    requires ProperTopo(dag, topo) && forall i: nat :: i in dag.nodes <==> i == 0
    ensures topo == [0]
  {
    assert dag.nodes == {0};
    DistinctCount(topo);
    assert topo[0] in Elements(topo);
  }

  // One place in the graph, one edge each way, nothing else.
  ghost predicate IsRetry(c: Condensation) {
    && WellFormed(RETRY, c) && c.topo == [0] && |c.supers| == 1
    && c.supers[0].exit == 1 && |c.supers[0].members| == 2 && Elements(c.supers[0].members) == {0, 1}
  }

  lemma RetryEdges(c: Condensation)
    requires IsRetry(c)
    ensures c.dag.edges == {} && c.supers[0].score.None? && c.graph == BuildGraph(RETRY.nodes, RETRY.edges)
    ensures RunPreds(c.graph, 0) == {1} && RunPreds(c.graph, 1) == {0}
    ensures forall m :: m in c.supers[0].members <==> m == 0 || m == 1
  {
    hide Reaches, ProperTopo, ProperMembers;
    assert ProperSuper(RETRY, c.graph, c.supers[0]);
    assert forall e :: e in c.dag.edges ==> e == (0, 0);
    RetryGraph();
    assert forall e :: e in c.graph.edges <==> e == (0, 1) || e == (1, 0);
    forall m ensures m in c.supers[0].members <==> m == 0 || m == 1 {
      assert m in c.supers[0].members <==> m in Elements(c.supers[0].members);
    }
  }

  lemma RetryFall(c: Condensation)
    requires IsRetry(c)
    ensures !MemberQualifies(RETRY, c.graph, 0) && !MemberQualifies(RETRY, c.graph, 1)
    ensures MeasuredFall(RETRY, c.graph, 0).None?
  {
    RetryEdges(c);
    assert KnownScores(RETRY, {1}) == {};
    hide WellFormed, Reaches;
  }

  lemma RetryContent(c: Condensation)
    requires IsRetry(c)
    ensures BucketOf(RETRY, c, 0) == NoOrigin && InternalCandidate(RETRY, c, 0).None?
    ensures Chains(RETRY, c) == []
  {
    RetryEdges(c);
    RetryFall(c);
    hide Reaches, ProperSuper, ProperTopo, ProperMembers, Acyclic, MemberQualifies, UnknownUpstream;
    assert Qualified(RETRY, c.graph, c.supers[0].members) == {};
    assert ChainsFrom(RETRY, c, 1, {}) == [];
  }

  lemma RetryHard(c: Condensation)
    requires IsRetry(c)
    ensures HardOrigins(RETRY, c) == [HardCandidate(RETRY, c, 0)]
  {
    hide WellFormed, HardCandidate;
    var v := Violation("format", "markdown", "html");
    assert Violations(RETRY, 1) == [v];
    assert v in Violations(RETRY, 1);
    forall key, value ensures !Circulates(RETRY, c, 0, key, value) {
    }
    assert PrimaryActor(RETRY, c, 0);
    assert Primaries(RETRY, c, 0) == [];
    assert Primaries(RETRY, c, 1) == [HardCandidate(RETRY, c, 0)];
  }

  lemma RetryCandidates(c: Condensation)
    requires IsRetry(c)
    ensures Steady(RETRY, c) && Candidates(RETRY, c) == [HardCandidate(RETRY, c, 0)]
  {
    RetryContent(c);
    RetryHard(c);
    TopoInRange(RETRY, c);
    hide WellFormed, HardCandidate, HardOrigins, BucketOf, InternalCandidate, EdgeCandidate, Chains;
    RetryBuckets(c, DropOrigin);
    RetryBuckets(c, Propagating);
    RetryBuckets(c, RecoveredBoundary);
    assert SharpOrigins(RETRY, c) == [];
    assert Internal(RETRY, c, 0, {}) == [];
    assert Internal(RETRY, c, 1, {}) == [];
    assert SuperIds([]) == {};
    NoErosion(c);
    assert ContentOrigins(RETRY, c) == [];
    assert ContentFinal(RETRY, c) == [];
    var h := HardCandidate(RETRY, c, 0);
    var keep := (x: Candidate) => x.run !in RunsOf([]);
    assert Filter([h][1..], keep) == [];
    assert Filter([h], keep) == [h];
  }

  lemma NoErosion(c: Condensation)
    ensures forall chains: seq<Chain> :: |chains| == 0 ==> Eroded(RETRY, c, chains) == []
  {
  }

  lemma RetryBuckets(c: Condensation, b: Bucket)
    requires IsRetry(c) && BucketOf(RETRY, c, 0) == NoOrigin && b != NoOrigin
    ensures Bucketed(RETRY, c, 1, b) == []
  {
    hide WellFormed, BucketOf, EdgeCandidate;
    assert Bucketed(RETRY, c, 0, b) == [];
  }

  lemma RetryAnomalies(c: Condensation, anomalies: seq<Anomaly>, at: seq<nat>)
    requires IsRetry(c) && AreAnomalies(RETRY, c, 1, anomalies, at)
    ensures anomalies == []
  {
    hide WellFormed;
    if anomalies != [] {
      var an := anomalies[0];
      assert at[0] == 0 && IsAnomaly(RETRY, c.supers[0], an);
      QuietCycle(c.supers[0], an);
    }
  }

  lemma QuietCycle(sn: SuperNode, an: Anomaly)
    requires |sn.members| == 2
    ensures !IsAnomaly(RETRY, sn, an)
  {
    if RanAs(RETRY, sn, an.iterations, an.repeating) {
      var rounds: nat :| AreRounds(RETRY, sn.members, rounds, an.repeating) &&
        an.iterations == IterationsOf(sn, rounds);
      assert Agents(RETRY, sn.members) == {};
    }
  }

  // Main result: the lone-candidate row drills off the exit that broke the contract, onto a healthy member
  // whose only predecessor is unscored, and the validation stops the analysis.
  lemma UnguardedDrillRaises(comps: seq<set<RunId>>, c: Condensation, a: Analysis, anomalies: seq<Anomaly>)
    requires Condensed(RETRY, comps, c) && Analyzed(RETRY, c, a, anomalies)
    ensures CascadeReady(c, a, anomalies) && RowReady(c, RowOf(RETRY, c, a, anomalies))
    ensures RowOf(RETRY, c, a, anomalies).OneOrigin? && Unsupported(RETRY, c, RowOf(RETRY, c, a, anomalies))
  {
    hide *;
    RetrySuper(comps, c);
    RetryIs(c);
    RetryCandidates(c);
    AnalyzedIsReady(RETRY, c, a, anomalies);
    var at := AnomalyPlaces(c, a, anomalies);
    RetryAnomalies(c, anomalies, at);
    RetryRow(c, a, anomalies);
    RetryStarves(c);
    SingleFits(RETRY, c, Nowhere(), HardCandidate(RETRY, c, 0));
    NotReplaced(RETRY, c, HardCandidate(RETRY, c, 0));
  }

  lemma RetryIs(c: Condensation)
    requires WellFormed(RETRY, c) && c.topo == [0] && |c.supers| == 1
    requires c.supers[0].exit == 1 && |c.supers[0].members| == 2 && Elements(c.supers[0].members) == {0, 1}
    ensures IsRetry(c)
  {
    hide WellFormed;
  }

  lemma AnomalyPlaces(c: Condensation, a: Analysis, anomalies: seq<Anomaly>) returns (at: seq<nat>)
    requires Analyzed(RETRY, c, a, anomalies) && IsRetry(c)
    ensures AreAnomalies(RETRY, c, 1, anomalies, at)
    ensures Steady(RETRY, c) ==> a.candidates == Candidates(RETRY, c)
  {
    hide WellFormed, AreAnomalies, Candidates, SomethingBroke, ChainReady;
    at :| AreAnomalies(RETRY, c, |c.topo|, anomalies, at);
  }

  lemma RetryRow(c: Condensation, a: Analysis, anomalies: seq<Anomaly>)
    requires IsRetry(c) && CascadeReady(c, a, anomalies) && anomalies == []
    requires a.candidates == [HardCandidate(RETRY, c, 0)]
    ensures RowOf(RETRY, c, a, anomalies) == OneOrigin(HardCandidate(RETRY, c, 0))
  {
    RetryEdges(c);
    RetryGraph();
    hide WellFormed, Reaches;
    assert 0 in c.graph.nodes && ScoreOf(RETRY, 0) == Some(0.9);
  }

  lemma RetryStarves(c: Condensation)
    requires IsRetry(c)
    ensures StarvedDrill(RETRY, c, HardCandidate(RETRY, c, 0))
  {
    RetryEdges(c);
    RetryFall(c);
    var x := HardCandidate(RETRY, c, 0);
    hide WellFormed, MeasuredFall, Worst, Channels, AllHealthy;
    assert KnownScores(RETRY, {0, 1}) == {0};
    assert Flags(RETRY, 0) == [] && Signals(RETRY, 0) == [];
  }

  lemma NotReplaced(inp: Input, c: Condensation, x: Candidate)
    requires RowReady(c, OneOrigin(x)) && x.superId < |c.supers| && StarvedDrill(inp, c, x)
    ensures Unsupported(inp, c, OneOrigin(x))
  {
    hide StarvedDrill, ContractAlone, Drill, AllGaps;
  }
}
