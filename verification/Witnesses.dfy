// Inputs on which a claim of the engine fails, carried through its analysis.

module Witnesses {
  import opened Prelude
  import opened Graphs
  import opened BlameInput
  import opened Condense
  import opened Propagation
  import opened CutPoint
  import opened Localize
  import opened Origins
  import opened Evidence
  import opened FindingIndex
  import opened Emit
  import opened Support
  import opened Derive
  import opened Loops
  import opened CandidateFacts
  import opened Cascade
  import opened Gaps
  import opened Soundness
  import opened Verdicts
  import opened Blame
  import opened Reports
  import opened Guarantees
  import opened Attribution
  import opened Repeats
  import opened SmallRuns

  // ---------- A contract breach alone ----------

  function Scored(score: Option<real>, violations: seq<Violation>, signals: seq<Signal>, flawed: bool): NodeScore {
    NodeScore(score, flawed, None, [], violations, signals, None, {})
  }

  function Run(nodes: seq<RunId>, edges: seq<(RunId, RunId)>, scores: map<RunId, NodeScore>,
               terminal: Option<TerminalVerdict>): Input {
    Input(nodes, edges, scores, map[0 := 0.0, 1 := 1.0, 2 := 2.0, 3 := 3.0, 4 := 4.0], map[], {}, terminal, map[],
      SETTINGS, map[],
          map[], map[])
  }

  const BREACH := Violation("format", "markdown", "html")

  // One healthy run that rewrote a parameter.
  const REWRITER := Run([0], [], map[0 := Scored(Some(0.9), [BREACH], [], false)], None)

  // One run scored low, with a failed check that claims to have seen the fault begin.
  const LOUD := Run([0], [], map[0 := Scored(Some(0.3), [], [Signal("check", true, None, true)], false)], None)

  lemma OneRow(inp: Input)
    requires inp.nodes == [0] && inp.edges == []
    ensures LaidOut(inp, [[0]]) && IsSccListing(BuildGraph(inp.nodes, inp.edges), Classes([[0]]))
  {
    var g := BuildGraph(inp.nodes, inp.edges);
    ReachesSelf(g, 0);
    hide Reaches;
    assert InRow([[0]], 0, 0);
    LaidOutListing(inp, [[0]]);
  }

  // A run of one node: nothing before it, nothing after it.
  lemma OneNode(inp: Input, c: Condensation)
    requires IsLaidOut(inp, [[0]], c) && inp.nodes == [0] && inp.edges == []
    ensures c.topo == [0] && |c.supers| == 1 && c.supers[0].exit == 0 && c.supers[0].members == [0]
    ensures !c.supers[0].selfLoop
    ensures c.supers[0].score == ScoreOf(inp, 0) && c.graph.nodes == {0}
    ensures PredExits(c, 0) == {} && SuccExits(c, 0) == {} && c.dag.edges == {}
    ensures !UnknownUpstream(inp, c, 0) && NextRun(inp, c, 0).None? && forall k, v :: !Circulates(inp, c, 0, k, v)
  {
    assert c.graph == BuildGraph(inp.nodes, inp.edges) && c.supers[0].members == [0];
    OneGraph(inp, c);
    hide Reaches, ProperTopo, ProperMembers;
    assert ProperSuper(inp, c.graph, c.supers[0]);
  }

  lemma OneGraph(inp: Input, c: Condensation)
    requires IsLaidOut(inp, [[0]], c) && inp.nodes == [0] && inp.edges == []
    ensures c.graph.nodes == {0} && c.graph.edges == {} && c.dag.edges == {}
    ensures forall a: nat :: !IsAncestor(c.dag, a, 0)
  {
    hide Reaches, ProperTopo, ProperSuper, ProperMembers, Acyclic;
    assert c.graph == BuildGraph([0], []);
    forall i: nat, j: nat ensures (i, j) !in c.dag.edges {
    }
    forall e: (nat, nat) ensures e !in c.dag.edges {
      assert e == (e.0, e.1);
    }
    forall a: nat ensures !IsAncestor(c.dag, a, 0) {
      if IsAncestor(c.dag, a, 0) {
        var x := LastStep(c.dag, a, 0);
      }
    }
  }

  lemma RewriterIs()
    ensures REWRITER.nodes == [0] && REWRITER.edges == [] && REWRITER.verifierNames == {}
  {
  }

  lemma RewriterCandidates(c: Condensation)
    requires IsLaidOut(REWRITER, [[0]], c)
    ensures Steady(REWRITER, c) && Candidates(REWRITER, c) == [HardCandidate(REWRITER, c, 0)]
  {
    OneNode(REWRITER, c);
    RewriterParts(c);
    hide IsLaidOut, BucketOf, NextRun, HardOrigins, HardCandidate;
    NothingBroke(REWRITER, c);
    NoDeclines(REWRITER, c);
    OnlyHard(REWRITER, c);
  }

  lemma RewriterParts(c: Condensation)
    requires IsLaidOut(REWRITER, [[0]], c) && c.topo == [0] && |c.supers| == 1 && c.supers[0].exit == 0
    requires c.supers[0].score == ScoreOf(REWRITER, 0) && PredExits(c, 0) == {} && SuccExits(c, 0) == {}
    requires forall k, v :: !Circulates(REWRITER, c, 0, k, v)
    ensures WellFormed(REWRITER, c) && BucketOf(REWRITER, c, 0) == NoOrigin
    ensures HardOrigins(REWRITER, c) == [HardCandidate(REWRITER, c, 0)]
  {
    hide WellFormed, HardCandidate, Circulates;
    assert KnownScores(REWRITER, {}) == {};
    assert Violations(REWRITER, 0) == [BREACH] && BREACH in Violations(REWRITER, 0);
    assert PrimaryActor(REWRITER, c, 0);
    assert Primaries(REWRITER, c, 0) == [];
    assert Primaries(REWRITER, c, 1) == [HardCandidate(REWRITER, c, 0)];
  }

  lemma AloneIsCalm(inp: Input, c: Condensation, a: Analysis, anomalies: seq<Anomaly>)
    requires Analyzed(inp, c, a, anomalies)
    requires forall s :: s in c.supers ==> |s.members| == 1 && !s.selfLoop
    ensures anomalies == []
  {
    hide Analyzed;
    forall s, an | s in c.supers ensures !IsAnomaly(inp, s, an) {
      AloneIsNoAnomaly(inp, s, an);
    }
    Calm(inp, c, a, anomalies);
  }

  // The row taken over a lone candidate that did not recover.
  lemma OneOriginRow(inp: Input, c: Condensation, a: Analysis, x: Candidate)
    requires CascadeReady(c, a, []) && a.candidates == [x] && !x.recovered
    ensures RowOf(inp, c, a, []) == OneOrigin(x)
  {
    hide QualityUnmeasured, FlawedSources, TerminalOk, TerminalBad;
    assert x in a.candidates;
  }

  // Main result: a contract breach alone on a healthy, measured run is emitted as a cut point and projects to
  // degraded_recovered.
  lemma BreachAloneRecovers(c: Condensation, a: Analysis, anomalies: seq<Anomaly>)
    requires Condensed(REWRITER, Classes([[0]]), c) && Analyzed(REWRITER, c, a, anomalies)
    ensures CascadeReady(c, a, anomalies) && RowReady(c, RowOf(REWRITER, c, a, anomalies))
    ensures RowOf(REWRITER, c, a, anomalies).OneOrigin?
    ensures FinalVerdict(REWRITER, c, RowOf(REWRITER, c, a, anomalies)) == DegradedRecovered
    ensures FinalCulprits(REWRITER, c, RowOf(REWRITER, c, a, anomalies)) == [0]
    ensures !Unsupported(REWRITER, c, RowOf(REWRITER, c, a, anomalies))
  {
    hide *;
    RewriterIs();
    OneRow(REWRITER);
    LaidOutShape(REWRITER, [[0]], c);
    OneNode(REWRITER, c);
    RewriterCandidates(c);
    AnalyzedIsReady(REWRITER, c, a, anomalies);
    AnalysisOf(REWRITER, c, a, anomalies);
    AnalysisIs(REWRITER, c, a);
    AloneIsCalm(REWRITER, c, a, anomalies);
    var x := HardCandidate(REWRITER, c, 0);
    RewriterVerdict(c, x);
    OneOriginRow(REWRITER, c, a, x);
    NotReplacedHere(REWRITER, c, OneOrigin(x));
  }

  lemma RewriterVerdict(c: Condensation, x: Candidate)
    requires |c.supers| == 1 && x == HardCandidate(REWRITER, c, 0) && c.supers[0].exit == 0
    requires c.supers[0].members == [0]
    requires SuccExits(c, 0) == {} && c.graph.nodes == {0}
    ensures !x.recovered && RowReady(c, OneOrigin(x)) && RowVerdict(REWRITER, c, OneOrigin(x)) == DegradedRecovered
    ensures RowCulprits(REWRITER, c, OneOrigin(x)) == [0] && !Starved(REWRITER, c, OneOrigin(x))
  {
    assert ScoreOf(REWRITER, 0) == Some(0.9) && Violations(REWRITER, 0) == [BREACH];
    assert 0 in c.graph.nodes;
  }

  // ---------- A signal that outruns every defect ----------

  lemma LoudIs()
    ensures LOUD.nodes == [0] && LOUD.edges == [] && LOUD.config == SETTINGS
    ensures ScoreOf(LOUD, 0) == Some(0.3) && Violations(LOUD, 0) == [] && !InputFlawed(LOUD, 0)
    ensures HasFailSignal(LOUD, 0) && SawOrigination(LOUD, 0)
  {
    var s := Signal("check", true, None, true);
    assert Signals(LOUD, 0) == [s] && s in Signals(LOUD, 0);
  }

  lemma LoudContent(c: Condensation)
    requires IsLaidOut(LOUD, [[0]], c) && c.topo == [0] && |c.supers| == 1 && c.supers[0].exit == 0
    requires c.supers[0].members == [0]
    requires c.supers[0].score == ScoreOf(LOUD, 0) && PredExits(c, 0) == {} && SuccExits(c, 0) == {}
    requires c.dag.edges == {}
    ensures BucketOf(LOUD, c, 0) == Propagating && IsSource(c.dag, 0)
    ensures WellFormed(LOUD, c) && HardFault(LOUD, c, 0) && PrimaryActor(LOUD, c, 0)
  {
    LoudIs();
    hide WellFormed, FreshContract;
    assert KnownScores(LOUD, {}) == {};
  }

  lemma LoudLists(c: Condensation)
    requires c.topo == [0] && |c.supers| == 1 && c.supers[0].members == [0] && c.supers[0].score.Some?
    requires BucketOf(LOUD, c, 0) == Propagating && PrimaryActor(LOUD, c, 0)
    ensures Broken(LOUD, c) == [EdgeCandidate(LOUD, c, 0)]
    ensures HardOrigins(LOUD, c) == [HardCandidate(LOUD, c, 0)]
  {
    AloneInside(LOUD, c, 0);
    hide BucketOf, InternalCandidate, EdgeCandidate, HardCandidate, PrimaryActor;
    NoneBucketed(LOUD, c, 1, DropOrigin);
    BucketedNext(LOUD, c, 0, Propagating);
    assert Bucketed(LOUD, c, 0, Propagating) == [];
    NoneInside(LOUD, c, 1, SuperIds(SharpOrigins(LOUD, c)));
    assert Primaries(LOUD, c, 0) == [];
    assert Primaries(LOUD, c, 1) == [HardCandidate(LOUD, c, 0)];
  }

  lemma MergedOne(x: Candidate, z: Candidate)
    requires x.run == z.run
    ensures Merge([x], [z]) == [x.(via := Both, sccMember := None)]
  {
    var keep := (y: Candidate) => y.run !in RunsOf([x]);
    assert x in [x] && z in [z];
    assert x.run in RunsOf([x]) && z.run in RunsOf([z]);
    FilterNone([z], keep);
  }

  lemma OnlyOrigin(inp: Input, c: Condensation, x: Candidate)
    requires WellFormed(inp, c) && forall i :: 0 <= i < |c.topo| ==> c.topo[i] < |c.supers|
    requires Broken(inp, c) == [x] && forall a: nat :: !IsAncestor(c.dag, a, x.superId)
    ensures Steady(inp, c) && ContentFinal(inp, c) == [x]
  {
    hide WellFormed, Chains, Broken, IsAncestor;
    assert [x][..0] == [];
    assert Unshadowed(c, SuperIds([x]), []) == [];
  }

  lemma LoudEdge(c: Condensation)
    requires |c.supers| == 1 && c.supers[0].exit == 0 && c.supers[0].score == Some(0.3) && PredExits(c, 0) == {}
    requires IsSource(c.dag, 0) && !UnknownUpstream(LOUD, c, 0)
    ensures var x := EdgeCandidate(LOUD, c, 0);
      x.superId == 0 && x.run == 0 && x.baseAssumed && !x.unknownUpstream && x.via == Content &&
        HardCandidate(LOUD, c, 0).run == 0
  {
    hide UnknownUpstream, IsSource, ObservedDrop;
    assert KnownScores(LOUD, {}) == {};
  }

  // Main result: a check that claims to have seen the fault begin, at a source scored low and with no contract
  // breach, prints a headline above every defect of its origin.
  lemma LoudOutruns(c: Condensation, a: Analysis, anomalies: seq<Anomaly>, raw: real)
    requires Condensed(LOUD, Classes([[0]]), c) && Analyzed(LOUD, c, a, anomalies)
    ensures |a.candidates| == 1
    ensures forall e :: e in Breakdown(LOUD, 0, a.candidates[0], raw) ==>
      e.attribution <= BOUNDARY_CAP < HeadlineShare(LOUD, 0, a.candidates[0], raw)
  {
    hide *;
    LoudIs();
    OneRow(LOUD);
    LaidOutShape(LOUD, [[0]], c);
    OneNode(LOUD, c);
    OneGraph(LOUD, c);
    LoudContent(c);
    LoudLists(c);
    LoudEdge(c);
    var x := EdgeCandidate(LOUD, c, 0);
    OnlyOrigin(LOUD, c, x);
    CandidatesAre(LOUD, c);
    MergedOne(x, HardCandidate(LOUD, c, 0));
    AnalysisOf(LOUD, c, a, anomalies);
    AnalysisIs(LOUD, c, a);
    SignalOutrunsDefects(LOUD, 0, x.(via := Both, sccMember := None), raw);
  }

  // ---------- An origin known by a signal only, and a stale verdict ----------

  function Verdict(stale: bool): Option<TerminalVerdict> {
    Some(TerminalVerdict(true, None, true, stale, false, None, None))
  }

  // A healthy run whose check failed, then a healthy one, and the deliverable judged bad.
  function Flagged(stale: bool): Input {
    Run([0, 1], [(0, 1)],
        map[0 := Scored(Some(0.9), [], [Signal("check", true, None, false)], false), 1 :=
          Scored(Some(0.9), [], [], false)],
        Verdict(stale))
  }

  lemma FlaggedIs(stale: bool)
    ensures var inp := Flagged(stale);
      inp.nodes == [0, 1] && inp.edges == [(0, 1)] && inp.config == SETTINGS && inp.verifierNames == {} &&
      ScoreOf(inp, 0) == Some(0.9) && ScoreOf(inp, 1) == Some(0.9) && Violations(inp, 0) == [] &&
        Violations(inp, 1) == [] &&
      !InputFlawed(inp, 0) && !InputFlawed(inp, 1) && HasFailSignal(inp, 0) && !HasFailSignal(inp, 1) &&
      TerminalBad(inp) && !TerminalOk(inp) && (LiveBad(inp) <==> !stale) &&
      Before(KeyOf(inp.endTimes, 0), KeyOf(inp.endTimes, 1))
  {
    var inp := Flagged(stale);
    var s := Signal("check", true, None, false);
    assert Signals(inp, 0) == [s] && s in Signals(inp, 0) && Signals(inp, 1) == [];
  }

  lemma FlaggedRows(inp: Input)
    requires inp.nodes == [0, 1] && inp.edges == [(0, 1)] && Before(KeyOf(inp.endTimes, 0), KeyOf(inp.endTimes, 1))
    ensures LaidOut(inp, [[0], [1]])
  {
    var g, rows := BuildGraph(inp.nodes, inp.edges), [[0], [1]];
    ReachesSelf(g, 0);
    ReachesSelf(g, 1);
    hide Reaches;
    assert InRow(rows, 0, 0) && InRow(rows, 1, 1);
    assert forall i: nat, r: RunId :: InRow(rows, i, r) <==> (i == 0 && r == 0) || (i == 1 && r == 1);
  }

  lemma FlaggedShape(inp: Input, c: Condensation)
    requires inp.nodes == [0, 1] && inp.edges == [(0, 1)] && IsLaidOut(inp, [[0], [1]], c)
    ensures WellFormed(inp, c) && c.topo == [0, 1] && |c.supers| == 2
    ensures c.supers[0].exit == 0 && c.supers[0].members == [0] && c.supers[1].exit == 1 && c.supers[1].members == [1]
    ensures c.supers[0].score == ScoreOf(inp, 0) && c.supers[1].score == ScoreOf(inp, 1)
    ensures forall i: nat, j: nat :: (i, j) in c.dag.edges <==> i == 0 && j == 1
    ensures c.graph == BuildGraph(inp.nodes, inp.edges) && 0 in c.graph.nodes
    ensures !c.supers[0].selfLoop && !c.supers[1].selfLoop
  {
    hide Reaches, ProperTopo, ProperMembers, Acyclic, ProperEnds;
    var rows := [[0], [1]];
    assert rows[0] == [0] && rows[1] == [1];
    var g := BuildGraph([0, 1], [(0, 1)]);
    assert [(0, 1)][0] == (0, 1) && (0, 1) in [(0, 1)] && [0, 1][0] == 0 && [0, 1][1] == 1;
    assert g.edges == {(0, 1)} && g.nodes == {0, 1};
    forall i: nat, j: nat ensures (i, j) in c.dag.edges <==> i == 0 && j == 1 {
      if i < 2 && j < 2 {
        assert Crosses(g, Elements(rows[i]), Elements(rows[j])) <==> (i, j) == (0, 1) by {
          assert forall k :: 0 <= k < 2 ==> Elements(rows[k]) == {k};
        }
      }
    }
    assert ProperSuper(inp, c.graph, c.supers[0]) && ProperSuper(inp, c.graph, c.supers[1]);
  }

  lemma FlaggedExits(c: Condensation)
    requires |c.supers| == 2 && c.supers[0].exit == 0 && c.supers[1].exit == 1
    requires forall i: nat, j: nat :: (i, j) in c.dag.edges <==> i == 0 && j == 1
    ensures PredExits(c, 0) == {} && PredExits(c, 1) == {0} && SuccExits(c, 0) == {1} && SuccExits(c, 1) == {}
  {
    assert forall e :: e in c.dag.edges ==> e == (e.0, e.1);
    assert (0, 1) in c.dag.edges;
  }

  lemma OneKnown(inp: Input, r: RunId)
    requires ScoreOf(inp, r).Some?
    ensures KnownScores(inp, {r}) == {r} && Lowest(inp, {r}) == Highest(inp, {r}) == ScoreOf(inp, r)
  {
    assert KnownScores(inp, {r}) == {r};
  }

  lemma NoneKnown(inp: Input)
    ensures Lowest(inp, {}) == None && Highest(inp, {}) == None && !AllHealthy(inp, {})
  {
    assert KnownScores(inp, {}) == {};
  }

  // A healthy node whose inputs, if any, are no better by enough to be a fall of its own.
  lemma NotBroken(inp: Input, c: Condensation, sid: nat)
    requires sid < |c.supers| && Healthy(inp, c.supers[sid].score) && inp.config.gapThreshold > 0.0
    requires Highest(inp, PredExits(c, sid)).Some? ==>
      Highest(inp, PredExits(c, sid)).value - c.supers[sid].score.value < inp.config.gapThreshold
    ensures BucketOf(inp, c, sid) == NoOrigin
  {
    hide Highest, Lowest, Excused, AllHealthy;
    NoLowNoHigh(inp, PredExits(c, sid));
  }

  lemma NoLowNoHigh(inp: Input, s: set<RunId>)
    ensures Lowest(inp, s).Some? <==> Highest(inp, s).Some?
  {
  }

  lemma FlaggedQuiet(stale: bool, c: Condensation)
    requires var inp := Flagged(stale); IsLaidOut(inp, [[0], [1]], c)
    ensures var inp := Flagged(stale);
      WellFormed(inp, c) && c.topo == [0, 1] && |c.supers| == 2 && Steady(inp, c)
    ensures Candidates(Flagged(stale), c) == HardOrigins(Flagged(stale), c)
  {
    hide *;
    var inp := Flagged(stale);
    FlaggedIs(stale);
    FlaggedShape(inp, c);
    FlaggedExits(c);
    BothHealthy(inp, c);
    SettingsAre();
    NothingErodes(inp, c);
    NothingBroke(inp, c);
    NoDeclines(inp, c);
    OnlyHard(inp, c);
  }

  lemma SettingsAre()
    ensures SETTINGS.cumStepMin > 0.0 && SETTINGS.cumMinEdges >= 1
  {
  }

  lemma BothHealthy(inp: Input, c: Condensation)
    requires |c.supers| == 2 && inp.config == SETTINGS && PredExits(c, 0) == {} && PredExits(c, 1) == {0}
    requires ScoreOf(inp, 0) == c.supers[0].score == c.supers[1].score == Some(0.9)
    ensures BucketOf(inp, c, 0) == NoOrigin && BucketOf(inp, c, 1) == NoOrigin
  {
    hide PredExits, Lowest, Highest, BucketOf;
    OneKnown(inp, 0);
    NoneKnown(inp);
    NotBroken(inp, c, 0);
    NotBroken(inp, c, 1);
  }

  lemma NothingErodes(inp: Input, c: Condensation)
    requires |c.supers| == 2 && inp.config.cumStepMin > 0.0 && SuccExits(c, 0) == {1} && SuccExits(c, 1) == {}
    requires ScoreOf(inp, 0) == ScoreOf(inp, 1) == c.supers[0].score
    ensures NextRun(inp, c, 0).None? && NextRun(inp, c, 1).None?
  {
    if c.supers[0].score.Some? {
      assert Eroding(inp, {1}, c.supers[0].score.value) == {};
    }
  }

  lemma FlaggedHard(stale: bool, c: Condensation)
    requires var inp := Flagged(stale); IsLaidOut(inp, [[0], [1]], c) && WellFormed(inp, c)
    requires c.topo == [0, 1] && |c.supers| == 2
    ensures var inp := Flagged(stale);
      HardOrigins(inp, c) == [HardCandidate(inp, c, 0)] && HardCandidate(inp, c, 0).recovered
  {
    var inp := Flagged(stale);
    FlaggedIs(stale);
    hide Flagged;
    FlaggedShape(inp, c);
    FlaggedExits(c);
    hide IsLaidOut, WellFormed, FreshContract, HasFailSignal;
    assert PrimaryActor(inp, c, 0) && !HardFault(inp, c, 1);
    hide HardCandidate, PrimaryActor, PredExits, SuccExits;
    assert Primaries(inp, c, 0) == [];
    assert Primaries(inp, c, 1) == [HardCandidate(inp, c, 0)];
    assert Primaries(inp, c, 2) == [HardCandidate(inp, c, 0)];
    HealthyFlag(inp, c);
  }

  lemma HealthyFlag(inp: Input, c: Condensation)
    requires |c.supers| == 2 && SuccExits(c, 0) == {1} && Healthy(inp, ScoreOf(inp, 1))
    ensures HardCandidate(inp, c, 0).recovered
  {
  }

  lemma UnplacedRow(inp: Input, c: Condensation, a: Analysis, x: Candidate)
    requires CascadeReady(c, a, []) && a.candidates == [x] && x.recovered && x.via == Deterministic && !InCycle(c, x)
    requires TerminalBad(inp) && !TerminalOk(inp)
    ensures RowOf(inp, c, a, []) == ContentUnplaced(x)
  {
    hide QualityUnmeasured, FlawedSources, TerminalOk, TerminalBad;
    assert x in a.candidates;
  }

  // Main result: an origin known by a failed check alone, under a bad deliverable, is emitted as unlocalized and
  // projects to composition_failure; when that verdict is stale yet checkable, the validation stops the analysis.
  lemma SignalAloneUnplaced(stale: bool, c: Condensation, a: Analysis, anomalies: seq<Anomaly>)
    requires Condensed(Flagged(stale), Classes([[0], [1]]), c) && Analyzed(Flagged(stale), c, a, anomalies)
    ensures var inp := Flagged(stale);
      CascadeReady(c, a, anomalies) && RowReady(c, RowOf(inp, c, a, anomalies)) &&
      RowOf(inp, c, a, anomalies).ContentUnplaced? &&
      FinalVerdict(inp, c, RowOf(inp, c, a, anomalies)) == CompositionFailure &&
      (Unsupported(inp, c, RowOf(inp, c, a, anomalies)) <==> stale)
  {
    hide *;
    var inp := Flagged(stale);
    FlaggedIs(stale);
    FlaggedRows(inp);
    LaidOutShape(inp, [[0], [1]], c);
    FlaggedShape(inp, c);
    FlaggedQuiet(stale, c);
    FlaggedHard(stale, c);
    AnalyzedIsReady(inp, c, a, anomalies);
    AnalysisOf(inp, c, a, anomalies);
    AnalysisIs(inp, c, a);
    AloneIsCalm(inp, c, a, anomalies);
    var x := HardCandidate(inp, c, 0);
    HardAt(inp, c, 0);
    OutsideCycle(c, x);
    UnplacedRow(inp, c, a, x);
    NotReplacedHere(inp, c, ContentUnplaced(x));
    UnplacedSays(inp, c, x);
  }

  lemma HardAt(inp: Input, c: Condensation, sid: nat)
    requires sid < |c.supers|
    ensures HardCandidate(inp, c, sid).superId == sid && HardCandidate(inp, c, sid).run == c.supers[sid].exit
    ensures HardCandidate(inp, c, sid).via == Deterministic
  {
    hide AllHealthy, Channels;
  }

  lemma OutsideCycle(c: Condensation, x: Candidate)
    requires x.superId < |c.supers| && |c.supers[x.superId].members| == 1
    ensures !InCycle(c, x)
  {
  }

  lemma UnplacedSays(inp: Input, c: Condensation, x: Candidate)
    requires RowReady(c, ContentUnplaced(x)) && Violations(inp, x.run) == []
    ensures RowVerdict(inp, c, ContentUnplaced(x)) == CompositionFailure
    ensures Starved(inp, c, ContentUnplaced(x)) <==> !LiveBad(inp)
  {
  }

  // ---------- Two healthy heads over one eroding node ----------

  // Quality slips from 0.9 at two entries through 0.75 to 0.55, never by enough at one step.
  const FEEDERS := Run([0, 1, 2, 3], [(0, 2), (1, 2), (2, 3)],
    map[0 := Scored(Some(0.9), [], [], false), 1 := Scored(Some(0.9), [], [], false),
        2 := Scored(Some(0.75), [], [], false), 3 := Scored(Some(0.55), [], [], false)], None)

  const FEEDER_ROWS: seq<seq<RunId>> := [[0], [1], [2], [3]]

  lemma FeedersAre()
    ensures FEEDERS.nodes == [0, 1, 2, 3] && FEEDERS.edges == [(0, 2), (1, 2), (2, 3)] && FEEDERS.config == SETTINGS
    ensures FEEDERS.verifierNames == {} && FEEDERS.terminal.None?
    ensures ScoreOf(FEEDERS, 0) == Some(0.9) && ScoreOf(FEEDERS, 1) == Some(0.9)
    ensures ScoreOf(FEEDERS, 2) == Some(0.75) && ScoreOf(FEEDERS, 3) == Some(0.55)
    ensures forall r :: !InputFlawed(FEEDERS, r) && !DeterministicDefect(FEEDERS, r)
    ensures forall i, j :: 0 <= i < j < 4 ==> Before(KeyOf(FEEDERS.endTimes, i), KeyOf(FEEDERS.endTimes, j))
  {
  }

  lemma FeederRows(inp: Input)
    requires inp.nodes == [0, 1, 2, 3] && inp.edges == [(0, 2), (1, 2), (2, 3)]
    requires forall i, j :: 0 <= i < j < 4 ==> Before(KeyOf(inp.endTimes, i), KeyOf(inp.endTimes, j))
    ensures LaidOut(inp, FEEDER_ROWS)
  {
    var g, rows := BuildGraph(inp.nodes, inp.edges), FEEDER_ROWS;
    FeederEdges(g);
    forall i | 0 <= i < 4 ensures Reaches(g, i, i) {
      ReachesSelf(g, i);
    }
    hide Reaches, BuildGraph, KeyOf, Before;
    forall i: nat, r: RunId ensures InRow(rows, i, r) <==> i < 4 && r == i {
      assert i < 4 ==> rows[i] == [i];
    }
    assert InRow(rows, 0, 0) && InRow(rows, 1, 1) && InRow(rows, 2, 2) && InRow(rows, 3, 3);
  }

  lemma FeederShape(inp: Input, c: Condensation)
    requires inp.nodes == [0, 1, 2, 3] && inp.edges == [(0, 2), (1, 2), (2, 3)] && IsLaidOut(inp, FEEDER_ROWS, c)
    ensures WellFormed(inp, c) && FeederLike(inp, c)
    ensures forall s :: s in c.supers ==> |s.members| == 1 && !s.selfLoop
  {
    hide Reaches, ProperTopo, ProperMembers, Acyclic, ProperEnds, Chronological, BuildGraph, Crosses;
    var rows := FEEDER_ROWS;
    assert rows[0] == [0] && rows[1] == [1] && rows[2] == [2] && rows[3] == [3];
    FeederEdges(c.graph);
    forall s | s in c.supers ensures |s.members| == 1 && !s.selfLoop {
      var i :| 0 <= i < 4 && c.supers[i] == s;
      assert ProperSuper(inp, c.graph, c.supers[i]);
    }
    hide ProperSuper, WellFormed;
    forall i: nat, j: nat ensures (i, j) in c.dag.edges <==> (i, j) == (0, 2) || (i, j) == (1, 2) || (i, j) == (2, 3) {
      if i < 4 && j < 4 {
        SingleCross(c.graph, rows[i], rows[j], i, j);
      }
    }
  }

  lemma SingleCross(g: Graph, r: seq<RunId>, s: seq<RunId>, i: RunId, j: RunId)
    requires r == [i] && s == [j]
    ensures Crosses(g, Elements(r), Elements(s)) <==> (i, j) in g.edges
  {
    assert i in Elements(r) && j in Elements(s);
  }

  lemma FeederEdges(g: Graph)
    requires g == BuildGraph([0, 1, 2, 3], [(0, 2), (1, 2), (2, 3)])
    ensures forall n: nat :: n in g.nodes <==> n < 4
    ensures forall a: nat, b: nat :: (a, b) in g.edges <==> (a, b) == (0, 2) || (a, b) == (1, 2) || (a, b) == (2, 3)
  {
    var nodes: seq<nat>, edges: seq<(nat, nat)> := [0, 1, 2, 3], [(0, 2), (1, 2), (2, 3)];
    assert g.nodes == set n | n in nodes;
    assert nodes[0] == 0 && nodes[1] == 1 && nodes[2] == 2 && nodes[3] == 3;
    assert edges[0] == (0, 2) && edges[1] == (1, 2) && edges[2] == (2, 3);
    assert forall e :: e in edges <==> e == (0, 2) || e == (1, 2) || e == (2, 3);
  }

  ghost predicate FeederLike(inp: Input, c: Condensation) {
    && c.topo == [0, 1, 2, 3] && |c.supers| == 4
    && (forall i: nat :: i < 4 ==>
       c.supers[i].exit == i && c.supers[i].members == [i] && c.supers[i].score == ScoreOf(inp, i))
    && forall i: nat, j: nat :: (i, j) in c.dag.edges <==> (i, j) == (0, 2) || (i, j) == (1, 2) || (i, j) == (2, 3)
  }

  ghost predicate IsFeeders(c: Condensation) {
    WellFormed(FEEDERS, c) && FeederLike(FEEDERS, c)
  }

  lemma FeederExits(inp: Input, c: Condensation)
    requires FeederLike(inp, c)
    ensures PredExits(c, 0) == {} && PredExits(c, 1) == {} && PredExits(c, 2) == {0, 1} && PredExits(c, 3) == {2}
    ensures SuccExits(c, 0) == {2} && SuccExits(c, 1) == {2} && SuccExits(c, 2) == {3} && SuccExits(c, 3) == {}
  {
    assert forall e :: e in c.dag.edges ==> e == (e.0, e.1);
    assert (0, 2) in c.dag.edges && (1, 2) in c.dag.edges && (2, 3) in c.dag.edges;
  }

  lemma FeederHolds(c: Condensation, i: nat)
    requires FeederLike(FEEDERS, c) && i < 4
    ensures BucketOf(FEEDERS, c, i) == NoOrigin
  {
    hide FEEDERS, Highest, Lowest, PredExits, SuccExits, BucketOf;
    FeedersAre();
    FeederExits(FEEDERS, c);
    NoneKnown(FEEDERS);
    OneKnown(FEEDERS, 2);
    BothNine();
    NotBroken(FEEDERS, c, i);
  }

  lemma FeedersUnbroken(c: Condensation)
    requires FeederLike(FEEDERS, c)
    ensures Broken(FEEDERS, c) == [] && Bucketed(FEEDERS, c, |c.topo|, RecoveredBoundary) == []
  {
    hide FEEDERS, BucketOf;
    forall i | 0 <= i < |c.topo|
      ensures BucketOf(FEEDERS, c, c.topo[i]) == NoOrigin && |c.supers[c.topo[i]].members| < 2
    {
      FeederHolds(c, c.topo[i]);
    }
    NothingBroke(FEEDERS, c);
  }

  lemma BothNine()
    ensures Highest(FEEDERS, {0, 1}) == Some(0.9)
  {
    FeedersAre();
    hide FEEDERS;
    assert KnownScores(FEEDERS, {0, 1}) == {0, 1};
    var r := HighestRun(FEEDERS, {0, 1});
    assert r in {0, 1};
  }

  lemma OneSuccessor(inp: Input, c: Condensation, sid: nat, r: RunId)
    requires sid < |c.supers| && SuccExits(c, sid) == {r} && c.supers[sid].score.Some? && ScoreOf(inp, r).Some?
    requires c.supers[sid].score.value - ScoreOf(inp, r).value >= inp.config.cumStepMin
    ensures NextRun(inp, c, sid) == Some(r)
  {
    assert Eroding(inp, {r}, c.supers[sid].score.value) == {r};
    WorstUnique(inp, {r}, r);
  }

  lemma FeederSteps(c: Condensation, h: nat)
    requires FeederLike(FEEDERS, c) && h < 2
    ensures NextRun(FEEDERS, c, h) == Some(2) && NextRun(FEEDERS, c, 2) == Some(3) && NextRun(FEEDERS, c, 3).None?
    ensures StepsTo(FEEDERS, c, h, 2) && StepsTo(FEEDERS, c, 2, 3) && HealthyAt(FEEDERS, c, h)
  {
    hide FEEDERS, SuccExits, PredExits;
    FeedersAre();
    FeederExits(FEEDERS, c);
    OneSuccessor(FEEDERS, c, h, 2);
    OneSuccessor(FEEDERS, c, 2, 3);
  }

  lemma FeedersErode(c: Condensation, h: nat)
    requires IsFeeders(c) && h < 2
    ensures h < |c.supers| && Erode(FEEDERS, c, h) == [h, 2, 3] && StepsTo(FEEDERS, c, h, 2)
    ensures StepsTo(FEEDERS, c, 2, 3) && HealthyAt(FEEDERS, c, h) && IsErosion(FEEDERS, ChainAt(FEEDERS, c, h))
  {
    hide FEEDERS, WellFormed, NextRun, Erode, StepsTo, HealthyAt, IsErosion;
    FeederSteps(c, h);
    ExitsLocated(FEEDERS, c, 2);
    ExitsLocated(FEEDERS, c, 3);
    ErodeEnds(FEEDERS, c, 3);
    ErodeSteps(FEEDERS, c, 2, 3);
    ErodeSteps(FEEDERS, c, h, 2);
    assert [h] + ([2] + [3]) == [h, 2, 3];
    FeederFall(c, h);
  }

  lemma FeederFall(c: Condensation, h: nat)
    requires IsFeeders(c) && h < 2 && Erode(FEEDERS, c, h) == [h, 2, 3]
    ensures IsErosion(FEEDERS, ChainAt(FEEDERS, c, h))
  {
    hide FEEDERS, WellFormed, Erode;
    FeedersAre();
  }

  // The only chains that can be recorded start at the two entries.
  lemma FeedersEnter(c: Condensation, ch: Chain)
    requires IsFeeders(c) && ch in Chains(FEEDERS, c)
    ensures |ch.superIds| >= 2 && ch.superIds[0] < 2 && ch.superIds[1] == 2
  {
    hide *;
    FeedersEntry(c, 0);
    FeedersStart(c, 0);
    var first := HeadOf(FEEDERS, c, 0, 2);
    ChainsReadyIff(FEEDERS, c);
    HeadsApart(FEEDERS, c);
    FirstEdge(c, ch);
    EntryIs(Chains(FEEDERS, c), first, ch);
  }

  lemma FirstEdge(c: Condensation, ch: Chain)
    requires IsFeeders(c) && IsErosionChain(FEEDERS, c, ch)
    ensures |ch.superIds| >= 2 && (ch.superIds[0], ch.superIds[1]) in [(0, 2), (1, 2), (2, 3)]
  {
    FeedersAre();
    hide WellFormed, FEEDERS, NextRun, Declines, Stuck, HealthyAt;
    assert (ch.superIds[0], ch.superIds[1]) in c.dag.edges;
  }

  // A chain over 2 is recorded, so none starts there.
  lemma EntryIs(chains: seq<Chain>, first: Chain, ch: Chain)
    requires forall i, j :: 0 <= i < |chains| && 0 <= j < |chains| && Heads(chains[i], chains[j]) ==> i == j
    requires first in chains && |first.superIds| >= 2 && first.superIds[0] == 0 && first.superIds[1] == 2
    requires ch in chains && |ch.superIds| >= 2 && (ch.superIds[0], ch.superIds[1]) in [(0, 2), (1, 2), (2, 3)]
    ensures ch.superIds[0] < 2 && ch.superIds[1] == 2
  {
    var i :| 0 <= i < |chains| && chains[i] == ch;
    var j :| 0 <= j < |chains| && chains[j] == first;
    assert 2 in first.superIds;
    assert Heads(chains[i], chains[j]) ==> i == j;
  }

  lemma NoWayIn(inp: Input, c: Condensation, ch: Chain, h: nat)
    requires IsErosionChain(inp, c, ch) && h in ch.superIds && forall i: nat :: (i, h) !in c.dag.edges
    ensures ch.superIds[0] == h
  {
    hide StepsTo, Stuck, Declines, IsErosion;
    var p := ch.superIds;
    forall j | 0 < j < |p| ensures p[j] != h {
      var i := j - 1;
      assert (p[i], p[j]) in c.dag.edges;
    }
  }

  lemma FeedersStart(c: Condensation, h: nat)
    requires IsFeeders(c) && h < 2
    ensures StartsDecline(FEEDERS, c, h, 2)
  {
    hide *;
    FeedersEntry(c, h);
    FeedersErode(c, h);
    ChainsReadyIff(FEEDERS, c);
    forall ch | ch in Chains(FEEDERS, c) && h in ch.superIds ensures ch.superIds[0] == h {
      NoWayIn(FEEDERS, c, ch, h);
    }
    StartsIs(FEEDERS, c, h, 2);
  }

  lemma FeedersEntry(c: Condensation, h: nat)
    requires IsFeeders(c) && h < 2
    ensures WellFormed(FEEDERS, c) && forall i: nat :: (i, h) !in c.dag.edges
  {
    hide WellFormed;
  }

  lemma StartsIs(inp: Input, c: Condensation, h: nat, n: nat)
    requires WellFormed(inp, c) && HealthyAt(inp, c, h) && StepsTo(inp, c, h, n) && h < |c.supers|
    requires IsErosion(inp, ChainAt(inp, c, h))
    requires forall ch :: ch in Chains(inp, c) && h in ch.superIds ==> ch.superIds[0] == h
    ensures StartsDecline(inp, c, h, n)
  {
    hide WellFormed, StepsTo, IsErosion, Chains, ChainAt;
  }

  lemma HardIsFault(inp: Input, c: Condensation, x: Candidate)
    requires HardLike(inp, c, x)
    ensures exists r :: DeterministicDefect(inp, r)
  {
    assert DeterministicDefect(inp, c.supers[x.superId].exit);
  }

  lemma NoHardOrigins(inp: Input, c: Condensation)
    requires forall i :: 0 <= i < |c.topo| ==> c.topo[i] < |c.supers|
    requires forall r :: !DeterministicDefect(inp, r)
    ensures HardOrigins(inp, c) == []
  {
    HardAreHardLike(inp, c);
    hide HardOrigins, DeterministicDefect, HardLike;
    if HardOrigins(inp, c) != [] {
      HardIsFault(inp, c, HardOrigins(inp, c)[0]);
    }
  }

  // Every origin sits at the node both entries feed, and nothing lies upstream of it.
  lemma FeedersOrigins(c: Condensation)
    requires IsFeeders(c) && Steady(FEEDERS, c)
    ensures forall x :: x in ContentOrigins(FEEDERS, c) ==> x.superId == 2
    ensures !Shadowed(c, SuperIds(ContentOrigins(FEEDERS, c)), 2)
  {
    hide *;
    FeedersKnown(c);
    FeedersIs(c);
    FeedersUnbroken(c);
    TopoInRange(FEEDERS, c);
    forall x | x in ContentOrigins(FEEDERS, c) ensures x.superId == 2 {
      OriginEntered(FEEDERS, c, x);
      var ch :| ch in Chains(FEEDERS, c) && Enters(FEEDERS, c, ch, x.superId);
      EntersAt(FEEDERS, c, ch, x.superId);
      FeedersEnter(c, ch);
    }
    NotAbove(c, ContentOrigins(FEEDERS, c), 2);
  }

  lemma FeedersKnown(c: Condensation)
    requires IsFeeders(c)
    ensures WellFormed(FEEDERS, c) && 2 < |c.supers| && c.supers[2].exit == 2
  {
    hide WellFormed;
  }

  lemma EntersAt(inp: Input, c: Condensation, ch: Chain, n: nat)
    requires Enters(inp, c, ch, n)
    ensures |ch.superIds| >= 2 && ch.superIds[1] == n
  {
  }

  lemma NotAbove(c: Condensation, cs: seq<Candidate>, n: nat)
    requires forall x :: x in cs ==> x.superId == n
    ensures !Shadowed(c, SuperIds(cs), n)
  {
    hide Reaches;
  }

  lemma OriginEntered(inp: Input, c: Condensation, x: Candidate)
    requires WellFormed(inp, c) && Steady(inp, c) && forall i :: 0 <= i < |c.topo| ==> c.topo[i] < |c.supers|
    requires Broken(inp, c) == [] && Bucketed(inp, c, |c.topo|, RecoveredBoundary) == [] && x in ContentOrigins(inp, c)
    ensures exists ch :: ch in Chains(inp, c) && Enters(inp, c, ch, x.superId)
  {
    hide WellFormed, Broken, Bucketed, Chains, ChainReady, Eroded, Enters;
    var chains := Chains(inp, c);
    var cs := Eroded(inp, c, chains);
    ErodedNames(inp, c, chains, x.superId);
    var k :| 0 <= k < |cs| && cs[k] == x;
    assert NamesNode(cs, x.superId);
    var i :| 0 <= i < |chains| && Enters(inp, c, chains[i], x.superId);
  }

  lemma FeederCandidates(c: Condensation, a: Analysis)
    requires IsFeeders(c) && IsAnalysis(FEEDERS, c, a)
    ensures NamesTwice(a.candidates, 2) && forall x :: x in a.candidates ==> x.superId == 2
  {
    hide *;
    FeedersKnown(c);
    FeedersAre();
    AnalysisIs(FEEDERS, c, a);
    TopoInRange(FEEDERS, c);
    FeedersIs(c);
    FeedersUnbroken(c);
    FeedersOrigins(c);
    FeedersStart(c, 0);
    FeedersStart(c, 1);
    RepeatedOrigin(FEEDERS, c, a, 2);
    TwiceIs(a.candidates, 2);
    NoHardOrigins(FEEDERS, c);
    CandidatesAre(FEEDERS, c);
    FinalIs(FEEDERS, c);
    UnshadowedIs(c, SuperIds(ContentOrigins(FEEDERS, c)), ContentOrigins(FEEDERS, c));
    MergedNone(ContentFinal(FEEDERS, c));
  }

  lemma MergedNone(content: seq<Candidate>)
    ensures Merge(content, []) == content
  {
  }

  lemma SeveralRow(inp: Input, c: Condensation, a: Analysis)
    requires CascadeReady(c, a, []) && |a.candidates| > 1
    ensures RowOf(inp, c, a, []) == ManyOrigins(a.candidates)
  {
    hide QualityUnmeasured, FlawedSources;
  }

  // Main result: here the report names one culprit twice, under the verdict of a single cut point.
  lemma FeedersRepeat(c: Condensation, a: Analysis, anomalies: seq<Anomaly>)
    requires Condensed(FEEDERS, Classes(FEEDER_ROWS), c) && Analyzed(FEEDERS, c, a, anomalies)
    ensures CascadeReady(c, a, anomalies) && RowReady(c, RowOf(FEEDERS, c, a, anomalies))
    ensures !Distinct(RowCulprits(FEEDERS, c, RowOf(FEEDERS, c, a, anomalies)))
    ensures FinalVerdict(FEEDERS, c, RowOf(FEEDERS, c, a, anomalies)) == CutPointVerdict
    ensures !Unsupported(FEEDERS, c, RowOf(FEEDERS, c, a, anomalies))
  {
    hide *;
    FeedersAre();
    FeederRows(FEEDERS);
    LaidOutShape(FEEDERS, FEEDER_ROWS, c);
    FeederShape(FEEDERS, c);
    FeedersIs(c);
    AnalyzedIsReady(FEEDERS, c, a, anomalies);
    AnalysisOf(FEEDERS, c, a, anomalies);
    AloneIsCalm(FEEDERS, c, a, anomalies);
    FeederCandidates(c, a);
    var i, j := Pair(a.candidates, 2);
    SeveralRow(FEEDERS, c, a);
    RepeatedCulprit(FEEDERS, c, a, anomalies);
    AllContent(FEEDERS, c, a);
    ContentStands(FEEDERS, c, a.candidates);
    NotReplacedHere(FEEDERS, c, ManyOrigins(a.candidates));
  }

  // Where no check failed, every origin comes from the content channel alone.
  lemma AllContent(inp: Input, c: Condensation, a: Analysis)
    requires IsAnalysis(inp, c, a) && forall r :: !DeterministicDefect(inp, r)
    ensures forall x :: x in a.candidates ==> x.via == Content
  {
    hide *;
    AnalysisIs(inp, c, a);
    CandidatesFromChannels(inp, c);
    forall x | x in a.candidates ensures x.via == Content {
      CandidateStory(inp, c, x);
      NoFaultIsContent(inp, c, x);
    }
  }

  lemma NoFaultIsContent(inp: Input, c: Condensation, x: Candidate)
    requires Story(inp, c, x) && forall r :: !DeterministicDefect(inp, r)
    ensures x.via == Content
  {
    hide DeterministicDefect, Grounded, BreaksInside, PointsInside;
  }

  lemma ContentStands(inp: Input, c: Condensation, xs: seq<Candidate>)
    requires RowReady(c, ManyOrigins(xs)) && forall x :: x in xs ==> x.via == Content
    ensures !Starved(inp, c, ManyOrigins(xs))
  {
    hide OwnEvidence, LiveBad;
  }

  lemma FeedersIs(c: Condensation)
    ensures IsFeeders(c) <==> WellFormed(FEEDERS, c) && FeederLike(FEEDERS, c)
  {
    hide WellFormed, FeederLike;
  }

  // ---------- A tie inside a cycle whose exit broke a contract ----------

  // Two equally bad runs and a worse one that blames its input, in a cycle left through an unscored rewriter;
  // beside it a second origin.
  const CIRCLE := Run([0, 1, 2, 3, 4], [(3, 0), (3, 1), (0, 2), (1, 2), (2, 3)],
    map[0 := Scored(Some(0.3), [], [], false), 1 := Scored(Some(0.3), [], [], false), 2 :=
      Scored(Some(0.1), [], [], true),
        3 := Scored(None, [BREACH], [], false), 4 := Scored(Some(0.3), [], [], false)], None)

  const CIRCLE_ROWS: seq<seq<RunId>> := [[0, 1, 2, 3], [4]]

  lemma CircleIs()
    ensures CIRCLE.nodes == [0, 1, 2, 3, 4] && CIRCLE.edges == [(3, 0), (3, 1), (0, 2), (1, 2), (2, 3)]
    ensures CIRCLE.config == SETTINGS
    ensures CIRCLE.verifierNames == {} && CIRCLE.terminal.None? && CIRCLE.attemptOf == map[]
    ensures CIRCLE.loopBaselines == map[]
    ensures ScoreOf(CIRCLE, 0) == Some(0.3) && ScoreOf(CIRCLE, 1) == Some(0.3) && ScoreOf(CIRCLE, 2) == Some(0.1)
    ensures ScoreOf(CIRCLE, 3) == None && ScoreOf(CIRCLE, 4) == Some(0.3)
    ensures forall r :: InputFlawed(CIRCLE, r) <==> r == 2
    ensures Violations(CIRCLE, 3) == [BREACH] && forall r :: DeterministicDefect(CIRCLE, r) <==> r == 3
    ensures !OwnEvidence(CIRCLE, 3)
    ensures forall i, j :: 0 <= i < j < 5 ==> Before(KeyOf(CIRCLE.endTimes, i), KeyOf(CIRCLE.endTimes, j))
  {
    assert Violations(CIRCLE, 3) == [BREACH];
    assert Flags(CIRCLE, 3) == [] && Signals(CIRCLE, 3) == [];
  }

  lemma CircleEdges(g: Graph)
    requires g == BuildGraph([0, 1, 2, 3, 4], [(3, 0), (3, 1), (0, 2), (1, 2), (2, 3)])
    ensures forall n :: n in g.nodes <==> n in [0, 1, 2, 3, 4]
    ensures forall a: nat, b: nat :: (a, b) in g.edges <==>
      (a, b) == (3, 0) || (a, b) == (3, 1) || (a, b) == (0, 2) || (a, b) == (1, 2) || (a, b) == (2, 3)
  {
    var nodes: seq<nat>, edges: seq<(nat, nat)> := [0, 1, 2, 3, 4], [(3, 0), (3, 1), (0, 2), (1, 2), (2, 3)];
    assert nodes[0] == 0 && nodes[1] == 1 && nodes[2] == 2 && nodes[3] == 3 && nodes[4] == 4;
    assert edges[0] == (3, 0) && edges[1] == (3, 1) && edges[2] == (0, 2) && edges[3] == (1, 2) && edges[4] == (2, 3);
    assert forall e :: e in edges <==> e == (3, 0) || e == (3, 1) || e == (0, 2) || e == (1, 2) || e == (2, 3);
  }

  // Everything in the cycle reaches its exit and is reached from it.
  lemma CircleRound(g: Graph, r: nat)
    requires g == BuildGraph([0, 1, 2, 3, 4], [(3, 0), (3, 1), (0, 2), (1, 2), (2, 3)]) && r < 4
    ensures Reaches(g, r, 3) && Reaches(g, 3, r)
  {
    CircleEdges(g);
    EdgeReaches(g, 2, 3);
    EdgeReaches(g, 3, 0);
    EdgeReaches(g, 3, 1);
    EdgeReaches(g, 0, 2);
    EdgeReaches(g, 1, 2);
    ReachesSelf(g, 3);
    hide Reaches;
    ReachesTrans(g, 0, 2, 3);
    ReachesTrans(g, 1, 2, 3);
    ReachesTrans(g, 3, 0, 2);
  }

  lemma CircleReaches(g: Graph, a: nat, b: nat)
    requires g == BuildGraph([0, 1, 2, 3, 4], [(3, 0), (3, 1), (0, 2), (1, 2), (2, 3)])
    requires (a < 4 && b < 4) || a == b == 4
    ensures Reaches(g, a, b)
  {
    CircleEdges(g);
    if a < 4 {
      CircleRound(g, a);
      CircleRound(g, b);
      ReachesTrans(g, a, 3, b);
    } else {
      ReachesSelf(g, 4);
    }
  }

  lemma CircleRows(inp: Input)
    requires inp.nodes == [0, 1, 2, 3, 4] && inp.edges == [(3, 0), (3, 1), (0, 2), (1, 2), (2, 3)]
    requires forall i, j :: 0 <= i < j < 5 ==> Before(KeyOf(inp.endTimes, i), KeyOf(inp.endTimes, j))
    ensures LaidOut(inp, CIRCLE_ROWS)
  {
    hide Reaches, BuildGraph, KeyOf, Before;
    var g, rows := BuildGraph(inp.nodes, inp.edges), CIRCLE_ROWS;
    CircleEdges(g);
    assert rows[0] == [0, 1, 2, 3] && rows[1] == [4];
    forall i: nat, r: RunId ensures InRow(rows, i, r) <==> (i == 0 && r < 4) || (i == 1 && r == 4) {
    }
    hide InRow;
    assert InRow(rows, 0, 0) && InRow(rows, 0, 1) && InRow(rows, 0, 2) && InRow(rows, 0, 3) && InRow(rows, 1, 4);
    forall i: nat, a: RunId, b: RunId | InRow(rows, i, a) && InRow(rows, i, b) ensures Reaches(g, a, b) {
      CircleReaches(g, a, b);
    }
  }

  ghost predicate IsCircle(c: Condensation) {
    && WellFormed(CIRCLE, c) && c.topo == [0, 1] && |c.supers| == 2 && c.graph == BuildGraph(CIRCLE.nodes, CIRCLE.edges)
    && c.supers[0].exit == 3 && c.supers[0].members == [0, 1, 2, 3] && c.supers[0].score == None
    && c.supers[1].exit == 4 && c.supers[1].members == [4] && c.supers[1].score == Some(0.3)
    && c.dag.edges == {}
  }

  lemma CircleShape(c: Condensation)
    requires IsLaidOut(CIRCLE, CIRCLE_ROWS, c)
    ensures IsCircle(c)
  {
    CircleIs();
    hide CIRCLE, Reaches, ProperTopo, ProperMembers, ProperSuper, Acyclic, ProperEnds;
    var rows := CIRCLE_ROWS;
    assert rows[0] == [0, 1, 2, 3] && rows[1] == [4];
    CircleEdges(c.graph);
    assert forall r :: r in Elements(rows[1]) <==> r == 4;
    forall e: (nat, nat) ensures e !in c.dag.edges {
      assert e == (e.0, e.1);
    }
  }

  lemma CircleApart(c: Condensation)
    requires IsCircle(c)
    ensures forall a: nat, b: nat :: !IsAncestor(c.dag, a, b)
    ensures forall i: nat :: PredExits(c, i) == {} && SuccExits(c, i) == {} && IsSource(c.dag, i)
    ensures RunPreds(c.graph, 0) == {3} && RunPreds(c.graph, 1) == {3} && RunSuccs(c.graph, 0) == {2}
    ensures RunSuccs(c.graph, 1) == {2}
  {
    CircleIs();
    hide WellFormed, CIRCLE, Reaches, BuildGraph;
    CircleEdges(c.graph);
    forall a: nat, b: nat ensures !IsAncestor(c.dag, a, b) {
      if IsAncestor(c.dag, a, b) {
        var x := LastStep(c.dag, a, b);
      }
    }
    assert forall e :: e in c.graph.edges ==> e == (e.0, e.1);
    assert (3, 0) in c.graph.edges && (3, 1) in c.graph.edges && (0, 2) in c.graph.edges && (1, 2) in c.graph.edges;
  }

  // The two bad runs qualify, the worse one blames its input, the exit is unscored.
  lemma UnmeasuredBreak(inp: Input, g: Graph, m: RunId, p: RunId)
    requires RunPreds(g, m) == {p} && ScoreOf(inp, p).None? && Low(inp, m) && !InputFlawed(inp, m)
    requires !MemberRecovered(inp, g, m)
    ensures MemberQualifies(inp, g, m)
  {
    assert KnownScores(inp, {p}) == {};
    hide MemberRecovered;
  }

  lemma CircleQualified(c: Condensation)
    requires IsCircle(c)
    ensures Qualified(CIRCLE, c.graph, [0, 1, 2, 3]) == {0, 1}
    ensures !MemberQualifies(CIRCLE, c.graph, 2)
  {
    hide *;
    CircleIs();
    CircleApart(c);
    CircleUnhealed(c.graph, 0);
    CircleUnhealed(c.graph, 1);
    CircleLow();
    UnmeasuredBreak(CIRCLE, c.graph, 0, 3);
    UnmeasuredBreak(CIRCLE, c.graph, 1, 3);
    CircleOut(c.graph);
    TwoOfFour(CIRCLE, c.graph);
  }

  lemma CircleLow()
    ensures Low(CIRCLE, 0) && Low(CIRCLE, 1)
  {
  }

  lemma CircleOut(g: Graph)
    ensures !MemberQualifies(CIRCLE, g, 2) && !MemberQualifies(CIRCLE, g, 3)
  {
    hide Lowest, Highest, MemberRecovered;
  }

  lemma TwoOfFour(inp: Input, g: Graph)
    requires MemberQualifies(inp, g, 0) && MemberQualifies(inp, g, 1)
    requires !MemberQualifies(inp, g, 2) && !MemberQualifies(inp, g, 3)
    ensures Qualified(inp, g, [0, 1, 2, 3]) == {0, 1}
  {
    hide MemberQualifies;
    var four: seq<RunId> := [0, 1, 2, 3];
    assert four[0] == 0 && four[1] == 1 && four[2] == 2 && four[3] == 3;
    assert forall m: RunId :: m in four <==> m < 4;
  }

  lemma CircleUnhealed(g: Graph, m: RunId)
    requires RunSuccs(g, m) == {2}
    ensures !MemberRecovered(CIRCLE, g, m)
  {
    assert 2 in CIRCLE.scores && ScoreOf(CIRCLE, 2) == Some(0.1);
    assert 2 in (set s | s in RunSuccs(g, m) && s in CIRCLE.scores);
  }

  lemma FirstTwo(four: seq<RunId>, keep: RunId -> bool)
    requires four == [0, 1, 2, 3] && keep(0) && keep(1) && !keep(2) && !keep(3)
    ensures Filter(four, keep) == [0, 1]
  {
    assert four[1..] == [1, 2, 3] && four[1..][1..] == [2, 3];
    FilterNone(four[1..][1..], keep);
    assert Filter(four[1..], keep) == [1];
  }

  lemma CircleTie(c: Condensation)
    requires IsCircle(c)
    ensures Worst(CIRCLE, {0, 1}) == 0 && TiedMembers(CIRCLE, c.graph, [0, 1, 2, 3], 0) == [0, 1]
  {
    hide *;
    CircleIs();
    CircleQualified(c);
    CircleOrder();
    QualifiedFour(CIRCLE, c.graph);
  }

  lemma CircleOrder()
    ensures Worst(CIRCLE, {0, 1}) == 0
  {
    CircleIs();
    hide CIRCLE, Worst;
    WorstUnique(CIRCLE, {0, 1}, 0);
  }

  lemma QualifiedFour(inp: Input, g: Graph)
    requires Qualified(inp, g, [0, 1, 2, 3]) == {0, 1} && ScoreOf(inp, 1) == ScoreOf(inp, 0)
    ensures TiedMembers(inp, g, [0, 1, 2, 3], 0) == [0, 1]
  {
    hide MemberQualifies;
    var keep := (m: RunId) => MemberQualifies(inp, g, m) && ScoreOf(inp, m) == ScoreOf(inp, 0);
    var four: seq<RunId> := [0, 1, 2, 3];
    assert four[0] == 0 && four[1] == 1 && four[2] == 2 && four[3] == 3;
    assert forall m :: m in four ==> (m in Qualified(inp, g, four) <==> MemberQualifies(inp, g, m));
    FirstTwo(four, keep);
  }

  ghost predicate IsInside(x: Candidate) {
    x.superId == 0 && x.run == 3 && x.via == Content && x.drop.None? && x.sccMember == Some(0) && x.tied == [0, 1]
  }

  lemma InsideAt(inp: Input, c: Condensation, sid: nat, m: RunId, tied: seq<RunId>)
    requires sid < |c.supers| && |c.supers[sid].members| >= 2 && |tied| > 1
    requires Qualified(inp, c.graph, c.supers[sid].members) != {}
    requires Worst(inp, Qualified(inp, c.graph, c.supers[sid].members)) == m
    requires TiedMembers(inp, c.graph, c.supers[sid].members, m) == tied
    ensures InternalCandidate(inp, c, sid).Some?
    ensures var x := InternalCandidate(inp, c, sid).value;
      x.superId == sid && x.run == c.supers[sid].exit && x.via == Content && x.drop.None? && x.sccMember == Some(m) &&
        x.tied == tied
  {
    hide Worst, Qualified, TiedMembers, UnknownUpstream, MemberRecovered, Channels, Lowest;
  }

  lemma CircleInside(c: Condensation)
    requires IsCircle(c)
    ensures InternalCandidate(CIRCLE, c, 0).Some? && IsInside(InternalCandidate(CIRCLE, c, 0).value)
    ensures InternalCandidate(CIRCLE, c, 1).None?
  {
    CircleQualified(c);
    CircleTie(c);
    hide WellFormed, CIRCLE, Worst, Qualified, TiedMembers, InternalCandidate;
    assert 0 in {0, 1};
    InsideAt(CIRCLE, c, 0, 0, [0, 1]);
    AloneInside(CIRCLE, c, 1);
  }

  lemma CircleBuckets(c: Condensation)
    requires IsCircle(c)
    ensures BucketOf(CIRCLE, c, 0) == NoOrigin && BucketOf(CIRCLE, c, 1) == Propagating
    ensures EdgeCandidate(CIRCLE, c, 1).superId == 1 && EdgeCandidate(CIRCLE, c, 1).run == 4
    ensures EdgeCandidate(CIRCLE, c, 1).via == Content
  {
    CircleIs();
    CircleApart(c);
    NoneKnown(CIRCLE);
    hide WellFormed, CIRCLE, Lowest, Highest, AllHealthy, PredExits, SuccExits, UnknownUpstream, Channels;
  }

  lemma SharpThenInside(inp: Input, c: Condensation, inside: Candidate)
    requires c.topo == [0, 1] && |c.supers| == 2 && c.supers[1].score.Some?
    requires BucketOf(inp, c, 0) == NoOrigin && BucketOf(inp, c, 1) == Propagating
    requires EdgeCandidate(inp, c, 1).superId == 1
    requires InternalCandidate(inp, c, 0) == Some(inside) && InternalCandidate(inp, c, 1).None?
    ensures Broken(inp, c) == [EdgeCandidate(inp, c, 1), inside]
  {
    hide BucketOf, EdgeCandidate, InternalCandidate;
    var e := EdgeCandidate(inp, c, 1);
    NoneBucketed(inp, c, 2, DropOrigin);
    NoneBucketed(inp, c, 1, Propagating);
    BucketedNext(inp, c, 1, Propagating);
    hide Bucketed, Internal;
    assert SharpOrigins(inp, c) == [e];
    var ids := SuperIds([e]);
    assert forall i :: i in ids ==> i == 1;
    InternalNone(inp, c, ids);
    InternalNext(inp, c, 0, ids);
    InternalNext(inp, c, 1, ids);
    assert Internal(inp, c, 2, ids) == [inside];
  }

  lemma FirstHard(inp: Input, c: Condensation)
    requires c.topo == [0, 1] && |c.supers| == 2 && PrimaryActor(inp, c, 0) && !HardFault(inp, c, 1)
    ensures HardOrigins(inp, c) == [HardCandidate(inp, c, 0)]
  {
    assert !PrimaryActor(inp, c, 1);
    hide HardCandidate, PrimaryActor, SecondaryActor;
    assert Primaries(inp, c, 0) == [];
    assert Primaries(inp, c, 1) == [HardCandidate(inp, c, 0)];
    assert Primaries(inp, c, 2) == [HardCandidate(inp, c, 0)];
  }

  lemma CircleHard(c: Condensation)
    requires IsCircle(c)
    ensures HardOrigins(CIRCLE, c) == [HardCandidate(CIRCLE, c, 0)] && HardCandidate(CIRCLE, c, 0).run == 3
  {
    CircleIs();
    CircleFresh(c);
    hide WellFormed, CIRCLE, FreshContract, HasFailSignal, DeterministicDefect, HardCandidate, HardOrigins;
    assert PrimaryActor(CIRCLE, c, 0) && !HardFault(CIRCLE, c, 1);
    FirstHard(CIRCLE, c);
    HardAt(CIRCLE, c, 0);
  }

  lemma CircleFresh(c: Condensation)
    requires IsCircle(c)
    ensures FreshContract(CIRCLE, c, 0)
  {
    CircleIs();
    CircleApart(c);
    hide WellFormed, CIRCLE, IsAncestor;
    assert BREACH in Violations(CIRCLE, 3);
  }

  lemma BothSurvive(c: Condensation, x: Candidate, y: Candidate)
    requires forall a: nat, b: nat :: !IsAncestor(c.dag, a, b)
    ensures Unshadowed(c, SuperIds([x, y]), [x, y]) == [x, y]
  {
    hide IsAncestor;
    var ids := SuperIds([x, y]);
    assert [x, y][..1] == [x] && [x][..0] == [];
    assert Unshadowed(c, ids, []) == [];
    assert Unshadowed(c, ids, [x]) == [x];
  }

  lemma MergedTwo(x: Candidate, y: Candidate, z: Candidate)
    requires y.run == z.run != x.run
    ensures Merge([x, y], [z]) == [x, y.(via := Both, sccMember := None)]
  {
    var keep := (w: Candidate) => w.run !in RunsOf([x, y]);
    assert y in [x, y] && z in [z];
    assert y.run in RunsOf([x, y]) && z.run in RunsOf([z]) && x.run !in RunsOf([z]);
    FilterNone([z], keep);
  }

  lemma TwoSurvive(inp: Input, c: Condensation, x: Candidate, y: Candidate)
    requires WellFormed(inp, c) && forall i :: 0 <= i < |c.topo| ==> c.topo[i] < |c.supers|
    requires Broken(inp, c) == [x, y] && forall a: nat, b: nat :: !IsAncestor(c.dag, a, b)
    ensures Steady(inp, c) && ContentFinal(inp, c) == [x, y]
  {
    hide WellFormed, Chains, Broken, IsAncestor, Unshadowed;
    BothSurvive(c, x, y);
  }

  lemma CircleCandidates(c: Condensation) returns (x: Candidate, y: Candidate)
    requires IsCircle(c)
    ensures Steady(CIRCLE, c) && Candidates(CIRCLE, c) == [x, y]
    ensures x.superId == 1 && y.superId == 0 && y.run == 3 && y.via == Both && y.drop.None? && y.sccMember.None?
    ensures y.tied == [0, 1]
  {
    hide *;
    CircleKnown(c);
    CircleApart(c);
    CircleInside(c);
    CircleBuckets(c);
    var inside := InternalCandidate(CIRCLE, c, 0).value;
    InsideIs(inside);
    x := EdgeCandidate(CIRCLE, c, 1);
    SharpThenInside(CIRCLE, c, inside);
    TopoInRange(CIRCLE, c);
    TwoSurvive(CIRCLE, c, x, inside);
    CircleHard(c);
    CandidatesAre(CIRCLE, c);
    MergedTwo(x, inside, HardCandidate(CIRCLE, c, 0));
    y := inside.(via := Both, sccMember := None);
  }

  lemma InsideIs(x: Candidate)
    requires IsInside(x)
    ensures x.superId == 0 && x.run == 3 && x.via == Content && x.drop.None? && x.sccMember == Some(0)
    ensures x.tied == [0, 1]
  {
  }

  lemma CircleKnown(c: Condensation)
    requires IsCircle(c)
    ensures WellFormed(CIRCLE, c) && |c.supers| == 2 && c.supers[0].exit == 3 && c.supers[0].members == [0, 1, 2, 3]
    ensures c.supers[1].members == [4] && c.supers[1].score.Some? && c.topo == [0, 1]
  {
    hide WellFormed, CIRCLE;
  }

  // No agent names, four members: nothing suspicious about the loop.
  lemma CircleCalm(c: Condensation, s: SuperNode, an: Anomaly)
    requires IsCircle(c) && s in c.supers
    ensures !IsAnomaly(CIRCLE, s, an)
  {
    CircleIs();
    hide WellFormed, CIRCLE;
    assert s == c.supers[0] || s == c.supers[1];
    if RanAs(CIRCLE, s, an.iterations, an.repeating) {
      var rounds: nat :| AreRounds(CIRCLE, s.members, rounds, an.repeating) && an.iterations == IterationsOf(s, rounds);
      assert Agents(CIRCLE, s.members) == {};
    }
  }

  lemma CircleDrill(c: Condensation, y: Candidate)
    requires IsCircle(c) && y.superId == 0 && y.sccMember.None?
    ensures Drill(CIRCLE, c, y).culprit == 2
  {
    CircleIs();
    hide WellFormed, CIRCLE, MeasuredFall;
    var members: seq<RunId> := [0, 1, 2, 3];
    assert members[0] == 0 && members[1] == 1 && members[2] == 2 && members[3] == 3;
    assert KnownScores(CIRCLE, Elements(members)) == {0, 1, 2};
    WorstUnique(CIRCLE, {0, 1, 2}, 2);
  }

  // The tie reported for an origin does not hold the run the drill names.
  ghost predicate TieMissesCulprit(inp: Input, c: Condensation, y: Candidate) {
    y.superId < |c.supers| && OriginTie(inp, c, y) != [] && Drill(inp, c, y).culprit !in OriginTie(inp, c, y)
  }

  // Main result: among several origins an exit of both channels can stand without evidence, and the validation stops
  // the analysis; and the tie it reports does not hold the member the drill goes to.
  lemma CircleRaises(c: Condensation, a: Analysis, anomalies: seq<Anomaly>)
    requires Condensed(CIRCLE, Classes(CIRCLE_ROWS), c) && Analyzed(CIRCLE, c, a, anomalies)
    ensures CascadeReady(c, a, anomalies) && RowReady(c, RowOf(CIRCLE, c, a, anomalies))
    ensures RowOf(CIRCLE, c, a, anomalies).ManyOrigins? && Unsupported(CIRCLE, c, RowOf(CIRCLE, c, a, anomalies))
    ensures exists y :: y in a.candidates && TieMissesCulprit(CIRCLE, c, y)
  {
    hide *;
    CircleIs();
    CircleRows(CIRCLE);
    LaidOutShape(CIRCLE, CIRCLE_ROWS, c);
    CircleShape(c);
    CircleKnown(c);
    CircleIs();
    AnalyzedIsReady(CIRCLE, c, a, anomalies);
    AnalysisOf(CIRCLE, c, a, anomalies);
    AnalysisIs(CIRCLE, c, a);
    forall s, an | s in c.supers ensures !IsAnomaly(CIRCLE, s, an) {
      CircleCalm(c, s, an);
    }
    Calm(CIRCLE, c, a, anomalies);
    var x, y := CircleCandidates(c);
    assert a.candidates == [x, y] && y in a.candidates;
    SeveralRow(CIRCLE, c, a);
    CircleDrill(c, y);
    TieMisses(CIRCLE, c, y, 2);
    StarvedBoth(CIRCLE, c, a.candidates, y);
    NotReplacedHere(CIRCLE, c, ManyOrigins(a.candidates));
  }

  lemma TieMisses(inp: Input, c: Condensation, y: Candidate, culprit: RunId)
    requires y.superId < |c.supers| && y.tied != [] && Drill(inp, c, y).culprit == culprit && culprit !in y.tied
    ensures TieMissesCulprit(inp, c, y)
  {
    hide DrillTie, Drill;
  }

  lemma StarvedBoth(inp: Input, c: Condensation, xs: seq<Candidate>, y: Candidate)
    requires RowReady(c, ManyOrigins(xs)) && y in xs && y.via == Both && y.drop.None?
    requires !OwnEvidence(inp, y.run) && inp.terminal.None?
    ensures Starved(inp, c, ManyOrigins(xs))
  {
    hide OwnEvidence;
  }

  // ---------- A standstill that counts as a decline ----------

  // One healthy run, under settings that ask for no step and no fall.
  const STANDSTILL :=
    Run([0], [], map[0 := Scored(Some(0.9), [], [], false)], None).(
      config := SETTINGS.(cumMinEdges := 0, cumDropThreshold := 0.0))

  lemma StandstillIs()
    ensures STANDSTILL.nodes == [0] && STANDSTILL.edges == [] && !ErosionHasSteps(STANDSTILL)
    ensures ScoreOf(STANDSTILL, 0) == Some(0.9) && STANDSTILL.config.threshold == 0.5
  {
  }

  lemma StandstillStands(c: Condensation)
    requires IsLaidOut(STANDSTILL, [[0]], c) && c.topo == [0] && |c.supers| == 1
    requires c.supers[0].score == Some(0.9) && NextRun(STANDSTILL, c, 0).None? && PredExits(c, 0) == {}
    ensures WellFormed(STANDSTILL, c) && Origins.Stands(STANDSTILL, c, 0) && BucketOf(STANDSTILL, c, 0) == NoOrigin
  {
    StandstillIs();
    NoneKnown(STANDSTILL);
    ChainsReadyIff(STANDSTILL, c);
    hide WellFormed, Chains, NextRun, ChainReady;
    forall ch | ch in Chains(STANDSTILL, c) ensures |ch.superIds| < 2 {
      if |ch.superIds| >= 2 {
        var h := HeadSteps(STANDSTILL, c, ch);
      }
    }
  }

  lemma HeadSteps(inp: Input, c: Condensation, ch: Chain) returns (h: nat)
    requires IsErosionChain(inp, c, ch) && |ch.superIds| >= 2
    ensures h < |c.supers| && NextRun(inp, c, h).Some?
  {
    hide NextRun;
    h := ch.superIds[0];
    assert StepsTo(inp, c, ch.superIds[0], ch.superIds[1]);
  }

  // Main result: on such settings a single healthy run without a fault makes the analysis fail.
  lemma StandstillRaises(c: Condensation)
    requires Condensed(STANDSTILL, Classes([[0]]), c)
    ensures WellFormed(STANDSTILL, c) && !Steady(STANDSTILL, c)
  {
    hide *;
    StandstillIs();
    OneRow(STANDSTILL);
    LaidOutShape(STANDSTILL, [[0]], c);
    OneNode(STANDSTILL, c);
    StandstillStands(c);
    TopoInRange(STANDSTILL, c);
    NothingBroke(STANDSTILL, c);
    SteadyIff(STANDSTILL, c);
  }

  // ---------- The same, as reports ----------

  lemma Reported(inp: Input, c: Condensation, row: Row, r: Report)
    requires WellFormed(inp, c) && RowReady(c, row) && IsReport(inp, c, row, r)
    ensures r.culprits == FinalCulprits(inp, c, row) && r.verdict == Escalate(FinalVerdict(inp, c, row), r.findings)
  {
    hide WellFormed, FinalCulprits, FinalVerdict, Escalate, AllGaps, RowCulprits, AllValid, AgreesButForm, IsPath;
  }

  lemma ThreeWays(out: Outcome)
    ensures out.Published? || out == Raised(NoSupport) || out == Raised(NoSecondNode)
  {
    match out {
      case Published(_) =>
      case Raised(fault) => assert fault == NoSupport || fault == NoSecondNode;
    }
  }

  // With whatever facts: near-miss, unless one of them is a breach verified as shipped.
  method RewriterReport(extra: seq<Finding>) returns (out: Outcome)
    ensures out.Published? && out.report.culprits == [0]
    ensures out.report.verdict ==
      if exists f :: f in extra && f.kind == BreachPropagated then ShippedWithLatentDefect else DegradedRecovered
  {
    hide *;
    RewriterIs();
    OneRow(REWRITER);
    var c, a, anomalies;
    out, c, a, anomalies := FindBlame(REWRITER, Classes([[0]]), extra);
    ThreeWays(out);
    LaidOutShape(REWRITER, [[0]], c);
    OneNode(REWRITER, c);
    RewriterCandidates(c);
    BreachAloneRecovers(c, a, anomalies);
    Reported(REWRITER, c, RowOf(REWRITER, c, a, anomalies), out.report);
    ShippedIsSupplied(REWRITER, c, a, anomalies, extra, out.report);
    EscalateIs(DegradedRecovered, out.report.findings);
  }

  // The breach of the rewritten parameter, as the caller verified it downstream.
  function Verified(kind: FindingKind): Finding {
    Finding(kind, Hard, OfRun(0), NO_DATA.(key := Some("format")), None)
  }

  method ShippedReport() returns (out: Outcome)
    ensures out.Published? && out.report.verdict == ShippedWithLatentDefect
  {
    assert Verified(BreachPropagated) in [Verified(BreachPropagated)];
    out := RewriterReport([Verified(BreachPropagated)]);
  }

  method CorrectedReport() returns (out: Outcome)
    ensures out.Published? && out.report.verdict == DegradedRecovered
  {
    out := RewriterReport([Verified(BreachCorrected)]);
  }

  method FlaggedReport(stale: bool) returns (out: Outcome)
    ensures if stale then out == Raised(NoSupport) else out.Published? && out.report.verdict == CompositionFailure
  {
    hide *;
    var inp := Flagged(stale);
    FlaggedIs(stale);
    FlaggedRows(inp);
    LaidOutListing(inp, [[0], [1]]);
    var c, a, anomalies;
    out, c, a, anomalies := FindBlame(inp, Classes([[0], [1]]), []);
    ThreeWays(out);
    LaidOutShape(inp, [[0], [1]], c);
    FlaggedQuiet(stale, c);
    SignalAloneUnplaced(stale, c, a, anomalies);
    if !stale {
      Reported(inp, c, RowOf(inp, c, a, anomalies), out.report);
      Unescalated(CompositionFailure, out.report.findings);
    }
  }

  method FeedersReport() returns (out: Outcome)
    ensures out.Published? && out.report.verdict == CutPointVerdict && !Distinct(out.report.culprits)
  {
    hide *;
    FeedersAre();
    FeederRows(FEEDERS);
    LaidOutListing(FEEDERS, FEEDER_ROWS);
    var c, a, anomalies;
    out, c, a, anomalies := FindBlame(FEEDERS, Classes(FEEDER_ROWS), []);
    SteadyHere(FEEDERS, c);
    FeedersRepeat(c, a, anomalies);
    ThreeWays(out);
    var row := RowOf(FEEDERS, c, a, anomalies);
    Reported(FEEDERS, c, row, out.report);
    NotReplacedHere(FEEDERS, c, row);
    Unescalated(CutPointVerdict, out.report.findings);
  }

  lemma SteadyHere(inp: Input, c: Condensation)
    requires WellFormed(inp, c) && inp.config == SETTINGS
    ensures Steady(inp, c)
  {
    hide WellFormed, Steady;
    SteadyIff(inp, c);
  }

  method CircleReport() returns (out: Outcome)
    ensures out == Raised(NoSupport)
  {
    hide *;
    CircleIs();
    CircleRows(CIRCLE);
    LaidOutListing(CIRCLE, CIRCLE_ROWS);
    var c, a, anomalies;
    out, c, a, anomalies := FindBlame(CIRCLE, Classes(CIRCLE_ROWS), []);
    SteadyHere(CIRCLE, c);
    CircleRaises(c, a, anomalies);
  }

  method StandstillReport() returns (out: Outcome)
    ensures out == Raised(NoSecondNode)
  {
    hide *;
    StandstillIs();
    OneRow(STANDSTILL);
    var c, a, anomalies;
    out, c, a, anomalies := FindBlame(STANDSTILL, Classes([[0]]), []);
    StandstillRaises(c);
  }

  lemma Unescalated(v: Verdict, fs: seq<Finding>)
    requires v != DegradedRecovered
    ensures Escalate(v, fs) == v
  {
  }
}
