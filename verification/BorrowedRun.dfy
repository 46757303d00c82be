// A run on which the engine prints, for the member it names, a fall nobody measured there.

module BorrowedRun {
  import opened Prelude
  import opened Graphs
  import opened BlameInput
  import opened Condense
  import opened Propagation
  import opened CutPoint
  import opened Localize
  import opened Origins
  import opened Evidence
  import opened Derive
  import opened Loops
  import opened CandidateFacts
  import opened Cascade
  import opened Gaps
  import opened Soundness
  import opened Verdicts
  import opened Blame
  import opened Guarantees
  import opened Attribution
  import opened Repeats
  import opened SmallRuns
  import opened Witnesses

  // A healthy producer hands over to a cycle left at 0.4; the worst member of the cycle, at 0.2, reads only an
  // unscored one.
  const LENDER := Run([0, 1, 2, 3], [(0, 3), (3, 1), (1, 2), (2, 3)],
    map[0 := Witnesses.Scored(Some(0.9), [], [], false), 2 := Witnesses.Scored(Some(0.2), [], [], false),
        3 := Witnesses.Scored(Some(0.4), [], [], false)], None)

  const LENDER_ROWS: seq<seq<RunId>> := [[0], [1, 2, 3]]

  lemma LenderIs()
    ensures LENDER.nodes == [0, 1, 2, 3] && LENDER.edges == [(0, 3), (3, 1), (1, 2), (2, 3)]
    ensures LENDER.config == SETTINGS && LENDER.verifierNames == {} && LENDER.terminal.None?
    ensures LENDER.attemptOf == map[] && LENDER.loopBaselines == map[]
    ensures ScoreOf(LENDER, 0) == Some(0.9) && ScoreOf(LENDER, 1) == None
    ensures ScoreOf(LENDER, 2) == Some(0.2) && ScoreOf(LENDER, 3) == Some(0.4)
    ensures forall r :: !InputFlawed(LENDER, r) && !DeterministicDefect(LENDER, r)
    ensures forall i, j :: 0 <= i < j < 4 ==> Before(KeyOf(LENDER.endTimes, i), KeyOf(LENDER.endTimes, j))
  {
  }

  lemma LenderEdges(g: Graph)
    requires g == BuildGraph([0, 1, 2, 3], [(0, 3), (3, 1), (1, 2), (2, 3)])
    ensures forall n: nat :: n in g.nodes <==> n < 4
    ensures forall a: nat, b: nat :: (a, b) in g.edges <==>
      (a, b) == (0, 3) || (a, b) == (3, 1) || (a, b) == (1, 2) || (a, b) == (2, 3)
  {
    var nodes: seq<nat>, edges: seq<(nat, nat)> := [0, 1, 2, 3], [(0, 3), (3, 1), (1, 2), (2, 3)];
    assert g.nodes == set n | n in nodes;
    assert nodes[0] == 0 && nodes[1] == 1 && nodes[2] == 2 && nodes[3] == 3;
    assert edges[0] == (0, 3) && edges[1] == (3, 1) && edges[2] == (1, 2) && edges[3] == (2, 3);
    assert forall e :: e in edges <==> e == (0, 3) || e == (3, 1) || e == (1, 2) || e == (2, 3);
  }

  lemma LenderReaches(g: Graph, a: nat, b: nat)
    requires g == BuildGraph([0, 1, 2, 3], [(0, 3), (3, 1), (1, 2), (2, 3)])
    requires (1 <= a < 4 && 1 <= b < 4) || a == b == 0
    ensures Reaches(g, a, b)
  {
    LenderEdges(g);
    EdgeReaches(g, 3, 1);
    EdgeReaches(g, 1, 2);
    EdgeReaches(g, 2, 3);
    ReachesSelf(g, a);
    hide Reaches;
    ReachesTrans(g, 3, 1, 2);
    ReachesTrans(g, 1, 2, 3);
    ReachesTrans(g, 2, 3, 1);
  }

  lemma LenderRows(inp: Input)
    requires inp.nodes == [0, 1, 2, 3] && inp.edges == [(0, 3), (3, 1), (1, 2), (2, 3)]
    requires forall i, j :: 0 <= i < j < 4 ==> Before(KeyOf(inp.endTimes, i), KeyOf(inp.endTimes, j))
    ensures LaidOut(inp, LENDER_ROWS)
  {
    hide Reaches, BuildGraph, KeyOf, Before;
    var g, rows := BuildGraph(inp.nodes, inp.edges), LENDER_ROWS;
    LenderEdges(g);
    assert rows[0] == [0] && rows[1] == [1, 2, 3];
    forall i: nat, r: RunId ensures InRow(rows, i, r) <==> (i == 0 && r == 0) || (i == 1 && 1 <= r < 4) {
    }
    hide InRow;
    assert InRow(rows, 0, 0) && InRow(rows, 1, 1) && InRow(rows, 1, 2) && InRow(rows, 1, 3);
    forall i: nat, a: RunId, b: RunId | InRow(rows, i, a) && InRow(rows, i, b) ensures Reaches(g, a, b) {
      LenderReaches(g, a, b);
    }
  }

  ghost predicate IsLender(c: Condensation) {
    && WellFormed(LENDER, c) && c.topo == [0, 1] && |c.supers| == 2 && c.graph == BuildGraph(LENDER.nodes, LENDER.edges)
    && c.supers[0].exit == 0 && c.supers[0].members == [0] && c.supers[0].score == Some(0.9) && !c.supers[0].selfLoop
    && c.supers[1].exit == 3 && c.supers[1].members == [1, 2, 3] && c.supers[1].score == Some(0.4)
    && forall i: nat, j: nat :: (i, j) in c.dag.edges <==> i == 0 && j == 1
  }

  lemma LenderShape(c: Condensation)
    requires IsLaidOut(LENDER, LENDER_ROWS, c)
    ensures IsLender(c)
  {
    LenderIs();
    hide LENDER, Reaches, ProperTopo, ProperMembers, Acyclic, ProperEnds;
    var rows := LENDER_ROWS;
    assert rows[0] == [0] && rows[1] == [1, 2, 3] && c.graph == BuildGraph(LENDER.nodes, LENDER.edges);
    LenderAlone(c.graph, c.supers[0]);
    hide ProperSuper, BuildGraph;
    LenderCross(c.graph);
  }

  lemma LenderAlone(g: Graph, s: SuperNode)
    requires g == BuildGraph([0, 1, 2, 3], [(0, 3), (3, 1), (1, 2), (2, 3)])
    requires ProperSuper(LENDER, g, s) && s.members == [0]
    ensures !s.selfLoop
  {
    LenderEdges(g);
  }

  lemma LenderCross(g: Graph)
    requires g == BuildGraph([0, 1, 2, 3], [(0, 3), (3, 1), (1, 2), (2, 3)])
    ensures Crosses(g, Elements([0]), Elements([1, 2, 3])) && !Crosses(g, Elements([1, 2, 3]), Elements([0]))
  {
    LenderEdges(g);
    assert 0 in Elements([0]) && 3 in Elements([1, 2, 3]);
  }

  lemma LenderAround(c: Condensation)
    requires IsLender(c)
    ensures PredExits(c, 0) == {} && SuccExits(c, 1) == {} && PredExits(c, 1) == {0} && RunPreds(c.graph, 2) == {1}
    ensures !IsAncestor(c.dag, 1, 1) && forall a: nat :: IsAncestor(c.dag, a, 1) ==> a == 0
  {
    LenderIs();
    hide WellFormed, LENDER, Reaches, BuildGraph;
    LenderEdges(c.graph);
    assert (0, 1) in c.dag.edges && (1, 2) in c.graph.edges;
    assert (forall e :: e in c.dag.edges ==> e == (e.0, e.1)) && forall e :: e in c.graph.edges ==> e == (e.0, e.1);
    forall a: nat | IsAncestor(c.dag, a, 1) ensures a == 0 {
      var x := LastStep(c.dag, a, 1);
      if a != 0 {
        var y := LastStep(c.dag, a, 0);
      }
    }
  }

  // The first of two breaks nothing, the second falls by half from it.
  lemma FallsByHalf(inp: Input, c: Condensation)
    requires |c.supers| == 2 && inp.config == SETTINGS && PredExits(c, 0) == {} && PredExits(c, 1) == {0}
    requires c.supers[0].score == ScoreOf(inp, 0) == Some(0.9) && c.supers[1].score == Some(0.4)
    requires !InputFlawed(inp, c.supers[1].exit)
    ensures BucketOf(inp, c, 0) == NoOrigin && BucketOf(inp, c, 1) == DropOrigin && Base(inp, c, 1) == Some(0.9)
  {
    NoneKnown(inp);
    OneKnown(inp, 0);
    hide Lowest, Highest, AllHealthy, PredExits, SuccExits, SourceLike, IsVerifier;
  }

  lemma LenderBuckets(c: Condensation)
    requires IsLender(c)
    ensures BucketOf(LENDER, c, 0) == NoOrigin && BucketOf(LENDER, c, 1) == DropOrigin
    ensures Base(LENDER, c, 1) == Some(0.9)
  {
    LenderIs();
    LenderAround(c);
    hide WellFormed, LENDER, BucketOf, Base, PredExits;
    FallsByHalf(LENDER, c);
  }

  lemma LenderEdge(c: Condensation, x: Candidate)
    requires IsLender(c) && x == EdgeCandidate(LENDER, c, 1)
    ensures x.superId == 1 && x.run == 3 && x.via == Content && x.sccMember.None? && x.cumulativePath == []
    ensures !x.recovered && x.base == Some(0.9) && x.drop == Some(0.5)
  {
    LenderAround(c);
    LenderBuckets(c);
    NoneKnown(LENDER);
    hide WellFormed, LENDER, Lowest, Highest, PredExits, UnknownUpstream, Channels, SourceLike, BucketOf, Base,
      ObservedDrop;
  }

  lemma OneSharp(inp: Input, c: Condensation)
    requires c.topo == [0, 1] && |c.supers| == 2 && c.supers[1].score.Some? && |c.supers[0].members| < 2
    requires BucketOf(inp, c, 0) == NoOrigin && BucketOf(inp, c, 1) == DropOrigin
    requires EdgeCandidate(inp, c, 1).superId == 1
    ensures Broken(inp, c) == [EdgeCandidate(inp, c, 1)]
  {
    hide BucketOf, EdgeCandidate, InternalCandidate;
    var e := EdgeCandidate(inp, c, 1);
    NoneBucketed(inp, c, 1, DropOrigin);
    BucketedNext(inp, c, 1, DropOrigin);
    NoneBucketed(inp, c, 2, Propagating);
    hide Bucketed, Internal;
    assert SharpOrigins(inp, c) == [e];
    var ids := SuperIds([e]);
    assert e in [e] && 1 in ids;
    AloneInside(inp, c, 0);
    InternalNone(inp, c, ids);
    InternalNext(inp, c, 0, ids);
    InternalNext(inp, c, 1, ids);
    assert Internal(inp, c, 2, ids) == [];
  }

  lemma OneSurvives(inp: Input, c: Condensation, x: Candidate)
    requires WellFormed(inp, c) && forall i :: 0 <= i < |c.topo| ==> c.topo[i] < |c.supers|
    requires Broken(inp, c) == [x] && forall a: nat :: a == x.superId ==> !IsAncestor(c.dag, a, x.superId)
    ensures Steady(inp, c) && ContentFinal(inp, c) == [x]
  {
    hide WellFormed, Chains, Broken, IsAncestor;
    assert [x][..0] == [] && Unshadowed(c, SuperIds([x]), []) == [];
    assert !Shadowed(c, SuperIds([x]), x.superId);
  }

  lemma LenderKnown(c: Condensation)
    requires IsLender(c)
    ensures WellFormed(LENDER, c) && c.topo == [0, 1] && |c.supers| == 2 && c.supers[1].exit == 3
    ensures c.supers[1].score.Some? && c.supers[0].members == [0] && c.supers[1].members == [1, 2, 3]
    ensures !c.supers[0].selfLoop
  {
    hide WellFormed;
  }

  lemma LenderCandidates(c: Condensation) returns (x: Candidate)
    requires IsLender(c)
    ensures Steady(LENDER, c) && Candidates(LENDER, c) == [x] && x == EdgeCandidate(LENDER, c, 1)
  {
    hide *;
    LenderKnown(c);
    LenderIs();
    LenderAround(c);
    LenderBuckets(c);
    TopoInRange(LENDER, c);
    x := EdgeCandidate(LENDER, c, 1);
    LenderEdge(c, x);
    OneSharp(LENDER, c);
    OneSurvives(LENDER, c, x);
    NoHardOrigins(LENDER, c);
    CandidatesAre(LENDER, c);
    MergedNone([x]);
  }

  lemma LenderCalm(c: Condensation, s: SuperNode, an: Anomaly)
    requires IsLender(c) && s in c.supers
    ensures !IsAnomaly(LENDER, s, an)
  {
    LenderIs();
    hide WellFormed, LENDER;
    assert s == c.supers[0] || s == c.supers[1];
    if RanAs(LENDER, s, an.iterations, an.repeating) {
      var rounds: nat :| AreRounds(LENDER, s.members, rounds, an.repeating) && an.iterations == IterationsOf(s, rounds);
      assert Agents(LENDER, s.members) == {};
    }
  }

  // Of a cycle in which only the exit and one member below it were scored, the drill takes that member.
  lemma DrillsLower(inp: Input, c: Condensation, x: Candidate)
    requires x.superId < |c.supers| && x.sccMember.None? && c.supers[x.superId].members == [1, 2, 3]
    requires ScoreOf(inp, 1) == None && ScoreOf(inp, 2) == Some(0.2) && ScoreOf(inp, 3) == Some(0.4)
    ensures Drill(inp, c, x) == Drilled(2, MeasuredFall(inp, c.graph, 2)) && IsWorstMember(inp, [1, 2, 3], 2)
  {
    hide MeasuredFall, Worst;
    var members: seq<RunId> := [1, 2, 3];
    assert members[0] == 1 && members[1] == 2 && members[2] == 3;
    assert KnownScores(inp, Elements(members)) == {2, 3};
    WorstUnique(inp, {2, 3}, 2);
  }

  lemma LenderDrill(c: Condensation, x: Candidate)
    requires IsLender(c) && x.superId == 1 && x.sccMember.None?
    ensures Drill(LENDER, c, x) == Drilled(2, None) && IsWorstMember(LENDER, [1, 2, 3], 2)
    ensures NothingBefore(LENDER, c.graph, 2)
  {
    LenderIs();
    LenderAround(c);
    LenderKnown(c);
    hide WellFormed, LENDER, IsLender, Drill, IsWorstMember, RunPreds, MeasuredFall;
    DrillsLower(LENDER, c, x);
    OneUnknown(LENDER, 1);
    FallNeedsPreds(LENDER, c.graph, 2);
  }

  lemma OneUnknown(inp: Input, r: RunId)
    requires ScoreOf(inp, r).None?
    ensures Lowest(inp, {r}).None?
  {
    assert KnownScores(inp, {r}) == {};
  }

  // The named member with its own score, and with base and fall of the exit.
  ghost predicate Lent(c: Condensation, x: Candidate) {
    x.superId < |c.supers| && Borrows(LENDER, c, x) &&
    var y := SoleEvidence(LENDER, c, x);
    y.run == 2 && y.score == Some(0.2) && y.base == Some(0.9) && y.drop == Some(0.5) &&
    MeasuredFall(LENDER, c.graph, 2).None?
  }

  // A member without a measured fall keeps the base and the fall of its exit.
  lemma KeepsExit(inp: Input, c: Condensation, x: Candidate)
    requires InCycle(c, x) && x.superId < |c.supers| && Drill(inp, c, x).fall.None?
    requires x.via == Content && x.cumulativePath == [] && ScoreOf(inp, Drill(inp, c, x).culprit).Some?
    ensures var y, m := SoleEvidence(inp, c, x), Drill(inp, c, x).culprit;
      y.run == m && y.score == ScoreOf(inp, m) && y.base == x.base && y.drop == x.drop
  {
    hide Drill, OriginTie, Channels;
  }

  lemma LenderLends(c: Condensation, x: Candidate)
    requires IsLender(c) && x == EdgeCandidate(LENDER, c, 1)
    ensures Lent(c, x)
  {
    LenderKnown(c);
    LenderIs();
    LenderEdge(c, x);
    LenderDrill(c, x);
    FallNeedsPreds(LENDER, c.graph, 2);
    hide IsLender, LENDER, Drill, EdgeCandidate, MeasuredFall, Lowest, SoleEvidence;
    KeepsExit(LENDER, c, x);
  }

  lemma LenderRow(c: Condensation, x: Candidate)
    requires RowReady(c, OneOrigin(x)) && x.superId < |c.supers| && Drill(LENDER, c, x) == Drilled(2, None)
    ensures RowVerdict(LENDER, c, OneOrigin(x)) == CutPointVerdict && RowCulprits(LENDER, c, OneOrigin(x)) == [2]
    ensures !Starved(LENDER, c, OneOrigin(x))
  {
    LenderIs();
    hide Drill;
    assert Violations(LENDER, 2) == [] && Low(LENDER, 2);
  }

  // Main result: the named member's confidence counts a fall of 0.5 from 0.9, although nothing before it was scored.
  lemma LenderBorrows(c: Condensation, a: Analysis, anomalies: seq<Anomaly>)
    requires Condensed(LENDER, Classes(LENDER_ROWS), c) && Analyzed(LENDER, c, a, anomalies)
    ensures CascadeReady(c, a, anomalies) && RowReady(c, RowOf(LENDER, c, a, anomalies))
    ensures RowOf(LENDER, c, a, anomalies).OneOrigin? && Lent(c, RowOf(LENDER, c, a, anomalies).origin)
    ensures FinalCulprits(LENDER, c, RowOf(LENDER, c, a, anomalies)) == [2]
    ensures FinalVerdict(LENDER, c, RowOf(LENDER, c, a, anomalies)) == CutPointVerdict
    ensures !Unsupported(LENDER, c, RowOf(LENDER, c, a, anomalies))
  {
    hide *;
    LenderIs();
    LenderRows(LENDER);
    LaidOutShape(LENDER, LENDER_ROWS, c);
    LenderShape(c);
    LenderKnown(c);
    AnalyzedIsReady(LENDER, c, a, anomalies);
    AnalysisOf(LENDER, c, a, anomalies);
    AnalysisIs(LENDER, c, a);
    forall s, an | s in c.supers ensures !IsAnomaly(LENDER, s, an) {
      LenderCalm(c, s, an);
    }
    Calm(LENDER, c, a, anomalies);
    var x := LenderCandidates(c);
    LenderEdge(c, x);
    LenderDrill(c, x);
    LenderLends(c, x);
    OneOriginRow(LENDER, c, a, x);
    LenderRow(c, x);
    NotReplacedHere(LENDER, c, OneOrigin(x));
  }

  method LenderReport() returns (out: Outcome)
    ensures out.Published? && out.report.culprits == [2] && out.report.verdict == CutPointVerdict
  {
    hide *;
    LenderIs();
    LenderRows(LENDER);
    LaidOutListing(LENDER, LENDER_ROWS);
    var c, a, anomalies;
    out, c, a, anomalies := FindBlame(LENDER, Classes(LENDER_ROWS), []);
    SteadyHere(LENDER, c);
    LenderBorrows(c, a, anomalies);
    ThreeWays(out);
    Reported(LENDER, c, RowOf(LENDER, c, a, anomalies), out.report);
    Unescalated(CutPointVerdict, out.report.findings);
  }
}
