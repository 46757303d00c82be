// No unsupported defect: which cascade outcomes fail the final validation, exactly.

module Soundness {
  import opened Prelude
  import opened Graphs
  import opened BlameInput
  import opened Condense
  import opened Propagation
  import opened CutPoint
  import opened Localize
  import opened Origins
  import opened Evidence
  import opened FindingIndex
  import Assemble
  import opened Emit
  import opened Support
  import opened Loops
  import opened CandidateFacts
  import opened Cascade

  // ---------- Everything the cascade is handed ----------

  ghost predicate Analyzed(inp: Input, c: Condensation, a: Analysis, anomalies: seq<Anomaly>) {
    IsAnalysis(inp, c, a) && exists at :: AreAnomalies(inp, c, |c.topo|, anomalies, at)
  }

  // The candidates of one analysis, each with its story.
  ghost predicate Told(inp: Input, c: Condensation, xs: seq<Candidate>) {
    forall x :: x in xs ==> AtExit(c, x) && Story(inp, c, x) && FromChannels(inp, c, x)
  }

  ghost predicate AtExit(c: Condensation, x: Candidate) {
    && x.superId < |c.supers| && x.run == c.supers[x.superId].exit
    && x.run in c.superOf && c.superOf[x.run] == x.superId
  }

  ghost predicate SameFate(x: Candidate, y: Candidate) {
    && x.run == y.run && x.via == y.via && x.sccMember == y.sccMember && x.drop.Some? == y.drop.Some?
    && (x.via != Deterministic && x != y ==> x.drop.Some?)
  }

  ghost predicate Agree(xs: seq<Candidate>) {
    forall x, y :: x in xs && y in xs && x.superId == y.superId ==> SameFate(x, y)
  }

  lemma AnalysisTold(inp: Input, c: Condensation, a: Analysis)
    requires IsAnalysis(inp, c, a)
    ensures Told(inp, c, a.candidates) && Agree(a.candidates) && Placed(c, a.candidates)
  {
    CandidatesFromChannels(inp, c);
    hide WellFormed, Chains, Candidates, ChainReady, Story, FromChannels, SomethingBroke, SameFate;
    forall x | x in a.candidates ensures AtExit(c, x) && Story(inp, c, x) {
      CandidatePlaced(inp, c, x);
      CandidateStory(inp, c, x);
    }
    forall x, y | x in a.candidates && y in a.candidates && x.superId == y.superId ensures SameFate(x, y) {
      Alike(inp, c, x, y);
    }
  }

  lemma Alike(inp: Input, c: Condensation, x: Candidate, y: Candidate)
    requires WellFormed(inp, c) && Steady(inp, c)
    requires x in Candidates(inp, c) && y in Candidates(inp, c) && x.superId == y.superId
    ensures SameFate(x, y)
  {
    hide WellFormed, Chains, Candidates, ChainReady;
    SameSuperAgrees(inp, c, x, y);
  }

  ghost predicate InsideCycle(c: Condensation, an: Anomaly) {
    && an.members != [] && (forall r :: r in an.repeating ==> r in an.members)
    && exists s: nat :: s < |c.supers| && an.members == c.supers[s].members
  }

  lemma AnomaliesInside(inp: Input, c: Condensation, anomalies: seq<Anomaly>, at: seq<nat>)
    requires WellFormed(inp, c) && AreAnomalies(inp, c, |c.topo|, anomalies, at)
    ensures forall an :: an in anomalies ==> InsideCycle(c, an)
  {
    hide WellFormed, IsAnomaly, IsBenign;
    forall an | an in anomalies ensures InsideCycle(c, an) {
      var i :| 0 <= i < |anomalies| && anomalies[i] == an;
      var s := c.topo[at[i]];
      AnomalyInside(inp, c.supers[s], an);
      SuperContents(inp, c, s);
    }
  }

  lemma MembersLocated(inp: Input, c: Condensation, s: nat, r: RunId)
    requires WellFormed(inp, c) && s < |c.supers| && r in c.supers[s].members
    ensures r in c.superOf && c.superOf[r] == s && r in c.graph.nodes
  {
    SuperContents(inp, c, s);
    hide Reaches, ProperTopo, ProperSuper, Acyclic;
  }

  lemma SourcesInRange(inp: Input, c: Condensation)
    requires WellFormed(inp, c)
    ensures InRange(c, c.sources)
  {
    hide Reaches, ProperMembers, ProperSuper, Acyclic;
    forall s | s in c.sources ensures s < |c.supers| {
      assert s in Elements(c.topo);
    }
  }

  lemma AnalyzedIsReady(inp: Input, c: Condensation, a: Analysis, anomalies: seq<Anomaly>)
    requires Analyzed(inp, c, a, anomalies)
    ensures WellFormed(inp, c) && CascadeReady(c, a, anomalies) && RowReady(c, RowOf(inp, c, a, anomalies))
    ensures Told(inp, c, a.candidates) && Agree(a.candidates)
    ensures forall an :: an in anomalies ==> InsideCycle(c, an)
  {
    hide *;
    var at := AnalyzedParts(inp, c, a, anomalies);
    AnalysisTold(inp, c, a);
    AnomaliesInside(inp, c, anomalies, at);
    TopoInRange(inp, c);
    SourcesInRange(inp, c);
    forall an | an in anomalies ensures an.members != [] && an.members[0] in c.superOf {
      CycleLocated(inp, c, an);
    }
    ReadyFrom(c, a, anomalies);
    RowFits(inp, c, a, anomalies);
  }

  lemma AnalyzedParts(inp: Input, c: Condensation, a: Analysis, anomalies: seq<Anomaly>) returns (at: seq<nat>)
    requires Analyzed(inp, c, a, anomalies)
    ensures WellFormed(inp, c) && IsAnalysis(inp, c, a) && AreAnomalies(inp, c, |c.topo|, anomalies, at)
  {
    hide WellFormed, AreAnomalies, SomethingBroke, Candidates, Chains;
    at :| AreAnomalies(inp, c, |c.topo|, anomalies, at);
  }

  lemma CycleLocated(inp: Input, c: Condensation, an: Anomaly)
    requires WellFormed(inp, c) && InsideCycle(c, an)
    ensures an.members != [] && an.members[0] in c.superOf
  {
    hide WellFormed;
    var s: nat :| s < |c.supers| && an.members == c.supers[s].members;
    MembersLocated(inp, c, s, an.members[0]);
  }

  lemma ReadyFrom(c: Condensation, a: Analysis, anomalies: seq<Anomaly>)
    requires (forall k :: 0 <= k < |c.topo| ==> c.topo[k] < |c.supers|) && InRange(c, c.sources)
    requires Placed(c, a.candidates)
    requires forall x :: x in anomalies ==> x.members != [] && x.members[0] in c.superOf
    ensures CascadeReady(c, a, anomalies)
  {
  }

  // The row is about candidates of this analysis and a cycle among the anomalies.
  lemma RowFits(inp: Input, c: Condensation, a: Analysis, anomalies: seq<Anomaly>)
    requires CascadeReady(c, a, anomalies)
    ensures RowReady(c, RowOf(inp, c, a, anomalies))
    ensures match RowOf(inp, c, a, anomalies)
      case Runaway(an, others) =>
        an in anomalies && (forall x :: x in others ==> x in a.candidates && x.superId != c.superOf[an.members[0]])
      case ManyOrigins(xs) => xs == a.candidates && |xs| > 1
      case NearMiss(x) => a.candidates == [x]
      case ContentUnplaced(x) => a.candidates == [x]
      case OneOrigin(x) => a.candidates == [x]
      case _ => true
  {
    hide QualityUnmeasured, FlawedSources, InCycle, TerminalOk, TerminalBad, LooksHealthy, Confesses;
    var row := RowOf(inp, c, a, anomalies);
    if row.NearMiss? || row.ContentUnplaced? || row.OneOrigin? {
      assert a.candidates[0] in a.candidates;
    }
  }

  // ---------- Which falls are on record ----------

  lemma LoopRunsAre(inp: Input, c: Condensation, x: Candidate)
    requires WellFormed(inp, c) && AtExit(c, x)
    ensures x.run in LoopRuns(c) <==> InCycle(c, x)
  {
    ExitInside(inp, c, x);
    hide WellFormed;
    if x.run in LoopRuns(c) {
      var s :| s in c.supers && |s.members| > 1 && x.run in s.members;
      var i: nat :| i < |c.supers| && c.supers[i] == s;
      MembersLocated(inp, c, i, x.run);
    }
    if InCycle(c, x) {
      assert c.supers[x.superId] in c.supers;
    }
  }

  lemma ExitInside(inp: Input, c: Condensation, x: Candidate)
    requires WellFormed(inp, c) && AtExit(c, x)
    ensures x.run in c.supers[x.superId].members && x.run in c.graph.nodes
  {
    SuperContents(inp, c, x.superId);
    MembersLocated(inp, c, x.superId, x.run);
  }

  lemma FallNeedsPreds(inp: Input, g: Graph, m: RunId)
    requires ScoreOf(inp, m).Some?
    ensures MeasuredFall(inp, g, m).None? <==> Lowest(inp, RunPreds(g, m)).None?
  {
  }

  lemma DrillFacts(inp: Input, c: Condensation, x: Candidate)
    requires WellFormed(inp, c) && AtExit(c, x)
    ensures Drill(inp, c, x).culprit in c.supers[x.superId].members
    ensures !InCycle(c, x) ==> Drill(inp, c, x) == Drilled(x.run, None)
    ensures PointsInside(inp, c, x) ==>
      Drill(inp, c, x).culprit == x.sccMember.value && (Drill(inp, c, x).fall.Some? || Low(inp, x.sccMember.value))
  {
    ExitInside(inp, c, x);
    hide WellFormed, Lowest, Highest, MeasuredFall, BrokeHere, MemberRecovered, RunPreds;
    var scored := KnownScores(inp, Elements(c.supers[x.superId].members));
    assert forall r :: r in scored ==> r in c.supers[x.superId].members;
    if PointsInside(inp, c, x) {
      assert x.sccMember.value in scored;
      FallNeedsPreds(inp, c.graph, x.sccMember.value);
    }
  }

  ghost function OnRecord(inp: Input, c: Condensation, all: seq<Candidate>, xs: seq<Candidate>): set<RunId>
    requires Placed(c, xs)
  {
    Assemble.FallenRuns(all, LoopRuns(c)) + AllRecorded(inp, c, xs)
  }

  // A content origin, or one whose fall was measured, resolves to a run with evidence.
  lemma OriginStands(inp: Input, c: Condensation, all: seq<Candidate>, xs: seq<Candidate>, x: Candidate)
    requires WellFormed(inp, c) && Placed(c, xs) && x in xs && x in all && AtExit(c, x) && Story(inp, c, x)
    requires x.via == Content || x.drop.Some?
    ensures Resolved(inp, c, x) in OnRecord(inp, c, all, xs) || OwnEvidence(inp, Resolved(inp, c, x))
  {
    LoopRunsAre(inp, c, x);
    DrillFacts(inp, c, x);
    hide WellFormed, Drill, LoopRuns, PointsInside, BreaksInside, HardFault, HasFailSignal, HasContentFlag;
    SccInside(inp, c, x);
    var r := Resolved(inp, c, x);
    if r in Recorded(inp, c, x) {
      assert r in AllRecorded(inp, c, xs);
    }
  }

  lemma SccInside(inp: Input, c: Condensation, x: Candidate)
    ensures PointsInside(inp, c, x) ==> x.sccMember.Some? && InCycle(c, x) && x.drop.None?
    ensures BreaksInside(inp, c, x) ==> InCycle(c, x) && x.drop.None?
  {
    hide MemberQualifies;
  }

  lemma Unrecorded(inp: Input, c: Condensation, all: seq<Candidate>, xs: seq<Candidate>, x: Candidate)
    requires WellFormed(inp, c) && Told(inp, c, all) && Agree(all) && (forall y :: y in xs ==> y in all) && x in all
    requires Placed(c, xs)
    requires x.via != Content && x.drop.None? && !OwnEvidence(inp, x.run)
    ensures x.run !in OnRecord(inp, c, all, xs)
  {
    hide WellFormed, Told, Agree, OwnEvidence, AllRecorded, Assemble.FallenRuns;
    NotFallen(inp, c, all, x);
    NotRecorded(inp, c, all, xs, x);
  }

  lemma Kin(inp: Input, c: Condensation, all: seq<Candidate>, x: Candidate, y: Candidate)
    requires Told(inp, c, all) && Agree(all) && x in all && y in all
    ensures AtExit(c, x) && AtExit(c, y) && Story(inp, c, x) && Story(inp, c, y)
    ensures x.run == y.run || x.superId == y.superId ==> SameFate(x, y)
  {
    hide Story, FromChannels, SameFate;
  }

  lemma NotFallen(inp: Input, c: Condensation, all: seq<Candidate>, x: Candidate)
    requires WellFormed(inp, c) && Told(inp, c, all) && Agree(all) && x in all
    requires x.via != Content && x.drop.None? && !OwnEvidence(inp, x.run)
    ensures x.run !in Assemble.FallenRuns(all, LoopRuns(c))
  {
    hide WellFormed, LoopRuns, Told, Agree, OwnEvidence, Story, Assemble.Falls, InCycle;
    if x.run in Assemble.FallenRuns(all, LoopRuns(c)) {
      var y :| y in all && Assemble.Falls(y) && y.run !in LoopRuns(c) && y.run == x.run;
      Seated(inp, c, all, x);
      Kin(inp, c, all, x, y);
      LoopRunsAre(inp, c, x);
      NeverFallen(inp, c, x, y);
    }
  }

  lemma Seated(inp: Input, c: Condensation, all: seq<Candidate>, x: Candidate)
    requires Told(inp, c, all) && x in all
    ensures AtExit(c, x) && x.run in c.superOf && Story(inp, c, x) && FromChannels(inp, c, x)
  {
    hide Story, FromChannels;
  }

  lemma NotRecorded(inp: Input, c: Condensation, all: seq<Candidate>, xs: seq<Candidate>, x: Candidate)
    requires WellFormed(inp, c) && Told(inp, c, all) && Agree(all) && (forall y :: y in xs ==> y in all) && x in all
    requires Placed(c, xs)
    requires x.via != Content && x.drop.None?
    ensures x.run !in AllRecorded(inp, c, xs)
  {
    hide WellFormed, Drill, LoopRuns, Told, Agree, Story, Assemble.Falls, InCycle;
    if x.run in AllRecorded(inp, c, xs) {
      var y :| y in xs && x.run in Recorded(inp, c, y);
      Seated(inp, c, all, x);
      Kin(inp, c, all, x, y);
      DrillFacts(inp, c, y);
      MembersLocated(inp, c, y.superId, Drill(inp, c, y).culprit);
    }
  }

  lemma NeverFallen(inp: Input, c: Condensation, x: Candidate, y: Candidate)
    requires Story(inp, c, x) && Story(inp, c, y) && SameFate(x, y) && !InCycle(c, x)
    requires x.via != Content && x.drop.None? && !OwnEvidence(inp, x.run)
    ensures !Assemble.Falls(y)
  {
    SccInside(inp, c, x);
    hide PointsInside, BreaksInside, HardFault, HasFailSignal, HasContentFlag;
  }

  // ---------- The exact guards ----------

  // An origin of the hard channel with nothing measured, nothing scored low, nothing flagged, no live bad
  // verdict: its content defect has only refuting evidence.
  predicate StarvedOrigin(inp: Input, x: Candidate) {
    && x.via != Content && x.drop.None? && !OwnEvidence(inp, x.run) && !LiveBad(inp)
    && (x.via == Both || TerminalBad(inp))
  }

  // A lone origin in a cycle is drilled to the worst member even when no fall was measured there.
  predicate StarvedDrill(inp: Input, c: Condensation, x: Candidate)
    requires x.superId < |c.supers|
  {
    var d := Drill(inp, c, x);
    d.fall.None? && !OwnEvidence(inp, d.culprit) && !LiveBad(inp) && (d.culprit == x.run ==> StarvedOrigin(inp, x))
  }

  predicate Starved(inp: Input, c: Condensation, row: Row)
    requires RowReady(c, row)
  {
    match row
    case Runaway(_, others) => exists x :: x in others && StarvedOrigin(inp, x)
    case ManyOrigins(xs) => exists x :: x in xs && StarvedOrigin(inp, x)
    case OneOrigin(x) => StarvedDrill(inp, c, x)
    case ContentUnplaced(_) => !LiveBad(inp)
    case WholeOnly(_) => !LiveBad(inp)
    case _ => false
  }

  // ---------- How each origin was found ----------

  function Vias(xs: seq<Candidate>): map<RunId, Via> {
    if xs == [] then map[] else
      var n := |xs| - 1;
      Vias(xs[..n])[xs[n].run := xs[n].via]
  }

  function Assumptions(xs: seq<Candidate>): map<RunId, bool> {
    if xs == [] then map[] else
      var n := |xs| - 1;
      Assumptions(xs[..n])[xs[n].run := xs[n].baseAssumed]
  }

  lemma {:induction false} ViasContents(xs: seq<Candidate>)
    ensures forall r :: r in Vias(xs) <==> exists x :: x in xs && x.run == r
    ensures forall r :: r in Vias(xs) ==> exists x :: x in xs && x.run == r && Vias(xs)[r] == x.via
  {
    if xs != [] {
      var n := |xs| - 1;
      ViasContents(xs[..n]);
      assert xs == xs[..n] + [xs[n]];
      forall r | r in Vias(xs) ensures exists x :: x in xs && x.run == r && Vias(xs)[r] == x.via {
        if r == xs[n].run {
          assert xs[n] in xs;
        } else {
          assert r in Vias(xs[..n]);
          var x :| x in xs[..n] && x.run == r && Vias(xs[..n])[r] == x.via;
          assert x in xs;
        }
      }
      forall r | exists x :: x in xs && x.run == r ensures r in Vias(xs) {
        var x :| x in xs && x.run == r;
        assert x == xs[n] || x in xs[..n];
      }
    }
  }

  lemma ViaIs(inp: Input, c: Condensation, all: seq<Candidate>, x: Candidate)
    requires Told(inp, c, all) && Agree(all) && x in all
    ensures ViaOf(Vias(all), x.run) == x.via
  {
    hide Story, FromChannels;
    ViasContents(all);
    var y :| y in all && y.run == x.run && Vias(all)[x.run] == y.via;
    assert AtExit(c, x) && AtExit(c, y) && SameFate(x, y);
  }

  // ---------- Row by row ----------

  ghost predicate Covered(c: Condensation, nodes: seq<RunId>) {
    forall r :: r in nodes <==> r in c.graph.nodes
  }

  lemma HardFaultShows(inp: Input, c: Condensation, x: Candidate)
    requires AtExit(c, x) && Story(inp, c, x) && x.via != Content
    ensures Violations(inp, x.run) != [] || HasFailSignal(inp, x.run)
  {
    hide PointsInside, BreaksInside, HasFailSignal;
  }

  lemma OriginIff(inp: Input, c: Condensation, lane: set<RunId>, nodes: seq<RunId>, ix: Index, all: seq<Candidate>,
                  xs: seq<Candidate>, x: Candidate)
    requires WellFormed(inp, c) && Told(inp, c, all) && Agree(all) && (forall y :: y in xs ==> y in all) && x in xs
    requires Placed(c, xs)
    requires Indexes(inp, lane, nodes, ix) && Covered(c, nodes) && ix.drop.Keys == OnRecord(inp, c, all, xs)
    ensures (EmitsContent(ix, Resolved(inp, c, x), ViaOf(Vias(all), Resolved(inp, c, x)), TerminalBad(inp)) ==>
             Backed(inp, ix, Resolved(inp, c, x))) <==> !StarvedOrigin(inp, x)
    ensures Resolved(inp, c, x) in nodes
  {
    hide WellFormed, Story, FromChannels, Drill, OwnEvidence, LiveBad, HasContract, ViaOf, Vias, OnRecord,
      NodesIndexed, ListEach,
      TerminalIndexed, RunsIndexed, KeysIndexed, DropsIndexed, Agree;
    assert AtExit(c, x) && Story(inp, c, x);
    ExitInside(inp, c, x);
    DrillFacts(inp, c, x);
    MembersLocated(inp, c, x.superId, Drill(inp, c, x).culprit);
    if x.via == Content || x.drop.Some? {
      OriginStands(inp, c, all, xs, x);
    } else {
      ViaIs(inp, c, all, x);
      HardFaultShows(inp, c, x);
      BreachesAt(inp, nodes, ix, x.run);
      SignalIsEvidence(inp, x.run);
      if !OwnEvidence(inp, x.run) {
        Unrecorded(inp, c, all, xs, x);
      }
    }
  }

  lemma SignalIsEvidence(inp: Input, r: RunId)
    ensures HasFailSignal(inp, r) || HasContentFlag(inp, r) || Low(inp, r) ==> OwnEvidence(inp, r)
  {
  }

  lemma ManyValid(inp: Input, c: Condensation, lane: set<RunId>, nodes: seq<RunId>, ix: Index, all: seq<Candidate>,
                  xs: seq<Candidate>,
                  assumed: map<RunId, bool>)
    requires WellFormed(inp, c) && Told(inp, c, all) && Agree(all) && (forall y :: y in xs ==> y in all)
    requires Placed(c, xs)
    requires Indexes(inp, lane, nodes, ix) && Bounded(ix) && Covered(c, nodes)
    requires ix.drop.Keys == OnRecord(inp, c, all, xs)
    ensures AllValid(ix.findings,
      MultiDefects(inp, ix, AllResolved(inp, c, xs), Vias(all), assumed, TerminalBad(inp))) <==>
      !exists x :: x in xs && StarvedOrigin(inp, x)
    ensures AllInBounds(ix.findings,
      MultiDefects(inp, ix, AllResolved(inp, c, xs), Vias(all), assumed, TerminalBad(inp)))
  {
    hide *;
    var runs := AllResolved(inp, c, xs);
    forall i | 0 <= i < |xs|
      ensures (EmitsContent(ix, runs[i], ViaOf(Vias(all), runs[i]), TerminalBad(inp)) ==> Backed(inp, ix, runs[i])) <==>
        !StarvedOrigin(inp, xs[i])
      ensures runs[i] in nodes
    {
      assert xs[i] in xs;
      OriginIff(inp, c, lane, nodes, ix, all, xs, xs[i]);
    }
    MultiValid(inp, lane, nodes, ix, runs, Vias(all), assumed, TerminalBad(inp));
    if x :| x in xs && StarvedOrigin(inp, x) {
      var i :| 0 <= i < |xs| && xs[i] == x;
      assert runs[i] in runs;
    }
  }

  lemma SingleIff(inp: Input, c: Condensation, lane: set<RunId>, nodes: seq<RunId>, ix0: Index, x: Candidate,
                  assumed: bool)
    requires WellFormed(inp, c) && AtExit(c, x) && Story(inp, c, x)
    requires Indexes(inp, lane, nodes, ix0) && Covered(c, nodes)
    requires ix0.drop.Keys == Assemble.FallenRuns([x], LoopRuns(c))
    requires Indexes(inp, lane, nodes, AfterSingle(inp, c, ix0, x)) && Bounded(AfterSingle(inp, c, ix0, x))
    ensures var ix, m := AfterSingle(inp, c, ix0, x), Drill(inp, c, x).culprit;
      m in nodes &&
      ((EmitsContent(ix, m, ViaOf(Vias([x]), m), TerminalBad(inp)) ==> Backed(inp, ix, m)) <==>
        !StarvedDrill(inp, c, x))
  {
    hide WellFormed, Drill, OwnEvidence, LiveBad, HasContract, ViaOf, Vias, Indexes, AfterSingle, LoopRuns,
      PointsInside, BreaksInside,
      HasFailSignal, HasContentFlag, Assemble.FallenRuns, Bounded, AtExit, TerminalBad;
    var ix, m := AfterSingle(inp, c, ix0, x), Drill(inp, c, x).culprit;
    SingleKeeps(inp, c, lane, nodes, ix0, x);
    LoopRunsAre(inp, c, x);
    DrillFacts(inp, c, x);
    SccInside(inp, c, x);
    MembersLocated(inp, c, x.superId, m);
    BreachesListed(inp, lane, nodes, ix);
    BreachesAt(inp, nodes, ix, m);
    SignalIsEvidence(inp, x.run);
    SignalIsEvidence(inp, m);
    LoneFall(c, x);
    LoneVia(x, m);
    if m == x.run && x.via != Content {
      HardFaultShows(inp, c, x);
    }
  }

  lemma LoneFall(c: Condensation, x: Candidate)
    ensures Assemble.FallenRuns([x], LoopRuns(c)) == if Assemble.Falls(x) && x.run !in LoopRuns(c) then {x.run} else {}
  {
    hide LoopRuns, Assemble.Falls;
  }

  lemma LoneVia(x: Candidate, m: RunId)
    ensures ViaOf(Vias([x]), m) == if m == x.run then x.via else Content
  {
    assert [x][..0] == [];
  }

  lemma NearMissBacked(inp: Input, c: Condensation, lane: set<RunId>, nodes: seq<RunId>, ix0: Index, x: Candidate)
    requires WellFormed(inp, c) && AtExit(c, x) && Story(inp, c, x) && (!InCycle(c, x) || x.sccMember.Some?)
    requires Indexes(inp, lane, nodes, ix0) && Covered(c, nodes)
    requires ix0.drop.Keys == Assemble.FallenRuns([x], LoopRuns(c))
    requires Indexes(inp, lane, nodes, AfterNearMiss(inp, c, ix0, x))
    ensures var ix, m := AfterNearMiss(inp, c, ix0, x), NearMissRun(x);
      m in nodes && (HasContract(ix, m) || Backed(inp, ix, m))
  {
    hide WellFormed, OwnEvidence, LiveBad, HasContract, Indexes, LoopRuns, BreaksInside, HasFailSignal, HasContentFlag,
      Assemble.FallenRuns, AtExit, MeasuredFall, Highest, MemberQualifies, InCycle;
    var ix, m := AfterNearMiss(inp, c, ix0, x), NearMissRun(x);
    LoopRunsAre(inp, c, x);
    DrillFacts(inp, c, x);
    SccInside(inp, c, x);
    ExitInside(inp, c, x);
    MembersLocated(inp, c, x.superId, Drill(inp, c, x).culprit);
    SignalIsEvidence(inp, m);
    LoneFall(c, x);
    if x.sccMember.Some? {
      InsideFell(inp, c, x);
      EnsuredKeeps(inp, lane, nodes, ix0, m, ScoreOf(inp, m), Highest(inp, RunPreds(c.graph, m)),
        MeasuredFall(inp, c.graph, m));
    } else {
      BreachesListed(inp, lane, nodes, ix);
      BreachesAt(inp, nodes, ix, m);
      if x.via == Deterministic {
        HardFaultShows(inp, c, x);
      }
    }
  }

  lemma InsideFell(inp: Input, c: Condensation, x: Candidate)
    requires Story(inp, c, x) && x.sccMember.Some?
    ensures PointsInside(inp, c, x)
    ensures MeasuredFall(inp, c.graph, x.sccMember.value).Some? || Low(inp, x.sccMember.value)
  {
    assert PointsInside(inp, c, x) by {
      hide PointsInside, BreaksInside, HardFault;
    }
    FallNeedsPreds(inp, c.graph, x.sccMember.value);
    hide Lowest, MeasuredFall, BrokeHere, MemberRecovered, RunPreds;
  }

  // ---------- The whole cascade ----------

  // The index as built: falls of the candidates outside cycles, anomalies at their members.
  ghost predicate Built(inp: Input, c: Condensation, lane: set<RunId>, nodes: seq<RunId>, a: Analysis,
                        anomalies: seq<Anomaly>, ix: Index) {
    && Indexes(inp, lane, nodes, ix) && Covered(c, nodes)
    && ix.drop.Keys == Assemble.FallenRuns(a.candidates, LoopRuns(c)) && ix.loop.Keys == Assemble.MemberRuns(anomalies)
  }

  lemma AllValidConcat(fs: seq<Finding>, ds: seq<Defect>, es: seq<Defect>)
    ensures AllValid(fs, ds + es) <==> AllValid(fs, ds) && AllValid(fs, es)
    ensures AllInBounds(fs, ds + es) <==> AllInBounds(fs, ds) && AllInBounds(fs, es)
    ensures AllValid(fs, ds) ==> AllInBounds(fs, ds)
  {
    hide InBounds, Supported, CitesShipment;
    assert forall d :: d in ds + es <==> d in ds || d in es;
  }

  ghost predicate Outcome(ix: Index, ds: seq<Defect>, starved: bool) {
    (AllValid(ix.findings, ds) <==> !starved) && AllInBounds(ix.findings, ds)
  }

  lemma RunawayValid(inp: Input, c: Condensation, lane: set<RunId>, nodes: seq<RunId>, a: Analysis,
                     anomalies: seq<Anomaly>, ix0: Index,
                     an: Anomaly, others: seq<Candidate>, assumed: map<RunId, bool>)
    requires WellFormed(inp, c) && Told(inp, c, a.candidates) && Agree(a.candidates)
    requires Built(inp, c, lane, nodes, a, anomalies, ix0)
    requires an in anomalies && InsideCycle(c, an) && (forall x :: x in others ==> x in a.candidates)
    requires Placed(c, others)
    ensures var row := Runaway(an, others);
      Indexes(inp, lane, nodes, RowIndex(inp, c, ix0, row)) && Bounded(RowIndex(inp, c, ix0, row)) &&
      Outcome(RowIndex(inp, c, ix0, row),
        RowDefects(inp, c, RowIndex(inp, c, ix0, row), row, Vias(a.candidates), assumed), Starved(inp, c, row))
  {
    hide *;
    var row := Runaway(an, others);
    RunawayReady(c, an, others);
    Unbuild(inp, c, lane, nodes, a, anomalies, ix0);
    RowKeeps(inp, c, lane, nodes, ix0, row);
    var ix := RunawayIndex(inp, c, lane, nodes, a, anomalies, ix0, an, others);
    LoopCulpritInside(c, anomalies, an);
    LoopHasCulprit(an);
    LoopValid(inp, lane, nodes, ix, LoopCulprits(an)[0]);
    ManyValid(inp, c, lane, nodes, ix, a.candidates, others, assumed);
    RunawayDefects(inp, c, ix, an, others, Vias(a.candidates), assumed);
    AllValidConcat(ix.findings, EmitLoop(ix, LoopCulprits(an)[0]),
                   MultiDefects(inp, ix, AllResolved(inp, c, others), Vias(a.candidates), assumed, TerminalBad(inp)));
    OutcomeIs(inp, c, ix, row, RowDefects(inp, c, ix, row, Vias(a.candidates), assumed));
  }

  lemma OutcomeIs(inp: Input, c: Condensation, ix: Index, row: Row, ds: seq<Defect>)
    requires RowReady(c, row) && (row.Runaway? || row.ManyOrigins?) && AllInBounds(ix.findings, ds)
    requires var xs := if row.Runaway? then row.others else row.origins;
      AllValid(ix.findings, ds) <==> !exists x :: x in xs && StarvedOrigin(inp, x)
    ensures Outcome(ix, ds, Starved(inp, c, row))
  {
    hide StarvedOrigin, AllValid, AllInBounds;
  }

  lemma RunawayReady(c: Condensation, an: Anomaly, others: seq<Candidate>)
    requires InsideCycle(c, an) && Placed(c, others)
    ensures an.members != [] && RowReady(c, Runaway(an, others))
  {
  }

  lemma RunawayDefects(inp: Input, c: Condensation, ix: Index, an: Anomaly, others: seq<Candidate>, vias: map<RunId,
                       Via>, assumed: map<RunId, bool>)
    requires RowReady(c, Runaway(an, others)) && Placed(c, others) && Bounded(ix) && LoopCulprits(an) != []
    ensures RowDefects(inp, c, ix, Runaway(an, others), vias, assumed) ==
      EmitLoop(ix, LoopCulprits(an)[0]) +
        MultiDefects(inp, ix, AllResolved(inp, c, others), vias, assumed, TerminalBad(inp))
  {
    hide Bounded, EmitLoop, MultiDefects, AllResolved;
  }

  lemma RunawayIndex(inp: Input, c: Condensation, lane: set<RunId>, nodes: seq<RunId>, a: Analysis,
                     anomalies: seq<Anomaly>, ix0: Index,
                     an: Anomaly, others: seq<Candidate>) returns (ix: Index)
    requires Built(inp, c, lane, nodes, a, anomalies, ix0) && RowReady(c, Runaway(an, others)) && Placed(c, others)
    ensures ix == RowIndex(inp, c, ix0, Runaway(an, others))
    ensures Covered(c, nodes) && ix.drop.Keys == OnRecord(inp, c, a.candidates, others)
    ensures ix.loop.Keys == Assemble.MemberRuns(anomalies)
  {
    hide Indexes, AllRecorded, Assemble.FallenRuns, LoopRuns, Assemble.MemberRuns, Covered;
    AfterAllKeeps(inp, c, lane, nodes, ix0, others);
    hide AfterAll;
    ix := RowIndex(inp, c, ix0, Runaway(an, others));
  }

  lemma LoopCulpritInside(c: Condensation, anomalies: seq<Anomaly>, an: Anomaly)
    requires an in anomalies && InsideCycle(c, an)
    ensures LoopCulprits(an) != [] && LoopCulprits(an)[0] in Assemble.MemberRuns(anomalies)
    ensures forall r :: r in LoopCulprits(an) ==> r in an.members
  {
    var r := LoopCulprits(an)[0];
    assert r in LoopCulprits(an) && r in an.members;
  }

  lemma Unbuild(inp: Input, c: Condensation, lane: set<RunId>, nodes: seq<RunId>, a: Analysis, anomalies: seq<Anomaly>,
                ix: Index)
    requires Built(inp, c, lane, nodes, a, anomalies, ix)
    ensures Indexes(inp, lane, nodes, ix) && Covered(c, nodes)
    ensures ix.drop.Keys == Assemble.FallenRuns(a.candidates, LoopRuns(c))
    ensures ix.loop.Keys == Assemble.MemberRuns(anomalies)
  {
    hide Indexes, Assemble.FallenRuns, LoopRuns, Assemble.MemberRuns, Covered;
  }

  lemma ManyOriginsValid(inp: Input, c: Condensation, lane: set<RunId>, nodes: seq<RunId>, a: Analysis,
                         anomalies: seq<Anomaly>, ix0: Index,
                         assumed: map<RunId, bool>)
    requires WellFormed(inp, c) && Told(inp, c, a.candidates) && Agree(a.candidates)
    requires Built(inp, c, lane, nodes, a, anomalies, ix0)
    requires Placed(c, a.candidates)
    ensures var row := ManyOrigins(a.candidates);
      Indexes(inp, lane, nodes, RowIndex(inp, c, ix0, row)) && Bounded(RowIndex(inp, c, ix0, row)) &&
      Outcome(RowIndex(inp, c, ix0, row),
        RowDefects(inp, c, RowIndex(inp, c, ix0, row), row, Vias(a.candidates), assumed), Starved(inp, c, row))
  {
    hide *;
    var row := ManyOrigins(a.candidates);
    Unbuild(inp, c, lane, nodes, a, anomalies, ix0);
    ManyReady(inp, c, ix0, a.candidates);
    RowKeeps(inp, c, lane, nodes, ix0, row);
    AfterAllKeeps(inp, c, lane, nodes, ix0, a.candidates);
    RecordIs(inp, c, a.candidates, a.candidates);
    var ix := RowIndex(inp, c, ix0, row);
    ManyValid(inp, c, lane, nodes, ix, a.candidates, a.candidates, assumed);
    ManyDefects(inp, c, ix, a.candidates, Vias(a.candidates), assumed);
    OutcomeIs(inp, c, ix, row, RowDefects(inp, c, ix, row, Vias(a.candidates), assumed));
  }

  lemma ManyReady(inp: Input, c: Condensation, ix: Index, xs: seq<Candidate>)
    requires Placed(c, xs)
    ensures RowReady(c, ManyOrigins(xs)) && RowIndex(inp, c, ix, ManyOrigins(xs)) == AfterAll(inp, c, ix, xs)
  {
    hide AfterAll;
  }

  lemma RecordIs(inp: Input, c: Condensation, all: seq<Candidate>, xs: seq<Candidate>)
    requires Placed(c, xs)
    ensures OnRecord(inp, c, all, xs) == Assemble.FallenRuns(all, LoopRuns(c)) + AllRecorded(inp, c, xs)
  {
    hide AllRecorded, LoopRuns, Assemble.FallenRuns;
  }

  lemma ManyDefects(inp: Input, c: Condensation, ix: Index, xs: seq<Candidate>, vias: map<RunId, Via>,
                    assumed: map<RunId, bool>)
    requires Placed(c, xs) && RowReady(c, ManyOrigins(xs)) && Bounded(ix)
    ensures RowDefects(inp, c, ix, ManyOrigins(xs), vias, assumed) ==
      MultiDefects(inp, ix, AllResolved(inp, c, xs), vias, assumed, TerminalBad(inp))
  {
    hide Bounded, MultiDefects, AllResolved;
  }

  // ---------- Rows about one run only ----------

  ghost predicate RowStands(inp: Input, c: Condensation, ix0: Index, row: Row, vias: map<RunId, Via>,
                            assumed: map<RunId, bool>)
    requires RowReady(c, row) && Bounded(RowIndex(inp, c, ix0, row))
  {
    var ix := RowIndex(inp, c, ix0, row);
    Outcome(ix, RowDefects(inp, c, ix, row, vias, assumed), Starved(inp, c, row))
  }

  lemma NearMissStands(inp: Input, c: Condensation, lane: set<RunId>, nodes: seq<RunId>, ix0: Index, x: Candidate,
                       assumed: map<RunId, bool>)
    requires WellFormed(inp, c) && AtExit(c, x) && Story(inp, c, x) && (!InCycle(c, x) || x.sccMember.Some?)
    requires Indexes(inp, lane, nodes, ix0) && Covered(c, nodes)
    requires ix0.drop.Keys == Assemble.FallenRuns([x], LoopRuns(c))
    requires RowReady(c, NearMiss(x)) && Bounded(RowIndex(inp, c, ix0, NearMiss(x)))
    ensures RowStands(inp, c, ix0, NearMiss(x), Vias([x]), assumed)
  {
    hide *;
    RowKeeps(inp, c, lane, nodes, ix0, NearMiss(x));
    NearMissUnfolds(inp, c, ix0, x);
    NearMissBacked(inp, c, lane, nodes, ix0, x);
    var m := NearMissRun(x);
    RecoveredValid(inp, lane, nodes, AfterNearMiss(inp, c, ix0, x), m, AssumedAt(assumed, m));
    NearMissAllValid(inp, c, ix0, x, Vias([x]), assumed);
  }

  lemma NearMissUnfolds(inp: Input, c: Condensation, ix0: Index, x: Candidate)
    requires RowReady(c, NearMiss(x))
    ensures RowIndex(inp, c, ix0, NearMiss(x)) == AfterNearMiss(inp, c, ix0, x)
  {
    hide AfterNearMiss;
  }

  lemma NearMissAllValid(inp: Input, c: Condensation, ix0: Index, x: Candidate, vias: map<RunId, Via>,
                         assumed: map<RunId, bool>)
    requires RowReady(c, NearMiss(x)) && Bounded(RowIndex(inp, c, ix0, NearMiss(x)))
    requires Bounded(AfterNearMiss(inp, c, ix0, x))
    requires var ds :=
      EmitRecovered(inp, AfterNearMiss(inp, c, ix0, x), NearMissRun(x), AssumedAt(assumed, NearMissRun(x)));
      AllValid(AfterNearMiss(inp, c, ix0, x).findings, ds) && AllInBounds(AfterNearMiss(inp, c, ix0, x).findings, ds)
    ensures RowStands(inp, c, ix0, NearMiss(x), vias, assumed)
  {
    hide AfterNearMiss, EmitRecovered, AllValid, AllInBounds, Bounded, AssumedAt;
  }

  lemma UnplacedStands(inp: Input, c: Condensation, lane: set<RunId>, nodes: seq<RunId>, ix0: Index, x: Candidate,
                       assumed: map<RunId, bool>)
    requires WellFormed(inp, c) && AtExit(c, x) && Indexes(inp, lane, nodes, ix0) && Covered(c, nodes)
    requires RowReady(c, ContentUnplaced(x)) && Bounded(RowIndex(inp, c, ix0, ContentUnplaced(x)))
    ensures RowStands(inp, c, ix0, ContentUnplaced(x), Vias([x]), assumed)
  {
    hide WellFormed, AtExit, Indexes, Bounded, EmitTerminalUnlocalized, Vias, ValidDefect, InBounds, LiveBad;
    ExitInside(inp, c, x);
    UnlocalizedValid(inp, lane, nodes, ix0, x.run);
  }

  lemma OneOriginStands(inp: Input, c: Condensation, lane: set<RunId>, nodes: seq<RunId>, ix0: Index, x: Candidate,
                        assumed: map<RunId, bool>)
    requires WellFormed(inp, c) && AtExit(c, x) && Story(inp, c, x)
    requires Indexes(inp, lane, nodes, ix0) && Covered(c, nodes)
    requires ix0.drop.Keys == Assemble.FallenRuns([x], LoopRuns(c))
    requires RowReady(c, OneOrigin(x)) && Bounded(RowIndex(inp, c, ix0, OneOrigin(x)))
    ensures RowStands(inp, c, ix0, OneOrigin(x), Vias([x]), assumed)
  {
    hide *;
    SingleFits(inp, c, ix0, x);
    RowKeeps(inp, c, lane, nodes, ix0, OneOrigin(x));
    var m := Drill(inp, c, x).culprit;
    SingleIff(inp, c, lane, nodes, ix0, x, AssumedAt(assumed, m));
    OriginValid(inp, lane, nodes, AfterSingle(inp, c, ix0, x), m, ViaOf(Vias([x]), m), AssumedAt(assumed, m),
      TerminalBad(inp));
    SingleStands(inp, c, ix0, x, Vias([x]), assumed);
  }

  lemma SingleFits(inp: Input, c: Condensation, ix0: Index, x: Candidate)
    requires RowReady(c, OneOrigin(x))
    ensures x.superId < |c.supers| && RowIndex(inp, c, ix0, OneOrigin(x)) == AfterSingle(inp, c, ix0, x)
  {
    hide AfterSingle;
  }

  lemma SingleStands(inp: Input, c: Condensation, ix0: Index, x: Candidate, vias: map<RunId, Via>, assumed: map<RunId,
                     bool>)
    requires RowReady(c, OneOrigin(x)) && x.superId < |c.supers| && Bounded(RowIndex(inp, c, ix0, OneOrigin(x)))
    requires Bounded(AfterSingle(inp, c, ix0, x))
    requires var ix, m := AfterSingle(inp, c, ix0, x), Drill(inp, c, x).culprit;
      var ds := EmitCutPoint(inp, ix, m, ViaOf(vias, m), AssumedAt(assumed, m), TerminalBad(inp));
      (AllValid(ix.findings, ds) <==> !StarvedDrill(inp, c, x)) && AllInBounds(ix.findings, ds)
    ensures RowStands(inp, c, ix0, OneOrigin(x), vias, assumed)
  {
    hide AfterSingle, Drill, EmitCutPoint, AllValid, AllInBounds, StarvedDrill, Bounded, ViaOf, AssumedAt, TerminalBad;
  }

  lemma RunlessStands(inp: Input, c: Condensation, lane: set<RunId>, nodes: seq<RunId>, ix0: Index, row: Row,
                      vias: map<RunId, Via>,
                      assumed: map<RunId, bool>)
    requires Indexes(inp, lane, nodes, ix0) && Covered(c, nodes) && RowReady(c, row)
    requires Bounded(RowIndex(inp, c, ix0, row))
    requires match row
      case ExternalFault(r) => r in c.graph.nodes && InputFlawed(inp, r)
      case Fabrication(r) => r in c.graph.nodes && HasContentFlag(inp, r)
      case WholeOnly(r) => true
      case _ => row.NothingMeasured? || row.NothingFound?
    ensures RowStands(inp, c, ix0, row, vias, assumed)
  {
    hide Indexes, Bounded, EmitExternal, EmitCutPoint, EmitComposition, LiveBad, ValidDefect, InBounds, ViaOf,
      AssumedAt, TerminalBad,
      EmitsContent, Backed, HasContentFlag, InputFlawed, OwnEvidence;
    match row {
      case ExternalFault(r) =>
        ExternalValid(inp, lane, nodes, ix0, r);
        AllValidConcat(ix0.findings, EmitExternal(inp, ix0, r), []);
      case Fabrication(r) =>
        SignalIsEvidence(inp, r);
        AdmittedIsBacked(inp, ix0, r);
        OriginValid(inp, lane, nodes, ix0, r, ViaOf(vias, r), AssumedAt(assumed, r), TerminalBad(inp));
      case WholeOnly(r) =>
        CompositionValid(inp, lane, nodes, ix0);
      case _ =>
    }
  }

  lemma LoneRowValid(inp: Input, c: Condensation, lane: set<RunId>, nodes: seq<RunId>, a: Analysis,
                     anomalies: seq<Anomaly>, ix0: Index,
                     row: Row, assumed: map<RunId, bool>)
    requires CascadeReady(c, a, anomalies) && row == RowOf(inp, c, a, anomalies) && RowReady(c, row)
    requires Told(inp, c, a.candidates) && WellFormed(inp, c) && Built(inp, c, lane, nodes, a, anomalies, ix0)
    requires !row.Runaway? && !row.ManyOrigins?
    ensures Indexes(inp, lane, nodes, RowIndex(inp, c, ix0, row)) && Bounded(RowIndex(inp, c, ix0, row))
    ensures RowStands(inp, c, ix0, row, Vias(a.candidates), assumed)
  {
    hide *;
    Unbuild(inp, c, lane, nodes, a, anomalies, ix0);
    RowKeeps(inp, c, lane, nodes, ix0, row);
    RowFits(inp, c, a, anomalies);
    RowRuns(inp, c, a, anomalies);
    if row.NearMiss? || row.ContentUnplaced? || row.OneOrigin? {
      var x := row.origin;
      assert x in a.candidates;
      Seated(inp, c, a.candidates, x);
      if row.NearMiss? {
        NearMissFits(inp, c, a, anomalies);
        NearMissStands(inp, c, lane, nodes, ix0, x, assumed);
      } else if row.ContentUnplaced? {
        UnplacedStands(inp, c, lane, nodes, ix0, x, assumed);
      } else {
        OneOriginStands(inp, c, lane, nodes, ix0, x, assumed);
      }
    } else {
      RunlessStands(inp, c, lane, nodes, ix0, row, Vias(a.candidates), assumed);
    }
  }

  lemma NearMissFits(inp: Input, c: Condensation, a: Analysis, anomalies: seq<Anomaly>)
    requires CascadeReady(c, a, anomalies) && RowOf(inp, c, a, anomalies).NearMiss?
    ensures RowOf(inp, c, a, anomalies).origin.recovered && TerminalOk(inp)
    ensures var x := RowOf(inp, c, a, anomalies).origin; !InCycle(c, x) || x.sccMember.Some?
  {
    hide QualityUnmeasured, FlawedSources, TerminalOk, TerminalBad, LooksHealthy, Confesses, InCycle;
  }

  lemma AdmittedIsBacked(inp: Input, ix: Index, r: RunId)
    requires OwnEvidence(inp, r)
    ensures Backed(inp, ix, r)
  {
  }

  // Runs named by the rows without candidates are runs of the graph, for the reason the row states.
  lemma RowRuns(inp: Input, c: Condensation, a: Analysis, anomalies: seq<Anomaly>)
    requires WellFormed(inp, c) && CascadeReady(c, a, anomalies)
    ensures match RowOf(inp, c, a, anomalies)
      case ExternalFault(r) => r in c.graph.nodes && InputFlawed(inp, r)
      case Fabrication(r) => r in c.graph.nodes && HasContentFlag(inp, r)
      case WholeOnly(r) => r in c.graph.nodes
      case _ => true
  {
    hide WellFormed, QualityUnmeasured, InCycle, TerminalOk, TerminalBad, LooksHealthy, HasContentFlag, InputFlawed,
      SourceExits, Expand, InRange;
    SourceExitsInside(inp, c);
    ExpandContents(inp, c, c.topo);
    NodesOf(inp, c);
    var row := RowOf(inp, c, a, anomalies);
    if row.ExternalFault? {
      assert row.source in SourceExits(c);
    }
    if row.Fabrication? {
      assert row.admitted in Expand(c, c.topo);
    }
    if row.WholeOnly? {
      assert row.root in Elements(SourceExits(c));
    }
  }

  lemma NodesOf(inp: Input, c: Condensation)
    requires WellFormed(inp, c)
    ensures c.superOf.Keys == c.graph.nodes
  {
    hide Reaches, ProperTopo, ProperSuper, Acyclic;
  }

  lemma SourceExitsInside(inp: Input, c: Condensation)
    requires WellFormed(inp, c) && InRange(c, c.sources)
    ensures forall r :: r in SourceExits(c) ==> r in c.graph.nodes
  {
    NodesOf(inp, c);
    hide WellFormed;
    forall r | r in SourceExits(c) ensures r in c.graph.nodes {
      var i :| 0 <= i < |c.sources| && SourceExits(c)[i] == r;
      assert c.sources[i] in c.sources;
      ExitsLocated(inp, c, c.sources[i]);
    }
  }

  // Main result: what the cascade emits passes the final validation exactly when its row is not starved.
  lemma RowValidIff(inp: Input, c: Condensation, lane: set<RunId>, nodes: seq<RunId>, a: Analysis,
                    anomalies: seq<Anomaly>, ix0: Index,
                    row: Row, assumed: map<RunId, bool>)
    requires Analyzed(inp, c, a, anomalies) && CascadeReady(c, a, anomalies) && row == RowOf(inp, c, a, anomalies)
    requires RowReady(c, row)
    requires Built(inp, c, lane, nodes, a, anomalies, ix0)
    ensures Indexes(inp, lane, nodes, RowIndex(inp, c, ix0, row)) && Bounded(RowIndex(inp, c, ix0, row))
    ensures RowStands(inp, c, ix0, row, Vias(a.candidates), assumed)
  {
    hide *;
    AnalyzedIsReady(inp, c, a, anomalies);
    RowFits(inp, c, a, anomalies);
    if row.Runaway? {
      RunawayFits(c, a, row.anomaly, row.others);
      RunawayValid(inp, c, lane, nodes, a, anomalies, ix0, row.anomaly, row.others, assumed);
      Stands(inp, c, ix0, row, Vias(a.candidates), assumed);
    } else if row.ManyOrigins? {
      ManyFits(c, row.origins);
      ManyOriginsValid(inp, c, lane, nodes, a, anomalies, ix0, assumed);
      Stands(inp, c, ix0, row, Vias(a.candidates), assumed);
    } else {
      LoneRowValid(inp, c, lane, nodes, a, anomalies, ix0, row, assumed);
    }
  }

  lemma Stands(inp: Input, c: Condensation, ix0: Index, row: Row, vias: map<RunId, Via>, assumed: map<RunId, bool>)
    requires RowReady(c, row) && Bounded(RowIndex(inp, c, ix0, row))
    requires Outcome(RowIndex(inp, c, ix0, row), RowDefects(inp, c, RowIndex(inp, c, ix0, row), row, vias, assumed),
      Starved(inp, c, row))
    ensures RowStands(inp, c, ix0, row, vias, assumed)
  {
    hide Outcome, RowDefects, Bounded, RowIndex, Starved;
  }

  lemma RunawayFits(c: Condensation, a: Analysis, an: Anomaly, others: seq<Candidate>)
    requires RowReady(c, Runaway(an, others))
    ensures Placed(c, others)
  {
  }

  lemma ManyFits(c: Condensation, xs: seq<Candidate>)
    requires RowReady(c, ManyOrigins(xs))
    ensures Placed(c, xs)
  {
  }
}
