// Every published finding is a recorded fact, and every recorded fact is published.

module Facts {
  import opened Prelude
  import opened Graphs
  import opened BlameInput
  import opened RunRecord
  import opened Condense
  import opened Propagation
  import opened CutPoint
  import opened Origins
  import opened Evidence
  import opened FindingIndex
  import opened Assemble
  import opened Derive
  import opened Reconcile
  import opened Loops
  import opened CandidateFacts
  import opened Cascade
  import opened Gaps
  import opened Soundness
  import opened Blame
  import opened Reports
  import Measured

  // ---------- The facts of a run ----------

  // A verifier that nothing but verifiers read from.
  ghost predicate Reviews(inp: Input, r: RunId) {
    Checks(inp, r) && forall e :: e in inp.edges && e.0 == r ==> Checks(inp, e.1)
  }

  ghost predicate ScoreFact(inp: Input, r: RunId, f: Finding) {
    HasScore(inp, r) && f == Finding(ContentScore, Judged, OfRun(r), NO_DATA.(score := Some(ScoreIn(inp, r))), None)
  }

  ghost predicate FlagFact(inp: Input, r: RunId, f: Finding) {
    && r in inp.scores && f == Finding(ContentFlag, Judged, OfRun(r), NO_DATA.(name := f.data.name), None)
    && f.data.name in inp.scores[r].flags
    && (f.data.name == "missing_required_content" || f.data.name == "ignored_instruction" ||
        f.data.name == "factual_error")
  }

  // A verifier of the whole measures what the terminal verdict measures; any other claim stands alone.
  ghost predicate FlawedFact(inp: Input, r: RunId, f: Finding) {
    && Admits(inp, r) && f.kind == FlawedInput && f.channel == Judged && f.subject == OfRun(r)
    && f.data == NO_DATA.(value := if Reviews(inp, r) then Some("bad") else None)
    && f.factKey == if Reviews(inp, r) then Some("assessment:deliverable") else None
  }

  ghost predicate BreachFact(inp: Input, r: RunId, f: Finding) {
    r in inp.scores && exists v :: v in inp.scores[r].violations && f == Finding(ContractBreach, Hard, OfRun(r),
      NO_DATA.(key := Some(v.key), from := Some(v.from), to := Some(v.to), value := Some(v.from)),
      Some("contract:" + v.key))
  }

  ghost predicate SignalFact(inp: Input, r: RunId, f: Finding) {
    r in inp.scores && exists s :: s in inp.scores[r].signals && SaysSignal(r, s, f)
  }

  // A section found missing is measured as absent.
  predicate SaysSignal(r: RunId, s: Signal, f: Finding) {
    var missing := s.missingSection.Some?;
    && f.kind == HardSignal && f.channel == Hard && f.subject == OfRun(r)
    && f.data == NO_DATA.(name := s.name, fail := s.fail, value := if missing then Some("absent") else None)
    && f.factKey == if missing then Some("required_section:" + s.missingSection.value) else None
  }

  // Only a checkable verdict that is not stale says anything about the deliverable.
  ghost predicate ContentVerdictFact(inp: Input, f: Finding) {
    inp.terminal.Some? && var t := inp.terminal.value;
      var live := t.checkable && !t.stale;
      && f.kind == TerminalContent && f.channel == Judged && f.subject == OfTerminal
      && f.data == NO_DATA.(score := t.score, bad := t.bad, checkable := t.checkable, stale := t.stale,
         value := if !live then None else if t.bad then Some("bad") else Some("ok"))
      && f.factKey == if live then Some("assessment:deliverable") else None
  }

  ghost predicate FormVerdictFact(inp: Input, f: Finding) {
    inp.terminal.Some? && var t := inp.terminal.value;
      var named := t.formRequirement.Some? && t.formRequirement.value in inp.fileTypes;
      && (t.formBad || t.formRequirement.Some?)
      && f.kind == TerminalForm && f.channel == Judged && f.subject == OfTerminal
      && f.data == NO_DATA.(bad := t.formBad, observed := t.formObserved,
         value := if named then Some(inp.fileTypes[t.formRequirement.value]) else None)
      && f.factKey == if named then Some("contract:file_type") else None
  }

  // A bad form behind a checkable verdict, which no gate caught.
  predicate MissedFormFact(inp: Input, f: Finding) {
    && inp.terminal.Some? && inp.terminal.value.checkable && inp.terminal.value.formBad
    && f == Finding(DetectionGap, Judged, OfGraph, NO_DATA, None)
  }

  predicate LoopFact(anomalies: seq<Anomaly>, f: Finding) {
    exists an :: an in anomalies && an.members != [] &&
      f == Finding(LoopAnomaly, Hard, OfRun(an.members[0]), NO_DATA, None)
  }

  predicate RefutedFact(gaps: seq<Gap>, f: Finding) {
    exists g :: g in gaps && f == Finding(VerifierVerdict, Judged, OfRun(g.run), NO_DATA, None)
  }

  // The fall of a run: the numbers of an origin found there, or its score against its best direct source.
  ghost predicate FallFact(inp: Input, c: Condensation, cs: seq<Candidate>, f: Finding) {
    && f.kind == ContentDrop && f.channel == Judged && f.subject.OfRun? && f.factKey.None?
    && f.data == NO_DATA.(score := f.data.score, base := f.data.base, drop := f.data.drop)
    && ((exists x :: x in cs && x.run == f.subject.run && f.data.score == x.score && f.data.base == x.base &&
           f.data.drop == x.drop) ||
        OwnFall(inp, c.graph, f.subject.run, f))
  }

  ghost predicate OwnFall(inp: Input, g: Graph, r: RunId, f: Finding) {
    && HasScore(inp, r) && f.data.score == Some(ScoreIn(inp, r))
    && exists q :: Measured.BestSource(inp, g, q, r) && FellFrom(ScoreIn(inp, q), ScoreIn(inp, r), f.data)
  }

  predicate FellFrom(best: real, score: real, data: Data) {
    var fall := Measured.Above(best, score);
    data.drop == Some(fall) && (data.base == Some(best) || data.base == Some(score + fall))
  }

  // A fact about one run of the graph.
  ghost predicate RunFact(inp: Input, c: Condensation, f: Finding) {
    exists r :: r in c.graph.nodes && AboutRun(inp, r, f)
  }

  ghost predicate AboutRun(inp: Input, r: RunId, f: Finding) {
    || ScoreFact(inp, r, f) || FlagFact(inp, r, f) || FlawedFact(inp, r, f) || BreachFact(inp, r, f)
    || SignalFact(inp, r, f)
  }

  ghost predicate WholeFact(inp: Input, anomalies: seq<Anomaly>, f: Finding) {
    ContentVerdictFact(inp, f) || FormVerdictFact(inp, f) || MissedFormFact(inp, f) || LoopFact(anomalies, f)
  }

  // ---------- The makers make those ----------

  lemma {:induction false} FlagsMade(r: RunId, flags: seq<string>)
    ensures forall f :: f in FlagFindings(r, flags) <==>
      f == FlagFinding(r, f.data.name) && f.data.name in flags && f.data.name in CONTENT_FLAGS
  {
    if flags != [] {
      FlagsMade(r, flags[1..]);
      assert flags == [flags[0]] + flags[1..];
    }
  }

  lemma NodeMade(inp: Input, lane: set<RunId>, r: RunId)
    requires r in lane <==> Reviews(inp, r)
    ensures forall f :: f in NodeMaker(inp, lane)(r) <==>
      ScoreFact(inp, r, f) || FlagFact(inp, r, f) || FlawedFact(inp, r, f)
  {
    FieldsAre(inp, r);
    FlagsMade(r, Flags(inp, r));
    hide FlagFindings, Reviews;
  }

  lemma BreachMade(inp: Input, r: RunId)
    ensures forall f :: f in BreachMaker(inp)(r) <==> BreachFact(inp, r, f)
  {
    var vs := Violations(inp, r);
    var made := BreachMaker(inp)(r);
    forall v | v in vs ensures BreachFinding(r, v) in made {
      var i :| 0 <= i < |vs| && vs[i] == v;
      assert made[i] == BreachFinding(r, v);
    }
  }

  lemma SignalMade(inp: Input, r: RunId)
    ensures forall f :: f in SignalMaker(inp)(r) <==> SignalFact(inp, r, f)
  {
    var ss := Signals(inp, r);
    var made := SignalMaker(inp)(r);
    forall s | s in ss ensures SignalFinding(r, s) in made {
      var i :| 0 <= i < |ss| && ss[i] == s;
      assert made[i] == SignalFinding(r, s);
    }
    forall s, f ensures SaysSignal(r, s, f) <==> f == SignalFinding(r, s) {
    }
    hide SaysSignal, SignalFinding;
    forall f | f in made ensures SignalFact(inp, r, f) {
      var i :| 0 <= i < |made| && made[i] == f;
      assert ss[i] in ss && SaysSignal(r, ss[i], f);
    }
  }

  lemma {:induction false} ConcatMade(nodes: seq<RunId>, make: RunId -> seq<Finding>)
    ensures forall f :: f in Concat(nodes, make) <==> exists r :: r in nodes && f in make(r)
  {
    if nodes != [] {
      var n := |nodes| - 1;
      ConcatMade(nodes[..n], make);
      assert nodes == nodes[..n] + [nodes[n]];
      forall f ensures f in Concat(nodes, make) <==> exists r :: r in nodes && f in make(r) {
        if r :| r in nodes && f in make(r) {
          assert r in nodes[..n] || r == nodes[n];
        }
      }
    }
  }

  lemma WholeMade(inp: Input, anomalies: seq<Anomaly>)
    requires forall an :: an in anomalies ==> an.members != []
    ensures forall f :: f in TerminalItems(inp) + AnomalyItems(anomalies) <==> WholeFact(inp, anomalies, f)
  {
    TerminalMade(inp);
    LoopsMade(anomalies);
    hide TerminalItems, AnomalyItems, ContentVerdictFact, FormVerdictFact, MissedFormFact, LoopFact;
  }

  lemma TerminalMade(inp: Input)
    ensures forall f :: f in TerminalItems(inp) <==>
      ContentVerdictFact(inp, f) || FormVerdictFact(inp, f) || MissedFormFact(inp, f)
  {
  }

  lemma LoopsMade(anomalies: seq<Anomaly>)
    requires forall an :: an in anomalies ==> an.members != []
    ensures forall f :: f in AnomalyItems(anomalies) <==> LoopFact(anomalies, f)
  {
    var items := AnomalyItems(anomalies);
    forall an | an in anomalies ensures AnomalyFinding(an) in items {
      var i :| 0 <= i < |anomalies| && anomalies[i] == an;
      assert items[i] == AnomalyFinding(an);
    }
    forall f | f in items ensures LoopFact(anomalies, f) {
      var i :| 0 <= i < |items| && items[i] == f;
      assert anomalies[i] in anomalies;
    }
  }

  lemma LaneIs(inp: Input, g: Graph)
    ensures forall r :: r in g.nodes ==> (r in AssessmentLane(inp, g) <==> Reviews(inp, r))
  {
    forall r ensures Checks(inp, r) <==> IsVerifier(inp, r) {
      FieldsAre(inp, r);
    }
    hide Checks, IsVerifier;
  }

  predicate InRuns(inp: Input, lane: set<RunId>, nodes: seq<RunId>, f: Finding) {
    || f in Concat(nodes, NodeMaker(inp, lane)) || f in Concat(nodes, BreachMaker(inp))
    || f in Concat(nodes, SignalMaker(inp))
  }

  lemma RunsMade(inp: Input, g: Graph, nodes: seq<RunId>)
    requires forall r :: r in nodes <==> r in g.nodes
    ensures forall f :: InRuns(inp, AssessmentLane(inp, g), nodes, f) <==>
      exists r :: r in g.nodes && AboutRun(inp, r, f)
  {
    var lane := AssessmentLane(inp, g);
    LaneIs(inp, g);
    hide AssessmentLane, Reviews;
    ConcatMade(nodes, NodeMaker(inp, lane));
    ConcatMade(nodes, BreachMaker(inp));
    ConcatMade(nodes, SignalMaker(inp));
    hide NodeMaker, BreachMaker, SignalMaker, Concat, ScoreFact, FlagFact, FlawedFact, BreachFact, SignalFact;
    forall r | r in nodes
      ensures forall f :: AboutRun(inp, r, f) <==>
        f in NodeMaker(inp, lane)(r) || f in BreachMaker(inp)(r) || f in SignalMaker(inp)(r)
    {
      NodeMade(inp, lane, r);
      BreachMade(inp, r);
      SignalMade(inp, r);
    }
    hide AboutRun;
  }

  // ---------- The falls ----------

  lemma DropsNext(cs: seq<Candidate>, loops: set<RunId>)
    requires cs != []
    ensures var x, before := cs[|cs| - 1], DropItems(cs[..|cs| - 1], loops);
      DropItems(cs, loops) == before + [CandidateDrop(x)] || DropItems(cs, loops) == before
    ensures var x := cs[|cs| - 1];
      Assemble.Falls(x) && x.run !in loops ==>
        x.run in FallenRuns(cs[..|cs| - 1], loops) || DropItems(cs, loops) == DropItems(cs[..|cs| - 1], loops) +
          [CandidateDrop(x)]
  {
  }

  lemma {:induction false} DropsCome(cs: seq<Candidate>, loops: set<RunId>, f: Finding)
    requires f in DropItems(cs, loops)
    ensures exists x :: x in cs && f == CandidateDrop(x)
  {
    if cs != [] {
      var n := |cs| - 1;
      DropsNext(cs, loops);
      hide DropItems, CandidateDrop;
      if f in DropItems(cs[..n], loops) {
        DropsCome(cs[..n], loops, f);
        var x :| x in cs[..n] && f == CandidateDrop(x);
        assert x in cs;
      } else {
        assert cs[n] in cs;
      }
    }
  }

  lemma {:induction false} DropsHold(cs: seq<Candidate>, loops: set<RunId>, x: Candidate)
    requires x in cs && Assemble.Falls(x) && x.run !in loops
    ensures exists y :: y in cs && y.run == x.run && CandidateDrop(y) in DropItems(cs, loops)
  {
    var n := |cs| - 1;
    DropsNext(cs, loops);
    hide DropItems, CandidateDrop, Assemble.Falls;
    if x in cs[..n] || x.run in FallenRuns(cs[..n], loops) {
      var z :| z in cs[..n] && Assemble.Falls(z) && z.run !in loops && z.run == x.run;
      DropsHold(cs[..n], loops, z);
      var y :| y in cs[..n] && y.run == x.run && CandidateDrop(y) in DropItems(cs[..n], loops);
      assert y in cs;
    } else {
      assert x == cs[n];
    }
  }

  lemma CandidateFall(inp: Input, c: Condensation, cs: seq<Candidate>, x: Candidate)
    requires x in cs
    ensures FallFact(inp, c, cs, CandidateDrop(x))
  {
    hide OwnFall;
  }

  lemma MemberFall(inp: Input, c: Condensation, cs: seq<Candidate>, m: RunId)
    requires MeasuredFall(inp, c.graph, m).Some?
    ensures ScoreOf(inp, m).Some?
    ensures var fall := MeasuredFall(inp, c.graph, m);
      FallFact(inp, c, cs, DropFinding(m, ScoreOf(inp, m), Some(ScoreOf(inp, m).value + fall.value), fall)) &&
      FallFact(inp, c, cs, DropFinding(m, ScoreOf(inp, m), Highest(inp, RunPreds(c.graph, m)), fall))
  {
    var low, high := Measured.SourceExtremes(inp, c.graph, m);
    FieldsAre(inp, m);
    hide HighestRun, RunPreds, Measured.BestSource, HasScore, ScoreIn;
    assert Measured.BestSource(inp, c.graph, high, m);
  }

  // Everything added since is the fall of some run.
  ghost predicate AddsFalls(inp: Input, c: Condensation, cs: seq<Candidate>, ix: Index, out: Index) {
    && ix.findings <= out.findings
    && forall i :: |ix.findings| <= i < |out.findings| ==> FallFact(inp, c, cs, out.findings[i])
  }

  lemma AddsNothing(inp: Input, c: Condensation, cs: seq<Candidate>, ix: Index)
    ensures AddsFalls(inp, c, cs, ix, ix)
  {
  }

  lemma AddsBoth(inp: Input, c: Condensation, cs: seq<Candidate>, a: Index, b: Index, d: Index)
    requires AddsFalls(inp, c, cs, a, b) && AddsFalls(inp, c, cs, b, d)
    ensures AddsFalls(inp, c, cs, a, d)
  {
    hide FallFact;
  }

  lemma EnsuredAdds(inp: Input, c: Condensation, cs: seq<Candidate>, ix: Index, run: RunId, score: Option<real>,
                    base: Option<real>, fall: Option<real>)
    requires FallFact(inp, c, cs, DropFinding(run, score, base, fall))
    ensures AddsFalls(inp, c, cs, ix, Assemble.EnsuredDrop(ix, run, score, base, fall))
  {
    hide FallFact, DropFinding;
    var out := Assemble.EnsuredDrop(ix, run, score, base, fall);
    assert out.findings == ix.findings || out.findings == ix.findings + [DropFinding(run, score, base, fall)];
    hide Assemble.EnsuredDrop;
  }

  lemma DrilledAdds(inp: Input, c: Condensation, cs: seq<Candidate>, ix: Index, x: Candidate)
    requires x.superId < |c.supers|
    ensures var d := Drill(inp, c, x);
      d.fall.Some? ==> AddsFalls(inp, c, cs, ix, DrilledDrop(inp, ix, d.culprit, d.fall.value))
  {
    var d := Drill(inp, c, x);
    if d.fall.Some? {
      assert d.fall == MeasuredFall(inp, c.graph, d.culprit);
      hide Drill, MeasuredFall, FallFact, Assemble.EnsuredDrop, ScoreOf, AddsFalls;
      MemberFall(inp, c, cs, d.culprit);
      var s := ScoreOf(inp, d.culprit);
      EnsuredAdds(inp, c, cs, ix, d.culprit, s, Some(s.value + d.fall.value), d.fall);
    }
  }

  lemma ExitAdds(inp: Input, c: Condensation, cs: seq<Candidate>, ix: Index, x: Candidate)
    requires x in cs
    ensures AddsFalls(inp, c, cs, ix, ExitDrop(ix, x))
  {
    hide FallFact, Assemble.EnsuredDrop, AddsFalls;
    CandidateFall(inp, c, cs, x);
    EnsuredAdds(inp, c, cs, ix, x.run, x.score, x.base, x.drop);
  }

  lemma ResolveAdds(inp: Input, c: Condensation, cs: seq<Candidate>, ix: Index, x: Candidate)
    requires x in cs && x.superId < |c.supers|
    ensures AddsFalls(inp, c, cs, ix, AfterResolve(inp, c, ix, x))
  {
    hide Drill, FallFact, Assemble.EnsuredDrop, AddsFalls, LoopRuns, DrilledDrop, ExitDrop, Moves;
    AddsNothing(inp, c, cs, ix);
    DrilledAdds(inp, c, cs, ix, x);
    ExitAdds(inp, c, cs, ix, x);
  }

  lemma {:induction false} AllAdd(inp: Input, c: Condensation, cs: seq<Candidate>, ix: Index, xs: seq<Candidate>)
    requires Placed(c, xs) && forall x :: x in xs ==> x in cs
    ensures AddsFalls(inp, c, cs, ix, AfterAll(inp, c, ix, xs))
  {
    hide AfterResolve, AddsFalls;
    AddsNothing(inp, c, cs, ix);
    if xs != [] {
      var n := |xs| - 1;
      assert xs[n] in xs && forall x :: x in xs[..n] ==> x in xs;
      AllAdd(inp, c, cs, ix, xs[..n]);
      ResolveAdds(inp, c, cs, AfterAll(inp, c, ix, xs[..n]), xs[n]);
      AddsBoth(inp, c, cs, ix, AfterAll(inp, c, ix, xs[..n]), AfterAll(inp, c, ix, xs));
    }
  }

  lemma SingleAdds(inp: Input, c: Condensation, cs: seq<Candidate>, ix: Index, x: Candidate)
    requires x in cs && x.superId < |c.supers|
    ensures AddsFalls(inp, c, cs, ix, AfterSingle(inp, c, ix, x))
  {
    hide Drill, FallFact, Assemble.EnsuredDrop, AddsFalls, LoopRuns, DrilledDrop, ExitDrop, Assemble.Falls;
    var d := Drill(inp, c, x);
    var ix1 := if d.fall.Some? then DrilledDrop(inp, ix, d.culprit, d.fall.value) else ix;
    AddsNothing(inp, c, cs, ix);
    DrilledAdds(inp, c, cs, ix, x);
    AddsNothing(inp, c, cs, ix1);
    ExitAdds(inp, c, cs, ix1, x);
    AddsBoth(inp, c, cs, ix, ix1, AfterSingle(inp, c, ix, x));
  }

  lemma NearMissAdds(inp: Input, c: Condensation, cs: seq<Candidate>, ix: Index, x: Candidate)
    ensures AddsFalls(inp, c, cs, ix, AfterNearMiss(inp, c, ix, x))
  {
    hide FallFact, AddsFalls, MeasuredFall, ScoreOf;
    AddsNothing(inp, c, cs, ix);
    if x.sccMember.Some? {
      var m := x.sccMember.value;
      if MeasuredFall(inp, c.graph, m).Some? {
        MemberFall(inp, c, cs, m);
        EnsuredAdds(inp, c, cs, ix, m, ScoreOf(inp, m), Highest(inp, RunPreds(c.graph, m)),
          MeasuredFall(inp, c.graph, m));
      }
    }
  }

  lemma RowAdds(inp: Input, c: Condensation, a: Analysis, anomalies: seq<Anomaly>, ix: Index)
    requires CascadeReady(c, a, anomalies)
    ensures RowReady(c, RowOf(inp, c, a, anomalies))
    ensures AddsFalls(inp, c, a.candidates, ix, RowIndex(inp, c, ix, RowOf(inp, c, a, anomalies)))
  {
    RowFits(inp, c, a, anomalies);
    hide CascadeReady, RowOf, AddsFalls, AfterAll, AfterSingle, AfterNearMiss;
    var cs := a.candidates;
    AddsNothing(inp, c, cs, ix);
    match RowOf(inp, c, a, anomalies)
    case Runaway(an, others) => AllAdd(inp, c, cs, ix, others);
    case NearMiss(x) => NearMissAdds(inp, c, cs, ix, x);
    case OneOrigin(x) => SingleAdds(inp, c, cs, ix, x);
    case ManyOrigins(xs) => AllAdd(inp, c, cs, ix, xs);
    case _ =>
  }

  // ---------- The published findings ----------

  lemma ToldOnce(inp: Input, c: Condensation, a: Analysis, anomalies: seq<Anomaly>, nodes: seq<RunId>)
    requires forall an :: an in anomalies ==> an.members != []
    requires forall r :: r in nodes <==> r in c.graph.nodes
    ensures var built := BuiltItems(inp, nodes, AssessmentLane(inp, c.graph), a.candidates, LoopRuns(c), anomalies);
      forall f :: f in built <==>
        RunFact(inp, c, f) || WholeFact(inp, anomalies, f) || f in DropItems(a.candidates, LoopRuns(c))
  {
    var lane, loops := AssessmentLane(inp, c.graph), LoopRuns(c);
    RunsMade(inp, c.graph, nodes);
    WholeMade(inp, anomalies);
    hide Concat, DropItems, TerminalItems, AnomalyItems, NodeMaker, BreachMaker, SignalMaker, AssessmentLane, LoopRuns,
      AboutRun, WholeFact;
    var built := BuiltItems(inp, nodes, lane, a.candidates, loops, anomalies);
    forall f
      ensures f in built <==> (InRuns(inp, lane, nodes, f) || f in TerminalItems(inp) + AnomalyItems(anomalies) ||
                               f in DropItems(a.candidates, loops))
    {
    }
    forall f ensures InRuns(inp, lane, nodes, f) <==> RunFact(inp, c, f) {
    }
  }

  lemma VerdictsMade(gaps: seq<Gap>, told: seq<Finding>)
    requires |told| == |gaps| && forall i :: 0 <= i < |gaps| ==> told[i] == VerdictFinding(gaps[i])
    ensures forall f :: f in told <==> RefutedFact(gaps, f)
  {
    forall f | RefutedFact(gaps, f) ensures f in told {
      var g :| g in gaps && f == VerdictFinding(g);
      var i :| 0 <= i < |gaps| && gaps[i] == g;
      assert told[i] == f;
    }
    forall f | f in told ensures RefutedFact(gaps, f) {
      var i :| 0 <= i < |told| && told[i] == f;
      assert gaps[i] in gaps;
    }
  }

  // A conflict between facts that disagree, found in the reconcile pass.
  predicate IsConflict(f: Finding) {
    f.kind in {RequirementProvenance, AssessmentConflict, RepresentationDivergence} && f.data.values != {}
  }

  lemma ConflictsOnly(fs: seq<Finding>)
    ensures forall f :: f in Divergences(fs) ==> IsConflict(f)
  {
    DivergencesContents(fs, KeysOf(fs));
    forall f | f in Divergences(fs) ensures IsConflict(f) {
      var k :| k in KeysOf(fs) && Disagree(fs, k) && f == DivergenceFor(fs, k);
      assert ValuesOf(fs, k) != {};
    }
  }

  lemma AddedAre(inp: Input, c: Condensation, cs: seq<Candidate>, ix: Index, out: Index, f: Finding)
    requires AddsFalls(inp, c, cs, ix, out)
    ensures f in out.findings ==> f in ix.findings || FallFact(inp, c, cs, f)
    ensures f in ix.findings ==> f in out.findings
  {
    hide FallFact;
    if f in out.findings {
      var i :| 0 <= i < |out.findings| && out.findings[i] == f;
      assert i < |ix.findings| ==> ix.findings[i] == f;
    }
    if f in ix.findings {
      var i :| 0 <= i < |ix.findings| && ix.findings[i] == f;
      assert out.findings[i] == f;
    }
  }

  lemma AllRuns(inp: Input, c: Condensation)
    requires WellFormed(inp, c) && InRange(c, c.topo)
    ensures forall r :: r in Expand(c, c.topo) <==> r in c.graph.nodes
  {
    NodesOf(inp, c);
    ExpandContents(inp, c, c.topo);
    TopoListsAll(inp, c);
    hide WellFormed;
  }

  // Main result: what is published is the supplied facts, the recorded facts of the runs, of the terminal review and
  // of the cycles found anomalous, one refuted verdict per gap, falls, and conflicts among all these. Every such fact
  // but the last two kinds is published.
  lemma PublishedFacts(inp: Input, c: Condensation, a: Analysis, anomalies: seq<Anomaly>, extra: seq<Finding>,
                       r: Report, f: Finding)
    requires Publishes(inp, c, a, anomalies, extra, r)
    ensures f in r.findings ==>
      || f in extra || RunFact(inp, c, f) || WholeFact(inp, anomalies, f) || RefutedFact(r.gaps, f)
      || FallFact(inp, c, a.candidates, f) || IsConflict(f)
    ensures f in extra || RunFact(inp, c, f) || WholeFact(inp, anomalies, f) || RefutedFact(r.gaps, f) ==>
      f in r.findings
  {
    hide *;
    PublishedParts(inp, c, a, anomalies, extra, r);
    var row := RowOf(inp, c, a, anomalies);
    VerdictParts(inp, c, row, r);
    var ix := PayloadFindings(inp, c, a, anomalies, extra, row, r);
    var lane, nodes, cs := AssessmentLane(inp, c.graph), Expand(c, c.topo), a.candidates;
    var own := BuiltItems(inp, nodes, lane, cs, LoopRuns(c), anomalies);
    var out := RowIndex(inp, c, ix, row);
    var told := MapSeq(r.gaps, (g: Gap) => VerdictFinding(g));
    AllRuns(inp, c);
    ToldOnce(inp, c, a, anomalies, nodes);
    RowAdds(inp, c, a, anomalies, ix);
    AddedAre(inp, c, cs, ix, out, f);
    VerdictsMade(r.gaps, told);
    ConflictsOnly(out.findings + told);
    if f in DropItems(cs, LoopRuns(c)) {
      DropsCome(cs, LoopRuns(c), f);
      var x :| x in cs && f == CandidateDrop(x);
      CandidateFall(inp, c, cs, x);
    }
    InJoined(ix.findings, own, extra, f);
    InJoined(r.findings, out.findings + told, Divergences(out.findings + told), f);
    InJoined(out.findings + told, out.findings, told, f);
  }

  lemma InJoined(all: seq<Finding>, a: seq<Finding>, b: seq<Finding>, f: Finding)
    requires all == a + b
    ensures f in all <==> f in a || f in b
  {
  }

  predicate ShowsFall(y: Candidate, f: Finding) {
    && f.kind == ContentDrop && f.channel == Judged && f.subject == OfRun(y.run) && f.factKey == None
    && f.data == NO_DATA.(score := y.score, base := y.base, drop := y.drop)
  }

  // Main result: every run outside the cycles that the content channel, or a decline, names as an origin is published
  // with a fall, in the numbers of an origin found at that run.
  lemma FallsPublished(inp: Input, c: Condensation, a: Analysis, anomalies: seq<Anomaly>, extra: seq<Finding>,
                       r: Report, x: Candidate)
    requires Publishes(inp, c, a, anomalies, extra, r) && x in a.candidates
    requires x.via == Content || x.via == Both || x.cumulativePath != []
    requires forall s :: s in c.supers && x.run in s.members ==> |s.members| <= 1
    ensures exists y, f :: y in a.candidates && y.run == x.run && f in r.findings && ShowsFall(y, f)
  {
    FallsOutside(c, x);
    hide *;
    PublishedParts(inp, c, a, anomalies, extra, r);
    var row := RowOf(inp, c, a, anomalies);
    VerdictParts(inp, c, row, r);
    var ix := PayloadFindings(inp, c, a, anomalies, extra, row, r);
    var lane, nodes, cs := AssessmentLane(inp, c.graph), Expand(c, c.topo), a.candidates;
    var own := BuiltItems(inp, nodes, lane, cs, LoopRuns(c), anomalies);
    var out := RowIndex(inp, c, ix, row);
    var told := MapSeq(r.gaps, (g: Gap) => VerdictFinding(g));
    AllRuns(inp, c);
    ToldOnce(inp, c, a, anomalies, nodes);
    RowAdds(inp, c, a, anomalies, ix);
    DropsHold(cs, LoopRuns(c), x);
    var y :| y in cs && y.run == x.run && CandidateDrop(y) in DropItems(cs, LoopRuns(c));
    var f := CandidateDrop(y);
    DropIs(y);
    AddedAre(inp, c, cs, ix, out, f);
    InJoined(ix.findings, own, extra, f);
    InJoined(r.findings, out.findings + told, Divergences(out.findings + told), f);
    InJoined(out.findings + told, out.findings, told, f);
  }

  lemma FallsOutside(c: Condensation, x: Candidate)
    ensures Assemble.Falls(x) <==> x.via == Content || x.via == Both || x.cumulativePath != []
    ensures x.run in LoopRuns(c) <==> exists s :: s in c.supers && x.run in s.members && |s.members| > 1
  {
  }

  lemma DropIs(y: Candidate)
    ensures ShowsFall(y, CandidateDrop(y))
  {
  }
}
