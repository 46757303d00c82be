// Two encodings of one run, given the same facts, are reported with the same findings and the same verdict.

module SameFindings {
  import opened Prelude
  import opened Graphs
  import opened BlameInput
  import opened Condense
  import opened Propagation
  import opened CutPoint
  import opened Origins
  import opened Evidence
  import opened FindingIndex
  import opened Assemble
  import opened Support
  import opened Derive
  import opened Reconcile
  import opened Independence
  import opened Loops
  import opened CandidateFacts
  import opened Cascade
  import opened Gaps
  import opened Soundness
  import opened Verdicts
  import opened Blame
  import opened SameBlame
  import opened Reports

  // ---------- What is recorded before the cascade ----------

  lemma {:induction false} ConcatSame(nodes: seq<RunId>, f: RunId -> seq<Finding>, g: RunId -> seq<Finding>)
    requires forall r :: f(r) == g(r)
    ensures Concat(nodes, f) == Concat(nodes, g)
  {
    if nodes != [] {
      ConcatSame(nodes[..|nodes| - 1], f, g);
    }
  }

  lemma MakersSame(x: Input, y: Input, lane: set<RunId>, r: RunId)
    requires SameRun(x, y)
    ensures NodeMaker(x, lane)(r) == NodeMaker(y, lane)(r)
    ensures BreachMaker(x)(r) == BreachMaker(y)(r) && SignalMaker(x)(r) == SignalMaker(y)(r)
  {
    SameRuns(x, y, r);
    assert ScoreFinding(x, r) == ScoreFinding(y, r) && Violations(x, r) == Violations(y, r);
    assert Signals(x, r) == Signals(y, r) && Flags(x, r) == Flags(y, r);
    hide SameRun, FlagFindings, Violations, Signals, Flags, ScoreFinding;
  }

  lemma NodesSame(x: Input, y: Input, lane: set<RunId>, nodes: seq<RunId>)
    requires SameRun(x, y)
    ensures Concat(nodes, NodeMaker(x, lane)) == Concat(nodes, NodeMaker(y, lane))
    ensures Concat(nodes, BreachMaker(x)) == Concat(nodes, BreachMaker(y))
    ensures Concat(nodes, SignalMaker(x)) == Concat(nodes, SignalMaker(y))
  {
    hide *;
    forall r
      ensures NodeMaker(x, lane)(r) == NodeMaker(y, lane)(r)
      ensures BreachMaker(x)(r) == BreachMaker(y)(r) && SignalMaker(x)(r) == SignalMaker(y)(r)
    {
      MakersSame(x, y, lane, r);
    }
    ConcatSame(nodes, NodeMaker(x, lane), NodeMaker(y, lane));
    ConcatSame(nodes, BreachMaker(x), BreachMaker(y));
    ConcatSame(nodes, SignalMaker(x), SignalMaker(y));
  }

  lemma LaneSame(x: Input, y: Input, g: Graph)
    requires SameRun(x, y)
    ensures AssessmentLane(x, g) == AssessmentLane(y, g)
  {
    assert forall n :: IsVerifier(x, n) == IsVerifier(y, n);
  }

  lemma TerminalSame(x: Input, y: Input)
    requires SameRun(x, y)
    ensures TerminalItems(x) == TerminalItems(y)
  {
    assert forall tv :: FormFinding(x, tv) == FormFinding(y, tv);
  }

  lemma LoopRunOf(c: Condensation, r: RunId) returns (i: nat)
    requires r in LoopRuns(c)
    ensures i < |c.supers| && |c.supers[i].members| > 1 && r in c.supers[i].members
  {
    var s :| s in c.supers && |s.members| > 1 && r in s.members;
    i :| 0 <= i < |c.supers| && c.supers[i] == s;
  }

  lemma InLoop(c: Condensation, i: nat, r: RunId)
    requires i < |c.supers| && |c.supers[i].members| > 1 && r in c.supers[i].members
    ensures r in LoopRuns(c)
  {
    assert c.supers[i] in c.supers;
  }

  lemma LoopRunsWithin(x: Input, y: Input, c: Condensation, d: Condensation)
    requires Recoded(x, y, c, d)
    ensures LoopRuns(c) <= LoopRuns(d)
  {
    hide *;
    forall r | r in LoopRuns(c) ensures r in LoopRuns(d) {
      var i := LoopRunOf(c, r);
      var j := MatchOf(x, y, c, d, i);
      MatchedFacts(x, y, c, d, i, j);
      InLoop(d, j, r);
    }
  }

  lemma LoopRunsSame(x: Input, y: Input, c: Condensation, d: Condensation)
    requires Recoded(x, y, c, d)
    ensures LoopRuns(c) == LoopRuns(d)
  {
    LoopRunsWithin(x, y, c, d);
    RecodedBack(x, y, c, d);
    LoopRunsWithin(y, x, d, c);
  }

  lemma {:induction false} DropsSame(c: Condensation, d: Condensation, s: seq<Candidate>, t: seq<Candidate>,
                                     loops: set<RunId>)
    requires SameCandidates(c, d, s, t)
    ensures DropItems(s, loops) == DropItems(t, loops) && FallenRuns(s, loops) == FallenRuns(t, loops)
  {
    hide Matched;
    if s != [] {
      var n := |s| - 1;
      assert SameCandidate(c, d, s[n], t[n]);
      DropsSame(c, d, s[..n], t[..n], loops);
      FallenNext(s, n, loops);
      FallenNext(t, n, loops);
      assert s[..n + 1] == s && t[..n + 1] == t;
    }
  }

  lemma BuiltSame(x: Input, y: Input, c: Condensation, d: Condensation, s: seq<Candidate>, t: seq<Candidate>,
                  anomalies: seq<Anomaly>)
    requires Recoded(x, y, c, d) && SameCandidates(c, d, s, t) && HasMembers(anomalies)
    requires InRange(c, c.topo) && InRange(d, d.topo)
    ensures BuiltItems(x, Expand(c, c.topo), AssessmentLane(x, c.graph), s, LoopRuns(c), anomalies) ==
      BuiltItems(y, Expand(d, d.topo), AssessmentLane(y, d.graph), t, LoopRuns(d), anomalies)
    ensures FallenRuns(s, LoopRuns(c)) == FallenRuns(t, LoopRuns(d))
  {
    hide *;
    RunsAlike(x, y, c, d);
    WellFormedOf(x, y, c, d);
    TopoMatched(c, d);
    ExpandSame(x, y, c, d, c.topo, d.topo);
    LaneSame(x, y, c.graph);
    NodesSame(x, y, AssessmentLane(x, c.graph), Expand(c, c.topo));
    LoopRunsSame(x, y, c, d);
    DropsSame(c, d, s, t, LoopRuns(c));
    TerminalSame(x, y);
    BuiltAre(x, Expand(c, c.topo), AssessmentLane(x, c.graph), s, LoopRuns(c), anomalies);
    BuiltAre(y, Expand(d, d.topo), AssessmentLane(y, d.graph), t, LoopRuns(d), anomalies);
  }

  lemma BuiltAre(inp: Input, nodes: seq<RunId>, lane: set<RunId>, cs: seq<Candidate>, loops: set<RunId>,
                 anomalies: seq<Anomaly>)
    requires HasMembers(anomalies)
    ensures forall an :: an in anomalies ==> an.members != []
    ensures BuiltItems(inp, nodes, lane, cs, loops, anomalies) ==
      Concat(nodes, NodeMaker(inp, lane)) + DropItems(cs, loops) + Concat(nodes, BreachMaker(inp)) +
      Concat(nodes, SignalMaker(inp)) + TerminalItems(inp) + AnomalyItems(anomalies)
  {
  }

  // ---------- What the cascade adds ----------

  predicate SameLedger(ix: Index, jx: Index) {
    ix.findings == jx.findings && ix.drop.Keys == jx.drop.Keys
  }

  lemma EnsuredSame(ix: Index, jx: Index, run: RunId, score: Option<real>, base: Option<real>, fall: Option<real>)
    requires SameLedger(ix, jx)
    ensures SameLedger(EnsuredDrop(ix, run, score, base, fall), EnsuredDrop(jx, run, score, base, fall))
  {
  }

  lemma DrilledSame(x: Input, y: Input, ix: Index, jx: Index, m: RunId, fall: real)
    requires SameRun(x, y) && SameLedger(ix, jx)
    ensures SameLedger(DrilledDrop(x, ix, m, fall), DrilledDrop(y, jx, m, fall))
  {
    SameRuns(x, y, m);
    hide SameRun, EnsuredDrop, SameLedger, ScoreOf;
    var s := ScoreOf(x, m);
    EnsuredSame(ix, jx, m, s, if s.Some? then Some(s.value + fall) else None, Some(fall));
  }

  lemma ExitSame(c: Condensation, d: Condensation, u: Candidate, v: Candidate, ix: Index, jx: Index)
    requires SameCandidate(c, d, u, v) && SameLedger(ix, jx)
    ensures SameLedger(ExitDrop(ix, u), ExitDrop(jx, v)) && u.run == v.run && Assemble.Falls(u) == Assemble.Falls(v)
  {
    hide Matched, EnsuredDrop, SameLedger;
    EnsuredSame(ix, jx, u.run, u.score, u.base, u.drop);
  }

  lemma MovesSame(x: Input, y: Input, c: Condensation, d: Condensation, u: Candidate, v: Candidate)
    requires Recoded(x, y, c, d) && SameCandidate(c, d, u, v) && u.superId < |c.supers| && v.superId < |d.supers|
    ensures Moves(x, c, u) == Moves(y, d, v)
  {
    DrillSame(x, y, c, d, u, v);
    MatchedFacts(x, y, c, d, u.superId, v.superId);
    hide Recoded, Matched, Drill;
  }

  lemma StepSame(x: Input, y: Input, c: Condensation, d: Condensation, u: Candidate, v: Candidate, ix: Index, jx: Index)
    requires Recoded(x, y, c, d) && SameCandidate(c, d, u, v) && u.superId < |c.supers| && v.superId < |d.supers|
    requires SameLedger(ix, jx)
    ensures SameLedger(AfterResolve(x, c, ix, u), AfterResolve(y, d, jx, v))
    ensures SameLedger(AfterSingle(x, c, ix, u), AfterSingle(y, d, jx, v))
  {
    hide *;
    DrillSame(x, y, c, d, u, v);
    MovesSame(x, y, c, d, u, v);
    LoopRunsSame(x, y, c, d);
    RunsAlike(x, y, c, d);
    ExitSame(c, d, u, v, ix, jx);
    StepIs(x, c, ix, u);
    StepIs(y, d, jx, v);
    var m := Drill(x, c, u);
    if m.fall.Some? {
      DrilledSame(x, y, ix, jx, m.culprit, m.fall.value);
      ExitSame(c, d, u, v, DrilledDrop(x, ix, m.culprit, m.fall.value), DrilledDrop(y, jx, m.culprit, m.fall.value));
    }
  }

  lemma StepIs(inp: Input, c: Condensation, ix: Index, x: Candidate)
    requires x.superId < |c.supers|
    ensures var d := Drill(inp, c, x);
      AfterResolve(inp, c, ix, x) ==
      if Moves(inp, c, x) then (if d.fall.Some? then DrilledDrop(inp, ix, d.culprit, d.fall.value) else ix)
      else if x.run in LoopRuns(c) && Assemble.Falls(x) then ExitDrop(ix, x)
      else ix
    ensures var d := Drill(inp, c, x);
      var ix1 := if d.fall.Some? then DrilledDrop(inp, ix, d.culprit, d.fall.value) else ix;
      AfterSingle(inp, c, ix, x) ==
      if d.culprit == x.run && x.run in LoopRuns(c) && Assemble.Falls(x) then ExitDrop(ix1, x) else ix1
  {
    hide Drill, Moves, Assemble.Falls, LoopRuns, DrilledDrop, ExitDrop;
  }

  lemma {:induction false} AfterAllSame(x: Input, y: Input, c: Condensation, d: Condensation, s: seq<Candidate>,
                                        t: seq<Candidate>, ix: Index, jx: Index)
    requires Recoded(x, y, c, d) && SameCandidates(c, d, s, t) && Placed(c, s) && Placed(d, t) && SameLedger(ix, jx)
    ensures SameLedger(AfterAll(x, c, ix, s), AfterAll(y, d, jx, t))
  {
    hide Recoded, SameCandidate, AfterResolve, SameLedger;
    if s != [] {
      var n := |s| - 1;
      assert s[n] in s && t[n] in t && SameCandidate(c, d, s[n], t[n]);
      assert (forall u :: u in s[..n] ==> u in s) && forall v :: v in t[..n] ==> v in t;
      AfterAllSame(x, y, c, d, s[..n], t[..n], ix, jx);
      StepSame(x, y, c, d, s[n], t[n], AfterAll(x, c, ix, s[..n]), AfterAll(y, d, jx, t[..n]));
    }
  }

  lemma NearMissSame(x: Input, y: Input, c: Condensation, d: Condensation, u: Candidate, v: Candidate, ix: Index,
                     jx: Index)
    requires Recoded(x, y, c, d) && SameCandidate(c, d, u, v) && SameLedger(ix, jx)
    ensures SameLedger(AfterNearMiss(x, c, ix, u), AfterNearMiss(y, d, jx, v))
  {
    RunsAlike(x, y, c, d);
    hide Recoded, Matched, EnsuredDrop, SameLedger, MeasuredFall, Highest, QualityUnmeasured, TerminalBad, LiveBad,
      SameRun;
    if u.sccMember.Some? {
      var m := u.sccMember.value;
      SameRuns(x, y, m);
      FallSame(x, y, c.graph, m);
      ExtremesSame(x, y, RunPreds(c.graph, m));
      EnsuredSame(ix, jx, m, ScoreOf(x, m), Highest(x, RunPreds(c.graph, m)), MeasuredFall(x, c.graph, m));
    }
  }

  lemma RowIndexSame(x: Input, y: Input, c: Condensation, d: Condensation, r: Row, s: Row, ix: Index, jx: Index)
    requires Recoded(x, y, c, d) && SameRow(c, d, r, s) && RowReady(c, r) && RowReady(d, s) && SameLedger(ix, jx)
    ensures SameLedger(RowIndex(x, c, ix, r), RowIndex(y, d, jx, s))
  {
    hide Recoded, SameCandidate, SameCandidates, SameLedger, AfterAll, AfterSingle, AfterNearMiss;
    match r
    case Runaway(an, others) => AfterAllSame(x, y, c, d, others, s.others, ix, jx);
    case ManyOrigins(us) => AfterAllSame(x, y, c, d, us, s.origins, ix, jx);
    case OneOrigin(u) => StepSame(x, y, c, d, u, s.origin, ix, jx);
    case NearMiss(u) => NearMissSame(x, y, c, d, u, s.origin, ix, jx);
    case _ =>
  }

  // ---------- The published findings ----------

  lemma VerdictsSame(gaps: seq<Gap>, fs: seq<Finding>, gs: seq<Finding>)
    requires |fs| == |gs| == |gaps| && forall i :: 0 <= i < |gaps| ==> fs[i] == gs[i]
    ensures fs == gs
  {
  }

  // Main result: with the same facts supplied, two encodings of one run are reported with the same findings in the
  // same order, and with the same verdict.
  lemma PayloadsAgree(x: Input, y: Input, p: seq<set<RunId>>, q: seq<set<RunId>>, c: Condensation, d: Condensation,
                      a: Analysis, b: Analysis, f: seq<Anomaly>, g: seq<Anomaly>, extra: seq<Finding>, r: Report,
                      s: Report)
    requires SameRun(x, y) && Condensed(x, p, c) && Condensed(y, q, d) && Analyzed(x, c, a, f) && Analyzed(y, d, b, g)
    requires WellFormed(x, c) && CascadeReady(c, a, f) && RowReady(c, RowOf(x, c, a, f)) && HasMembers(f)
    requires InRange(c, c.topo) && IsReport(x, c, RowOf(x, c, a, f), r)
    requires IsPayload(x, c, a, f, extra, RowOf(x, c, a, f), r)
    requires WellFormed(y, d) && CascadeReady(d, b, g) && RowReady(d, RowOf(y, d, b, g)) && HasMembers(g)
    requires InRange(d, d.topo) && IsReport(y, d, RowOf(y, d, b, g), s)
    requires IsPayload(y, d, b, g, extra, RowOf(y, d, b, g), s)
    ensures r.findings == s.findings && r.verdict == s.verdict
  {
    hide *;
    CondensedRecoded(x, y, p, q, c, d);
    CondensedLists(x, p, c);
    CondensedLists(y, q, d);
    BlameIndependent(x, y, p, q, c, d, a, b, f, g);
    AnalysisOf(x, c, a, f);
    AnalysisOf(y, d, b, g);
    AnalysesSame(x, y, c, d, a, b);
    RowsSame(x, y, c, d, a, b, f);
    var row, row' := RowOf(x, c, a, f), RowOf(y, d, b, g);
    var ix := PayloadFindings(x, c, a, f, extra, row, r);
    var jx := PayloadFindings(y, d, b, g, extra, row', s);
    BuiltSame(x, y, c, d, a.candidates, b.candidates, f);
    Ledgers(ix, jx);
    RowIndexSame(x, y, c, d, row, row', ix, jx);
    LedgerFindings(RowIndex(x, c, ix, row), RowIndex(y, d, jx, row'));
    VerdictsSame(AllGaps(x, c.graph, RowCulprits(x, c, row)),
      MapSeq(AllGaps(x, c.graph, RowCulprits(x, c, row)), (g: Gap) => VerdictFinding(g)),
      MapSeq(AllGaps(y, d.graph, RowCulprits(y, d, row')), (g: Gap) => VerdictFinding(g)));
    var i := ReportParts(x, c, row, r);
    var j := ReportParts(y, d, row', s);
  }

  lemma Ledgers(ix: Index, jx: Index)
    requires ix.findings == jx.findings && ix.drop.Keys == jx.drop.Keys
    ensures SameLedger(ix, jx)
  {
  }

  lemma LedgerFindings(ix: Index, jx: Index)
    requires SameLedger(ix, jx)
    ensures ix.findings == jx.findings
  {
  }
}
