// The engine from the graph to the report: condense, localize, decide, validate.

module Blame {
  import opened Prelude
  import opened Graphs
  import opened BlameInput
  import opened Condense
  import opened Propagation
  import opened CutPoint
  import opened Origins
  import opened Evidence
  import opened FindingIndex
  import Assemble
  import opened Emit
  import opened Support
  import opened Derive
  import opened Reconcile
  import opened Loops
  import opened CandidateFacts
  import opened Cascade
  import opened Gaps
  import opened Soundness
  import opened Verdicts

  datatype Report = Report(
    culprits: seq<RunId>,
    verdict: Verdict,
    findings: seq<Finding>,
    defects: seq<Defect>,
    gaps: seq<Gap>,
    path: seq<RunId>)

  // The final validation raises instead of publishing a defect without support; before that, the localizer fails
  // on a one-node chain it would have to blame.
  datatype Fault = NoSupport | NoSecondNode

  datatype Outcome = Published(report: Report) | Raised(fault: Fault)

  // Verifiers that review the final work product: everything after them is a verifier.
  function AssessmentLane(inp: Input, g: Graph): set<RunId> {
    set n | n in g.nodes && IsVerifier(inp, n) && forall e :: e in inp.edges && e.0 == n ==> IsVerifier(inp, e.1)
  }

  // ---------- What the report is ----------

  // Nothing localized, but some verifier's verdict is refuted: the verifiers are the failure.
  predicate Blamable(v: Verdict, gaps: seq<Gap>) {
    (v == CompositionFailure || v == Unclassified) && Asserted(gaps) != []
  }

  ghost predicate Replaced(inp: Input, c: Condensation, row: Row)
    requires RowReady(c, row)
  {
    Blamable(RowVerdict(inp, c, row), AllGaps(inp, c.graph, RowCulprits(inp, c, row)))
  }

  // When the analysis ends in an error: the row is starved and no verifier takes its place.
  ghost predicate Unsupported(inp: Input, c: Condensation, row: Row)
    requires RowReady(c, row)
  {
    Starved(inp, c, row) && !Replaced(inp, c, row)
  }

  ghost function FinalCulprits(inp: Input, c: Condensation, row: Row): seq<RunId>
    requires RowReady(c, row)
  {
    if Replaced(inp, c, row) then Asserted(AllGaps(inp, c.graph, RowCulprits(inp, c, row)))
    else RowCulprits(inp, c, row)
  }

  ghost function FinalVerdict(inp: Input, c: Condensation, row: Row): Verdict
    requires RowReady(c, row)
  {
    if Replaced(inp, c, row) then VerificationGap else RowVerdict(inp, c, row)
  }

  // Defects other than the design-level form defect point only at reported culprits.
  ghost predicate AgreesButForm(ds: seq<Defect>, culprits: seq<RunId>) {
    forall d :: d in ds && d.kind != FormFault ==>
      (d.origin.Localized? ==> d.origin.run in culprits) && (d.origin.External? ==> d.origin.source in culprits)
  }

  ghost predicate IsPath(inp: Input, c: Condensation, culprits: seq<RunId>, path: seq<RunId>)
    requires WellFormed(inp, c)
  {
    if culprits == [] then path == []
    else culprits[0] in c.superOf && exists sids :: IsPropagation(inp, c, culprits[0], sids, path)
  }

  ghost predicate IsReport(inp: Input, c: Condensation, row: Row, r: Report)
    requires WellFormed(inp, c) && RowReady(c, row)
  {
    && r.culprits == FinalCulprits(inp, c, row)
    && r.verdict == Escalate(FinalVerdict(inp, c, row), r.findings)
    && r.verdict == Escalate(DeriveVerdict(r.defects), r.findings)
    && r.gaps == AllGaps(inp, c.graph, RowCulprits(inp, c, row))
    && AllValid(r.findings, r.defects)
    && AgreesButForm(r.defects, r.culprits)
    && (forall d :: d in r.defects ==> d.qualityUnmeasured == QualityUnmeasured(inp, c))
    && IsPath(inp, c, r.culprits, r.path)
  }

  // ---------- What the report carries ----------

  ghost predicate HasMembers(anomalies: seq<Anomaly>) {
    forall an :: an in anomalies ==> an.members != []
  }

  // The index before the cascade: everything recorded, then the caller's facts, and nothing else.
  ghost predicate Prepared(inp: Input, c: Condensation, a: Analysis, anomalies: seq<Anomaly>, lane: set<RunId>,
                           nodes: seq<RunId>,
                           extra: seq<Finding>, ix: Index)
    requires HasMembers(anomalies)
  {
    var own := Assemble.BuiltItems(inp, nodes, lane, a.candidates, LoopRuns(c), anomalies);
    && Built(inp, c, lane, nodes, a, anomalies, ix) && ix.findings == own + extra
    && ix.propagated == Assemble.AllCited(map[], extra, BreachPropagated, |own|)
    && ix.corrected == Assemble.AllCited(map[], extra, BreachCorrected, |own|)
    && Assemble.DropFacts(a.candidates, ix.findings, ix.drop) && Assemble.CitesOwn(anomalies, ix.findings, ix.loop)
    && ix.verifier == map[]
  }

  ghost function MainDefects(inp: Input, c: Condensation, a: Analysis, row: Row, ix1: Index, ix2: Index): seq<Defect>
    requires RowReady(c, row) && Bounded(ix1)
  {
    if Replaced(inp, c, row) then EmitVerification(ix2, Asserted(AllGaps(inp, c.graph, RowCulprits(inp, c, row))))
    else RowDefects(inp, c, ix1, row, Vias(a.candidates), Assumptions(a.candidates))
  }

  // From the index before the cascade to the one after it: falls recorded by the row, then the verdicts.
  ghost predicate Advanced(inp: Input, c: Condensation, row: Row, ix0: Index, ix2: Index)
    requires RowReady(c, row)
  {
    var ix1 := RowIndex(inp, c, ix0, row);
    var gaps := AllGaps(inp, c.graph, RowCulprits(inp, c, row));
    && Bounded(ix1) && ix2 == ix1.(findings := ix2.findings, verifier := ix2.verifier)
    && ix2.findings == ix1.findings + MapSeq(gaps, (g: Gap) => VerdictFinding(g))
    && ix2.verifier.Keys == Assemble.GapRuns(gaps) && Assemble.OwnVerdicts(ix2.findings, ix2.verifier)
  }

  ghost predicate IsForm(inp: Input, ix: Index, form: seq<Defect>) {
    && Bounded(ix) && (!FormMissed(inp) ==> form == [])
    && (FormMissed(inp) ==> exists a: Anchor ::
          (a.Anchored? ==> a.breach < |ix.findings|) && form == [FormDefect(inp, ix, a)] &&
          (if ix.terminalForm.Some? then FoundAnchor(inp, ix, a) else a.NoAnchor?))
  }

  // Each defect as emitted and stamped, with the divergences that touch its evidence as context.
  ghost predicate Ships(inp: Input, c: Condensation, a: Analysis, row: Row, ix0: Index, ix2: Index, form: seq<Defect>,
                        r: Report)
    requires RowReady(c, row)
  {
    && Advanced(inp, c, row, ix0, ix2) && IsForm(inp, ix2, form)
    && r.findings == ix2.findings + Divergences(ix2.findings)
    && var ds := Stamp(MainDefects(inp, c, a, row, RowIndex(inp, c, ix0, row), ix2), QualityUnmeasured(inp, c)) +
       Stamp(form, QualityUnmeasured(inp, c));
       |r.defects| == |ds| && forall k :: 0 <= k < |ds| ==>
         r.defects[k] == Attach(|ix2.findings|, Divergences(ix2.findings), ds[k])
  }

  ghost predicate IsPayload(inp: Input, c: Condensation, a: Analysis, anomalies: seq<Anomaly>, extra: seq<Finding>,
                            row: Row, r: Report)
    requires RowReady(c, row) && HasMembers(anomalies) && InRange(c, c.topo)
  {
    exists ix0: Index, ix2: Index, form: seq<Defect> ::
      Prepared(inp, c, a, anomalies, AssessmentLane(inp, c.graph), Expand(c, c.topo), extra, ix0) &&
        Ships(inp, c, a, row, ix0, ix2, form, r)
  }

  // What the engine publishes over an analysis and the facts it was supplied with.
  ghost predicate Publishes(inp: Input, c: Condensation, a: Analysis, anomalies: seq<Anomaly>, extra: seq<Finding>,
                            r: Report) {
    && Analyzed(inp, c, a, anomalies) && WellFormed(inp, c) && CascadeReady(c, a, anomalies)
    && RowReady(c, RowOf(inp, c, a, anomalies)) && HasMembers(anomalies) && InRange(c, c.topo)
    && IsReport(inp, c, RowOf(inp, c, a, anomalies), r)
    && IsPayload(inp, c, a, anomalies, extra, RowOf(inp, c, a, anomalies), r)
  }

  // ---------- Defects before the form row ----------

  ghost predicate Settled(inp: Input, c: Condensation, row: Row, fs: seq<Finding>, culprits: seq<RunId>,
                          ds: seq<Defect>, v: Verdict)
    requires RowReady(c, row)
  {
    && culprits == FinalCulprits(inp, c, row) && v == FinalVerdict(inp, c, row) && v == DeriveVerdict(ds)
    && AllInBounds(fs, ds) && (AllValid(fs, ds) <==> !Unsupported(inp, c, row))
    && Agrees(ds, culprits) && forall d :: d in ds ==> d.qualityUnmeasured == QualityUnmeasured(inp, c)
  }

  lemma ValidGrows(fs: seq<Finding>, gs: seq<Finding>, d: Defect)
    requires fs <= gs && InBounds(fs, d.refs)
    ensures InBounds(gs, d.refs) && (ValidDefect(gs, d) <==> ValidDefect(fs, d))
  {
    if CitesShipment(gs, d.refs) {
      var r :| r in d.refs && r.role == Supporting && r.index < |gs| && gs[r.index].kind == BreachPropagated;
      assert r.index < |fs|;
    }
    if CitesShipment(fs, d.refs) {
      var r :| r in d.refs && r.role == Supporting && r.index < |fs| && fs[r.index].kind == BreachPropagated;
      assert gs[r.index] == fs[r.index];
    }
  }

  lemma SameValidity(fs: seq<Finding>, d: Defect, e: Defect)
    requires SameClaim(d, e)
    ensures ValidDefect(fs, d) <==> ValidDefect(fs, e)
    ensures InBounds(fs, d.refs) <==> InBounds(fs, e.refs)
  {
  }

  // Later findings and the stamp change nothing about support.
  lemma StampedValid(fs: seq<Finding>, gs: seq<Finding>, ds: seq<Defect>, u: bool)
    requires fs <= gs && AllInBounds(fs, ds)
    ensures AllInBounds(gs, Stamp(ds, u)) && (AllValid(gs, Stamp(ds, u)) <==> AllValid(fs, ds))
  {
    hide Stamp, ValidDefect, InBounds, SameClaim;
    forall d | d in Stamp(ds, u) ensures InBounds(gs, d.refs) {
      var e := Unstamped(ds, u, d);
      ValidGrows(fs, gs, e);
      SameValidity(gs, d, e);
    }
    if AllValid(fs, ds) {
      forall d | d in Stamp(ds, u) ensures ValidDefect(gs, d) {
        var e := Unstamped(ds, u, d);
        ValidGrows(fs, gs, e);
        SameValidity(gs, d, e);
      }
    }
    if AllValid(gs, Stamp(ds, u)) {
      forall e | e in ds ensures ValidDefect(fs, e) {
        var d := Stamped(ds, u, e);
        ValidGrows(fs, gs, e);
        SameValidity(gs, d, e);
      }
    }
  }

  lemma StampedAgrees(ds: seq<Defect>, u: bool, culprits: seq<RunId>)
    requires Agrees(ds, culprits)
    ensures Agrees(Stamp(ds, u), culprits)
  {
    hide Stamp;
    forall d | d in Stamp(ds, u)
      ensures (d.origin.Localized? ==> d.origin.run in culprits) && (d.origin.External? ==> d.origin.source in culprits)
    {
      var e := Unstamped(ds, u, d);
    }
  }

  lemma StampMarks(ds: seq<Defect>, u: bool)
    requires forall d :: d in ds ==> !d.qualityUnmeasured
    ensures forall d :: d in Stamp(ds, u) ==> d.qualityUnmeasured == u
  {
    forall d | d in Stamp(ds, u) ensures d.qualityUnmeasured == u {
      var i :| 0 <= i < |ds| && Stamp(ds, u)[i] == d;
      assert ds[i] in ds;
    }
  }

  ghost predicate Unmarked(ds: seq<Defect>) {
    forall d :: d in ds ==> !d.qualityUnmeasured
  }

  lemma {:induction false} MultiUnmarked(inp: Input, ix: Index, runs: seq<RunId>, vias: map<RunId, Via>,
                                         assumed: map<RunId, bool>, bad: bool)
    requires Bounded(ix)
    ensures Unmarked(MultiDefects(inp, ix, runs, vias, assumed, bad))
  {
    hide Bounded, ContentRefs, ContractRefs, Ordered, ChannelOf, HasContract, EmitsContent, ViaOf, AssumedAt;
    if runs != [] {
      MultiUnmarked(inp, ix, runs[..|runs| - 1], vias, assumed, bad);
    }
  }

  lemma RowUnmarked(inp: Input, c: Condensation, ix: Index, row: Row, vias: map<RunId, Via>, assumed: map<RunId, bool>)
    requires RowReady(c, row) && Bounded(ix)
    ensures Unmarked(RowDefects(inp, c, ix, row, vias, assumed))
  {
    hide Bounded, ContentRefs, ContractRefs, TerminalRefs, Ordered, ChannelOf, Drill, MultiDefects, AllResolved, ViaOf,
      AssumedAt, TerminalBad,
      HasContract, EmitsContent, LoopCulprits, NearMissRun;
    match row {
      case Runaway(an, others) =>
        LoopHasCulprit(an);
        MultiUnmarked(inp, ix, AllResolved(inp, c, others), vias, assumed, TerminalBad(inp));
      case ManyOrigins(xs) => MultiUnmarked(inp, ix, AllResolved(inp, c, xs), vias, assumed, TerminalBad(inp));
      case _ =>
    }
  }

  // ---------- The stages around the cascade ----------

  lemma NodesCovered(inp: Input, c: Condensation)
    requires WellFormed(inp, c) && InRange(c, c.topo)
    ensures Distinct(Expand(c, c.topo)) && Covered(c, Expand(c, c.topo))
  {
    TopoListsAll(inp, c);
    hide WellFormed;
    ExpandDistinct(inp, c, c.topo);
    ExpandContents(inp, c, c.topo);
    NodesOf(inp, c);
  }

  lemma TopoListsAll(inp: Input, c: Condensation)
    requires WellFormed(inp, c)
    ensures Distinct(c.topo) && forall r :: r in c.superOf ==> c.superOf[r] in c.topo
  {
    hide Reaches, ProperSuper, Acyclic;
    forall r | r in c.superOf ensures c.superOf[r] in c.topo {
      assert c.superOf[r] in Elements(c.topo);
    }
  }

  lemma ExtraKeeps(inp: Input, lane: set<RunId>, nodes: seq<RunId>, ix: Index, out: Index, extra: seq<Finding>)
    requires Indexes(inp, lane, nodes, ix)
    requires out == ix.(findings := ix.findings + extra, propagated := out.propagated, corrected := out.corrected)
    requires KeysIndexed(out.findings, out.propagated, BreachPropagated)
    requires KeysIndexed(out.findings, out.corrected, BreachCorrected)
    ensures Indexes(inp, lane, nodes, out)
  {
    IndexesGrow(inp, lane, nodes, ix, extra);
    hide NodesIndexed, ListEach, TerminalIndexed, DropsIndexed, RunsIndexed, KeysIndexed;
  }

  lemma VerdictsKeep(inp: Input, lane: set<RunId>, nodes: seq<RunId>, ix: Index, out: Index, more: seq<Finding>)
    requires Indexes(inp, lane, nodes, ix) && out == ix.(findings := ix.findings + more, verifier := out.verifier)
    requires RunsIndexed(out.findings, out.verifier, VerifierVerdict)
    ensures Indexes(inp, lane, nodes, out)
  {
    IndexesGrow(inp, lane, nodes, ix, more);
    hide NodesIndexed, ListEach, TerminalIndexed, DropsIndexed, RunsIndexed, KeysIndexed;
  }

  lemma KeyedIn(inp: Input, lane: set<RunId>, nodes: seq<RunId>, ix: Index)
    requires Indexes(inp, lane, nodes, ix)
    ensures KeysIndexed(ix.findings, ix.propagated, BreachPropagated)
    ensures KeysIndexed(ix.findings, ix.corrected, BreachCorrected)
    ensures RunsIndexed(ix.findings, ix.verifier, VerifierVerdict)
  {
    hide NodesIndexed, ListEach, TerminalIndexed, DropsIndexed, RunsIndexed, KeysIndexed;
  }

  // The index before the cascade, with the caller's facts in it.
  method Prepare(inp: Input, c: Condensation, a: Analysis, anomalies: seq<Anomaly>, lane: set<RunId>, nodes: seq<RunId>,
                 extra: seq<Finding>)
    returns (idx: Assemble.Store)
    requires Distinct(nodes) && Covered(c, nodes) && HasMembers(anomalies)
    ensures fresh(idx) && Prepared(inp, c, a, anomalies, lane, nodes, extra, idx.View())
  {
    hide Indexes, Covered, Assemble.FallenRuns, Assemble.MemberRuns, LoopRuns, KeysIndexed, RunsIndexed,
      Assemble.DropFacts,
      Assemble.BuiltItems, Assemble.CitesOwn, Assemble.AllCited;
    idx := Assemble.BuildFindings(inp, nodes, lane, a.candidates, LoopRuns(c), anomalies);
    ghost var ix := idx.View();
    KeyedIn(inp, lane, nodes, ix);
    idx.AddExtra(extra);
    ExtraKeeps(inp, lane, nodes, ix, idx.View(), extra);
    Assemble.DropFactsGrow(a.candidates, ix.findings, idx.findings, ix.drop);
    Assemble.CitesGrow(anomalies, anomalies, ix.findings, idx.findings, ix.loop);
  }

  // From the cascade's defects to the settled ones: verifiers replace a verdict that localized nothing.
  lemma SettleRow(inp: Input, c: Condensation, row: Row, fs: seq<Finding>, gs: seq<Finding>, ds: seq<Defect>, u: bool)
    requires RowReady(c, row) && fs <= gs && AllInBounds(fs, ds) && (AllValid(fs, ds) <==> !Starved(inp, c, row))
    requires Agrees(ds, RowCulprits(inp, c, row)) && Unmarked(ds) && u == QualityUnmeasured(inp, c)
    requires DeriveVerdict(Stamp(ds, u)) == RowVerdict(inp, c, row) && !Replaced(inp, c, row)
    ensures Settled(inp, c, row, gs, RowCulprits(inp, c, row), Stamp(ds, u), RowVerdict(inp, c, row))
  {
    StampedValid(fs, gs, ds, u);
    StampedAgrees(ds, u, RowCulprits(inp, c, row));
    StampMarks(ds, u);
    hide Stamp, AllValid, AllInBounds, Starved, Replaced, RowCulprits, RowVerdict, DeriveVerdict, Agrees,
      QualityUnmeasured;
  }

  lemma SettleGaps(inp: Input, c: Condensation, lane: set<RunId>, nodes: seq<RunId>, row: Row, ix: Index,
                   gaps: seq<Gap>, u: bool)
    requires RowReady(c, row) && Indexes(inp, lane, nodes, ix) && u == QualityUnmeasured(inp, c)
    requires gaps == AllGaps(inp, c.graph, RowCulprits(inp, c, row)) && ix.verifier.Keys == Assemble.GapRuns(gaps)
    requires Replaced(inp, c, row)
    ensures DeriveVerdict(Stamp(EmitVerification(ix, Asserted(gaps)), u)) == VerificationGap
    ensures Settled(inp, c, row, ix.findings, Asserted(gaps), Stamp(EmitVerification(ix, Asserted(gaps)), u),
      VerificationGap)
  {
    var runs := Asserted(gaps);
    var ds := EmitVerification(ix, runs);
    AssertedVerified(gaps, ix);
    VerificationValid(inp, lane, nodes, ix, runs);
    VerificationAgrees(ix, runs);
    AllValidConcat(ix.findings, ds, []);
    StampedValid(ix.findings, ix.findings, ds, u);
    StampedAgrees(ds, u, runs);
    StampMarks(ds, u);
    VerificationVerdict(ix, runs, u);
    hide Stamp, AllValid, AllInBounds, Starved, RowCulprits, RowVerdict, DeriveVerdict, Agrees, QualityUnmeasured,
      EmitVerification, Asserted,
      Indexes, AllGaps;
  }

  lemma AssertedVerified(gaps: seq<Gap>, ix: Index)
    requires ix.verifier.Keys == Assemble.GapRuns(gaps)
    ensures forall r :: r in Asserted(gaps) ==> r in ix.verifier
  {
    var told := Filter(gaps, (x: Gap) => x.basis != FlagConflict);
    forall r | r in Asserted(gaps) ensures r in ix.verifier {
      var i :| 0 <= i < |told| && told[i].run == r;
      assert told[i] in told;
    }
  }

  lemma VerificationAgrees(ix: Index, runs: seq<RunId>)
    ensures Agrees(EmitVerification(ix, runs), runs) && Unmarked(EmitVerification(ix, runs))
  {
    hide Ordered;
    var ds := EmitVerification(ix, runs);
    forall d | d in ds ensures d.origin.Localized? && d.origin.run in runs && !d.qualityUnmeasured {
      var i :| 0 <= i < |ds| && ds[i] == d;
      assert runs[i] in runs;
    }
  }

  // The form defects stand on their own.
  lemma FormStands(inp: Input, c: Condensation, lane: set<RunId>, nodes: seq<RunId>, ix: Index, form: seq<Defect>,
                   u: bool)
    requires Indexes(inp, lane, nodes, ix) && IsForm(inp, ix, form)
    ensures AllValid(ix.findings, Stamp(form, u)) && AllInBounds(ix.findings, Stamp(form, u))
    ensures forall d :: d in Stamp(form, u) ==> d.kind == FormFault && !d.origin.External? && d.qualityUnmeasured == u
  {
    hide Indexes, Bounded, FormMissed, FoundAnchor, FormRefs, ValidDefect, Ordered, ChannelOf;
    if FormMissed(inp) {
      var a: Anchor :| (a.Anchored? ==> a.breach < |ix.findings|) && form == [FormDefect(inp, ix, a)] &&
        (if ix.terminalForm.Some? then FoundAnchor(inp, ix, a) else a.NoAnchor?);
      FormAt(inp, lane, nodes, ix);
      FormValid(inp, lane, nodes, ix, a);
      assert AllValid(ix.findings, form);
    }
    AllValidConcat(ix.findings, form, []);
    StampedValid(ix.findings, ix.findings, form, u);
    StampMarks(form, u);
  }

  lemma AttachKeepsAll(fs: seq<Finding>, ds: seq<Defect>, out: seq<Defect>, d: Defect)
    requires |out| == |ds| && forall k :: 0 <= k < |ds| ==> out[k] == Attach(|fs|, Divergences(fs), ds[k])
    requires d in out
    ensures exists e ::
      e in ds && d.kind == e.kind && d.origin == e.origin && d.qualityUnmeasured == e.qualityUnmeasured
  {
    hide Divergences, Attached;
    var k :| 0 <= k < |out| && out[k] == d;
    assert ds[k] in ds;
  }

  // ---------- The engine ----------

  // Rows carried out, verifiers heard: the defects and the verdict before the form row.
  method Settle(inp: Input, c: Condensation, a: Analysis, anomalies: seq<Anomaly>, lane: set<RunId>, nodes: seq<RunId>,
                row: Row,
                idx: Assemble.Store)
    returns (culprits: seq<RunId>, defects: seq<Defect>, verdict: Verdict, gaps: seq<Gap>)
    requires Analyzed(inp, c, a, anomalies) && CascadeReady(c, a, anomalies) && row == RowOf(inp, c, a, anomalies)
    requires RowReady(c, row)
    requires WellFormed(inp, c) && Built(inp, c, lane, nodes, a, anomalies, idx.View()) && idx.verifier == map[]
    modifies idx
    ensures Indexes(inp, lane, nodes, idx.View()) && Advanced(inp, c, row, old(idx.View()), idx.View())
    ensures defects ==
      Stamp(MainDefects(inp, c, a, row, RowIndex(inp, c, old(idx.View()), row), idx.View()), QualityUnmeasured(inp, c))
    ensures gaps == AllGaps(inp, c.graph, RowCulprits(inp, c, row))
    ensures Settled(inp, c, row, idx.findings, culprits, defects, verdict)
  {
    hide *;
    var vias, assumed, u := Vias(a.candidates), Assumptions(a.candidates), QualityUnmeasured(inp, c);
    ghost var ix0 := idx.View();
    Assemble.StoreFields(idx);
    Unbuild(inp, c, lane, nodes, a, anomalies, ix0);
    culprits, defects := EnactRow(inp, c, lane, nodes, idx, row, vias, assumed);
    ghost var ix1, ds := idx.View(), defects;
    RowValidIff(inp, c, lane, nodes, a, anomalies, ix0, row, assumed);
    RowVerdictIs(inp, c, lane, nodes, a, anomalies, ix1, row, assumed);
    RowAgrees(inp, c, ix1, row, vias, assumed);
    RowUnmarked(inp, c, ix1, row, vias, assumed);
    StandsIs(inp, c, ix0, row, vias, assumed);
    GraphIsValid(inp, c);
    gaps := FindGaps(inp, c.graph, culprits);
    KeyedIn(inp, lane, nodes, ix1);
    Assemble.StoreFields(idx);
    SameVerifiers(inp, c, lane, nodes, row, ix0);
    idx.AddVerdicts(gaps);
    Assemble.StoreFields(idx);
    AdvancedBy(inp, c, row, ix0, idx.View());
    VerdictsKeep(inp, lane, nodes, ix1, idx.View(), MapSeq(gaps, (g: Gap) => VerdictFinding(g)));
    defects := Stamp(defects, u);
    verdict := DeriveVerdict(defects);
    ReplacedIs(inp, c, row, gaps);
    MainAre(inp, c, a, row, ix1, idx.View());
    if Blamable(verdict, gaps) {
      var asserted := Asserted(gaps);
      SettleGaps(inp, c, lane, nodes, row, idx.View(), gaps, u);
      culprits, defects := asserted, Stamp(EmitVerification(idx.View(), asserted), u);
      verdict := DeriveVerdict(defects);
    } else {
      SettleRow(inp, c, row, ix1.findings, idx.findings, ds, u);
    }
  }

  lemma SameVerifiers(inp: Input, c: Condensation, lane: set<RunId>, nodes: seq<RunId>, row: Row, ix0: Index)
    requires Indexes(inp, lane, nodes, ix0) && RowReady(c, row) && ix0.verifier == map[]
    ensures RowIndex(inp, c, ix0, row).verifier == map[]
    ensures Assemble.OwnVerdicts(RowIndex(inp, c, ix0, row).findings, map[])
  {
    RowKeeps(inp, c, lane, nodes, ix0, row);
    hide RowIndex, Indexes, RowReady;
  }

  lemma AdvancedBy(inp: Input, c: Condensation, row: Row, ix0: Index, ix2: Index)
    requires RowReady(c, row) && Bounded(RowIndex(inp, c, ix0, row))
    requires var ix1 := RowIndex(inp, c, ix0, row);
      var gaps := AllGaps(inp, c.graph, RowCulprits(inp, c, row));
      ix1.verifier == map[] &&
        ix2 == ix1.(findings := ix1.findings + MapSeq(gaps, (g: Gap) => VerdictFinding(g)), verifier := ix2.verifier) &&
      ix2.verifier.Keys == ix1.verifier.Keys + Assemble.GapRuns(gaps) &&
        Assemble.OwnVerdicts(ix2.findings, ix2.verifier)
    ensures Advanced(inp, c, row, ix0, ix2)
  {
    hide RowIndex, AllGaps, RowCulprits, Bounded, Assemble.GapRuns, Assemble.OwnVerdicts, RowReady;
  }

  lemma MainAre(inp: Input, c: Condensation, a: Analysis, row: Row, ix1: Index, ix2: Index)
    requires RowReady(c, row) && Bounded(ix1)
    ensures MainDefects(inp, c, a, row, ix1, ix2) ==
      if Replaced(inp, c, row) then EmitVerification(ix2, Asserted(AllGaps(inp, c.graph, RowCulprits(inp, c, row))))
      else RowDefects(inp, c, ix1, row, Vias(a.candidates), Assumptions(a.candidates))
  {
    hide RowReady, Bounded, Replaced, RowDefects, EmitVerification, Asserted, AllGaps, RowCulprits;
  }

  lemma StandsIs(inp: Input, c: Condensation, ix0: Index, row: Row, vias: map<RunId, Via>, assumed: map<RunId, bool>)
    requires RowReady(c, row) && Bounded(RowIndex(inp, c, ix0, row)) && RowStands(inp, c, ix0, row, vias, assumed)
    ensures var ix := RowIndex(inp, c, ix0, row);
      var ds := RowDefects(inp, c, ix, row, vias, assumed);
      (AllValid(ix.findings, ds) <==> !Starved(inp, c, row)) && AllInBounds(ix.findings, ds)
  {
    hide AllValid, AllInBounds, Starved, RowDefects, RowIndex, Bounded;
  }

  lemma GraphIsValid(inp: Input, c: Condensation)
    requires WellFormed(inp, c)
    ensures c.graph.Valid()
  {
    hide Reaches, ProperSuper, ProperMembers, ProperTopo, Acyclic;
  }

  lemma ReplacedIs(inp: Input, c: Condensation, row: Row, gaps: seq<Gap>)
    requires RowReady(c, row) && gaps == AllGaps(inp, c.graph, RowCulprits(inp, c, row))
    ensures Replaced(inp, c, row) <==> Blamable(RowVerdict(inp, c, row), gaps)
  {
    hide Blamable, AllGaps, RowVerdict, RowCulprits;
  }

  lemma StampTwice(fs: seq<Finding>, ds: seq<Defect>, form: seq<Defect>, starved: bool)
    requires AllInBounds(fs, ds) && (AllValid(fs, ds) <==> !starved) && AllValid(fs, form) && AllInBounds(fs, form)
    ensures AllInBounds(fs, ds + form) && (AllValid(fs, ds + form) <==> !starved)
  {
    hide AllValid, AllInBounds;
    AllValidConcat(fs, ds, form);
  }

  // The published defects are the settled ones and the form's, with divergences attached.
  lemma Publish(inp: Input, c: Condensation, row: Row, fs: seq<Finding>, culprits: seq<RunId>, ds: seq<Defect>,
                v: Verdict,
                form: seq<Defect>, out: seq<Defect>)
    requires RowReady(c, row) && Settled(inp, c, row, fs, culprits, ds, v)
    requires forall d :: d in form ==> d.kind == FormFault && d.qualityUnmeasured == QualityUnmeasured(inp, c)
    requires |out| == |ds + form|
    requires forall k :: 0 <= k < |out| ==> out[k] == Attach(|fs|, Divergences(fs), (ds + form)[k])
    ensures AgreesButForm(out, culprits)
    ensures forall d :: d in out ==> d.qualityUnmeasured == QualityUnmeasured(inp, c)
  {
    hide AllValid, AllInBounds, FinalCulprits, FinalVerdict, Unsupported, QualityUnmeasured, Attach, Divergences;
    forall d | d in out
      ensures d.qualityUnmeasured == QualityUnmeasured(inp, c)
      ensures d.kind != FormFault ==>
        (d.origin.Localized? ==> d.origin.run in culprits) && (d.origin.External? ==> d.origin.source in culprits)
    {
      AttachKeepsAll(fs, ds + form, out, d);
      var e :| e in ds + form && d.kind == e.kind && d.origin == e.origin && d.qualityUnmeasured == e.qualityUnmeasured;
      assert e in ds || e in form;
    }
  }

  // ---------- The verdict is read off the published defects ----------

  ghost predicate SameCase(d: Defect, e: Defect) {
    d.kind == e.kind && d.origin == e.origin && d.recovered == e.recovered && d.qualityUnmeasured == e.qualityUnmeasured
  }

  // Everything in `ds` that can decide a verdict has its like in `es`.
  ghost predicate Covers(ds: seq<Defect>, es: seq<Defect>) {
    && (forall d :: d in ds && d.kind == FormFault ==> !d.origin.External?)
    && forall d :: d in ds && d.kind != FormFault ==> exists e :: e in es && SameCase(d, e)
  }

  lemma CoveredRuns(ds: seq<Defect>, es: seq<Defect>)
    requires Covers(ds, es)
    ensures LocalizedRuns(ds) <= LocalizedRuns(es)
  {
    forall r | r in LocalizedRuns(ds) ensures r in LocalizedRuns(es) {
      var d :| d in ds && Primary(d) && d.origin.Localized? && d.origin.run == r;
      var e :| e in es && SameCase(d, e);
    }
  }

  // What a verdict depends on.
  datatype Case = Case(decisive: bool, external: bool, several: bool, loop: bool, live: bool, liveHere: bool,
    placed: bool, unplaced: bool, content: bool,
                       contract: bool, contractPlaced: bool, unmeasured: bool, verification: bool)

  ghost function CaseOf(ds: seq<Defect>): Case {
    Case(exists d :: d in ds && (Primary(d) || d.kind == VerificationFault),
         exists d :: d in ds && d.origin.External?,
         TwoOrigins(ds),
         exists d :: d in ds && d.kind == LoopFault && d.origin.Localized?,
         exists d :: d in ds && Active(d),
         exists d :: d in ds && Active(d) && d.origin.Localized?,
         exists d :: d in ds && Active(d) && !d.origin.Unlocalized?,
         exists d :: d in ds && Active(d) && d.origin.Unlocalized?,
         exists d :: d in ds && d.kind == ContentFault,
         exists d :: d in ds && d.kind == ContractFault,
         exists d :: d in ds && d.kind == ContractFault && d.origin.Localized?,
         exists d :: d in ds && d.kind == ContractFault && d.qualityUnmeasured,
         exists d :: d in ds && d.kind == VerificationFault)
  }

  predicate Within(a: Case, b: Case) {
    && (a.decisive ==> b.decisive) && (a.external ==> b.external) && (a.loop ==> b.loop) && (a.live ==> b.live) &&
       (a.liveHere ==> b.liveHere)
    && (a.placed ==> b.placed) && (a.unplaced ==> b.unplaced) && (a.content ==> b.content) &&
       (a.contract ==> b.contract)
    && (a.contractPlaced ==> b.contractPlaced) && (a.unmeasured ==> b.unmeasured) && (a.verification ==> b.verification)
  }

  lemma CoveredCase(ds: seq<Defect>, es: seq<Defect>)
    requires Covers(ds, es)
    ensures Within(CaseOf(ds), CaseOf(es))
  {
    hide TwoOrigins;
  }

  function FromCase(k: Case): Verdict {
    if !k.decisive then Unclassified
    else if k.external then RootCauseExternal
    else if k.several then MultiCulprit
    else if k.loop then LoopDetected
    else if k.liveHere then CutPointVerdict
    else if k.content && !k.live && !k.contract then DegradedRecovered
    else if k.contractPlaced && k.unplaced then TerminalDefectUnlocalized
    else if k.contractPlaced && !k.live then if k.unmeasured then CutPointVerdict else DegradedRecovered
    else if k.live && !k.placed then CompositionFailure
    else if k.verification then VerificationGap
    else Unclassified
  }

  lemma VerdictOfCase(ds: seq<Defect>)
    ensures DeriveVerdict(ds) == FromCase(CaseOf(ds))
  {
    hide TwoOrigins, Active, Primary;
  }

  lemma DeriveSame(ds: seq<Defect>, es: seq<Defect>)
    requires Covers(ds, es) && Covers(es, ds)
    ensures DeriveVerdict(ds) == DeriveVerdict(es)
  {
    hide *;
    CoveredRuns(ds, es);
    CoveredRuns(es, ds);
    SameTwo(ds, es);
    CoveredCase(ds, es);
    CoveredCase(es, ds);
    SeveralIs(ds);
    SeveralIs(es);
    WithinBoth(CaseOf(ds), CaseOf(es));
    VerdictOfCase(ds);
    VerdictOfCase(es);
  }

  lemma SeveralIs(ds: seq<Defect>)
    ensures CaseOf(ds).several == TwoOrigins(ds)
  {
    hide TwoOrigins, Active, Primary;
  }

  lemma WithinBoth(a: Case, b: Case)
    requires Within(a, b) && Within(b, a) && a.several == b.several
    ensures a == b
  {
  }

  lemma SameTwo(ds: seq<Defect>, es: seq<Defect>)
    requires LocalizedRuns(ds) <= LocalizedRuns(es) <= LocalizedRuns(ds)
    ensures TwoOrigins(ds) <==> TwoOrigins(es)
  {
    hide LocalizedRuns;
  }

  // Attaching divergences and adding a form defect change no verdict.
  lemma PublishedVerdict(fs: seq<Finding>, ds: seq<Defect>, form: seq<Defect>, out: seq<Defect>)
    requires forall d :: d in form ==> d.kind == FormFault && !d.origin.External?
    requires forall d :: d in ds ==> d.kind != FormFault
    requires |out| == |ds + form|
    requires forall k :: 0 <= k < |out| ==> out[k] == Attach(|fs|, Divergences(fs), (ds + form)[k])
    ensures DeriveVerdict(out) == DeriveVerdict(ds)
  {
    hide Divergences, Attached, DeriveVerdict;
    var all := ds + form;
    forall d | d in out ensures exists e :: e in all && SameCase(d, e) {
      var k :| 0 <= k < |out| && out[k] == d;
      assert all[k] in all && SameCase(d, all[k]);
    }
    forall e | e in ds ensures exists d :: d in out && SameCase(e, d) {
      var k :| 0 <= k < |ds| && ds[k] == e;
      assert all[k] == e && out[k] in out && SameCase(e, out[k]);
    }
    assert Covers(out, ds) && Covers(ds, out);
    DeriveSame(out, ds);
  }

  lemma DivergencesShipNothing(fs: seq<Finding>, v: Verdict)
    ensures Escalate(v, fs + Divergences(fs)) == Escalate(v, fs)
  {
    DivergencesContents(fs, KeysOf(fs));
    forall f | f in Divergences(fs) ensures f.kind != BreachPropagated {
    }
    assert forall f :: f in fs + Divergences(fs) <==> f in fs || f in Divergences(fs);
    hide Divergences;
  }

  lemma CulpritsInGraph(inp: Input, c: Condensation, a: Analysis, anomalies: seq<Anomaly>, row: Row)
    requires Analyzed(inp, c, a, anomalies) && CascadeReady(c, a, anomalies) && row == RowOf(inp, c, a, anomalies)
    requires RowReady(c, row)
    requires WellFormed(inp, c)
    ensures forall r :: r in FinalCulprits(inp, c, row) ==> r in c.superOf
  {
    hide *;
    AnalyzedIsReady(inp, c, a, anomalies);
    RowFits(inp, c, a, anomalies);
    RowRuns(inp, c, a, anomalies);
    NodesOf(inp, c);
    GapsNeedGroundTruth(inp, c.graph, RowCulprits(inp, c, row));
    forall r | r in RowCulprits(inp, c, row) ensures r in c.superOf {
      if row.Runaway? {
        RunawayFits(c, a, row.anomaly, row.others);
        OthersTold(inp, c, a.candidates, row.others);
        RunawayCulprit(inp, c, row.anomaly, row.others, r);
      } else if row.ManyOrigins? {
        ManyFits(c, row.origins);
        ManyNames(inp, c, row.origins);
        ManyCulprit(inp, c, row.origins, r);
      } else if row.NearMiss? || row.ContentUnplaced? || row.OneOrigin? {
        assert row.origin in a.candidates;
        Seated(inp, c, a.candidates, row.origin);
        if row.NearMiss? {
          NearMissFits(inp, c, a, anomalies);
        }
        LoneCulprit(inp, c, row, r);
      } else {
        RunlessCulprit(inp, c, row, r);
      }
    }
    GapCulprits(inp, c, row);
  }

  lemma GapCulprits(inp: Input, c: Condensation, row: Row)
    requires RowReady(c, row) && forall g :: g in AllGaps(inp, c.graph, RowCulprits(inp, c, row)) ==> g.run in c.superOf
    requires forall r :: r in RowCulprits(inp, c, row) ==> r in c.superOf
    ensures forall r :: r in FinalCulprits(inp, c, row) ==> r in c.superOf
  {
    hide AllGaps, RowCulprits, RowVerdict;
    var gaps := AllGaps(inp, c.graph, RowCulprits(inp, c, row));
    var told := Filter(gaps, (x: Gap) => x.basis != FlagConflict);
    forall r | r in Asserted(gaps) ensures r in c.superOf {
      var i :| 0 <= i < |told| && told[i].run == r;
      assert told[i] in gaps;
    }
  }

  lemma RunawayCulprit(inp: Input, c: Condensation, an: Anomaly, others: seq<Candidate>, r: RunId)
    requires WellFormed(inp, c) && InsideCycle(c, an) && Placed(c, others) && Told(inp, c, others)
    requires RowReady(c, Runaway(an, others))
    requires r in RowCulprits(inp, c, Runaway(an, others))
    ensures r in c.superOf
  {
    hide *;
    LoopMember(inp, c, an);
    LoopHasCulprit(an);
    LoopSeat(inp, c, an);
    RunawayNames(inp, c, an, others, r);
    if r !in LoopCulprits(an) {
      ManyCulprit(inp, c, others, r);
    }
  }

  lemma RunawayNames(inp: Input, c: Condensation, an: Anomaly, others: seq<Candidate>, r: RunId)
    requires RowReady(c, Runaway(an, others)) && Placed(c, others) && r in RowCulprits(inp, c, Runaway(an, others))
    ensures r in LoopCulprits(an) || r in AllResolved(inp, c, others)
  {
    hide AllResolved, LoopCulprits;
  }

  lemma ManyCulprit(inp: Input, c: Condensation, xs: seq<Candidate>, r: RunId)
    requires WellFormed(inp, c) && Placed(c, xs) && Told(inp, c, xs) && r in AllResolved(inp, c, xs)
    ensures r in c.superOf
  {
    hide WellFormed, Told, Resolved;
    var i :| 0 <= i < |xs| && AllResolved(inp, c, xs)[i] == r;
    assert xs[i] in xs;
    Seated(inp, c, xs, xs[i]);
    ResolvedInside(inp, c, xs[i]);
  }

  lemma ManyNames(inp: Input, c: Condensation, xs: seq<Candidate>)
    requires RowReady(c, ManyOrigins(xs)) && Placed(c, xs)
    ensures RowCulprits(inp, c, ManyOrigins(xs)) == AllResolved(inp, c, xs)
  {
    hide AllResolved;
  }

  lemma LoneCulprit(inp: Input, c: Condensation, row: Row, r: RunId)
    requires WellFormed(inp, c) && RowReady(c, row) && (row.NearMiss? || row.ContentUnplaced? || row.OneOrigin?)
    requires AtExit(c, row.origin) && Story(inp, c, row.origin) && r in RowCulprits(inp, c, row)
    ensures r in c.superOf
  {
    var x := row.origin;
    DrillFacts(inp, c, x);
    MembersLocated(inp, c, x.superId, Drill(inp, c, x).culprit);
    if x.sccMember.Some? {
      InsideFell(inp, c, x);
    }
    hide WellFormed, Drill, Story;
  }

  lemma RunlessCulprit(inp: Input, c: Condensation, row: Row, r: RunId)
    requires RowReady(c, row) && r in RowCulprits(inp, c, row) && c.superOf.Keys == c.graph.nodes
    requires row.ExternalFault? ==> row.source in c.graph.nodes
    requires row.Fabrication? ==> row.admitted in c.graph.nodes
    requires row.WholeOnly? ==> row.root in c.graph.nodes
    requires row.NothingMeasured? || row.ExternalFault? || row.Fabrication? || row.WholeOnly? || row.NothingFound?
    ensures r in c.superOf
  {
  }

  lemma SettledCulprits(inp: Input, c: Condensation, row: Row, fs: seq<Finding>, culprits: seq<RunId>, ds: seq<Defect>,
                        v: Verdict)
    requires RowReady(c, row) && Settled(inp, c, row, fs, culprits, ds, v)
    ensures culprits == FinalCulprits(inp, c, row) && v == FinalVerdict(inp, c, row) && v == DeriveVerdict(ds)
    ensures AllInBounds(fs, ds) && (AllValid(fs, ds) <==> !Unsupported(inp, c, row))
  {
    hide AllValid, AllInBounds, FinalCulprits, FinalVerdict, Unsupported, QualityUnmeasured, Agrees, DeriveVerdict;
  }

  lemma ReportIs(inp: Input, c: Condensation, row: Row, r: Report)
    requires WellFormed(inp, c) && RowReady(c, row)
    requires r.culprits == FinalCulprits(inp, c, row) && r.verdict == Escalate(FinalVerdict(inp, c, row), r.findings)
    requires r.verdict == Escalate(DeriveVerdict(r.defects), r.findings)
    requires r.gaps == AllGaps(inp, c.graph, RowCulprits(inp, c, row)) && AllValid(r.findings, r.defects)
    requires AgreesButForm(r.defects, r.culprits)
    requires forall d :: d in r.defects ==> d.qualityUnmeasured == QualityUnmeasured(inp, c)
    requires forall x :: x in r.culprits ==> x in c.superOf
    requires r.culprits == [] ==> r.path == []
    requires r.culprits != [] && r.culprits[0] in c.superOf ==>
      exists sids :: IsPropagation(inp, c, r.culprits[0], sids, r.path)
    ensures IsReport(inp, c, row, r)
  {
    hide WellFormed, RowReady, FinalCulprits, FinalVerdict, AllGaps, RowCulprits, AllValid, AgreesButForm,
      QualityUnmeasured, IsPropagation, Escalate,
      DeriveVerdict;
    if r.culprits != [] {
      assert r.culprits[0] in r.culprits;
    }
  }

  lemma PreparedIs(inp: Input, c: Condensation, a: Analysis, anomalies: seq<Anomaly>, lane: set<RunId>,
                   nodes: seq<RunId>, extra: seq<Finding>, ix: Index)
    requires HasMembers(anomalies) && Prepared(inp, c, a, anomalies, lane, nodes, extra, ix)
    ensures Built(inp, c, lane, nodes, a, anomalies, ix) && ix.verifier == map[]
  {
    hide Built, Assemble.BuiltItems, Assemble.AllCited, Assemble.DropFacts, Assemble.CitesOwn;
  }

  lemma FormIs(inp: Input, ix: Index, form: seq<Defect>)
    requires Bounded(ix) && (!FormMissed(inp) ==> form == [])
    requires FormMissed(inp) ==> exists a: Anchor ::
      (a.Anchored? ==> a.breach < |ix.findings|) && form == [FormDefect(inp, ix, a)] &&
      (if ix.terminalForm.Some? then FoundAnchor(inp, ix, a) else a.NoAnchor?)
    ensures IsForm(inp, ix, form)
  {
    hide Bounded, FormMissed, FormDefect, FoundAnchor;
  }

  ghost predicate NoForm(ds: seq<Defect>) {
    forall d :: d in ds ==> d.kind != FormFault
  }

  lemma {:induction false} MultiNoForm(inp: Input, ix: Index, runs: seq<RunId>, vias: map<RunId, Via>,
                                       assumed: map<RunId, bool>, bad: bool)
    requires Bounded(ix)
    ensures NoForm(MultiDefects(inp, ix, runs, vias, assumed, bad))
  {
    hide Bounded, MultiDefects;
    MultiRuns(inp, ix, runs, vias, assumed, bad);
  }

  lemma RowNoForm(inp: Input, c: Condensation, ix: Index, row: Row, vias: map<RunId, Via>, assumed: map<RunId, bool>)
    requires RowReady(c, row) && Bounded(ix)
    ensures NoForm(RowDefects(inp, c, ix, row, vias, assumed))
  {
    hide Bounded, ContentRefs, ContractRefs, TerminalRefs, Ordered, ChannelOf, Drill, MultiDefects, AllResolved, ViaOf,
      AssumedAt, TerminalBad,
      HasContract, EmitsContent, LoopCulprits, NearMissRun;
    match row {
      case Runaway(an, others) =>
        LoopHasCulprit(an);
        MultiNoForm(inp, ix, AllResolved(inp, c, others), vias, assumed, TerminalBad(inp));
      case ManyOrigins(xs) => MultiNoForm(inp, ix, AllResolved(inp, c, xs), vias, assumed, TerminalBad(inp));
      case _ =>
    }
  }

  lemma StampNoForm(ds: seq<Defect>, u: bool)
    requires NoForm(ds)
    ensures forall d :: d in Stamp(ds, u) ==> d.kind != FormFault
  {
    hide Stamp;
    forall d | d in Stamp(ds, u) ensures d.kind != FormFault {
      var e := Unstamped(ds, u, d);
    }
  }

  lemma VerdictsNoForm(ix: Index, runs: seq<RunId>)
    ensures NoForm(EmitVerification(ix, runs))
  {
    hide Ordered;
    var ds := EmitVerification(ix, runs);
    forall d | d in ds ensures d.kind != FormFault {
      var i :| 0 <= i < |ds| && ds[i] == d;
    }
  }

  lemma MainIsNoForm(inp: Input, c: Condensation, a: Analysis, row: Row, ix1: Index, ix2: Index, u: bool)
    requires RowReady(c, row) && Bounded(ix1)
    ensures forall d :: d in Stamp(MainDefects(inp, c, a, row, ix1, ix2), u) ==> d.kind != FormFault
  {
    hide RowReady, Bounded, Replaced, RowDefects, EmitVerification, Asserted, AllGaps, RowCulprits, NoForm, Stamp;
    RowNoForm(inp, c, ix1, row, Vias(a.candidates), Assumptions(a.candidates));
    VerdictsNoForm(ix2, Asserted(AllGaps(inp, c.graph, RowCulprits(inp, c, row))));
    StampNoForm(MainDefects(inp, c, a, row, ix1, ix2), u);
  }

  lemma AdvancedBounds(inp: Input, c: Condensation, row: Row, ix0: Index, ix2: Index)
    requires RowReady(c, row) && Advanced(inp, c, row, ix0, ix2)
    ensures Bounded(RowIndex(inp, c, ix0, row))
  {
    hide RowReady, Bounded, RowIndex, AllGaps, RowCulprits;
  }

  lemma PayloadIs(inp: Input, c: Condensation, a: Analysis, anomalies: seq<Anomaly>, extra: seq<Finding>, row: Row,
                  ix0: Index, ix2: Index,
                  form: seq<Defect>, r: Report)
    requires RowReady(c, row) && HasMembers(anomalies) && InRange(c, c.topo)
    requires Prepared(inp, c, a, anomalies, AssessmentLane(inp, c.graph), Expand(c, c.topo), extra, ix0)
    requires Advanced(inp, c, row, ix0, ix2) && Bounded(RowIndex(inp, c, ix0, row)) && IsForm(inp, ix2, form)
    requires r.findings == ix2.findings + Divergences(ix2.findings)
    requires var ds := Stamp(MainDefects(inp, c, a, row, RowIndex(inp, c, ix0, row), ix2), QualityUnmeasured(inp, c)) +
      Stamp(form, QualityUnmeasured(inp, c));
      |r.defects| == |ds| && forall k :: 0 <= k < |ds| ==>
        r.defects[k] == Attach(|ix2.findings|, Divergences(ix2.findings), ds[k])
    ensures IsPayload(inp, c, a, anomalies, extra, row, r)
  {
    hide Prepared, Advanced, IsForm, RowReady, Stamp, MainDefects, QualityUnmeasured, Attach, Divergences,
      AssessmentLane, Expand, RowIndex;
    assert Ships(inp, c, a, row, ix0, ix2, form, r);
  }

  method FindBlame(inp: Input, comps: seq<set<RunId>>, extra: seq<Finding>)
    returns (out: Outcome, c: Condensation, a: Analysis, anomalies: seq<Anomaly>)
    requires IsSccListing(BuildGraph(inp.nodes, inp.edges), comps)
    ensures Condensed(inp, comps, c) && WellFormed(inp, c)
    ensures out == Raised(NoSecondNode) <==> !Steady(inp, c)
    ensures Steady(inp, c) ==> Analyzed(inp, c, a, anomalies)
    ensures Steady(inp, c) ==> CascadeReady(c, a, anomalies) && RowReady(c, RowOf(inp, c, a, anomalies))
    ensures Steady(inp, c) ==> (out == Raised(NoSupport) <==> Unsupported(inp, c, RowOf(inp, c, a, anomalies)))
    ensures out.Published? ==> IsReport(inp, c, RowOf(inp, c, a, anomalies), out.report)
    ensures Steady(inp, c) ==> HasMembers(anomalies) && InRange(c, c.topo)
    ensures out.Published? ==> IsPayload(inp, c, a, anomalies, extra, RowOf(inp, c, a, anomalies), out.report)
    ensures out.Published? ==> Publishes(inp, c, a, anomalies, extra, out.report)
  {
    hide *;
    c := Condense.Condense(inp, comps);
    CondensedIsWellFormed(inp, comps, c);
    anomalies := [];
    var analysis := Analyze(inp, c);
    if analysis.None? {
      a := Analysis([], [], false, []);
      out := Raised(NoSecondNode);
      return;
    }
    a := analysis.value;
    var at;
    anomalies, at := DetectAnomalies(inp, c);
    AnalyzedBy(inp, c, a, anomalies, at);
    AnalyzedIsReady(inp, c, a, anomalies);
    TopoInRange(inp, c);
    OrderInRange(c);
    ReadyRanges(c, a, anomalies);
    var nodes := ExpandAll(c, c.topo);
    NodesCovered(inp, c);
    var lane := AssessmentLane(inp, c.graph);
    var idx := Prepare(inp, c, a, anomalies, lane, nodes, extra);
    ghost var ix0 := idx.View();
    PreparedIs(inp, c, a, anomalies, lane, nodes, extra, ix0);
    Assemble.StoreFields(idx);
    var row := RowOf(inp, c, a, anomalies);
    var culprits, defects, verdict, gaps := Settle(inp, c, a, anomalies, lane, nodes, row, idx);
    SettledCulprits(inp, c, row, idx.findings, culprits, defects, verdict);
    CulpritsInGraph(inp, c, a, anomalies, row);
    var u := QualityUnmeasured(inp, c);
    IndexesBounded(inp, lane, nodes, idx.View());
    Assemble.StoreFields(idx);
    var form := EmitForm(inp, idx.View());
    ghost var emitted := form;
    FormIs(inp, idx.View(), form);
    FormStands(inp, c, lane, nodes, idx.View(), form, u);
    form := Stamp(form, u);
    StampTwice(idx.findings, defects, form, Unsupported(inp, c, row));
    Bounds(idx.findings, defects + form);
    var final := Finalize(idx.findings, defects + form);
    if final.Unsupported? {
      out := Raised(NoSupport);
      return;
    }
    Publish(inp, c, row, idx.findings, culprits, defects, verdict, form, final.defects);
    AdvancedBounds(inp, c, row, ix0, idx.View());
    MainIsNoForm(inp, c, a, row, RowIndex(inp, c, ix0, row), idx.View(), u);
    PublishedVerdict(idx.findings, defects, form, final.defects);
    DivergencesShipNothing(idx.findings, verdict);
    var path := [];
    if culprits != [] {
      path := PropagationPath(inp, c, culprits[0]);
    }
    var report := Report(culprits, Escalate(verdict, idx.findings), final.findings, final.defects, gaps, path);
    ReportIs(inp, c, row, report);
    PayloadIs(inp, c, a, anomalies, extra, row, ix0, idx.View(), emitted, report);
    PublishesIs(inp, c, a, anomalies, extra, report);
    out := Published(report);
  }

  lemma PublishesIs(inp: Input, c: Condensation, a: Analysis, anomalies: seq<Anomaly>, extra: seq<Finding>, r: Report)
    requires Analyzed(inp, c, a, anomalies) && WellFormed(inp, c) && CascadeReady(c, a, anomalies)
    requires RowReady(c, RowOf(inp, c, a, anomalies)) && HasMembers(anomalies) && InRange(c, c.topo)
    requires IsReport(inp, c, RowOf(inp, c, a, anomalies), r)
    requires IsPayload(inp, c, a, anomalies, extra, RowOf(inp, c, a, anomalies), r)
    ensures Publishes(inp, c, a, anomalies, extra, r)
  {
    hide Analyzed, WellFormed, CascadeReady, RowOf, RowReady, HasMembers, InRange, IsReport, IsPayload;
  }

  lemma AnalyzedBy(inp: Input, c: Condensation, a: Analysis, anomalies: seq<Anomaly>, at: seq<nat>)
    requires IsAnalysis(inp, c, a) && AreAnomalies(inp, c, |c.topo|, anomalies, at)
    ensures Analyzed(inp, c, a, anomalies)
  {
    hide IsAnalysis, AreAnomalies;
  }

  lemma OrderInRange(c: Condensation)
    requires forall k :: 0 <= k < |c.topo| ==> c.topo[k] < |c.supers|
    ensures InRange(c, c.topo)
  {
  }

  lemma ReadyRanges(c: Condensation, a: Analysis, anomalies: seq<Anomaly>)
    requires CascadeReady(c, a, anomalies)
    ensures HasMembers(anomalies) && InRange(c, c.topo)
  {
  }

  lemma Bounds(fs: seq<Finding>, ds: seq<Defect>)
    requires AllInBounds(fs, ds)
    ensures forall d :: d in ds ==> InBounds(fs, d.refs)
  {
  }
}
