// The published defects: what each says of its baseline and of the run, and when the form has one of its own.

module Defects {
  import opened Prelude
  import opened Graphs
  import opened BlameInput
  import opened RunRecord
  import opened Condense
  import opened Propagation
  import opened CutPoint
  import opened Origins
  import opened Evidence
  import opened FindingIndex
  import opened Assemble
  import opened Emit
  import opened Support
  import opened Derive
  import opened Reconcile
  import opened Loops
  import opened CandidateFacts
  import opened Cascade
  import opened Gaps
  import opened Soundness
  import opened Verdicts
  import opened Blame
  import opened Reports
  import Ladder

  // The last origin found at `r` rests on an assumed baseline.
  predicate AtBoundary(cs: seq<Candidate>, r: RunId) {
    exists k :: 0 <= k < |cs| && cs[k].run == r && cs[k].baseAssumed && forall j :: k < j < |cs| ==> cs[j].run != r
  }

  lemma {:induction false} AssumedIs(cs: seq<Candidate>, r: RunId)
    ensures AssumedAt(Assumptions(cs), r) <==> AtBoundary(cs, r)
    ensures r in Assumptions(cs) <==> exists k :: 0 <= k < |cs| && cs[k].run == r
  {
    if cs != [] {
      var n := |cs| - 1;
      var front := cs[..n];
      AssumedIs(front, r);
      assert forall k :: 0 <= k < n ==> front[k] == cs[k];
      if cs[n].run != r && AtBoundary(front, r) {
        var k :| 0 <= k < n && front[k].run == r && front[k].baseAssumed && forall j :: k < j < n ==> front[j].run != r;
        assert cs[k].run == r && cs[k].baseAssumed;
      }
    }
  }

  // A localized content claim is marked as resting on an assumed baseline exactly where `assumed` says so.
  ghost predicate Marked(ds: seq<Defect>, assumed: map<RunId, bool>) {
    forall d :: d in ds && d.kind == ContentFault && d.origin.Localized? ==>
      d.baseAssumed == AssumedAt(assumed, d.origin.run) && d.boundary == d.baseAssumed
  }

  lemma OriginMarked(inp: Input, ix: Index, run: RunId, via: Via, assumed: map<RunId, bool>, bad: bool)
    requires Bounded(ix)
    ensures Marked(EmitOrigin(inp, ix, run, via, AssumedAt(assumed, run), bad), assumed)
    ensures Marked(EmitCutPoint(inp, ix, run, via, AssumedAt(assumed, run), bad), assumed)
    ensures Marked(EmitRecovered(inp, ix, run, AssumedAt(assumed, run)), assumed)
  {
    hide Bounded, ContractRefs, ContentRefs, Ordered, ChannelOf, HasContract;
  }

  lemma {:induction false} MultiMarked(inp: Input, ix: Index, runs: seq<RunId>, vias: map<RunId, Via>,
                                       assumed: map<RunId, bool>, bad: bool)
    requires Bounded(ix)
    ensures Marked(MultiDefects(inp, ix, runs, vias, assumed, bad), assumed)
  {
    hide Bounded, EmitOrigin, AssumedAt;
    if runs != [] {
      var r := runs[|runs| - 1];
      MultiMarked(inp, ix, runs[..|runs| - 1], vias, assumed, bad);
      OriginMarked(inp, ix, r, ViaOf(vias, r), assumed, bad);
    }
  }

  lemma OthersMarked(inp: Input, ix: Index, run: RunId, assumed: map<RunId, bool>)
    requires Bounded(ix)
    ensures Marked(EmitExternal(inp, ix, run), assumed) && Marked(EmitLoop(ix, run), assumed)
    ensures Marked(EmitComposition(ix), assumed) && Marked(EmitTerminalUnlocalized(inp, ix, run), assumed)
  {
    hide Bounded, ContractRefs, ContentRefs, TerminalRefs, Ordered, ChannelOf, HasContract, Cite, At, AssumedAt;
  }

  lemma RowMarked(inp: Input, c: Condensation, ix: Index, row: Row, vias: map<RunId, Via>, assumed: map<RunId, bool>)
    requires RowReady(c, row) && Bounded(ix)
    ensures Marked(RowDefects(inp, c, ix, row, vias, assumed), assumed)
  {
    hide Bounded, EmitExternal, EmitLoop, EmitComposition, EmitTerminalUnlocalized, EmitRecovered, EmitCutPoint,
      MultiDefects, Drill, AllResolved, TerminalBad, ViaOf, AssumedAt, LoopCulprits;
    var bad := TerminalBad(inp);
    match row
    case ExternalFault(r) => OthersMarked(inp, ix, r, assumed);
    case Runaway(an, others) =>
      LoopHasCulprit(an);
      OthersMarked(inp, ix, LoopCulprits(an)[0], assumed);
      MultiMarked(inp, ix, AllResolved(inp, c, others), vias, assumed, bad);
    case NearMiss(x) => OriginMarked(inp, ix, NearMissRun(x), Content, assumed, bad);
    case ContentUnplaced(x) => OthersMarked(inp, ix, x.run, assumed);
    case OneOrigin(x) =>
      var m := Drill(inp, c, x).culprit;
      OriginMarked(inp, ix, m, ViaOf(vias, m), assumed, bad);
    case ManyOrigins(xs) => MultiMarked(inp, ix, AllResolved(inp, c, xs), vias, assumed, bad);
    case Fabrication(r) => OriginMarked(inp, ix, r, ViaOf(vias, r), assumed, bad);
    case WholeOnly(r) => OthersMarked(inp, ix, r, assumed);
    case _ =>
  }

  lemma VerificationMarked(ix: Index, runs: seq<RunId>, assumed: map<RunId, bool>)
    ensures Marked(EmitVerification(ix, runs), assumed)
    ensures forall d :: d in EmitVerification(ix, runs) ==> d.kind == VerificationFault
  {
    hide Ordered, Cite;
    var ds := EmitVerification(ix, runs);
    forall d | d in ds ensures d.kind == VerificationFault {
      var k :| 0 <= k < |ds| && ds[k] == d;
    }
  }

  predicate WrongForm(inp: Input) {
    inp.terminal.Some? && inp.terminal.value.checkable && inp.terminal.value.formBad
  }

  // Main result: every content claim about a run is marked as resting on an assumed baseline exactly when the last
  // origin found at that run does, and every defect as unmeasured exactly when nothing was scored; the form has a
  // defect of its own exactly when it was checkable and bad.
  lemma PublishedMarks(inp: Input, c: Condensation, a: Analysis, anomalies: seq<Anomaly>, extra: seq<Finding>,
                       r: Report)
    requires Publishes(inp, c, a, anomalies, extra, r)
    ensures forall d :: d in r.defects && d.kind == ContentFault && d.origin.Localized? ==>
      (d.baseAssumed <==> AtBoundary(a.candidates, d.origin.run)) && d.boundary == d.baseAssumed
    ensures forall d :: d in r.defects ==> (d.qualityUnmeasured <==> Ladder.NothingScored(inp, c))
    ensures WrongForm(inp) <==> exists d :: d in r.defects && d.kind == FormFault
  {
    hide *;
    PublishedParts(inp, c, a, anomalies, extra, r);
    var row := RowOf(inp, c, a, anomalies);
    UnmeasuredMarks(inp, c, row, r);
    Ladder.UnmeasuredIs(inp, c);
    var ds, form := ShippedDefects(inp, c, a, anomalies, extra, row, r);
    var assumed := Assumptions(a.candidates);
    forall d | d in r.defects && d.kind == ContentFault && d.origin.Localized?
      ensures (d.baseAssumed <==> AtBoundary(a.candidates, d.origin.run)) && d.boundary == d.baseAssumed
    {
      AssumedIs(a.candidates, d.origin.run);
      MarkedAt(r.defects, assumed, d);
    }
  }

  lemma MarkedAt(ds: seq<Defect>, assumed: map<RunId, bool>, d: Defect)
    requires Marked(ds, assumed) && d in ds && d.kind == ContentFault && d.origin.Localized?
    ensures d.baseAssumed == AssumedAt(assumed, d.origin.run) && d.boundary == d.baseAssumed
  {
    hide AssumedAt;
  }

  lemma UnmeasuredMarks(inp: Input, c: Condensation, row: Row, r: Report)
    requires WellFormed(inp, c) && RowReady(c, row) && IsReport(inp, c, row, r)
    ensures forall d :: d in r.defects ==> d.qualityUnmeasured == QualityUnmeasured(inp, c)
  {
    hide WellFormed, RowReady, FinalCulprits, FinalVerdict, AllGaps, RowCulprits, AllValid, AgreesButForm,
      QualityUnmeasured, IsPath, Escalate, DeriveVerdict;
  }

  ghost predicate SameMarks(d: Defect, e: Defect) {
    e.kind == d.kind && e.origin == d.origin && e.baseAssumed == d.baseAssumed && e.boundary == d.boundary
  }

  lemma ShippedDefects(inp: Input, c: Condensation, a: Analysis, anomalies: seq<Anomaly>, extra: seq<Finding>, row: Row,
                       r: Report) returns (ds: seq<Defect>, form: seq<Defect>)
    requires RowReady(c, row) && HasMembers(anomalies) && InRange(c, c.topo)
    requires IsPayload(inp, c, a, anomalies, extra, row, r)
    ensures Marked(r.defects, Assumptions(a.candidates))
    ensures WrongForm(inp) <==> exists d :: d in r.defects && d.kind == FormFault
  {
    hide RowReady, Indexes, Covered, BuiltItems, LoopRuns, FallenRuns, RowIndex, IsForm, MainDefects, AllGaps,
      RowCulprits, Divergences, AllCited, DropFacts, CitesOwn, Expand, AssessmentLane, OwnVerdicts, Stamp, Attach,
      Assumptions, Marked, WrongForm, Bounded, Prepared, QualityUnmeasured;
    var ix0: Index, ix2: Index, fs: seq<Defect> :|
      Prepared(inp, c, a, anomalies, AssessmentLane(inp, c.graph), Expand(c, c.topo), extra, ix0) &&
        Ships(inp, c, a, row, ix0, ix2, fs, r);
    form := fs;
    ds := MainDefects(inp, c, a, row, RowIndex(inp, c, ix0, row), ix2);
    MainMarked(inp, c, a, row, RowIndex(inp, c, ix0, row), ix2);
    FormMarked(inp, ix2, form, Assumptions(a.candidates));
    StampedMarks(ds, form, QualityUnmeasured(inp, c), |ix2.findings|, Divergences(ix2.findings), r.defects);
    JoinedMarks(ds, form, Assumptions(a.candidates), inp);
    CarriedMarks(ds + form, r.defects, Assumptions(a.candidates), inp);
  }

  lemma JoinedMarks(ds: seq<Defect>, form: seq<Defect>, assumed: map<RunId, bool>, inp: Input)
    requires Marked(ds, assumed) && Marked(form, assumed) && (form != [] <==> WrongForm(inp))
    requires (forall d :: d in ds ==> d.kind != FormFault) && forall d :: d in form ==> d.kind == FormFault
    ensures Marked(ds + form, assumed) && (WrongForm(inp) <==> exists d :: d in ds + form && d.kind == FormFault)
  {
    hide AssumedAt, WrongForm;
    if form != [] {
      assert form[0] in form && form[0] in ds + form;
    }
  }

  lemma MainMarked(inp: Input, c: Condensation, a: Analysis, row: Row, ix1: Index, ix2: Index)
    requires RowReady(c, row) && Bounded(ix1)
    ensures Marked(MainDefects(inp, c, a, row, ix1, ix2), Assumptions(a.candidates))
    ensures forall d :: d in MainDefects(inp, c, a, row, ix1, ix2) ==> d.kind != FormFault
  {
    hide RowReady, Bounded, Replaced, RowDefects, EmitVerification, Marked, Assumptions, Asserted, AllGaps, RowCulprits;
    RowMarked(inp, c, ix1, row, Vias(a.candidates), Assumptions(a.candidates));
    VerificationMarked(ix2, Asserted(AllGaps(inp, c.graph, RowCulprits(inp, c, row))), Assumptions(a.candidates));
    RowShape(inp, c, ix1, row, Vias(a.candidates), Assumptions(a.candidates));
  }

  lemma FormMarked(inp: Input, ix: Index, form: seq<Defect>, assumed: map<RunId, bool>)
    requires IsForm(inp, ix, form)
    ensures Marked(form, assumed) && (forall d :: d in form ==> d.kind == FormFault)
    ensures form != [] <==> WrongForm(inp)
  {
    hide Bounded, FoundAnchor, FormRefs, Ordered, ChannelOf;
  }

  lemma StampedMarks(ds: seq<Defect>, form: seq<Defect>, u: bool, base: nat, divs: seq<Finding>, out: seq<Defect>)
    requires var all := Stamp(ds, u) + Stamp(form, u);
      |out| == |all| && forall k :: 0 <= k < |all| ==> out[k] == Attach(base, divs, all[k])
    ensures |out| == |ds + form| && forall k :: 0 <= k < |out| ==> SameMarks((ds + form)[k], out[k])
  {
    hide Attached;
    var all := Stamp(ds, u) + Stamp(form, u);
    forall k | 0 <= k < |out| ensures SameMarks((ds + form)[k], out[k]) {
      if k < |ds| {
        assert all[k] == Stamp(ds, u)[k];
      } else {
        assert all[k] == Stamp(form, u)[k - |ds|];
      }
    }
  }

  lemma CarriedMarks(all: seq<Defect>, out: seq<Defect>, assumed: map<RunId, bool>, inp: Input)
    requires Marked(all, assumed) && |out| == |all| && forall k :: 0 <= k < |out| ==> SameMarks(all[k], out[k])
    requires WrongForm(inp) <==> exists d :: d in all && d.kind == FormFault
    ensures Marked(out, assumed) && (WrongForm(inp) <==> exists d :: d in out && d.kind == FormFault)
  {
    hide AssumedAt, WrongForm;
    forall e | e in out ensures exists d :: d in all && SameMarks(d, e) {
      var k :| 0 <= k < |out| && out[k] == e;
      assert all[k] in all;
    }
    if d :| d in all && d.kind == FormFault {
      var k :| 0 <= k < |all| && all[k] == d;
      assert out[k] in out;
    }
  }
}
