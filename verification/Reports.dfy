// The published report, without the row behind it: when its verdict escalates, and when verifiers take its place.

module Reports {
  import opened Prelude
  import opened Graphs
  import opened BlameInput
  import opened Condense
  import opened Propagation
  import opened CutPoint
  import Localize
  import opened Origins
  import opened Evidence
  import opened FindingIndex
  import opened Assemble
  import opened Emit
  import opened Support
  import opened Derive
  import opened Reconcile
  import opened Loops
  import opened CandidateFacts
  import opened Cascade
  import opened Gaps
  import opened Soundness
  import opened Verdicts
  import opened Blame

  // ---------- The published findings ----------

  lemma PayloadFindings(inp: Input, c: Condensation, a: Analysis, anomalies: seq<Anomaly>, extra: seq<Finding>,
                        row: Row, r: Report) returns (ix: Index)
    requires RowReady(c, row) && HasMembers(anomalies) && InRange(c, c.topo)
    requires IsPayload(inp, c, a, anomalies, extra, row, r)
    ensures forall an :: an in anomalies ==> an.members != []
    ensures ix.drop.Keys == FallenRuns(a.candidates, LoopRuns(c))
    ensures ix.findings == BuiltItems(inp, Expand(c, c.topo), AssessmentLane(inp, c.graph), a.candidates, LoopRuns(c),
      anomalies) + extra
    ensures Indexes(inp, AssessmentLane(inp, c.graph), Expand(c, c.topo), ix)
    ensures var fs := RowIndex(inp, c, ix, row).findings +
      MapSeq(AllGaps(inp, c.graph, RowCulprits(inp, c, row)), (g: Gap) => VerdictFinding(g));
      r.findings == fs + Divergences(fs)
  {
    hide RowReady, Indexes, Covered, BuiltItems, LoopRuns, FallenRuns, RowIndex, IsForm, MainDefects, AllGaps,
      RowCulprits, Divergences, AllCited, DropFacts, CitesOwn, Expand, AssessmentLane, OwnVerdicts;
    var ix0: Index, ix2: Index, form: seq<Defect> :|
      Prepared(inp, c, a, anomalies, AssessmentLane(inp, c.graph), Expand(c, c.topo), extra, ix0) &&
        Ships(inp, c, a, row, ix0, ix2, form, r);
    ix := ix0;
  }

  ghost predicate ShipsNothing(fs: seq<Finding>) {
    forall f :: f in fs ==> f.kind != BreachPropagated
  }

  lemma {:induction false} ConcatShipsNothing(nodes: seq<RunId>, make: RunId -> seq<Finding>)
    requires forall r :: ShipsNothing(make(r))
    ensures ShipsNothing(Concat(nodes, make))
  {
    if nodes != [] {
      ConcatShipsNothing(nodes[..|nodes| - 1], make);
    }
  }

  lemma {:induction false} FlagsShipNothing(r: RunId, flags: seq<string>)
    ensures ShipsNothing(FlagFindings(r, flags))
  {
    if flags != [] {
      FlagsShipNothing(r, flags[1..]);
    }
  }

  lemma MakersShipNothing(inp: Input, lane: set<RunId>, r: RunId)
    ensures ShipsNothing(NodeMaker(inp, lane)(r)) && ShipsNothing(BreachMaker(inp)(r)) &&
      ShipsNothing(SignalMaker(inp)(r))
  {
    FlagsShipNothing(r, Flags(inp, r));
  }

  lemma {:induction false} DropsShipNothing(cs: seq<Candidate>, loops: set<RunId>)
    ensures ShipsNothing(DropItems(cs, loops))
  {
    if cs != [] {
      DropsShipNothing(cs[..|cs| - 1], loops);
      hide Assemble.Falls, FallenRuns;
    }
  }

  lemma TerminalShipsNothing(inp: Input, anomalies: seq<Anomaly>)
    requires forall an :: an in anomalies ==> an.members != []
    ensures ShipsNothing(TerminalItems(inp)) && ShipsNothing(AnomalyItems(anomalies))
  {
  }

  lemma BuiltShipsNothing(inp: Input, nodes: seq<RunId>, lane: set<RunId>, cs: seq<Candidate>, loops: set<RunId>,
                          anomalies: seq<Anomaly>)
    requires forall an :: an in anomalies ==> an.members != []
    ensures ShipsNothing(BuiltItems(inp, nodes, lane, cs, loops, anomalies))
  {
    forall r
      ensures ShipsNothing(NodeMaker(inp, lane)(r)) && ShipsNothing(BreachMaker(inp)(r)) &&
        ShipsNothing(SignalMaker(inp)(r))
    {
      MakersShipNothing(inp, lane, r);
    }
    hide NodeMaker, BreachMaker, SignalMaker, Concat, DropItems, TerminalItems, AnomalyItems;
    ConcatShipsNothing(nodes, NodeMaker(inp, lane));
    ConcatShipsNothing(nodes, BreachMaker(inp));
    ConcatShipsNothing(nodes, SignalMaker(inp));
    DropsShipNothing(cs, loops);
    TerminalShipsNothing(inp, anomalies);
  }

  lemma AddedShipsNothing(ix: Index, out: Index)
    requires OnlyFalls(ix, out)
    ensures (exists f :: f in out.findings && f.kind == BreachPropagated) <==>
      exists f :: f in ix.findings && f.kind == BreachPropagated
  {
    if f :| f in out.findings && f.kind == BreachPropagated {
      var i :| 0 <= i < |out.findings| && out.findings[i] == f;
      assert ix.findings[i] == f;
    }
    if f :| f in ix.findings && f.kind == BreachPropagated {
      var i :| 0 <= i < |ix.findings| && ix.findings[i] == f;
      assert out.findings[i] == f;
    }
  }

  lemma DivergencesShip(fs: seq<Finding>)
    ensures ShipsNothing(Divergences(fs))
  {
    DivergencesContents(fs, KeysOf(fs));
    forall f | f in Divergences(fs) ensures f.kind != BreachPropagated {
    }
  }

  // A shipped breach stands in the report exactly when the caller supplied it.
  lemma ShippedIsSupplied(inp: Input, c: Condensation, a: Analysis, anomalies: seq<Anomaly>, extra: seq<Finding>,
                          r: Report)
    requires Publishes(inp, c, a, anomalies, extra, r)
    ensures (exists f :: f in r.findings && f.kind == BreachPropagated) <==>
      exists f :: f in extra && f.kind == BreachPropagated
  {
    hide *;
    PublishedParts(inp, c, a, anomalies, extra, r);
    var row := RowOf(inp, c, a, anomalies);
    var ix := PayloadFindings(inp, c, a, anomalies, extra, row, r);
    var lane, nodes := AssessmentLane(inp, c.graph), Expand(c, c.topo);
    var own := BuiltItems(inp, nodes, lane, a.candidates, LoopRuns(c), anomalies);
    var told := MapSeq(AllGaps(inp, c.graph, RowCulprits(inp, c, row)), (g: Gap) => VerdictFinding(g));
    BuiltShipsNothing(inp, nodes, lane, a.candidates, LoopRuns(c), anomalies);
    RowKeeps(inp, c, lane, nodes, ix, row);
    AddedShipsNothing(ix, RowIndex(inp, c, ix, row));
    VerdictsShip(AllGaps(inp, c.graph, RowCulprits(inp, c, row)), told);
    DivergencesShip(RowIndex(inp, c, ix, row).findings + told);
    SuppliedIn(own, extra, ix.findings);
    SuppliedIn(told, RowIndex(inp, c, ix, row).findings, RowIndex(inp, c, ix, row).findings + told);
    SuppliedIn(Divergences(RowIndex(inp, c, ix, row).findings + told), RowIndex(inp, c, ix, row).findings + told,
      r.findings);
  }

  lemma SuppliedIn(quiet: seq<Finding>, rest: seq<Finding>, all: seq<Finding>)
    requires ShipsNothing(quiet) && (all == quiet + rest || all == rest + quiet)
    ensures (exists f :: f in all && f.kind == BreachPropagated) <==>
      exists f :: f in rest && f.kind == BreachPropagated
  {
    assert forall f :: f in all <==> f in quiet || f in rest;
  }

  lemma VerdictsShip(gaps: seq<Gap>, told: seq<Finding>)
    requires |told| == |gaps| && forall i :: 0 <= i < |gaps| ==> told[i] == VerdictFinding(gaps[i])
    ensures ShipsNothing(told)
  {
  }

  lemma PublishedParts(inp: Input, c: Condensation, a: Analysis, anomalies: seq<Anomaly>, extra: seq<Finding>,
                       r: Report)
    requires Publishes(inp, c, a, anomalies, extra, r)
    ensures Analyzed(inp, c, a, anomalies) && WellFormed(inp, c) && CascadeReady(c, a, anomalies)
    ensures RowReady(c, RowOf(inp, c, a, anomalies)) && HasMembers(anomalies) && InRange(c, c.topo)
    ensures IsReport(inp, c, RowOf(inp, c, a, anomalies), r)
    ensures IsPayload(inp, c, a, anomalies, extra, RowOf(inp, c, a, anomalies), r)
  {
    hide Analyzed, WellFormed, CascadeReady, RowOf, RowReady, HasMembers, InRange, IsReport, IsPayload;
  }

  lemma VerdictParts(inp: Input, c: Condensation, row: Row, r: Report)
    requires WellFormed(inp, c) && RowReady(c, row) && IsReport(inp, c, row, r)
    ensures r.verdict == Escalate(DeriveVerdict(r.defects), r.findings)
    ensures r.verdict == Escalate(FinalVerdict(inp, c, row), r.findings)
    ensures r.culprits == FinalCulprits(inp, c, row) && r.gaps == AllGaps(inp, c.graph, RowCulprits(inp, c, row))
  {
    hide WellFormed, RowReady, FinalCulprits, FinalVerdict, AllGaps, RowCulprits, AllValid, AgreesButForm,
      QualityUnmeasured, IsPath, Escalate, DeriveVerdict;
  }

  // The projection itself never escalates.
  lemma NeverDerivesShipped(ds: seq<Defect>)
    ensures DeriveVerdict(ds) != ShippedWithLatentDefect
  {
    hide TwoOrigins, Active, Primary;
  }

  // Main result: the published verdict is shipped_with_latent_defect exactly when the defects derive
  // degraded_recovered and the caller supplied a propagated breach; otherwise it is the derived verdict.
  lemma EscalatesIff(inp: Input, c: Condensation, a: Analysis, anomalies: seq<Anomaly>, extra: seq<Finding>, r: Report)
    requires Publishes(inp, c, a, anomalies, extra, r)
    ensures r.verdict == ShippedWithLatentDefect <==>
      DeriveVerdict(r.defects) == DegradedRecovered && exists f :: f in extra && f.kind == BreachPropagated
    ensures r.verdict != ShippedWithLatentDefect ==> r.verdict == DeriveVerdict(r.defects)
  {
    hide *;
    PublishedParts(inp, c, a, anomalies, extra, r);
    VerdictParts(inp, c, RowOf(inp, c, a, anomalies), r);
    ShippedIsSupplied(inp, c, a, anomalies, extra, r);
    NeverDerivesShipped(r.defects);
    EscalateIs(DeriveVerdict(r.defects), r.findings);
  }

  lemma EscalateIs(v: Verdict, fs: seq<Finding>)
    ensures Escalate(v, fs) ==
      if v == DegradedRecovered && exists f :: f in fs && f.kind == BreachPropagated then ShippedWithLatentDefect else v
  {
  }

  // ---------- Verifiers in the place of an empty verdict ----------

  // The cascade's own defects behind a report, before any verifier takes their place.
  ghost predicate CascadeEmits(inp: Input, c: Condensation, a: Analysis, anomalies: seq<Anomaly>, extra: seq<Finding>,
                               r: Report, ds: seq<Defect>)
  {
    && CascadeReady(c, a, anomalies) && RowReady(c, RowOf(inp, c, a, anomalies))
    && HasMembers(anomalies) && InRange(c, c.topo) &&
    var row := RowOf(inp, c, a, anomalies);
    exists ix0: Index, ix2: Index, form: seq<Defect> ::
      Prepared(inp, c, a, anomalies, AssessmentLane(inp, c.graph), Expand(c, c.topo), extra, ix0) &&
        Ships(inp, c, a, row, ix0, ix2, form, r) &&
        ds == RowDefects(inp, c, RowIndex(inp, c, ix0, row), row, Vias(a.candidates), Assumptions(a.candidates))
  }

  // Some fault is pinned on a run or on a source outside the graph.
  ghost predicate PinsSomeone(ds: seq<Defect>) {
    exists d :: d in ds && Primary(d) && (d.origin.Localized? || d.origin.External?)
  }

  predicate Decided(g: Gap) {
    g.basis != FlagConflict
  }

  // `runs` are the runs of the decided gaps, in order.
  ghost predicate RunsOfDecided(gaps: seq<Gap>, runs: seq<RunId>) {
    exists at: seq<nat> ::
      && |at| == |runs|
      && (forall i :: 0 <= i < |at| ==> at[i] < |gaps| && Decided(gaps[at[i]]) && runs[i] == gaps[at[i]].run)
      && (forall i, j :: 0 <= i < j < |at| ==> at[i] < at[j])
      && forall k: nat :: k < |gaps| && Decided(gaps[k]) ==> k in at
  }

  // What the emitters of the cascade have in common.
  ghost predicate RowShaped(ds: seq<Defect>) {
    && (forall d :: d in ds ==> Primary(d) && !d.origin.Design?)
    && (forall d :: d in ds && d.kind != ContentFault ==> d.origin.Localized?)
    && ((forall d :: d in ds ==> !d.recovered) || forall d :: d in ds ==> d.origin.Localized?)
  }

  // The projection finds nobody exactly when nobody is pinned.
  lemma PinsDecide(ds: seq<Defect>)
    requires RowShaped(ds)
    ensures PinsSomeone(ds) <==> DeriveVerdict(ds) != CompositionFailure && DeriveVerdict(ds) != Unclassified
    ensures DeriveVerdict(ds) != VerificationGap
  {
    if TwoOrigins(ds) {
      var r, s :| r in LocalizedRuns(ds) && s in LocalizedRuns(ds) && r != s;
      var d :| d in ds && Primary(d) && d.origin.Localized? && d.origin.run == r;
      assert PinsSomeone(ds);
    }
    hide TwoOrigins;
  }

  lemma StampPins(ds: seq<Defect>, u: bool)
    ensures PinsSomeone(Stamp(ds, u)) <==> PinsSomeone(ds)
    ensures RowShaped(ds) ==> RowShaped(Stamp(ds, u))
  {
    var es := Stamp(ds, u);
    forall e | e in es ensures exists d :: d in ds && SameClaim(d, e) {
      var k :| 0 <= k < |es| && es[k] == e;
      assert ds[k] in ds && SameClaim(ds[k], e);
    }
    forall d | d in ds ensures exists e :: e in es && SameClaim(d, e) {
      var k :| 0 <= k < |ds| && ds[k] == d;
      assert es[k] in es && SameClaim(d, es[k]);
    }
  }

  // ---------- Every row's defects have that shape ----------

  // All localized, none recovered.
  ghost predicate AllPinned(ds: seq<Defect>) {
    forall d :: d in ds ==> Primary(d) && d.origin.Localized? && !d.recovered
  }

  lemma OriginPinned(inp: Input, ix: Index, run: RunId, via: Via, assumed: bool, bad: bool)
    requires Bounded(ix)
    ensures AllPinned(EmitOrigin(inp, ix, run, via, assumed, bad))
    ensures AllPinned(EmitCutPoint(inp, ix, run, via, assumed, bad))
  {
    hide Bounded, ContractRefs, ContentRefs, Ordered, ChannelOf, HasContract;
  }

  lemma {:induction false} MultiPinned(inp: Input, ix: Index, runs: seq<RunId>, vias: map<RunId, Via>,
                                       assumed: map<RunId, bool>, bad: bool)
    requires Bounded(ix)
    ensures AllPinned(MultiDefects(inp, ix, runs, vias, assumed, bad))
  {
    hide Bounded, EmitOrigin;
    if runs != [] {
      var r := runs[|runs| - 1];
      MultiPinned(inp, ix, runs[..|runs| - 1], vias, assumed, bad);
      OriginPinned(inp, ix, r, ViaOf(vias, r), AssumedAt(assumed, r), bad);
    }
  }

  lemma OthersShape(inp: Input, ix: Index, run: RunId, assumed: bool)
    requires Bounded(ix)
    ensures RowShaped(EmitExternal(inp, ix, run)) && AllPinned(EmitLoop(ix, run)) && RowShaped(EmitComposition(ix))
    ensures RowShaped(EmitTerminalUnlocalized(inp, ix, run)) && RowShaped(EmitRecovered(inp, ix, run, assumed))
  {
    hide Bounded, ContractRefs, ContentRefs, TerminalRefs, Ordered, ChannelOf, HasContract, Cite, At;
  }

  lemma RowShape(inp: Input, c: Condensation, ix: Index, row: Row, vias: map<RunId, Via>, assumed: map<RunId, bool>)
    requires RowReady(c, row) && Bounded(ix)
    ensures RowShaped(RowDefects(inp, c, ix, row, vias, assumed))
  {
    hide Bounded, EmitExternal, EmitLoop, EmitComposition, EmitTerminalUnlocalized, EmitRecovered, EmitCutPoint,
      MultiDefects, Drill, AllResolved, TerminalBad, ViaOf, AssumedAt, LoopCulprits, RowShaped, AllPinned;
    NoneShaped();
    var bad := TerminalBad(inp);
    match row
    case ExternalFault(r) => OthersShape(inp, ix, r, false);
    case Runaway(an, others) =>
      LoopHasCulprit(an);
      OthersShape(inp, ix, LoopCulprits(an)[0], false);
      var runs := AllResolved(inp, c, others);
      MultiPinned(inp, ix, runs, vias, assumed, bad);
      PinnedShaped(EmitLoop(ix, LoopCulprits(an)[0]), MultiDefects(inp, ix, runs, vias, assumed, bad));
    case NearMiss(x) => OthersShape(inp, ix, NearMissRun(x), AssumedAt(assumed, NearMissRun(x)));
    case ContentUnplaced(x) => OthersShape(inp, ix, x.run, false);
    case OneOrigin(x) =>
      var m := Drill(inp, c, x).culprit;
      var ds := EmitCutPoint(inp, ix, m, ViaOf(vias, m), AssumedAt(assumed, m), bad);
      OriginPinned(inp, ix, m, ViaOf(vias, m), AssumedAt(assumed, m), bad);
      PinnedShaped(ds, ds);
    case ManyOrigins(xs) =>
      var ds := MultiDefects(inp, ix, AllResolved(inp, c, xs), vias, assumed, bad);
      MultiPinned(inp, ix, AllResolved(inp, c, xs), vias, assumed, bad);
      PinnedShaped(ds, ds);
    case Fabrication(r) =>
      var ds := EmitCutPoint(inp, ix, r, ViaOf(vias, r), AssumedAt(assumed, r), bad);
      OriginPinned(inp, ix, r, ViaOf(vias, r), AssumedAt(assumed, r), bad);
      PinnedShaped(ds, ds);
    case WholeOnly(r) => OthersShape(inp, ix, r, false);
    case _ =>
  }

  lemma PinnedShaped(ds: seq<Defect>, es: seq<Defect>)
    requires AllPinned(ds) && AllPinned(es)
    ensures RowShaped(ds) && RowShaped(ds + es)
  {
  }

  lemma NoneShaped()
    ensures RowShaped([])
  {
  }

  // ---------- When the verifiers are the failure ----------

  // `at` are the positions `keep` holds at, in order, and `out` is what stands there.
  ghost predicate Picks(s: seq<Gap>, keep: Gap -> bool, at: seq<nat>, out: seq<Gap>) {
    && |at| == |out| && (forall i :: 0 <= i < |at| ==> at[i] < |s| && keep(s[at[i]]) && out[i] == s[at[i]])
    && (forall i, j :: 0 <= i < j < |at| ==> at[i] < at[j])
    && forall k: nat :: k < |s| && keep(s[k]) ==> k in at
  }

  lemma PicksNone(keep: Gap -> bool)
    ensures Picks([], keep, [], Filter([], keep))
  {
  }

  lemma PicksNext(s: seq<Gap>, x: Gap, keep: Gap -> bool, at: seq<nat>, out: seq<Gap>)
    requires Picks(s, keep, at, out)
    ensures keep(x) ==> Picks(s + [x], keep, at + [|s|], out + [x])
    ensures !keep(x) ==> Picks(s + [x], keep, at, out)
  {
    var all := s + [x];
    assert forall i :: 0 <= i < |s| ==> all[i] == s[i];
    if keep(x) {
      assert (at + [|s|])[|at|] == |s|;
      forall k: nat | k < |all| && keep(all[k]) ensures k in at + [|s|] {
        assert k < |s| ==> k in at;
      }
    }
  }

  lemma {:induction false} FilterPositions(s: seq<Gap>, keep: Gap -> bool) returns (at: seq<nat>)
    ensures Picks(s, keep, at, Filter(s, keep))
  {
    hide *;
    at := [];
    if s == [] {
      PicksNone(keep);
    } else {
      var n := |s| - 1;
      var front := FilterPositions(s[..n], keep);
      PicksNext(s[..n], s[n], keep, front, Filter(s[..n], keep));
      assert s == s[..n] + [s[n]];
      Localize.FilterAppend(s[..n], s[n], keep);
      assert Filter(s[..n], keep) + [] == Filter(s[..n], keep);
      at := if keep(s[n]) then front + [n] else front;
    }
  }

  lemma AssertedAre(gaps: seq<Gap>)
    ensures RunsOfDecided(gaps, Asserted(gaps))
    ensures Asserted(gaps) != [] <==> exists g :: g in gaps && Decided(g)
  {
    var keep := (x: Gap) => x.basis != FlagConflict;
    var at := FilterPositions(gaps, keep);
    AssertedIs(gaps, keep);
    hide Asserted;
    PickedRuns(gaps, keep, at, Filter(gaps, keep), Asserted(gaps));
  }

  lemma PickedRuns(gaps: seq<Gap>, keep: Gap -> bool, at: seq<nat>, out: seq<Gap>, runs: seq<RunId>)
    requires Picks(gaps, keep, at, out) && |at| == |runs| && forall x :: keep(x) <==> Decided(x)
    requires forall i :: 0 <= i < |out| ==> runs[i] == out[i].run
    ensures RunsOfDecided(gaps, runs)
    ensures runs != [] <==> exists g :: g in gaps && Decided(g)
  {
    hide Decided;
    if g :| g in gaps && Decided(g) {
      var k :| 0 <= k < |gaps| && gaps[k] == g;
      assert k in at;
    }
    if runs != [] {
      assert gaps[at[0]] in gaps && Decided(gaps[at[0]]);
    }
  }

  lemma AssertedIs(gaps: seq<Gap>, keep: Gap -> bool)
    requires forall x :: keep(x) <==> x.basis != FlagConflict
    ensures |Asserted(gaps)| == |Filter(gaps, keep)|
    ensures forall i :: 0 <= i < |Asserted(gaps)| ==> Asserted(gaps)[i] == Filter(gaps, keep)[i].run
  {
    FilterAgrees(gaps, keep, (x: Gap) => x.basis != FlagConflict);
  }

  lemma {:induction false} FilterAgrees<T>(s: seq<T>, f: T -> bool, g: T -> bool)
    requires forall x :: f(x) == g(x)
    ensures Filter(s, f) == Filter(s, g)
  {
    if s != [] {
      FilterAgrees(s[1..], f, g);
    }
  }

  lemma TakenIs(inp: Input, c: Condensation, row: Row)
    requires RowReady(c, row)
    ensures var gaps := AllGaps(inp, c.graph, RowCulprits(inp, c, row));
      var empty := RowVerdict(inp, c, row) == CompositionFailure || RowVerdict(inp, c, row) == Unclassified;
      var taken := empty && exists g :: g in gaps && Decided(g);
      && FinalVerdict(inp, c, row) == (if taken then VerificationGap else RowVerdict(inp, c, row))
      && FinalCulprits(inp, c, row) == if taken then Asserted(gaps) else RowCulprits(inp, c, row)
  {
    AssertedAre(AllGaps(inp, c.graph, RowCulprits(inp, c, row)));
    hide RowCulprits, AllGaps, RowVerdict, Asserted, Decided;
  }

  // The cascade's own defects, as they stood when its row was done.
  lemma EmittedBy(inp: Input, c: Condensation, a: Analysis, anomalies: seq<Anomaly>, extra: seq<Finding>, r: Report,
                  ds: seq<Defect>) returns (ix: Index)
    requires Publishes(inp, c, a, anomalies, extra, r) && CascadeEmits(inp, c, a, anomalies, extra, r, ds)
    ensures InRange(c, c.topo) && RowReady(c, RowOf(inp, c, a, anomalies)) && CascadeReady(c, a, anomalies)
    ensures Bounded(ix) && Covered(c, Expand(c, c.topo))
    ensures Indexes(inp, AssessmentLane(inp, c.graph), Expand(c, c.topo), ix)
    ensures ds == RowDefects(inp, c, ix, RowOf(inp, c, a, anomalies), Vias(a.candidates), Assumptions(a.candidates))
  {
    PublishedParts(inp, c, a, anomalies, extra, r);
    var row := RowOf(inp, c, a, anomalies);
    hide Publishes, CascadeReady, RowOf, RowReady, Indexes, Covered, Bounded, RowIndex, RowDefects, IsForm, MainDefects,
      AllGaps, RowCulprits, Divergences, BuiltItems, AllCited, DropFacts, CitesOwn, Expand, AssessmentLane, OwnVerdicts;
    var ix0: Index, ix2: Index, form: seq<Defect> :|
      Prepared(inp, c, a, anomalies, AssessmentLane(inp, c.graph), Expand(c, c.topo), extra, ix0) &&
        Ships(inp, c, a, row, ix0, ix2, form, r) &&
        ds == RowDefects(inp, c, RowIndex(inp, c, ix0, row), row, Vias(a.candidates), Assumptions(a.candidates));
    ix := RowIndex(inp, c, ix0, row);
    RowKeeps(inp, c, AssessmentLane(inp, c.graph), Expand(c, c.topo), ix0, row);
  }

  // Main result: the published verdict is verification_gap exactly when the cascade pinned nobody and some reported
  // gap is more than a conflict between flag and score. The culprits are then the runs of those gaps, in order; without
  // such a gap nothing is replaced.
  lemma GapsTakeOver(inp: Input, c: Condensation, a: Analysis, anomalies: seq<Anomaly>, extra: seq<Finding>, r: Report,
                     ds: seq<Defect>)
    requires Publishes(inp, c, a, anomalies, extra, r) && CascadeEmits(inp, c, a, anomalies, extra, r, ds)
    ensures r.verdict == VerificationGap <==> !PinsSomeone(ds) && exists g :: g in r.gaps && Decided(g)
    ensures r.verdict == VerificationGap ==> RunsOfDecided(r.gaps, r.culprits)
    ensures r.verdict != VerificationGap ==>
      var v := DeriveVerdict(Stamp(ds, QualityUnmeasured(inp, c)));
      r.verdict == v || (v == DegradedRecovered && r.verdict == ShippedWithLatentDefect)
  {
    hide *;
    PublishedParts(inp, c, a, anomalies, extra, r);
    var row := RowOf(inp, c, a, anomalies);
    var u := QualityUnmeasured(inp, c);
    VerdictParts(inp, c, row, r);
    var ix := EmittedBy(inp, c, a, anomalies, extra, r, ds);
    RowVerdictIs(inp, c, AssessmentLane(inp, c.graph), Expand(c, c.topo), a, anomalies, ix, row,
      Assumptions(a.candidates));
    RowShape(inp, c, ix, row, Vias(a.candidates), Assumptions(a.candidates));
    StampPins(ds, u);
    PinsDecide(Stamp(ds, u));
    TakenIs(inp, c, row);
    AssertedAre(AllGaps(inp, c.graph, RowCulprits(inp, c, row)));
    EscalateIs(FinalVerdict(inp, c, row), r.findings);
    NeverDerivesShipped(Stamp(ds, u));
  }

  // There always is such a list of defects.
  lemma CascadeEmitted(inp: Input, c: Condensation, a: Analysis, anomalies: seq<Anomaly>, extra: seq<Finding>,
                       r: Report) returns (ds: seq<Defect>)
    requires Publishes(inp, c, a, anomalies, extra, r)
    ensures CascadeEmits(inp, c, a, anomalies, extra, r, ds)
  {
    PublishedParts(inp, c, a, anomalies, extra, r);
    var row := RowOf(inp, c, a, anomalies);
    hide Publishes, CascadeReady, RowOf, RowReady, Indexes, Covered, Bounded, RowIndex, RowDefects, IsForm, MainDefects,
      AllGaps, RowCulprits, Divergences, BuiltItems, AllCited, DropFacts, CitesOwn, Expand, AssessmentLane, OwnVerdicts,
      IsReport, Analyzed, WellFormed, Prepared;
    var ix0: Index, ix2: Index, form: seq<Defect> :|
      Prepared(inp, c, a, anomalies, AssessmentLane(inp, c.graph), Expand(c, c.topo), extra, ix0) &&
        Ships(inp, c, a, row, ix0, ix2, form, r);
    ds := RowDefects(inp, c, RowIndex(inp, c, ix0, row), row, Vias(a.candidates), Assumptions(a.candidates));
  }
}
