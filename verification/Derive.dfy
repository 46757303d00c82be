// The verdict is a projection of the typed defects, and no fact is reported in two versions.

module Derive {
  import opened Prelude
  import opened BlameInput
  import opened CutPoint
  import opened Evidence
  import opened FindingIndex
  import opened Emit

  datatype Verdict =
    | Unclassified | RootCauseExternal | MultiCulprit | LoopDetected | CutPointVerdict | DegradedRecovered
    | TerminalDefectUnlocalized | CompositionFailure | VerificationGap | ShippedWithLatentDefect

  predicate Primary(d: Defect) {
    d.kind == ContentFault || d.kind == ContractFault || d.kind == LoopFault
  }

  function LocalizedRuns(ds: seq<Defect>): set<RunId> {
    set d | d in ds && Primary(d) && d.origin.Localized? :: d.origin.run
  }

  // Two independent localized origins.
  predicate TwoOrigins(ds: seq<Defect>) {
    exists r, s :: r in LocalizedRuns(ds) && s in LocalizedRuns(ds) && r != s
  }

  predicate Active(d: Defect) {
    d.kind == ContentFault && !d.recovered
  }

  // First match wins; form and verification defects never decide the primary verdict.
  function DeriveVerdict(ds: seq<Defect>): Verdict {
    if !(exists d :: d in ds && (Primary(d) || d.kind == VerificationFault)) then Unclassified
    else if exists d :: d in ds && d.origin.External? then RootCauseExternal
    else if TwoOrigins(ds) then MultiCulprit
    else if exists d :: d in ds && d.kind == LoopFault && d.origin.Localized? then LoopDetected
    else if exists d :: d in ds && Active(d) && d.origin.Localized? then CutPointVerdict
    else if (exists d :: d in ds && d.kind == ContentFault) && !(exists d :: d in ds && Active(d)) &&
            !(exists d :: d in ds && d.kind == ContractFault) then DegradedRecovered
    else if (exists d :: d in ds && d.kind == ContractFault && d.origin.Localized?) &&
            (exists d :: d in ds && Active(d) && d.origin.Unlocalized?) then TerminalDefectUnlocalized
    else if (exists d :: d in ds && d.kind == ContractFault && d.origin.Localized?) &&
            !(exists d :: d in ds && Active(d))
    then
      if exists d :: d in ds && d.kind == ContractFault && d.qualityUnmeasured
      then CutPointVerdict
      else DegradedRecovered
    else if (exists d :: d in ds && Active(d)) && (forall d :: d in ds && Active(d) ==> d.origin.Unlocalized?)
    then CompositionFailure
    else if exists d :: d in ds && d.kind == VerificationFault then VerificationGap
    else Unclassified
  }

  // The run-level fact that nothing was judged, put on every defect.
  function Stamp(ds: seq<Defect>, unmeasured: bool): (r: seq<Defect>)
    ensures |r| == |ds|
    ensures forall i :: 0 <= i < |ds| ==> r[i] == if unmeasured then ds[i].(qualityUnmeasured := true) else ds[i]
  {
    seq(|ds|, i requires 0 <= i < |ds| => if unmeasured then ds[i].(qualityUnmeasured := true) else ds[i])
  }

  // ---------- The projection table ----------

  lemma LoopVerdict(ix: Index, run: RunId, u: bool)
    requires Bounded(ix)
    ensures DeriveVerdict(Stamp(EmitLoop(ix, run), u)) == LoopDetected
  {
    hide Bounded, Ordered, ChannelOf;
    var ds := Stamp(EmitLoop(ix, run), u);
    assert ds[0] in ds;
  }

  lemma ExternalVerdict(inp: Input, ix: Index, run: RunId, u: bool)
    requires Bounded(ix)
    ensures DeriveVerdict(Stamp(EmitExternal(inp, ix, run), u)) == RootCauseExternal
  {
    hide Bounded, Ordered, ChannelOf, ContentRefs;
    var ds := Stamp(EmitExternal(inp, ix, run), u);
    assert ds[0] in ds;
  }

  lemma CompositionVerdict(ix: Index, u: bool)
    requires Bounded(ix)
    ensures DeriveVerdict(Stamp(EmitComposition(ix), u)) == CompositionFailure
  {
    hide Bounded, Ordered, TerminalRefs;
    var ds := Stamp(EmitComposition(ix), u);
    assert ds[0] in ds;
  }

  lemma VerificationVerdict(ix: Index, runs: seq<RunId>, u: bool)
    requires runs != []
    ensures DeriveVerdict(Stamp(EmitVerification(ix, runs), u)) == VerificationGap
  {
    hide Ordered;
    var ds := Stamp(EmitVerification(ix, runs), u);
    assert ds[0] in ds;
    forall d | d in ds ensures d.kind == VerificationFault && d.origin.Localized? {
      var k :| 0 <= k < |ds| && ds[k] == d;
    }
  }

  // Defects whose only run is one node: at most a contract and a content claim about it.
  ghost predicate ContractAt(d: Defect, run: RunId, u: bool) {
    d.kind == ContractFault && d.origin == Localized(run) && d.qualityUnmeasured == u
  }

  ghost predicate ContentAt(d: Defect, run: RunId, recovered: bool) {
    d.kind == ContentFault && d.origin == Localized(run) && d.recovered == recovered
  }

  lemma OneRunIsOneOrigin(ds: seq<Defect>, run: RunId)
    requires forall d :: d in ds ==> d.origin == Localized(run) || d.origin.Unlocalized?
    ensures !TwoOrigins(ds)
  {
  }

  // Contract only, content only, or both at one run.
  lemma PairVerdict(ds: seq<Defect>, run: RunId, u: bool)
    requires ds != [] && forall d :: d in ds ==> ContractAt(d, run, u) || ContentAt(d, run, false)
    ensures DeriveVerdict(ds) ==
      if (exists d :: d in ds && ContentAt(d, run, false)) || u then CutPointVerdict else DegradedRecovered
  {
    OneRunIsOneOrigin(ds, run);
    hide TwoOrigins;
    var e := ds[0];
    assert e in ds;
    if exists d :: d in ds && ContentAt(d, run, false) {
      var d :| d in ds && ContentAt(d, run, false);
      assert Active(d);
    } else {
      assert ContractAt(e, run, u);
    }
  }

  // A cut point, unless a contract breach stands alone on a run whose quality was measured: that one
  // projects to degraded_recovered.
  lemma CutPointVerdictIs(inp: Input, ix: Index, run: RunId, via: Via, assumed: bool, bad: bool, u: bool)
    requires Bounded(ix)
    ensures DeriveVerdict(Stamp(EmitCutPoint(inp, ix, run, via, assumed, bad), u)) ==
      if EmitsContent(ix, run, via, bad) || u then CutPointVerdict else DegradedRecovered
  {
    hide Bounded, Ordered, ChannelOf, ContentRefs, ContractRefs, HasContract, DeriveVerdict;
    var es := EmitCutPoint(inp, ix, run, via, assumed, bad);
    var ds := Stamp(es, u);
    forall d | d in ds ensures ContractAt(d, run, u) || ContentAt(d, run, false) {
      var k :| 0 <= k < |ds| && ds[k] == d;
      assert es[k] in es;
    }
    if EmitsContent(ix, run, via, bad) {
      var d := ds[|ds| - 1];
      assert es[|es| - 1] == ContentDefect(inp, ix, run, assumed, false);
      assert d in ds && ContentAt(d, run, false);
    } else {
      forall d | d in ds ensures !ContentAt(d, run, false) {
        var k :| 0 <= k < |ds| && ds[k] == d;
        assert es[k] in es;
      }
    }
    PairVerdict(ds, run, u);
  }

  // A near-miss; stamping could flip it only with a contract breach on an unmeasured run.
  lemma RecoveredVerdict(inp: Input, ix: Index, run: RunId, assumed: bool, u: bool)
    requires Bounded(ix)
    ensures DeriveVerdict(Stamp(EmitRecovered(inp, ix, run, assumed), u)) ==
      if HasContract(ix, run) && u then CutPointVerdict else DegradedRecovered
  {
    hide Bounded, Ordered, ChannelOf, ContentRefs, ContractRefs, HasContract;
    var ds := Stamp(EmitRecovered(inp, ix, run, assumed), u);
    assert ds[0] in ds;
    if HasContract(ix, run) {
      PairVerdict(ds, run, u);
    } else {
      OneRunIsOneOrigin(ds, run);
      hide TwoOrigins;
      assert ds[0].kind == ContentFault && !Active(ds[0]);
    }
  }

  // With no contract breach behind it, a signal-only origin is not carried into the verdict.
  lemma UnlocalizedVerdict(inp: Input, ix: Index, run: RunId, u: bool)
    requires Bounded(ix)
    ensures DeriveVerdict(Stamp(EmitTerminalUnlocalized(inp, ix, run), u)) ==
      if HasContract(ix, run) then TerminalDefectUnlocalized else CompositionFailure
  {
    hide Bounded, Ordered, ChannelOf, TerminalRefs, ContractRefs, HasContract;
    var es := EmitTerminalUnlocalized(inp, ix, run);
    var ds := Stamp(es, u);
    var last := ds[|ds| - 1];
    assert last in ds && Active(last) && last.origin.Unlocalized?;
    forall d | d in ds ensures d == last || ContractAt(d, run, u) {
      var k :| 0 <= k < |ds| && ds[k] == d;
      assert es[k] in es;
    }
    OneRunIsOneOrigin(ds, run);
    hide TwoOrigins;
    if HasContract(ix, run) {
      assert ds[0] in ds && ContractAt(ds[0], run, u);
    }
  }

  // ---------- Several origins ----------

  // Whatever the emitter of several origins produces is about those runs, and every run gets its own.
  lemma {:induction false} MultiRuns(inp: Input, ix: Index, runs: seq<RunId>, vias: map<RunId, Via>, assumed: map<RunId,
                                     bool>, bad: bool)
    requires Bounded(ix)
    ensures forall d :: d in MultiDefects(inp, ix, runs, vias, assumed, bad) ==>
      d.origin.Localized? && d.origin.run in runs && (d.kind == ContractFault || ContentAt(d, d.origin.run, false))
    ensures forall r :: r in runs ==>
      exists d :: d in MultiDefects(inp, ix, runs, vias, assumed, bad) && d.origin == Localized(r) && Primary(d)
  {
    hide Bounded, Ordered, ChannelOf, ContentRefs, ContractRefs, HasContract;
    if runs != [] {
      var n := |runs| - 1;
      MultiRuns(inp, ix, runs[..n], vias, assumed, bad);
      assert runs == runs[..n] + [runs[n]];
      var all := MultiDefects(inp, ix, runs, vias, assumed, bad);
      var own := EmitOrigin(inp, ix, runs[n], ViaOf(vias, runs[n]), AssumedAt(assumed, runs[n]), bad);
      assert own[0] in own && own[0] in all;
      hide EmitOrigin, ViaOf, AssumedAt;
      forall r | r in runs ensures exists d :: d in all && d.origin == Localized(r) && Primary(d) {
        if r in runs[..n] {
          var d :| d in MultiDefects(inp, ix, runs[..n], vias, assumed, bad) && d.origin == Localized(r) && Primary(d);
          assert d in all;
        }
      }
    }
  }

  // Defects all localized at runs, two of which differ: several culprits.
  lemma SeveralVerdict(ds: seq<Defect>, r: RunId, s: RunId)
    requires r != s && (forall d :: d in ds ==> d.origin.Localized?)
    requires exists d :: d in ds && d.origin == Localized(r) && Primary(d)
    requires exists d :: d in ds && d.origin == Localized(s) && Primary(d)
    ensures DeriveVerdict(ds) == MultiCulprit
  {
    assert r in LocalizedRuns(ds) && s in LocalizedRuns(ds);
  }

  // ---------- Escalation ----------

  // A recovered verdict over a breach verified in the shipped deliverable escalates; nothing else does.
  function Escalate(v: Verdict, fs: seq<Finding>): Verdict {
    if v == DegradedRecovered && exists f :: f in fs && f.kind == BreachPropagated then ShippedWithLatentDefect else v
  }
}
