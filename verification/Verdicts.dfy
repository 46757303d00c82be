// The verdict of every cascade row, and its agreement with the culprits the row names.

module Verdicts {
  import opened Prelude
  import opened Graphs
  import opened BlameInput
  import opened Condense
  import opened Propagation
  import opened CutPoint
  import opened Origins
  import opened Evidence
  import opened FindingIndex
  import opened Emit
  import opened Support
  import opened Derive
  import opened Loops
  import opened CandidateFacts
  import opened Cascade
  import opened Soundness

  // ---------- The projection table over rows ----------

  // The verdict rests on a contract breach alone, and quality was measured somewhere.
  predicate ContractAlone(inp: Input, c: Condensation, m: RunId, via: Via) {
    Violations(inp, m) != [] && via == Deterministic && !TerminalBad(inp) && !QualityUnmeasured(inp, c)
  }

  predicate TwoPlaces(xs: seq<Candidate>) {
    exists x, y :: x in xs && y in xs && x.superId != y.superId
  }

  ghost function RowVerdict(inp: Input, c: Condensation, row: Row): Verdict
    requires RowReady(c, row)
  {
    match row
    case NothingMeasured => Unclassified
    case ExternalFault(_) => RootCauseExternal
    case Runaway(_, others) => if others == [] then LoopDetected else MultiCulprit
    case NearMiss(_) => DegradedRecovered
    case ContentUnplaced(x) => if Violations(inp, x.run) != [] then TerminalDefectUnlocalized else CompositionFailure
    case OneOrigin(x) =>
      var m := Drill(inp, c, x).culprit;
      if ContractAlone(inp, c, m, if m == x.run then x.via else Content) then DegradedRecovered else CutPointVerdict
    case ManyOrigins(xs) => if TwoPlaces(xs) then MultiCulprit else CutPointVerdict
    case Fabrication(_) => CutPointVerdict
    case WholeOnly(_) => CompositionFailure
    case NothingFound => Unclassified
  }

  // ---------- Stamping keeps what a defect is about ----------

  ghost predicate SameClaim(d: Defect, e: Defect) {
    d.origin == e.origin && d.kind == e.kind && d.recovered == e.recovered && d.refs == e.refs &&
      d.propagation == e.propagation
  }

  lemma Unstamped(ds: seq<Defect>, u: bool, d: Defect) returns (e: Defect)
    requires d in Stamp(ds, u)
    ensures e in ds && SameClaim(d, e)
  {
    var i :| 0 <= i < |ds| && Stamp(ds, u)[i] == d;
    e := ds[i];
  }

  lemma Stamped(ds: seq<Defect>, u: bool, e: Defect) returns (d: Defect)
    requires e in ds
    ensures d in Stamp(ds, u) && SameClaim(d, e)
  {
    var i :| 0 <= i < |ds| && ds[i] == e;
    d := Stamp(ds, u)[i];
  }

  ghost predicate Blames(ds: seq<Defect>, r: RunId) {
    exists d :: d in ds && d.origin == Origin.Localized(r) && Primary(d)
  }

  lemma BlamesStamped(ds: seq<Defect>, u: bool, r: RunId)
    requires Blames(ds, r)
    ensures Blames(Stamp(ds, u), r)
  {
    hide Stamp;
    var e :| e in ds && e.origin == Origin.Localized(r) && Primary(e);
    var d := Stamped(ds, u, e);
  }

  lemma TwoBlamed(ds: seq<Defect>, u: bool, r: RunId, s: RunId)
    requires r != s && Blames(ds, r) && Blames(ds, s) && forall d :: d in ds ==> d.origin.Localized?
    ensures DeriveVerdict(Stamp(ds, u)) == MultiCulprit
  {
    hide Stamp, DeriveVerdict, Primary;
    forall d | d in Stamp(ds, u) ensures d.origin.Localized? {
      var e := Unstamped(ds, u, d);
    }
    BlamesStamped(ds, u, r);
    BlamesStamped(ds, u, s);
    SeveralVerdict(Stamp(ds, u), r, s);
  }

  // Live content at the one run everything is about: a cut point.
  lemma OneBlamed(ds: seq<Defect>, u: bool, r: RunId)
    requires forall d :: d in ds ==>
      d.origin == Origin.Localized(r) && (d.kind == ContentFault || d.kind == ContractFault)
    requires exists d :: d in ds && ContentAt(d, r, false)
    ensures DeriveVerdict(Stamp(ds, u)) == CutPointVerdict
  {
    hide Stamp;
    var out := Stamp(ds, u);
    forall d | d in out ensures d.origin == Origin.Localized(r) && (d.kind == ContentFault || d.kind == ContractFault) {
      var e := Unstamped(ds, u, d);
    }
    var e :| e in ds && ContentAt(e, r, false);
    var d := Stamped(ds, u, e);
    LiveContent(out, r, d);
  }

  lemma LiveContent(ds: seq<Defect>, r: RunId, d: Defect)
    requires forall d :: d in ds ==>
      d.origin == Origin.Localized(r) && (d.kind == ContentFault || d.kind == ContractFault)
    requires d in ds && d.kind == ContentFault && !d.recovered
    ensures DeriveVerdict(ds) == CutPointVerdict
  {
    OneRunIsOneOrigin(ds, r);
    hide TwoOrigins;
    assert Primary(d) && Active(d);
  }

  // ---------- Where a culprit sits ----------

  lemma ResolvedInside(inp: Input, c: Condensation, x: Candidate)
    requires WellFormed(inp, c) && AtExit(c, x)
    ensures Resolved(inp, c, x) in c.superOf && c.superOf[Resolved(inp, c, x)] == x.superId
  {
    DrillFacts(inp, c, x);
    hide WellFormed, Drill;
    MembersLocated(inp, c, x.superId, Drill(inp, c, x).culprit);
  }

  lemma SameResolved(inp: Input, c: Condensation, x: Candidate, y: Candidate)
    requires x.superId == y.superId < |c.supers| && SameFate(x, y)
    ensures Resolved(inp, c, x) == Resolved(inp, c, y) && Drill(inp, c, x) == Drill(inp, c, y)
  {
    hide Worst, MeasuredFall, KnownScores;
  }

  // The channel on file for the culprit of a content origin is never the hard one.
  lemma MovedIsContent(inp: Input, c: Condensation, all: seq<Candidate>, x: Candidate)
    requires WellFormed(inp, c) && Told(inp, c, all) && Agree(all) && x in all && x.via != Deterministic
    ensures ViaOf(Vias(all), Resolved(inp, c, x)) != Deterministic
  {
    hide WellFormed, Drill, Story, FromChannels, Vias, Told, Agree;
    Seated(inp, c, all, x);
    ResolvedInside(inp, c, x);
    ViasContents(all);
    var r := Resolved(inp, c, x);
    if r in Vias(all) {
      var y :| y in all && y.run == r && Vias(all)[r] == y.via;
      Seated(inp, c, all, y);
      Kin(inp, c, all, x, y);
    }
  }

  lemma MultiContent(inp: Input, ix: Index, runs: seq<RunId>, vias: map<RunId, Via>, assumed: map<RunId, bool>,
                     bad: bool)
    requires Bounded(ix) && runs != [] && ViaOf(vias, runs[|runs| - 1]) != Deterministic
    ensures exists d :: d in MultiDefects(inp, ix, runs, vias, assumed, bad) && ContentAt(d, runs[|runs| - 1], false)
  {
    hide Bounded, Ordered, ChannelOf, ContentRefs, ContractRefs, HasContract, ViaOf, AssumedAt;
    var r := runs[|runs| - 1];
    var own := EmitOrigin(inp, ix, r, ViaOf(vias, r), AssumedAt(assumed, r), bad);
    var d := ContentDefect(inp, ix, r, AssumedAt(assumed, r), false);
    assert own[|own| - 1] == d && d in own;
    assert d in MultiDefects(inp, ix, runs, vias, assumed, bad);
  }

  // ---------- Row by row ----------

  lemma ManyVerdict(inp: Input, c: Condensation, ix: Index, a: Analysis, assumed: map<RunId, bool>, u: bool)
    requires IsAnalysis(inp, c, a) && |a.candidates| > 1 && Bounded(ix) && Placed(c, a.candidates)
    ensures DeriveVerdict(Stamp(MultiDefects(inp, ix, AllResolved(inp, c, a.candidates), Vias(a.candidates), assumed,
      TerminalBad(inp)), u)) ==
      if TwoPlaces(a.candidates) then MultiCulprit else CutPointVerdict
  {
    hide *;
    AnalysisIs(inp, c, a);
    AnalysisTold(inp, c, a);
    var xs := a.candidates;
    var runs := AllResolved(inp, c, xs);
    var ds := MultiDefects(inp, ix, runs, Vias(xs), assumed, TerminalBad(inp));
    MultiRuns(inp, ix, runs, Vias(xs), assumed, TerminalBad(inp));
    if TwoPlaces(xs) {
      var x, y := Places(xs);
      ResolvedBlamed(inp, c, xs, x, ds);
      ResolvedBlamed(inp, c, xs, y, ds);
      TwoBlamed(ds, u, Resolved(inp, c, x), Resolved(inp, c, y));
    } else {
      OnePlace(inp, c, a);
      var n := |xs| - 1;
      assert xs[n] in xs;
      MovedIsContent(inp, c, xs, xs[n]);
      MultiContent(inp, ix, runs, Vias(xs), assumed, TerminalBad(inp));
      AllAtOne(runs, runs[n], ds);
      OneBlamed(ds, u, runs[n]);
    }
  }

  lemma Places(xs: seq<Candidate>) returns (x: Candidate, y: Candidate)
    requires TwoPlaces(xs)
    ensures x in xs && y in xs && x.superId != y.superId
  {
    x, y :| x in xs && y in xs && x.superId != y.superId;
  }

  lemma ResolvedBlamed(inp: Input, c: Condensation, xs: seq<Candidate>, x: Candidate, ds: seq<Defect>)
    requires WellFormed(inp, c) && Told(inp, c, xs) && Placed(c, xs) && x in xs
    requires forall r :: r in AllResolved(inp, c, xs) ==>
      exists d :: d in ds && d.origin == Origin.Localized(r) && Primary(d)
    ensures x.superId < |c.supers| && Blames(ds, Resolved(inp, c, x))
    ensures Resolved(inp, c, x) in c.superOf && c.superOf[Resolved(inp, c, x)] == x.superId
  {
    hide WellFormed, Told, Resolved, Primary;
    Seated(inp, c, xs, x);
    var i :| 0 <= i < |xs| && xs[i] == x;
    assert AllResolved(inp, c, xs)[i] in AllResolved(inp, c, xs);
    ResolvedInside(inp, c, x);
  }

  // Several candidates in one place are erosions entering there: one culprit, of the content channel.
  lemma OnePlace(inp: Input, c: Condensation, a: Analysis)
    requires IsAnalysis(inp, c, a) && |a.candidates| > 1 && !TwoPlaces(a.candidates) && Placed(c, a.candidates)
    requires Told(inp, c, a.candidates) && Agree(a.candidates)
    ensures forall x :: x in a.candidates ==> x.via != Deterministic
    ensures forall r :: r in AllResolved(inp, c, a.candidates) ==>
      r == AllResolved(inp, c, a.candidates)[|a.candidates| - 1]
  {
    var xs := a.candidates;
    assert WellFormed(inp, c) && xs == Candidates(inp, c);
    hide WellFormed, Told, Resolved, Candidates, Chains, ChainReady, SomethingBroke, SameFate, Drill;
    assert xs[0] in xs && xs[1] in xs && xs[|xs| - 1] in xs;
    RepeatsAreContent(inp, c, 0, 1);
    forall x | x in xs ensures x.via != Deterministic && Resolved(inp, c, x) == Resolved(inp, c, xs[|xs| - 1]) {
      assert x.superId == xs[0].superId == xs[|xs| - 1].superId;
      SameChannel(xs, x, xs[0]);
      assert SameFate(x, xs[|xs| - 1]);
      SameResolved(inp, c, x, xs[|xs| - 1]);
    }
    forall r | r in AllResolved(inp, c, xs) ensures r == AllResolved(inp, c, xs)[|xs| - 1] {
      var i :| 0 <= i < |xs| && AllResolved(inp, c, xs)[i] == r;
      assert xs[i] in xs;
    }
  }

  lemma SameChannel(xs: seq<Candidate>, x: Candidate, y: Candidate)
    requires Agree(xs) && x in xs && y in xs && x.superId == y.superId
    ensures x.via == y.via
  {
    assert SameFate(x, y);
  }

  lemma AllAtOne(runs: seq<RunId>, r: RunId, ds: seq<Defect>)
    requires forall s :: s in runs ==> s == r
    requires forall d :: d in ds ==>
      d.origin.Localized? && d.origin.run in runs && (d.kind == ContractFault || ContentAt(d, d.origin.run, false))
    ensures forall d :: d in ds ==>
      d.origin == Origin.Localized(r) && (d.kind == ContentFault || d.kind == ContractFault)
  {
  }

  lemma RunawayVerdict(inp: Input, c: Condensation, ix: Index, a: Analysis, an: Anomaly, others: seq<Candidate>,
                       assumed: map<RunId, bool>, u: bool)
    requires WellFormed(inp, c) && Told(inp, c, others) && Placed(c, others) && Bounded(ix) && InsideCycle(c, an)
    requires LoopCulprits(an) != []
    requires an.members[0] in c.superOf && forall x :: x in others ==> x.superId != c.superOf[an.members[0]]
    ensures DeriveVerdict(Stamp(EmitLoop(ix, LoopCulprits(an)[0]) +
      MultiDefects(inp, ix, AllResolved(inp, c, others), Vias(a.candidates), assumed, TerminalBad(inp)), u)) ==
      if others == [] then LoopDetected else MultiCulprit
  {
    hide *;
    var first := LoopCulprits(an)[0];
    var loop := EmitLoop(ix, first);
    var rest := MultiDefects(inp, ix, AllResolved(inp, c, others), Vias(a.candidates), assumed, TerminalBad(inp));
    MultiRuns(inp, ix, AllResolved(inp, c, others), Vias(a.candidates), assumed, TerminalBad(inp));
    LoopBlames(ix, first);
    if others == [] {
      NoMulti(inp, ix, AllResolved(inp, c, others), Vias(a.candidates), assumed, TerminalBad(inp));
      assert loop + rest == loop;
      LoopVerdict(ix, first, u);
    } else {
      assert others[0] in others;
      ResolvedBlamed(inp, c, others, others[0], rest);
      LoopSeat(inp, c, an);
      BlamesJoin(loop, rest, first);
      BlamesJoin(loop, rest, Resolved(inp, c, others[0]));
      TwoBlamed(loop + rest, u, first, Resolved(inp, c, others[0]));
    }
  }

  lemma NoMulti(inp: Input, ix: Index, runs: seq<RunId>, vias: map<RunId, Via>, assumed: map<RunId, bool>, bad: bool)
    requires Bounded(ix) && |runs| == 0
    ensures MultiDefects(inp, ix, runs, vias, assumed, bad) == []
  {
    hide Bounded;
  }

  lemma LoopBlames(ix: Index, r: RunId)
    requires Bounded(ix)
    ensures Blames(EmitLoop(ix, r), r) && forall d :: d in EmitLoop(ix, r) ==> d.origin == Origin.Localized(r)
  {
    hide Bounded, Ordered, ChannelOf;
    var ds := EmitLoop(ix, r);
    assert ds[0] in ds;
  }

  lemma BlamesJoin(ds: seq<Defect>, es: seq<Defect>, r: RunId)
    requires Blames(ds, r) || Blames(es, r)
    ensures Blames(ds + es, r)
  {
    hide Primary;
    if Blames(ds, r) {
      var d :| d in ds && d.origin == Origin.Localized(r) && Primary(d);
      assert d in ds + es;
    } else {
      var d :| d in es && d.origin == Origin.Localized(r) && Primary(d);
      assert d in ds + es;
    }
  }

  lemma LoopSeat(inp: Input, c: Condensation, an: Anomaly)
    requires WellFormed(inp, c) && InsideCycle(c, an) && LoopCulprits(an) != [] && an.members[0] in c.superOf
    ensures forall r :: r in LoopCulprits(an) ==>
      r in an.members && r in c.superOf && c.superOf[r] == c.superOf[an.members[0]]
    ensures LoopCulprits(an)[0] in LoopCulprits(an)
  {
    var s: nat :| s < |c.supers| && an.members == c.supers[s].members;
    SuperContents(inp, c, s);
    hide WellFormed;
  }

  // What the verdict of a lone candidate turns on.
  lemma OneOriginVerdict(inp: Input, c: Condensation, lane: set<RunId>, nodes: seq<RunId>, ix: Index, x: Candidate,
                         assumed: bool)
    requires WellFormed(inp, c) && AtExit(c, x) && RowReady(c, OneOrigin(x)) && x.superId < |c.supers|
    requires Indexes(inp, lane, nodes, ix) && Bounded(ix) && Covered(c, nodes)
    ensures var m := Drill(inp, c, x).culprit;
      DeriveVerdict(Stamp(EmitCutPoint(inp, ix, m, ViaOf(Vias([x]), m), assumed, TerminalBad(inp)),
        QualityUnmeasured(inp, c))) ==
      RowVerdict(inp, c, OneOrigin(x))
  {
    hide WellFormed, Drill, Indexes, Bounded, EmitCutPoint, DeriveVerdict, HasContract, TerminalBad, QualityUnmeasured,
      Vias, ViaOf;
    var m := Drill(inp, c, x).culprit;
    DrillFacts(inp, c, x);
    MembersLocated(inp, c, x.superId, m);
    LoneVia(x, m);
    BreachesListed(inp, lane, nodes, ix);
    BreachesAt(inp, nodes, ix, m);
    CutPointVerdictIs(inp, ix, m, ViaOf(Vias([x]), m), assumed, TerminalBad(inp), QualityUnmeasured(inp, c));
  }

  // A recovery is an observation, so the run was measured and the near-miss row cannot be flipped.
  lemma NearMissVerdict(inp: Input, c: Condensation, ix: Index, x: Candidate, assumed: bool)
    requires WellFormed(inp, c) && FromChannels(inp, c, x) && x.recovered && Bounded(ix)
    ensures !QualityUnmeasured(inp, c)
    ensures DeriveVerdict(Stamp(EmitRecovered(inp, ix, NearMissRun(x), assumed), QualityUnmeasured(inp, c))) ==
      DegradedRecovered
  {
    hide WellFormed, FromChannels, Bounded, EmitRecovered, DeriveVerdict, HasContract, ScoreOf, NearMissRun;
    var r := RecoveryIsMeasured(inp, c, x);
    RecoveredVerdict(inp, ix, NearMissRun(x), assumed, QualityUnmeasured(inp, c));
  }

  lemma UnplacedVerdict(inp: Input, c: Condensation, lane: set<RunId>, nodes: seq<RunId>, ix: Index, x: Candidate)
    requires WellFormed(inp, c) && AtExit(c, x) && Indexes(inp, lane, nodes, ix) && Bounded(ix) && Covered(c, nodes)
    ensures DeriveVerdict(Stamp(EmitTerminalUnlocalized(inp, ix, x.run), QualityUnmeasured(inp, c))) ==
      if Violations(inp, x.run) != [] then TerminalDefectUnlocalized else CompositionFailure
  {
    hide WellFormed, Indexes, Bounded, EmitTerminalUnlocalized, DeriveVerdict, QualityUnmeasured;
    ExitInside(inp, c, x);
    BreachesAt(inp, nodes, ix, x.run) by {
      BreachesListed(inp, lane, nodes, ix);
    }
    UnlocalizedVerdict(inp, ix, x.run, QualityUnmeasured(inp, c));
  }

  lemma NothingVerdict(u: bool)
    ensures DeriveVerdict(Stamp([], u)) == Unclassified
  {
  }

  lemma AdmittedVerdict(inp: Input, ix: Index, r: RunId, via: Via, assumed: bool, u: bool)
    requires Bounded(ix) && TerminalBad(inp)
    ensures DeriveVerdict(Stamp(EmitCutPoint(inp, ix, r, via, assumed, TerminalBad(inp)), u)) == CutPointVerdict
  {
    hide EmitCutPoint, DeriveVerdict, HasContract, Bounded;
    CutPointVerdictIs(inp, ix, r, via, assumed, TerminalBad(inp), u);
  }

  lemma FabricationFits(inp: Input, c: Condensation, a: Analysis, anomalies: seq<Anomaly>)
    requires CascadeReady(c, a, anomalies)
    ensures var row := RowOf(inp, c, a, anomalies);
      row.Fabrication? || row.WholeOnly? || row.ContentUnplaced? ==> TerminalBad(inp)
  {
    hide QualityUnmeasured, FlawedSources, InCycle, TerminalOk, TerminalBad, LooksHealthy, Confesses, Expand;
  }

  // Main result: the verdict derived from what a row emits is that row's verdict, with its exact exceptions.
  lemma RowVerdictIs(inp: Input, c: Condensation, lane: set<RunId>, nodes: seq<RunId>, a: Analysis,
                     anomalies: seq<Anomaly>, ix: Index,
                     row: Row, assumed: map<RunId, bool>)
    requires Analyzed(inp, c, a, anomalies) && CascadeReady(c, a, anomalies) && row == RowOf(inp, c, a, anomalies)
    requires RowReady(c, row)
    requires Indexes(inp, lane, nodes, ix) && Bounded(ix) && Covered(c, nodes)
    ensures DeriveVerdict(Stamp(RowDefects(inp, c, ix, row, Vias(a.candidates), assumed), QualityUnmeasured(inp, c))) ==
      RowVerdict(inp, c, row)
  {
    hide *;
    AnalyzedIsReady(inp, c, a, anomalies);
    AnalysisOf(inp, c, a, anomalies);
    RowFits(inp, c, a, anomalies);
    FabricationFits(inp, c, a, anomalies);
    var u := QualityUnmeasured(inp, c);
    RowCase(inp, c, ix, row, Vias(a.candidates), assumed);
    if row.NearMiss? || row.ContentUnplaced? || row.OneOrigin? {
      var x := row.origin;
      assert x in a.candidates;
      Seated(inp, c, a.candidates, x);
      if row.NearMiss? {
        NearMissFits(inp, c, a, anomalies);
        NearMissVerdict(inp, c, ix, x, AssumedAt(assumed, NearMissRun(x)));
      } else if row.ContentUnplaced? {
        UnplacedVerdict(inp, c, lane, nodes, ix, x);
      } else {
        SingleFits(inp, c, ix, x);
        OneOriginVerdict(inp, c, lane, nodes, ix, x, AssumedAt(assumed, Drill(inp, c, x).culprit));
      }
    } else if row.Runaway? {
      RunawayFits(c, a, row.anomaly, row.others);
      OthersTold(inp, c, a.candidates, row.others);
      LoopMember(inp, c, row.anomaly);
      LoopHasCulprit(row.anomaly);
      RunawayVerdict(inp, c, ix, a, row.anomaly, row.others, assumed, u);
    } else if row.ManyOrigins? {
      ManyFits(c, row.origins);
      ManyVerdict(inp, c, ix, a, assumed, u);
    } else if row.ExternalFault? {
      ExternalVerdict(inp, ix, row.source, u);
    } else if row.Fabrication? {
      AdmittedVerdict(inp, ix, row.admitted, ViaOf(Vias(a.candidates), row.admitted), AssumedAt(assumed, row.admitted),
        u);
    } else if row.WholeOnly? {
      CompositionVerdict(ix, u);
    } else {
      NothingVerdict(u);
    }
  }

  lemma AnalysisOf(inp: Input, c: Condensation, a: Analysis, anomalies: seq<Anomaly>)
    requires Analyzed(inp, c, a, anomalies)
    ensures IsAnalysis(inp, c, a)
  {
    hide IsAnalysis, AreAnomalies;
  }

  lemma OthersTold(inp: Input, c: Condensation, all: seq<Candidate>, xs: seq<Candidate>)
    requires Told(inp, c, all) && forall x :: x in xs ==> x in all
    ensures Told(inp, c, xs)
  {
    hide AtExit, Story, FromChannels;
  }

  lemma LoopMember(inp: Input, c: Condensation, an: Anomaly)
    requires WellFormed(inp, c) && InsideCycle(c, an)
    ensures an.members != [] && an.members[0] in c.superOf
  {
    var s: nat :| s < |c.supers| && an.members == c.supers[s].members;
    MembersLocated(inp, c, s, an.members[0]);
    hide WellFormed;
  }

  // The defects and the verdict, row by row.
  lemma RowCase(inp: Input, c: Condensation, ix: Index, row: Row, vias: map<RunId, Via>, assumed: map<RunId, bool>)
    requires RowReady(c, row) && Bounded(ix)
    ensures row.ExternalFault? ==>
      RowDefects(inp, c, ix, row, vias, assumed) == EmitExternal(inp, ix, row.source) &&
        RowVerdict(inp, c, row) == RootCauseExternal
    ensures row.Runaway? ==> Placed(c, row.others) && LoopCulprits(row.anomaly) != []
    ensures row.Runaway? ==>
      RowDefects(inp, c, ix, row, vias, assumed) ==
      EmitLoop(ix, LoopCulprits(row.anomaly)[0]) +
        MultiDefects(inp, ix, AllResolved(inp, c, row.others), vias, assumed, TerminalBad(inp))
    ensures row.Runaway? ==> RowVerdict(inp, c, row) == if row.others == [] then LoopDetected else MultiCulprit
    ensures row.NearMiss? ==>
      RowDefects(inp, c, ix, row, vias, assumed) ==
        EmitRecovered(inp, ix, NearMissRun(row.origin), AssumedAt(assumed, NearMissRun(row.origin)))
    ensures row.NearMiss? ==> RowVerdict(inp, c, row) == DegradedRecovered
    ensures row.ContentUnplaced? ==>
      RowDefects(inp, c, ix, row, vias, assumed) == EmitTerminalUnlocalized(inp, ix, row.origin.run)
    ensures row.ContentUnplaced? ==>
      RowVerdict(inp, c, row) == if Violations(inp, row.origin.run) != [] then TerminalDefectUnlocalized
        else CompositionFailure
    ensures row.OneOrigin? ==> row.origin.superId < |c.supers|
    ensures row.OneOrigin? ==>
      RowDefects(inp, c, ix, row, vias, assumed) ==
      EmitCutPoint(inp, ix, Drill(inp, c, row.origin).culprit, ViaOf(vias, Drill(inp, c, row.origin).culprit),
                   AssumedAt(assumed, Drill(inp, c, row.origin).culprit), TerminalBad(inp))
    ensures row.ManyOrigins? ==> Placed(c, row.origins)
    ensures row.ManyOrigins? ==>
      RowDefects(inp, c, ix, row, vias, assumed) ==
        MultiDefects(inp, ix, AllResolved(inp, c, row.origins), vias, assumed, TerminalBad(inp))
    ensures row.ManyOrigins? ==>
      RowVerdict(inp, c, row) == if TwoPlaces(row.origins) then MultiCulprit else CutPointVerdict
    ensures row.Fabrication? ==>
      RowDefects(inp, c, ix, row, vias, assumed) ==
      EmitCutPoint(inp, ix, row.admitted, ViaOf(vias, row.admitted), AssumedAt(assumed, row.admitted), TerminalBad(inp))
    ensures row.Fabrication? ==> RowVerdict(inp, c, row) == CutPointVerdict
    ensures row.WholeOnly? ==>
      RowDefects(inp, c, ix, row, vias, assumed) == EmitComposition(ix) && RowVerdict(inp, c, row) == CompositionFailure
    ensures row.NothingMeasured? || row.NothingFound? ==>
      RowDefects(inp, c, ix, row, vias, assumed) == [] && RowVerdict(inp, c, row) == Unclassified
  {
    hide Bounded, EmitExternal, EmitLoop, EmitCutPoint, EmitComposition, EmitRecovered, EmitTerminalUnlocalized,
      MultiDefects, Drill,
      AllResolved, ViaOf, AssumedAt, TerminalBad, TwoPlaces;
    if row.Runaway? {
      LoopHasCulprit(row.anomaly);
    }
  }

  // ---------- The verdict agrees with the culprits ----------

  // Every run a defect points at is a reported culprit.
  ghost predicate Agrees(ds: seq<Defect>, culprits: seq<RunId>) {
    forall d :: d in ds ==>
      (d.origin.Localized? ==> d.origin.run in culprits) && (d.origin.External? ==> d.origin.source in culprits)
  }

  lemma AgreesJoin(ds: seq<Defect>, es: seq<Defect>, culprits: seq<RunId>)
    requires Agrees(ds, culprits) && Agrees(es, culprits)
    ensures Agrees(ds + es, culprits)
  {
    forall d | d in ds + es
      ensures (d.origin.Localized? ==> d.origin.run in culprits) && (d.origin.External? ==> d.origin.source in culprits)
    {
      assert d in ds || d in es;
    }
  }

  lemma MultiAgrees(inp: Input, ix: Index, runs: seq<RunId>, vias: map<RunId, Via>, assumed: map<RunId, bool>,
                    bad: bool, culprits: seq<RunId>)
    requires Bounded(ix) && forall r :: r in runs ==> r in culprits
    ensures Agrees(MultiDefects(inp, ix, runs, vias, assumed, bad), culprits)
  {
    hide Bounded, MultiDefects, ContentAt;
    MultiRuns(inp, ix, runs, vias, assumed, bad);
  }

  // Main result: no row emits a defect at a run it does not report.
  lemma RowAgrees(inp: Input, c: Condensation, ix: Index, row: Row, vias: map<RunId, Via>, assumed: map<RunId, bool>)
    requires RowReady(c, row) && Bounded(ix)
    ensures Agrees(RowDefects(inp, c, ix, row, vias, assumed), RowCulprits(inp, c, row))
  {
    hide Bounded, ContentRefs, ContractRefs, TerminalRefs, Ordered, ChannelOf, Drill, MultiDefects, AllResolved, ViaOf,
      AssumedAt, TerminalBad,
      HasContract, EmitsContent, LoopCulprits, NearMissRun, Agrees;
    var ds := RowDefects(inp, c, ix, row, vias, assumed);
    match row {
      case Runaway(an, others) =>
        LoopHasCulprit(an);
        var named := AllResolved(inp, c, others);
        var all := RowCulprits(inp, c, row);
        assert LoopCulprits(an)[0] in all;
        MultiAgrees(inp, ix, named, vias, assumed, TerminalBad(inp), all);
        LoopAgrees(ix, LoopCulprits(an)[0], all);
        AgreesJoin(EmitLoop(ix, LoopCulprits(an)[0]), MultiDefects(inp, ix, named, vias, assumed, TerminalBad(inp)),
          all);
      case ManyOrigins(xs) => MultiAgrees(inp, ix, AllResolved(inp, c, xs), vias, assumed, TerminalBad(inp),
        RowCulprits(inp, c, row));
      case _ => LoneAgrees(inp, c, ix, row, vias, assumed);
    }
  }

  lemma LoopAgrees(ix: Index, r: RunId, culprits: seq<RunId>)
    requires Bounded(ix) && r in culprits
    ensures Agrees(EmitLoop(ix, r), culprits)
  {
    hide Bounded, Ordered, ChannelOf;
  }

  lemma LoneAgrees(inp: Input, c: Condensation, ix: Index, row: Row, vias: map<RunId, Via>, assumed: map<RunId, bool>)
    requires RowReady(c, row) && Bounded(ix) && !row.Runaway? && !row.ManyOrigins?
    ensures Agrees(RowDefects(inp, c, ix, row, vias, assumed), RowCulprits(inp, c, row))
  {
    hide Bounded, ContentRefs, ContractRefs, TerminalRefs, Ordered, ChannelOf, Drill, ViaOf, AssumedAt, TerminalBad,
      HasContract, EmitsContent,
      NearMissRun;
  }

  // With the loop the only fault, every culprit lies in that one cycle.
  lemma LoopAloneStaysInside(inp: Input, c: Condensation, an: Anomaly)
    requires WellFormed(inp, c) && InsideCycle(c, an) && RowReady(c, Runaway(an, []))
    ensures an.members[0] in c.superOf
    ensures forall r :: r in RowCulprits(inp, c, Runaway(an, [])) ==>
      r in c.superOf && c.superOf[r] == c.superOf[an.members[0]]
  {
    LoopHasCulprit(an);
    LoopMember(inp, c, an);
    LoopSeat(inp, c, an);
    hide WellFormed, InsideCycle, LoopCulprits;
    assert AllResolved(inp, c, []) == [];
  }
}
