// The one number on a report: how each row comes by it, and what it takes to be near-certain.

module Headlines {
  import opened Prelude
  import opened Graphs
  import opened BlameInput
  import opened Condense
  import opened Propagation
  import opened CutPoint
  import opened Origins
  import opened Evidence
  import opened Derive
  import opened Loops
  import opened CandidateFacts
  import opened Cascade
  import opened Gaps
  import opened Soundness
  import opened Verdicts
  import opened Blame
  import opened Confidence
  import opened Attribution
  import opened SmallRuns
  import opened Witnesses

  // ---------- The evidence behind each row ----------

  // One of several origins: a drilled member's own score, with its fall where one was measured.
  function SharedEvidence(inp: Input, c: Condensation, x: Candidate): Candidate
    requires x.superId < |c.supers|
  {
    var m := Resolved(inp, c, x);
    if m == x.run then x else
      var s, fall, ch := ScoreOf(inp, m), Drill(inp, c, x).fall, Channels(inp, m);
      var drop := if fall.Some? then fall else x.drop;
      x.(run := m, score := if s.Some? then s else x.score, drop := drop,
         base := if s.Some? && drop.Some? then Some(s.value + drop.value) else x.base, channels := ch.0,
         channelsAll := ch.1)
  }

  // A source that admits a flawed input, measured against a perfect one; unscored counts as zero.
  function OutsideEvidence(inp: Input, c: Condensation, r: RunId): Candidate
    requires r in c.superOf && c.superOf[r] < |c.supers|
  {
    var s, ch := if ScoreOf(inp, r).Some? then ScoreOf(inp, r).value else 0.0, Channels(inp, r);
    NewCandidate(inp, c, c.superOf[r], Content, false).(
      run := r, score := Some(s), base := Some(1.0), drop := Some(Max(0.0, 1.0 - s)), isSource := true,
      channels := ch.0, channelsAll := ch.1)
  }

  function NearMissEvidence(inp: Input, c: Condensation, x: Candidate): Candidate {
    if x.sccMember.None? then x else
      var m := x.sccMember.value;
      var s, ch := ScoreOf(inp, m), Channels(inp, m);
      x.(run := m, score := if s.Some? then s else x.score, base := Highest(inp, RunPreds(c.graph, m)),
         drop := MeasuredFall(inp, c.graph, m), channels := ch.0, channelsAll := ch.1)
  }

  // The candidate at a super-node, the last one listed.
  function CandidateAt(cs: seq<Candidate>, sid: nat): Option<Candidate> {
    if cs == [] then None
    else if cs[|cs| - 1].superId == sid then Some(cs[|cs| - 1])
    else CandidateAt(cs[..|cs| - 1], sid)
  }

  // ---------- The confidence of a row ----------

  function LoopShare(inp: Input, cs: seq<Candidate>, sid: nat, shape: real): real {
    var x := CandidateAt(cs, sid);
    if x.Some? then Confidence.Attribution(x.value, inp.config, false, shape) else 1.0
  }

  function SharedShare(inp: Input, c: Condensation, x: Candidate, shape: real): real
    requires x.superId < |c.supers|
  {
    Confidence.Attribution(SharedEvidence(inp, c, x), inp.config, true, shape)
  }

  ghost function TotalShares(inp: Input, c: Condensation, xs: seq<Candidate>, shape: real): real
    requires Placed(c, xs)
  {
    if xs == [] then 0.0 else
      var n := |xs| - 1;
      assert xs[n] in xs && forall x :: x in xs[..n] ==> x in xs;
      TotalShares(inp, c, xs[..n], shape) + SharedShare(inp, c, xs[n], shape)
  }

  // The lone origin's formula, before the choice of the defect that carries the headline.
  function SoleShare(inp: Input, c: Condensation, x: Candidate, shape: real): real
    requires x.superId < |c.supers|
  {
    Confidence.Attribution(SoleEvidence(inp, c, x), inp.config, false, shape)
  }

  const CORROBORATED_FLAG := 0.65

  ghost predicate RowPlaced(c: Condensation, row: Row) {
    && RowReady(c, row)
    && (row.ExternalFault? ==> row.source in c.superOf && c.superOf[row.source] < |c.supers|)
    && (row.Runaway? ==> row.anomaly.members != [] && row.anomaly.members[0] in c.superOf)
  }

  ghost function RowConfidence(inp: Input, c: Condensation, a: Analysis, row: Row, shape: real): real
    requires RowPlaced(c, row)
  {
    match row
    case ExternalFault(r) => Confidence.Attribution(OutsideEvidence(inp, c, r), inp.config, false, shape)
    case Runaway(an, others) =>
      (LoopShare(inp, a.candidates, c.superOf[an.members[0]], shape) + TotalShares(inp, c, others, shape)) /
      (1 + |others|) as real
    case NearMiss(x) =>
      Observation(NearMissEvidence(inp, c, x), inp.config, DeterministicDefect(inp, NearMissRun(x)))
    case ContentUnplaced(_) => VerdictCap(TerminalDefectUnlocalized)
    case OneOrigin(x) =>
      HeadlineShare(inp, Drill(inp, c, x).culprit, SoleEvidence(inp, c, x), SoleShare(inp, c, x, shape))
    case ManyOrigins(xs) => if xs == [] then 0.0 else TotalShares(inp, c, xs, shape) / |xs| as real
    case Fabrication(_) => CORROBORATED_FLAG
    case WholeOnly(_) => VerdictCap(CompositionFailure)
    case NothingMeasured => 0.0
    case NothingFound => 0.0
  }

  // The score of the first culprit rests on fewer channels than were weighed.
  predicate OneChannel(inp: Input, culprits: seq<RunId>) {
    culprits != [] && var ch := Channels(inp, culprits[0]);
      ch.0.Some? && ch.1.Some? && |ch.0.value| < |ch.1.value|
  }

  ghost function Published(inp: Input, c: Condensation, a: Analysis, row: Row, shape: real): real
    requires RowPlaced(c, row)
  {
    var earned :=
      if Replaced(inp, c, row) then VerdictCap(VerificationGap) else RowConfidence(inp, c, a, row, shape);
    Headline(earned, FinalVerdict(inp, c, row), OneChannel(inp, FinalCulprits(inp, c, row)))
  }

  // Escalating the verdict moves no ceiling.
  lemma EscalationKeepsHeadline(earned: real, v: Verdict, fs: seq<Finding>, single: bool)
    ensures Headline(earned, Escalate(v, fs), single) == Headline(earned, v, single)
  {
  }

  method SumShares(inp: Input, c: Condensation, xs: seq<Candidate>, shape: real) returns (total: real)
    requires Placed(c, xs)
    ensures total == TotalShares(inp, c, xs, shape)
  {
    total := 0.0;
    for k := 0 to |xs|
      invariant Placed(c, xs[..k]) && total == TotalShares(inp, c, xs[..k], shape)
    {
      hide SharedShare;
      assert xs[k] in xs && xs[..k + 1][..k] == xs[..k];
      total := total + SharedShare(inp, c, xs[k], shape);
    }
    assert xs[..|xs|] == xs;
  }

  method ComputeRow(inp: Input, c: Condensation, a: Analysis, row: Row, shape: real) returns (earned: real)
    requires RowPlaced(c, row)
    ensures earned == RowConfidence(inp, c, a, row, shape)
  {
    hide LoopShare, SoleShare, Confidence.Attribution, OutsideEvidence, Observation, NearMissEvidence, SoleEvidence,
      HeadlineShare, Drill, DeterministicDefect, TotalShares, VerdictCap;
    match row {
      case ExternalFault(r) => earned := Confidence.Attribution(OutsideEvidence(inp, c, r), inp.config, false, shape);
      case Runaway(an, others) =>
        earned := LoopShare(inp, a.candidates, c.superOf[an.members[0]], shape);
        if others != [] {
          var more := SumShares(inp, c, others, shape);
          earned := (earned + more) / (1 + |others|) as real;
        } else {
          NothingShared(inp, c, shape);
        }
      case NearMiss(x) =>
        earned := Observation(NearMissEvidence(inp, c, x), inp.config, DeterministicDefect(inp, NearMissRun(x)));
      case ContentUnplaced(_) => earned := VerdictCap(TerminalDefectUnlocalized);
      case OneOrigin(x) =>
        earned := HeadlineShare(inp, Drill(inp, c, x).culprit, SoleEvidence(inp, c, x), SoleShare(inp, c, x, shape));
      case ManyOrigins(xs) =>
        var total := SumShares(inp, c, xs, shape);
        earned := if xs == [] then 0.0 else total / |xs| as real;
      case Fabrication(_) => earned := CORROBORATED_FLAG;
      case WholeOnly(_) => earned := VerdictCap(CompositionFailure);
      case NothingMeasured => earned := 0.0;
      case NothingFound => earned := 0.0;
    }
  }

  // The last step: a gap that took the row's place, then the two ceilings over the verdict as published.
  method ComputeHeadline(inp: Input, c: Condensation, a: Analysis, row: Row, replaced: bool, culprits: seq<RunId>,
                         v: Verdict, shape: real, ghost fs: seq<Finding>) returns (h: real)
    requires RowPlaced(c, row) && (replaced <==> Replaced(inp, c, row))
    requires culprits == FinalCulprits(inp, c, row) && v == Escalate(FinalVerdict(inp, c, row), fs)
    ensures h == Published(inp, c, a, row, shape)
  {
    hide RowConfidence, Replaced, FinalCulprits, FinalVerdict, Escalate, Headline, OneChannel, VerdictCap;
    var earned;
    if replaced {
      earned := VerdictCap(VerificationGap);
    } else {
      earned := ComputeRow(inp, c, a, row, shape);
    }
    EscalationKeepsHeadline(earned, FinalVerdict(inp, c, row), fs, OneChannel(inp, culprits));
    h := Headline(earned, v, OneChannel(inp, culprits));
  }

  lemma NothingShared(inp: Input, c: Condensation, shape: real)
    ensures TotalShares(inp, c, [], shape) == 0.0
  {
  }

  // ---------- What it takes to be near-certain ----------

  const NEAR := 0.8

  // Where the fault was seen to begin, the fixed observation or the cap on unknown ancestors; else the measured shares
  // against a baseline that was measured too.
  predicate SoleIsNear(inp: Input, run: RunId, y: Candidate, raw: real) {
    if SawOrigination(inp, run) then y.unknownUpstream ==> inp.config.unknownConfidenceCap > NEAR
    else !y.baseAssumed && raw > NEAR
  }

  lemma SoleNear(inp: Input, run: RunId, y: Candidate, raw: real)
    ensures HeadlineShare(inp, run, y, raw) > NEAR <==> SoleIsNear(inp, run, y, raw)
  {
    hide SawOrigination;
  }

  predicate NearMissIsNear(inp: Input, c: Condensation, x: Candidate) {
    DeterministicDefect(inp, NearMissRun(x)) || SeverityTerm(NearMissEvidence(inp, c, x), inp.config) > NEAR
  }

  // A measured fall is worth at most a judged finding, so only a hard defect or a score far below the bar will do.
  lemma NearMissNear(inp: Input, c: Condensation, x: Candidate)
    ensures var d := DeterministicDefect(inp, NearMissRun(x));
      NearMissIsNear(inp, c, x) <==> Observation(NearMissEvidence(inp, c, x), inp.config, d) > NEAR
  {
    ObservationIsEarned(NearMissEvidence(inp, c, x), inp.config, None);
    hide NearMissEvidence, DeterministicDefect;
  }

  // The rows that can be near-certain, and on what.
  ghost predicate RowIsNear(inp: Input, c: Condensation, a: Analysis, row: Row, shape: real)
    requires RowPlaced(c, row)
  {
    match row
    case Runaway(an, others) =>
      others == [] && LoopShare(inp, a.candidates, c.superOf[an.members[0]], shape) > NEAR
    case NearMiss(x) => NearMissIsNear(inp, c, x)
    case OneOrigin(x) =>
      var m := Drill(inp, c, x).culprit;
      && SoleIsNear(inp, m, SoleEvidence(inp, c, x), SoleShare(inp, c, x, shape))
      && (OneChannel(inp, [m]) ==> RowVerdict(inp, c, row) == DegradedRecovered)
    case ManyOrigins(xs) =>
      && xs != [] && !TwoPlaces(xs) && !OneChannel(inp, AllResolved(inp, c, xs))
      && TotalShares(inp, c, xs, shape) / |xs| as real > NEAR
    case _ => false
  }

  lemma HeadlineNear(earned: real, v: Verdict, single: bool)
    ensures Headline(earned, v, single) > NEAR <==>
      earned > NEAR && v in {CutPointVerdict, LoopDetected, DegradedRecovered, ShippedWithLatentDefect, Unclassified} &&
        !(single && v == CutPointVerdict)
  {
  }

  lemma RowNear(inp: Input, c: Condensation, a: Analysis, row: Row, shape: real)
    requires RowPlaced(c, row)
    ensures var one := OneChannel(inp, RowCulprits(inp, c, row));
      RowIsNear(inp, c, a, row, shape) <==>
      Headline(RowConfidence(inp, c, a, row, shape), RowVerdict(inp, c, row), one) > NEAR
  {
    HeadlineNear(RowConfidence(inp, c, a, row, shape), RowVerdict(inp, c, row),
      OneChannel(inp, RowCulprits(inp, c, row)));
    hide Headline, LoopShare, SoleShare, Confidence.Attribution, OutsideEvidence, Observation, NearMissEvidence,
      SoleEvidence, HeadlineShare, Drill, DeterministicDefect, TwoPlaces, OneChannel, SoleIsNear, NearMissIsNear,
      TotalShares, ContractAlone, AllResolved;
    match row
    case Runaway(an, others) => NothingShared(inp, c, shape);
    case NearMiss(x) => NearMissNear(inp, c, x);
    case OneOrigin(x) =>
      SoleNear(inp, Drill(inp, c, x).culprit, SoleEvidence(inp, c, x), SoleShare(inp, c, x, shape));
    case _ =>
  }

  // Main result: the published number exceeds 0.8 exactly for a loop that is the only fault, a near-miss, a lone origin
  // or one origin named several times, each on the evidence stated; every other verdict stays below.
  lemma NearCertainIff(inp: Input, c: Condensation, a: Analysis, anomalies: seq<Anomaly>, shape: real)
    requires Analyzed(inp, c, a, anomalies) && CascadeReady(c, a, anomalies)
    ensures RowPlaced(c, RowOf(inp, c, a, anomalies))
    ensures Published(inp, c, a, RowOf(inp, c, a, anomalies), shape) > NEAR <==>
      RowIsNear(inp, c, a, RowOf(inp, c, a, anomalies), shape)
  {
    hide *;
    var row := RowOf(inp, c, a, anomalies);
    AnalyzedIsReady(inp, c, a, anomalies);
    RowSeated(inp, c, a, anomalies);
    RowNear(inp, c, a, row, shape);
    FinalOrReplaced(inp, c, a, row, shape);
  }

  lemma FinalOrReplaced(inp: Input, c: Condensation, a: Analysis, row: Row, shape: real)
    requires RowPlaced(c, row)
    ensures var one := OneChannel(inp, RowCulprits(inp, c, row));
      Replaced(inp, c, row) ||
      Published(inp, c, a, row, shape) == Headline(RowConfidence(inp, c, a, row, shape), RowVerdict(inp, c, row), one)
    ensures Replaced(inp, c, row) ==> Published(inp, c, a, row, shape) <= NEAR
    ensures Replaced(inp, c, row) ==> !RowIsNear(inp, c, a, row, shape)
  {
    hide RowConfidence, AllGaps, RowCulprits, OneChannel, Drill, TwoPlaces, AllResolved, TotalShares, SoleIsNear,
      NearMissIsNear, LoopShare, SoleShare, SoleEvidence;
  }

  lemma RowSeated(inp: Input, c: Condensation, a: Analysis, anomalies: seq<Anomaly>)
    requires Analyzed(inp, c, a, anomalies) && CascadeReady(c, a, anomalies)
    requires WellFormed(inp, c) && RowReady(c, RowOf(inp, c, a, anomalies))
    ensures RowPlaced(c, RowOf(inp, c, a, anomalies))
  {
    hide *;
    var row := RowOf(inp, c, a, anomalies);
    RowFits(inp, c, a, anomalies);
    AnalyzedIsReady(inp, c, a, anomalies);
    if row.Runaway? {
      LoopMember(inp, c, row.anomaly);
    } else if row.ExternalFault? {
      SourceSeated(inp, c, a, anomalies);
    }
    PlacedRow(c, row);
  }

  lemma PlacedRow(c: Condensation, row: Row)
    requires RowReady(c, row)
    requires row.ExternalFault? ==> row.source in c.superOf && c.superOf[row.source] < |c.supers|
    requires row.Runaway? ==> row.anomaly.members != [] && row.anomaly.members[0] in c.superOf
    ensures RowPlaced(c, row)
  {
  }

  lemma SourceSeated(inp: Input, c: Condensation, a: Analysis, anomalies: seq<Anomaly>)
    requires Analyzed(inp, c, a, anomalies) && WellFormed(inp, c) && CascadeReady(c, a, anomalies)
    requires RowOf(inp, c, a, anomalies).ExternalFault? && RowReady(c, RowOf(inp, c, a, anomalies))
    ensures var r := RowOf(inp, c, a, anomalies).source; r in c.superOf && c.superOf[r] < |c.supers|
  {
    hide *;
    var row := RowOf(inp, c, a, anomalies);
    CulpritsInGraph(inp, c, a, anomalies, row);
    ExternalStays(inp, c, row);
    InSuper(inp, c, row.source);
  }

  lemma ExternalStays(inp: Input, c: Condensation, row: Row)
    requires RowReady(c, row) && row.ExternalFault?
    ensures row.source in FinalCulprits(inp, c, row)
  {
    hide AllGaps;
  }

  lemma InSuper(inp: Input, c: Condensation, r: RunId)
    requires WellFormed(inp, c) && r in c.superOf
    ensures c.superOf[r] < |c.supers|
  {
    hide Reaches, ProperTopo, ProperSuper, Acyclic;
  }

  // A healthy measured input, a fall of more than 0.3 from it, to less than two thirds of the bar, and no tie.
  predicate FullEvidence(x: Candidate, cfg: Config) {
    && x.drop.Some? && x.drop.value > 0.3
    && x.score.Some? && 3.0 * x.score.value < 2.0 * cfg.threshold
    && x.base.Some? && x.base.value > cfg.threshold && |x.tied| <= 1
  }

  lemma RawNear(x: Candidate, cfg: Config)
    requires Raw(x, cfg) > NEAR
    ensures x.drop.Some? && x.drop.value > 0.3 && x.score.Some? && 3.0 * x.score.value < 2.0 * cfg.threshold
    ensures x.base.Some? && x.base.value > cfg.threshold
  {
    assert GapTerm(x) <= 1.0 && SeverityTerm(x, cfg) <= 1.0 && PredTerm(x, cfg) <= 1.0;
    assert GapTerm(x) > 0.6 && 3.0 * SeverityTerm(x, cfg) > 1.0 && PredTerm(x, cfg) > 0.0;
    SeverityMeans(x, cfg);
    BaseMeans(x, cfg);
  }

  lemma SeverityMeans(x: Candidate, cfg: Config)
    requires 3.0 * SeverityTerm(x, cfg) > 1.0
    ensures x.score.Some? && 3.0 * x.score.value < 2.0 * cfg.threshold
  {
    var share := (cfg.threshold - x.score.value) / cfg.threshold;
    assert share * cfg.threshold == cfg.threshold - x.score.value;
    assert 3.0 * share > 1.0;
    Scale(1.0, 3.0 * share, cfg.threshold);
  }

  lemma BaseMeans(x: Candidate, cfg: Config)
    requires PredTerm(x, cfg) > 0.0
    ensures x.base.Some? && x.base.value > cfg.threshold
  {
    if x.base.value <= cfg.threshold {
      QuotientOrder(x.base.value - cfg.threshold, 0.0, 1.0 - cfg.threshold);
    }
  }

  lemma ShareNear(x: Candidate, cfg: Config, several: bool, shape: real)
    requires SoundSettings(cfg) && IsShare(shape) && Confidence.Attribution(x, cfg, several, shape) > NEAR
    ensures FullEvidence(x, cfg) && (several ==> cfg.multiCulpritPenalty > NEAR)
  {
    PenaltiesNeverRaise(x, cfg, several, shape);
    RawNear(x, cfg);
    if several {
      SeveralBelow(x, cfg, shape);
    }
    hide Raw, Confidence.Attribution;
    if |x.tied| > 1 {
      HalfAtMost(|x.tied|);
    }
  }

  lemma HalfAtMost(k: nat)
    requires k > 1
    ensures 1.0 / k as real <= 0.5
  {
  }

  lemma SeveralBelow(x: Candidate, cfg: Config, shape: real)
    requires SoundSettings(cfg) && IsShare(shape)
    ensures Confidence.Attribution(x, cfg, true, shape) <= cfg.multiCulpritPenalty
  {
    RawIsShare(x, cfg);
    hide Raw;
    var v := Raw(x, cfg);
    var inner := Times(Times(Times(Times(v, CycleFactor(x, cfg)), ChannelFactor(x, cfg)), shape), TieFactor(x));
    TieIsShare(x);
    hide Times, TieFactor, ChannelsIncomplete;
    ShrinksBoth(v, CycleFactor(x, cfg));
    ShrinksBoth(Times(v, CycleFactor(x, cfg)), ChannelFactor(x, cfg));
    ShrinksBoth(Times(Times(v, CycleFactor(x, cfg)), ChannelFactor(x, cfg)), shape);
    ShrinksBoth(Times(Times(Times(v, CycleFactor(x, cfg)), ChannelFactor(x, cfg)), shape), TieFactor(x));
    ShrinksBoth(inner, cfg.multiCulpritPenalty);
  }

  lemma {:induction false} TotalBelow(inp: Input, c: Condensation, xs: seq<Candidate>, shape: real)
    requires Placed(c, xs) && SoundSettings(inp.config) && IsShare(shape)
    ensures TotalShares(inp, c, xs, shape) <= Times(|xs| as real, inp.config.multiCulpritPenalty)
  {
    if xs != [] {
      var n := |xs| - 1;
      assert xs[n] in xs && forall x :: x in xs[..n] ==> x in xs;
      TotalBelow(inp, c, xs[..n], shape);
      SeveralBelow(SharedEvidence(inp, c, xs[n]), inp.config, shape);
      hide SharedEvidence, Confidence.Attribution;
      OneMore(n, inp.config.multiCulpritPenalty);
    }
  }

  lemma OneMore(n: nat, p: real)
    ensures Times((n + 1) as real, p) == Times(n as real, p) + p
  {
  }

  lemma AverageBelow(total: real, n: nat, p: real)
    requires n > 0 && total <= Times(n as real, p)
    ensures total / n as real <= p
  {
    if total / n as real > p {
      Scale(p, total / n as real, n as real);
    }
  }

  // Main result: short of an observed beginning of the fault, near-certainty about a lone origin or a loop it lies in
  // rests on full evidence, over a measured baseline and on every channel; about one origin named several times, only
  // where settings hardly discount it.
  lemma NearCertainNeeds(inp: Input, c: Condensation, a: Analysis, anomalies: seq<Anomaly>, shape: real)
    requires Analyzed(inp, c, a, anomalies) && CascadeReady(c, a, anomalies)
    requires RowPlaced(c, RowOf(inp, c, a, anomalies))
    requires SoundSettings(inp.config) && IsShare(shape)
    requires Published(inp, c, a, RowOf(inp, c, a, anomalies), shape) > NEAR
    ensures var row := RowOf(inp, c, a, anomalies);
      match row
      case OneOrigin(x) =>
        var m, y := Drill(inp, c, x).culprit, SoleEvidence(inp, c, x);
        SawOrigination(inp, m) || (FullEvidence(y, inp.config) && !y.baseAssumed && !OneChannel(inp, [m]))
      case Runaway(an, others) =>
        var x := CandidateAt(a.candidates, c.superOf[an.members[0]]);
        others == [] && (x.None? || FullEvidence(x.value, inp.config))
      case NearMiss(x) => NearMissIsNear(inp, c, x)
      case ManyOrigins(xs) => !TwoPlaces(xs) && inp.config.multiCulpritPenalty > NEAR
      case _ => false
  {
    NearCertainIff(inp, c, a, anomalies, shape);
    hide *;
    var row := RowOf(inp, c, a, anomalies);
    NearNeeds(inp, c, a, row, shape);
  }

  lemma NearNeeds(inp: Input, c: Condensation, a: Analysis, row: Row, shape: real)
    requires RowPlaced(c, row) && SoundSettings(inp.config) && IsShare(shape) && RowIsNear(inp, c, a, row, shape)
    ensures match row
      case OneOrigin(x) =>
        var m, y := Drill(inp, c, x).culprit, SoleEvidence(inp, c, x);
        SawOrigination(inp, m) || (FullEvidence(y, inp.config) && !y.baseAssumed && !OneChannel(inp, [m]))
      case Runaway(an, others) =>
        var x := CandidateAt(a.candidates, c.superOf[an.members[0]]);
        others == [] && (x.None? || FullEvidence(x.value, inp.config))
      case NearMiss(x) => NearMissIsNear(inp, c, x)
      case ManyOrigins(xs) => !TwoPlaces(xs) && inp.config.multiCulpritPenalty > NEAR
      case _ => false
  {
    hide Drill, SoleEvidence, FullEvidence, OneChannel, TwoPlaces, TotalShares, CandidateAt, NearMissIsNear,
      SawOrigination, Confidence.Attribution, AllResolved, SoundSettings, RowVerdict;
    if row.OneOrigin? {
      if !SawOrigination(inp, Drill(inp, c, row.origin).culprit) {
        ShareNear(SoleEvidence(inp, c, row.origin), inp.config, false, shape);
        UnseenIsNoBreach(inp, c, row.origin);
      }
    } else if row.Runaway? {
      var x := CandidateAt(a.candidates, c.superOf[row.anomaly.members[0]]);
      if x.Some? {
        ShareNear(x.value, inp.config, false, shape);
      }
    } else if row.ManyOrigins? {
      SeveralNear(inp, c, row.origins, shape);
    }
  }

  lemma SeveralNear(inp: Input, c: Condensation, xs: seq<Candidate>, shape: real)
    requires Placed(c, xs) && SoundSettings(inp.config) && IsShare(shape)
    requires xs != [] && TotalShares(inp, c, xs, shape) / |xs| as real > NEAR
    ensures inp.config.multiCulpritPenalty > NEAR
  {
    hide TotalShares, Times;
    TotalBelow(inp, c, xs, shape);
    AverageBelow(TotalShares(inp, c, xs, shape), |xs|, inp.config.multiCulpritPenalty);
  }

  // Without an observed beginning there is no breach, so the verdict is a cut point.
  lemma UnseenIsNoBreach(inp: Input, c: Condensation, x: Candidate)
    requires RowReady(c, OneOrigin(x)) && x.superId < |c.supers| && !SawOrigination(inp, Drill(inp, c, x).culprit)
    ensures RowVerdict(inp, c, OneOrigin(x)) == CutPointVerdict
  {
    hide Drill, TerminalBad, QualityUnmeasured;
  }

  // ---------- A near-certain near-miss ----------

  lemma KeepsUpstream(inp: Input, c: Condensation, x: Candidate)
    requires x.superId < |c.supers|
    ensures SoleEvidence(inp, c, x).unknownUpstream == x.unknownUpstream
  {
    hide Drill, OriginTie, Channels;
  }

  lemma SeenIsCertain(inp: Input, c: Condensation, a: Analysis, x: Candidate, shape: real)
    requires RowPlaced(c, OneOrigin(x)) && x.superId < |c.supers| && !Replaced(inp, c, OneOrigin(x))
    requires SawOrigination(inp, Drill(inp, c, x).culprit) && !x.unknownUpstream
    requires FinalVerdict(inp, c, OneOrigin(x)) == DegradedRecovered
    ensures Published(inp, c, a, OneOrigin(x), shape) == DETERMINISTIC_OBSERVATION
  {
    KeepsUpstream(inp, c, x);
    hide Replaced, FinalVerdict, FinalCulprits, SoleEvidence, Drill, OneChannel, SawOrigination, SoleShare;
  }

  lemma RewriterSaw(c: Condensation, x: Candidate)
    requires |c.supers| == 1 && c.supers[0].exit == 0 && c.supers[0].members == [0]
    requires x == HardCandidate(REWRITER, c, 0)
    ensures x.superId == 0 && !x.unknownUpstream && SawOrigination(REWRITER, Drill(REWRITER, c, x).culprit)
  {
    assert Violations(REWRITER, 0) == [BREACH];
  }

  // A near-miss is not among the two verdicts said to keep full confidence, and keeps it: a healthy run that rewrote
  // a parameter is reported as degraded_recovered at 0.95.
  lemma RecoveredIsCertain(c: Condensation, a: Analysis, anomalies: seq<Anomaly>, shape: real)
    requires Condensed(REWRITER, Classes([[0]]), c) && Analyzed(REWRITER, c, a, anomalies)
    ensures CascadeReady(c, a, anomalies) && RowPlaced(c, RowOf(REWRITER, c, a, anomalies))
    ensures FinalVerdict(REWRITER, c, RowOf(REWRITER, c, a, anomalies)) == DegradedRecovered
    ensures Published(REWRITER, c, a, RowOf(REWRITER, c, a, anomalies), shape) == DETERMINISTIC_OBSERVATION
  {
    hide *;
    BreachAloneRecovers(c, a, anomalies);
    NearCertainIff(REWRITER, c, a, anomalies, shape);
    RewriterIs();
    OneRow(REWRITER);
    LaidOutShape(REWRITER, [[0]], c);
    OneNode(REWRITER, c);
    RewriterCandidates(c);
    AnalysisOf(REWRITER, c, a, anomalies);
    AnalysisIs(REWRITER, c, a);
    RowFits(REWRITER, c, a, anomalies);
    var x := HardCandidate(REWRITER, c, 0);
    RewriterSaw(c, x);
    NotReplacedHere(REWRITER, c, OneOrigin(x));
    SeenIsCertain(REWRITER, c, a, x, shape);
  }
}
