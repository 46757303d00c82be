// The published number in plain arithmetic: what each piece of evidence is worth, and where each verdict is capped.

module Numbers {
  import opened Prelude
  import opened BlameInput
  import opened Condense
  import opened Propagation
  import opened CutPoint
  import opened Evidence
  import opened Derive
  import opened Loops
  import opened CandidateFacts
  import opened Cascade
  import opened Blame
  import opened Confidence
  import opened Attribution
  import opened Headlines
  import opened RunRecord
  import opened Graphs
  import opened Origins
  import Measured

  // ---------- The three terms ----------

  // A fall of half the scale is the whole of it.
  ghost predicate GapIs(x: Candidate, g: real) {
    if x.drop.None? || x.drop.value <= 0.0 then g == 0.0
    else if x.drop.value >= 0.5 then g == 1.0 else g == 2.0 * x.drop.value
  }

  // How far a score lies below the bar, as a share of the bar; nothing at or above it, nothing unscored.
  ghost predicate SeverityIs(x: Candidate, bar: real, s: real) {
    if x.score.None? || bar <= 0.0 || x.score.value >= bar then s == 0.0
    else if x.score.value <= 0.0 then s == 1.0 else s == (bar - x.score.value) / bar
  }

  // How far the input lay above the bar, as a share of what is above it.
  ghost predicate InputIs(x: Candidate, bar: real, p: real) {
    if x.base.None? || bar >= 1.0 || x.base.value <= bar then p == 0.0
    else if x.base.value >= 1.0 then p == 1.0 else p == (x.base.value - bar) / (1.0 - bar)
  }

  lemma Quotients(a: real, b: real, k: real)
    requires k > 0.0
    ensures a <= b <==> a / k <= b / k
    ensures k / k == 1.0 && 0.0 / k == 0.0
  {
    if a <= b {
      QuotientOrder(a, b, k);
    } else {
      QuotientOrder(b, a, k);
      assert a / k * k == a && b / k * k == b;
    }
  }

  lemma GapMeans(x: Candidate, g: real)
    requires GapIs(x, g)
    ensures GapTerm(x) == g
  {
  }

  lemma SeverityIsTerm(x: Candidate, cfg: Config, s: real)
    requires SeverityIs(x, cfg.threshold, s)
    ensures SeverityTerm(x, cfg) == s
  {
    if x.score.Some? && cfg.threshold > 0.0 {
      Quotients(cfg.threshold - x.score.value, cfg.threshold, cfg.threshold);
      Quotients(cfg.threshold, cfg.threshold - x.score.value, cfg.threshold);
      Quotients(0.0, cfg.threshold - x.score.value, cfg.threshold);
      Quotients(cfg.threshold - x.score.value, 0.0, cfg.threshold);
    }
  }

  lemma InputMeans(x: Candidate, cfg: Config, p: real)
    requires InputIs(x, cfg.threshold, p)
    ensures PredTerm(x, cfg) == p
  {
    if x.base.Some? && cfg.threshold < 1.0 {
      var over, room := x.base.value - cfg.threshold, 1.0 - cfg.threshold;
      Quotients(over, room, room);
      Quotients(room, over, room);
      Quotients(0.0, over, room);
      Quotients(over, 0.0, room);
    }
  }

  // ---------- What a candidate earns ----------

  // The discounts due: a cycle of several runs, a channel that never reported, the shape, a tie, further culprits.
  function Due(x: Candidate, cfg: Config, several: bool, shape: real): real {
    (if x.iterations >= 2 then cfg.sccConfidencePenalty else 1.0) *
    (if x.channels.Some? && x.channelsAll.Some? && |x.channels.value| < |x.channelsAll.value|
     then cfg.singleChannelPenalty else 1.0) *
    shape * (if |x.tied| >= 2 then 1.0 / |x.tied| as real else 1.0) *
    (if several then cfg.multiCulpritPenalty else 1.0)
  }

  lemma Regroup(v: real, a: real, b: real, s: real, t: real, m: real)
    ensures Times(Times(Times(Times(Times(v, a), b), s), t), m) == v * (a * b * s * t * m)
  {
    assert Times(Times(v, a), b) == v * (a * b);
    assert v * (a * b) * s == v * (a * b * s);
    assert v * (a * b * s) * t == v * (a * b * s * t);
    assert v * (a * b * s * t) * m == v * (a * b * s * t * m);
  }

  // Half for the fall, three tenths for the severity, a fifth for the input.
  function Blend(g: real, s: real, p: real): real {
    0.5 * g + 0.3 * s + 0.2 * p
  }

  function Product(a: real, b: real): real {
    a * b
  }

  // A number under a cap, inside the unit interval.
  function Held(due: real, capped: bool, cap: real): real {
    var v := if capped && cap < due then cap else due;
    if v < 0.0 then 0.0 else if v > 1.0 then 1.0 else v
  }

  lemma HeldSame(a: real, b: real, capped: bool, k: real, l: real)
    requires a == b && (capped ==> k == l)
    ensures Held(a, capped, k) == Held(b, capped, l)
  {
  }

  lemma ScaledIs(x: Candidate, cfg: Config, several: bool, shape: real)
    ensures Confidence.Attribution(x, cfg, several, shape) ==
      Held(Discounted(Raw(x, cfg), x, cfg, several, shape), x.unknownUpstream, cfg.unknownConfidenceCap)
  {
    hide Raw, Discounted;
  }

  lemma RawIs(x: Candidate, cfg: Config, g: real, s: real, p: real)
    requires GapIs(x, g) && SeverityIs(x, cfg.threshold, s) && InputIs(x, cfg.threshold, p)
    ensures Raw(x, cfg) == Blend(g, s, p)
  {
    GapMeans(x, g);
    SeverityIsTerm(x, cfg, s);
    InputMeans(x, cfg, p);
    hide GapTerm, SeverityTerm, PredTerm;
  }

  // Main result: attribution is half the fall, three tenths of the severity and a fifth of the input, times the
  // discounts due, under the cap on unknown ancestors, inside the unit interval.
  lemma AttributionIs(x: Candidate, cfg: Config, several: bool, shape: real, g: real, s: real, p: real)
    requires GapIs(x, g) && SeverityIs(x, cfg.threshold, s) && InputIs(x, cfg.threshold, p)
    ensures Confidence.Attribution(x, cfg, several, shape) ==
      Held(Product(Blend(g, s, p), Due(x, cfg, several, shape)), x.unknownUpstream, cfg.unknownConfidenceCap)
  {
    hide *;
    ScaledIs(x, cfg, several, shape);
    RawIs(x, cfg, g, s, p);
    DiscountedIs(Raw(x, cfg), x, cfg, several, shape);
  }

  lemma DiscountedIs(v: real, x: Candidate, cfg: Config, several: bool, shape: real)
    ensures Discounted(v, x, cfg, several, shape) == Product(v, Due(x, cfg, several, shape))
  {
    Regroup(v, CycleFactor(x, cfg), ChannelFactor(x, cfg), shape, TieFactor(x), SeveralFactor(cfg, several));
    DueIs(x, cfg, several, shape);
    hide Times, Due, CycleFactor, ChannelFactor, TieFactor, SeveralFactor;
  }

  lemma DueIs(x: Candidate, cfg: Config, several: bool, shape: real)
    ensures Due(x, cfg, several, shape) ==
      CycleFactor(x, cfg) * ChannelFactor(x, cfg) * shape * TieFactor(x) * SeveralFactor(cfg, several)
  {
  }

  // Main result: how sure the engine is that an output is defective: near-certain when seen outright, else the
  // severity of the score or seven tenths of the measured fall, whichever is more. An assumed baseline counts for
  // nothing.
  lemma ObservationIs(x: Candidate, cfg: Config, deterministic: bool, g: real, s: real)
    requires GapIs(x, g) && SeverityIs(x, cfg.threshold, s)
    ensures var fallen := if x.baseAssumed then 0.0 else 0.7 * g;
      Observation(x, cfg, deterministic) == if deterministic then 0.95 else if fallen > s then fallen else s
  {
    SeverityIsTerm(x, cfg, s);
    hide SeverityTerm;
  }

  // ---------- The evidence of the rows ----------

  // What a fall from a perfect input to `s` is worth.
  function FromPerfect(s: real, bar: real): real
    requires bar > 0.0
  {
    (if s <= 0.5 then 0.5 else 1.0 - s) + (if s >= bar then 0.0 else 0.3 * ((bar - s) / bar)) + 0.2
  }

  // The discounts due to a source: its cycle, a channel that never reported, the shape.
  function SourceDue(inp: Input, c: Condensation, r: RunId, shape: real): real
    requires r in c.superOf && c.superOf[r] < |c.supers|
  {
    (if |c.supers[c.superOf[r]].members| > 1 then inp.config.sccConfidencePenalty else 1.0) *
    (if Thin(inp, r) then inp.config.singleChannelPenalty else 1.0) * shape
  }

  // Main result: a source that admits a flawed input has fallen from a perfect one, to its score or to nothing when it
  // was never scored; neither ties nor ancestors discount it.
  lemma OutsideEarns(inp: Input, c: Condensation, a: Analysis, r: RunId, shape: real)
    requires RowPlaced(c, ExternalFault(r)) && 0.0 < inp.config.threshold < 1.0
    requires HasScore(inp, r) ==> 0.0 <= ScoreIn(inp, r) <= 1.0
    ensures var s := if HasScore(inp, r) then ScoreIn(inp, r) else 0.0;
      RowConfidence(inp, c, a, ExternalFault(r), shape) ==
      Held(Product(FromPerfect(s, inp.config.threshold), SourceDue(inp, c, r, shape)), false, 1.0)
  {
    OutsideIs(inp, c, r);
    hide *;
    var s := if HasScore(inp, r) then ScoreIn(inp, r) else 0.0;
    OutsideDue(inp, c, r, shape);
    OutsideHeld(OutsideEvidence(inp, c, r), inp.config, s, shape, SourceDue(inp, c, r, shape));
    OutsideRow(inp, c, a, r, shape);
  }

  lemma OutsideHeld(y: Candidate, cfg: Config, s: real, shape: real, due: real)
    requires y.score == Some(s) && y.base == Some(1.0) && y.drop == Some(1.0 - s) && !y.unknownUpstream
    requires 0.0 <= s <= 1.0 && 0.0 < cfg.threshold < 1.0 && due == Due(y, cfg, false, shape)
    ensures Confidence.Attribution(y, cfg, false, shape) ==
      Held(Product(FromPerfect(s, cfg.threshold), due), false, 1.0)
  {
    hide *;
    var gap := if s <= 0.5 then 1.0 else 2.0 * (1.0 - s);
    var sev := if s >= cfg.threshold then 0.0 else (cfg.threshold - s) / cfg.threshold;
    var worth := FromPerfect(s, cfg.threshold);
    OutsideTerms(y, s, cfg.threshold);
    AttributionIs(y, cfg, false, shape, gap, sev, 1.0);
    Worth(s, cfg.threshold, gap, sev);
    HeldSame(Product(worth, due), Product(worth, due), false, cfg.unknownConfidenceCap, 1.0);
  }

  lemma OutsideRow(inp: Input, c: Condensation, a: Analysis, r: RunId, shape: real)
    requires RowPlaced(c, ExternalFault(r))
    ensures RowConfidence(inp, c, a, ExternalFault(r), shape) ==
      Confidence.Attribution(OutsideEvidence(inp, c, r), inp.config, false, shape)
  {
  }

  lemma Worth(s: real, bar: real, gap: real, sev: real)
    requires bar > 0.0 && gap == (if s <= 0.5 then 1.0 else 2.0 * (1.0 - s))
    requires sev == if s >= bar then 0.0 else (bar - s) / bar
    ensures Blend(gap, sev, 1.0) == FromPerfect(s, bar)
  {
  }

  lemma OutsideTerms(y: Candidate, s: real, bar: real)
    requires y.score == Some(s) && y.base == Some(1.0) && y.drop == Some(1.0 - s) && 0.0 <= s <= 1.0 && 0.0 < bar < 1.0
    ensures GapIs(y, if s <= 0.5 then 1.0 else 2.0 * (1.0 - s)) && InputIs(y, bar, 1.0)
    ensures SeverityIs(y, bar, if s >= bar then 0.0 else (bar - s) / bar)
  {
    Quotients(bar, bar, bar);
  }

  // Fewer channels reported than the scorer weighed.
  predicate Thin(inp: Input, r: RunId) {
    && r in inp.scores && inp.scores[r].weighed.Some?
    && |inp.scores[r].weighed.value| < |inp.scores[r].components|
  }

  lemma OutsideIs(inp: Input, c: Condensation, r: RunId)
    requires r in c.superOf && c.superOf[r] < |c.supers| && (HasScore(inp, r) ==> ScoreIn(inp, r) <= 1.0)
    ensures var y, s := OutsideEvidence(inp, c, r), if HasScore(inp, r) then ScoreIn(inp, r) else 0.0;
      && y.run == r && y.score == Some(s) && y.base == Some(1.0) && y.drop == Some(1.0 - s) && !y.unknownUpstream
      && y.tied == [] && !y.baseAssumed && y.iterations == |c.supers[c.superOf[r]].members|
      && (Thin(inp, r) <==>
        y.channels.Some? && y.channelsAll.Some? && |y.channels.value| < |y.channelsAll.value|)
  {
    FieldsAre(inp, r);
  }

  lemma OutsideDue(inp: Input, c: Condensation, r: RunId, shape: real)
    requires r in c.superOf && c.superOf[r] < |c.supers| && (HasScore(inp, r) ==> ScoreIn(inp, r) <= 1.0)
    ensures Due(OutsideEvidence(inp, c, r), inp.config, false, shape) == SourceDue(inp, c, r, shape)
  {
    OutsideIs(inp, c, r);
    hide OutsideEvidence, Thin, HasScore, ScoreIn;
  }

  // The fall of a member, where one was measured: from its best scored direct source to its own score.
  ghost predicate MemberFell(inp: Input, g: Graph, m: RunId, fall: Option<real>) {
    if HasScore(inp, m) && exists q :: Measured.ScoredSource(inp, g, q, m)
    then exists q :: Measured.BestSource(inp, g, q, m) && fall == Some(Measured.Above(ScoreIn(inp, q), ScoreIn(inp, m)))
    else fall == None
  }

  lemma MemberFallIs(inp: Input, g: Graph, m: RunId)
    ensures MemberFell(inp, g, m, MeasuredFall(inp, g, m))
  {
    FieldsAre(inp, m);
    Measured.SourcesScored(inp, g, m);
    hide HasScore, ScoreIn, Measured.ScoredSource, Measured.BestSource;
    if KnownScores(inp, RunPreds(g, m)) != {} {
      var r :| r in KnownScores(inp, RunPreds(g, m));
      SomeSource(inp, g, m, r);
      var low, high := Measured.SourceExtremes(inp, g, m);
    }
  }

  lemma SomeSource(inp: Input, g: Graph, m: RunId, r: RunId)
    requires r in KnownScores(inp, RunPreds(g, m))
    ensures Lowest(inp, RunPreds(g, m)).Some?
  {
    hide RunPreds;
  }

  // Main result: an origin that moved onto a member of its cycle is weighed by that member's own score, and by its own
  // fall where one was measured; its base, score and fall add up.
  lemma SharedReads(inp: Input, c: Condensation, x: Candidate)
    requires x.superId < |c.supers| && Resolved(inp, c, x) != x.run
    ensures var y, m := SharedEvidence(inp, c, x), Resolved(inp, c, x);
      && y.run == m && m in c.supers[x.superId].members && HasScore(inp, m) && y.score == Some(ScoreIn(inp, m))
      && ((exists q :: Measured.ScoredSource(inp, c.graph, q, m)) ==> MemberFell(inp, c.graph, m, y.drop))
      && (!(exists q :: Measured.ScoredSource(inp, c.graph, q, m)) ==> y.drop == x.drop)
      && (y.drop.Some? ==> y.base == Some(ScoreIn(inp, m) + y.drop.value)) && (y.drop.None? ==> y.base == x.base)
  {
    var m := Resolved(inp, c, x);
    MovedScored(inp, c, x);
    FieldsAre(inp, m);
    MemberFallIs(inp, c.graph, m);
    SharedParts(inp, c, x);
    hide Resolved, SharedEvidence, MeasuredFall, HasScore, ScoreIn, Measured.ScoredSource, Measured.BestSource, ScoreOf;
  }

  lemma MovedScored(inp: Input, c: Condensation, x: Candidate)
    requires x.superId < |c.supers| && Resolved(inp, c, x) != x.run
    ensures var m := Resolved(inp, c, x);
      && m in c.supers[x.superId].members && ScoreOf(inp, m).Some?
      && Drill(inp, c, x).fall == MeasuredFall(inp, c.graph, m)
  {
    hide MeasuredFall, Worst;
  }

  lemma SharedParts(inp: Input, c: Condensation, x: Candidate)
    requires x.superId < |c.supers| && Resolved(inp, c, x) != x.run && ScoreOf(inp, Resolved(inp, c, x)).Some?
    ensures var y, m, fall := SharedEvidence(inp, c, x), Resolved(inp, c, x), Drill(inp, c, x).fall;
      && y.run == m && y.score == ScoreOf(inp, m) && y.drop == (if fall.Some? then fall else x.drop)
      && (y.drop.Some? ==> y.base == Some(y.score.value + y.drop.value)) && (y.drop.None? ==> y.base == x.base)
  {
    hide Resolved, Drill, Channels, ScoreOf;
  }

  // Main result: a near-miss is weighed at the member it points at, by that member's score, its best source and its
  // fall from there; without such a member by what the origin carries.
  lemma NearMissReads(inp: Input, c: Condensation, x: Candidate)
    ensures x.sccMember.None? ==> NearMissEvidence(inp, c, x) == x
    ensures x.sccMember.Some? ==> var y, m := NearMissEvidence(inp, c, x), x.sccMember.value;
      && y.run == m && (HasScore(inp, m) ==> y.score == Some(ScoreIn(inp, m)))
      && (!HasScore(inp, m) ==> y.score == x.score) && MemberFell(inp, c.graph, m, y.drop)
      && (if exists q :: Measured.ScoredSource(inp, c.graph, q, m)
          then exists q :: Measured.BestSource(inp, c.graph, q, m) && y.base == Some(ScoreIn(inp, q))
          else y.base == None)
  {
    if x.sccMember.Some? {
      var m := x.sccMember.value;
      FieldsAre(inp, m);
      MemberFallIs(inp, c.graph, m);
      BestBase(inp, c.graph, m);
      hide MeasuredFall, HasScore, ScoreIn, Measured.ScoredSource, Measured.BestSource, ScoreOf, Channels, MemberFell,
        Highest;
    }
  }

  lemma BestBase(inp: Input, g: Graph, m: RunId)
    ensures var best := Highest(inp, RunPreds(g, m));
      if exists q :: Measured.ScoredSource(inp, g, q, m)
      then exists q :: Measured.BestSource(inp, g, q, m) && best == Some(ScoreIn(inp, q))
      else best == None
  {
    Measured.SourcesScored(inp, g, m);
    hide HasScore, ScoreIn, Measured.ScoredSource, Measured.BestSource;
    if KnownScores(inp, RunPreds(g, m)) != {} {
      var r :| r in KnownScores(inp, RunPreds(g, m));
      SomeSource(inp, g, m, r);
      var low, high := Measured.SourceExtremes(inp, g, m);
    }
  }

  lemma {:induction false} LastAt(cs: seq<Candidate>, sid: nat)
    ensures match CandidateAt(cs, sid)
      case None => forall k :: 0 <= k < |cs| ==> cs[k].superId != sid
      case Some(x) => exists k ::
        0 <= k < |cs| && cs[k] == x && x.superId == sid && forall j :: k < j < |cs| ==> cs[j].superId != sid
  {
    if cs != [] {
      LastAt(cs[..|cs| - 1], sid);
    }
  }

  // Main result: a runaway loop is as sure as the last origin found at its cycle, and certain when it is none.
  lemma LoopReads(inp: Input, cs: seq<Candidate>, sid: nat, shape: real)
    ensures (forall k :: 0 <= k < |cs| ==> cs[k].superId != sid) ==> LoopShare(inp, cs, sid, shape) == 1.0
    ensures forall k :: 0 <= k < |cs| && cs[k].superId == sid && (forall j :: k < j < |cs| ==> cs[j].superId != sid) ==>
      LoopShare(inp, cs, sid, shape) == Confidence.Attribution(cs[k], inp.config, false, shape)
  {
    LastAt(cs, sid);
    hide CandidateAt, Confidence.Attribution;
  }

  // The rows that rest on no measured fall of their own.
  lemma FixedRows(inp: Input, c: Condensation, a: Analysis, row: Row, shape: real)
    requires RowPlaced(c, row)
    ensures row.Fabrication? ==> RowConfidence(inp, c, a, row, shape) == 0.65
    ensures row.ContentUnplaced? ==> RowConfidence(inp, c, a, row, shape) == 0.6
    ensures row.WholeOnly? ==> RowConfidence(inp, c, a, row, shape) == 0.4
    ensures row.NothingMeasured? || row.NothingFound? ==> RowConfidence(inp, c, a, row, shape) == 0.0
  {
  }

  // ---------- The ceilings ----------

  // Main result: what is published is what was earned, up to the ceiling of the verdict it is published under.
  // Verifiers earn six tenths.
  lemma PublishedIs(inp: Input, c: Condensation, a: Analysis, row: Row, shape: real)
    requires RowPlaced(c, row)
    ensures var v, named := FinalVerdict(inp, c, row), FinalCulprits(inp, c, row);
      var earned := if Replaced(inp, c, row) then 0.6 else RowConfidence(inp, c, a, row, shape);
      var ceiling :=
        if v == CompositionFailure then 0.4
        else if v == RootCauseExternal then 0.5
        else if v == VerificationGap || v == TerminalDefectUnlocalized then 0.6
        else if v == MultiCulprit then 0.8
        else if v == CutPointVerdict && named != [] && Thin(inp, named[0]) then 0.7
        else 1.0;
      Headlines.Published(inp, c, a, row, shape) == if earned < ceiling then earned else ceiling
  {
    var named := FinalCulprits(inp, c, row);
    var earned := if Replaced(inp, c, row) then 0.6 else RowConfidence(inp, c, a, row, shape);
    ThinIs(inp, named);
    CeilingIs(earned, FinalVerdict(inp, c, row), Headlines.OneChannel(inp, named));
    PublishedEarned(inp, c, a, row, shape);
    hide *;
  }

  lemma PublishedEarned(inp: Input, c: Condensation, a: Analysis, row: Row, shape: real)
    requires RowPlaced(c, row)
    ensures var earned := if Replaced(inp, c, row) then 0.6 else RowConfidence(inp, c, a, row, shape);
      Headlines.Published(inp, c, a, row, shape) ==
      Headline(earned, FinalVerdict(inp, c, row), Headlines.OneChannel(inp, FinalCulprits(inp, c, row)))
  {
    hide FinalVerdict, FinalCulprits, Replaced, RowConfidence, Headlines.OneChannel, Headline;
  }

  lemma CeilingIs(earned: real, v: Verdict, thin: bool)
    ensures var ceiling :=
        if v == CompositionFailure then 0.4
        else if v == RootCauseExternal then 0.5
        else if v == VerificationGap || v == TerminalDefectUnlocalized then 0.6
        else if v == MultiCulprit then 0.8
        else if v == CutPointVerdict && thin then 0.7
        else 1.0;
      Headline(earned, v, thin) == if earned < ceiling then earned else ceiling
  {
  }

  lemma ThinIs(inp: Input, named: seq<RunId>)
    ensures Headlines.OneChannel(inp, named) <==> named != [] && Thin(inp, named[0])
  {
  }
}
