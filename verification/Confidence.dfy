// Confidence numbers: a claim may not outrun its evidence.

module Confidence {
  import opened Prelude
  import opened BlameInput
  import opened CutPoint
  import opened Derive

  function Clamp(x: real): real {
    Max(0.0, Min(1.0, x))
  }

  // ---------- The evidence terms ----------

  function GapTerm(x: Candidate): real {
    Clamp((if x.drop.Some? then x.drop.value else 0.0) / 0.5)
  }

  // No judged score is no severity evidence, not a score of zero.
  function SeverityTerm(x: Candidate, cfg: Config): real {
    if cfg.threshold > 0.0 && x.score.Some? then Clamp((cfg.threshold - x.score.value) / cfg.threshold) else 0.0
  }

  function PredTerm(x: Candidate, cfg: Config): real {
    if x.base.Some? && cfg.threshold < 1.0 then Clamp((x.base.value - cfg.threshold) / (1.0 - cfg.threshold)) else 0.0
  }

  function Raw(x: Candidate, cfg: Config): real {
    0.5 * GapTerm(x) + 0.3 * SeverityTerm(x, cfg) + 0.2 * PredTerm(x, cfg)
  }

  // Fewer channels reported than the scorer weighed; unknown coverage is not a missing channel.
  predicate ChannelsIncomplete(x: Candidate) {
    x.channels.Some? && x.channelsAll.Some? && |x.channels.value| < |x.channelsAll.value|
  }

  // ---------- The chain penalty ----------

  function Interior(depth: int): int {
    depth - 2
  }

  function FullInterior(cfg: Config): int {
    if cfg.chainFullPenaltyDepth - 2 > 1 then cfg.chainFullPenaltyDepth - 2 else 1
  }

  // `root` is the square root of the interior length as a share of the full one.
  predicate IsRamp(depth: int, cfg: Config, root: real) {
    root >= 0.0 && (Interior(depth) > 0 ==> root * root * FullInterior(cfg) as real == Interior(depth) as real)
  }

  function ChainPenalty(depth: int, cfg: Config, root: real): real {
    if Interior(depth) <= 0 then 1.0 else 1.0 - (1.0 - cfg.chainConfidencePenalty) * Min(1.0, root)
  }

  lemma SquaresOrder(a: real, b: real)
    requires a >= 0.0 && b >= 0.0 && Times(a, a) <= Times(b, b)
    ensures a <= b
  {
    hide Times;
    if a > b {
      TimesOrder(b, a, a);
      TimesOrder(b, a, b);
    }
  }

  lemma RampOrder(d: int, e: int, cfg: Config, r: real, s: real)
    requires 0 < Interior(d) && d <= e && IsRamp(d, cfg, r) && IsRamp(e, cfg, s)
    ensures r <= s
  {
    var full := FullInterior(cfg) as real;
    if r * r > s * s {
      Scale(s * s, r * r, full);
    }
    assert Times(r, r) <= Times(s, s);
    SquaresOrder(r, s);
  }

  function Times(a: real, b: real): real {
    a * b
  }

  lemma TimesOrder(a: real, b: real, k: real)
    requires a <= b && k >= 0.0
    ensures Times(k, a) == Times(a, k) <= Times(b, k) == Times(k, b)
    ensures a < b && k > 0.0 ==> Times(a, k) < Times(b, k)
  {
    Scale(a, b, k);
  }

  lemma Scale(a: real, b: real, k: real)
    requires a <= b && k >= 0.0
    ensures a * k <= b * k
    ensures a < b && k > 0.0 ==> a * k < b * k
  {
  }

  lemma PenaltyIs(d: int, cfg: Config, r: real)
    requires IsRamp(d, cfg, r) && Interior(d) > 0 && 0.0 <= cfg.chainConfidencePenalty <= 1.0
    ensures ChainPenalty(d, cfg, r) == 1.0 - Times(1.0 - cfg.chainConfidencePenalty, Min(1.0, r))
    ensures cfg.chainConfidencePenalty <= ChainPenalty(d, cfg, r) <= 1.0
    ensures cfg.chainConfidencePenalty < 1.0 ==> (ChainPenalty(d, cfg, r) == cfg.chainConfidencePenalty <==> r >= 1.0)
  {
    var k, m := 1.0 - cfg.chainConfidencePenalty, Min(1.0, r);
    assert ChainPenalty(d, cfg, r) == 1.0 - Times(k, m);
    hide Times, ChainPenalty, IsRamp;
    TimesOrder(m, 1.0, k);
    TimesOrder(0.0, m, k);
    Units(k);
  }

  lemma Units(k: real)
    ensures Times(1.0, k) == Times(k, 1.0) == k && Times(0.0, k) == Times(k, 0.0) == 0.0
  {
  }

  // Main result: deeper chains are discounted no less, never below the full penalty, which is reached
  // exactly from the full depth on (for a penalty that discounts at all).
  lemma ChainPenaltyFalls(d: int, e: int, cfg: Config, r: real, s: real)
    requires d <= e && IsRamp(d, cfg, r) && IsRamp(e, cfg, s) && 0.0 <= cfg.chainConfidencePenalty <= 1.0
    ensures cfg.chainConfidencePenalty <= ChainPenalty(e, cfg, s) <= ChainPenalty(d, cfg, r) <= 1.0
    ensures cfg.chainConfidencePenalty < 1.0 ==>
      (ChainPenalty(e, cfg, s) == cfg.chainConfidencePenalty <==> Interior(e) >= FullInterior(cfg))
  {
    if Interior(e) > 0 {
      PenaltyIs(e, cfg, s);
      Saturates(e, cfg, s);
    }
    if Interior(d) > 0 {
      PenaltyIs(d, cfg, r);
      RampOrder(d, e, cfg, r, s);
      TimesOrder(Min(1.0, r), Min(1.0, s), 1.0 - cfg.chainConfidencePenalty);
    }
    hide Times, IsRamp;
  }

  lemma Saturates(e: int, cfg: Config, s: real)
    requires Interior(e) > 0 && IsRamp(e, cfg, s)
    ensures s >= 1.0 <==> Interior(e) >= FullInterior(cfg)
  {
    var full := FullInterior(cfg) as real;
    if s >= 1.0 {
      Scale(1.0, s, s);
      Scale(1.0, s * s, full);
    } else {
      Scale(s, 1.0, s);
      assert s * s < 1.0;
      Scale(s * s, 1.0, full);
    }
  }

  // ---------- The formula ----------

  function CycleFactor(x: Candidate, cfg: Config): real {
    if x.iterations > 1 then cfg.sccConfidencePenalty else 1.0
  }

  function ChannelFactor(x: Candidate, cfg: Config): real {
    if ChannelsIncomplete(x) then cfg.singleChannelPenalty else 1.0
  }

  // k origins with identical evidence share the attribution.
  function TieFactor(x: Candidate): real {
    if |x.tied| > 1 then 1.0 / |x.tied| as real else 1.0
  }

  function SeveralFactor(cfg: Config, several: bool): real {
    if several then cfg.multiCulpritPenalty else 1.0
  }

  // The discounts, in the order they are applied; `shape` is the chain penalty, or 1 off a chain.
  function Discounted(v: real, x: Candidate, cfg: Config, several: bool, shape: real): real {
    Times(Times(Times(Times(Times(v, CycleFactor(x, cfg)), ChannelFactor(x, cfg)), shape), TieFactor(x)),
      SeveralFactor(cfg, several))
  }

  function Attribution(x: Candidate, cfg: Config, several: bool, shape: real): real {
    var scaled := Discounted(Raw(x, cfg), x, cfg, several, shape);
    Clamp(if x.unknownUpstream then Min(scaled, cfg.unknownConfidenceCap) else scaled)
  }

  lemma OnceIsSame(v: real)
    ensures Times(v, 1.0) == v
  {
  }

  // `root` is the ramp of `depth`; a depth of zero means the graph is no chain.
  method ComputeConfidence(x: Candidate, cfg: Config, several: bool, depth: nat, root: real) returns (r: real)
    requires IsRamp(depth, cfg, root)
    ensures r == Attribution(x, cfg, several, if depth == 0 then 1.0 else ChainPenalty(depth, cfg, root))
    ensures 0.0 <= r <= 1.0
  {
    hide Times, Raw, ChainPenalty, ChannelsIncomplete, IsRamp;
    var confidence := Raw(x, cfg);
    OnceIsSame(confidence);
    if x.iterations > 1 {
      confidence := Times(confidence, cfg.sccConfidencePenalty);
    }
    OnceIsSame(confidence);
    if ChannelsIncomplete(x) {
      confidence := Times(confidence, cfg.singleChannelPenalty);
    }
    OnceIsSame(confidence);
    if depth != 0 {
      confidence := Times(confidence, ChainPenalty(depth, cfg, root));
    }
    OnceIsSame(confidence);
    if |x.tied| > 1 {
      ShareIsQuotient(confidence, |x.tied|);
      confidence := confidence / |x.tied| as real;
    }
    OnceIsSame(confidence);
    if several {
      confidence := Times(confidence, cfg.multiCulpritPenalty);
    }
    if x.unknownUpstream {
      confidence := Min(confidence, cfg.unknownConfidenceCap);
    }
    r := Clamp(confidence);
  }

  lemma ShareIsQuotient(v: real, k: nat)
    requires k > 1
    ensures v / k as real == Times(v, 1.0 / k as real)
  {
  }

  // ---------- What the numbers promise ----------

  predicate IsShare(p: real) {
    0.0 <= p <= 1.0
  }

  predicate SoundSettings(cfg: Config) {
    IsShare(cfg.sccConfidencePenalty) && IsShare(cfg.singleChannelPenalty) && IsShare(cfg.multiCulpritPenalty)
  }

  lemma ShrinksBoth(a: real, p: real)
    requires IsShare(a) && IsShare(p)
    ensures IsShare(Times(a, p)) && Times(a, p) <= a && Times(a, p) <= p
  {
    hide Times;
    TimesOrder(a, 1.0, p);
    TimesOrder(0.0, a, p);
    TimesOrder(p, 1.0, a);
    Units(a);
    Units(p);
  }

  lemma TieIsShare(x: Candidate)
    ensures IsShare(TieFactor(x)) && TieFactor(x) > 0.0
  {
  }

  lemma DiscountsShrink(v: real, x: Candidate, cfg: Config, several: bool, shape: real)
    requires SoundSettings(cfg) && IsShare(shape) && IsShare(v)
    ensures 0.0 <= Discounted(v, x, cfg, several, shape) <= v
    ensures Discounted(v, x, cfg, several, shape) <= TieFactor(x)
  {
    TieIsShare(x);
    hide Times, TieFactor, ChannelsIncomplete;
    var a := Times(v, CycleFactor(x, cfg));
    ShrinksBoth(v, CycleFactor(x, cfg));
    var b := Times(a, ChannelFactor(x, cfg));
    ShrinksBoth(a, ChannelFactor(x, cfg));
    var d := Times(b, shape);
    ShrinksBoth(b, shape);
    var e := Times(d, TieFactor(x));
    ShrinksBoth(d, TieFactor(x));
    ShrinksBoth(e, SeveralFactor(cfg, several));
  }

  lemma RawIsShare(x: Candidate, cfg: Config)
    ensures IsShare(Raw(x, cfg))
  {
  }

  // Main result: no missing channel, no cycle, no chain, no tie, no second culprit and no unknown ancestor
  // ever raises attribution; a tie of k origins leaves each at most 1/k.
  lemma PenaltiesNeverRaise(x: Candidate, cfg: Config, several: bool, shape: real)
    requires SoundSettings(cfg) && IsShare(shape)
    ensures IsShare(Attribution(x, cfg, several, shape))
    ensures Attribution(x, cfg, several, shape) <= Raw(x, cfg)
    ensures |x.tied| > 1 ==> Attribution(x, cfg, several, shape) <= 1.0 / |x.tied| as real
    ensures x.unknownUpstream && cfg.unknownConfidenceCap >= 0.0 ==>
      Attribution(x, cfg, several, shape) <= cfg.unknownConfidenceCap
  {
    RawIsShare(x, cfg);
    DiscountsShrink(Raw(x, cfg), x, cfg, several, shape);
    hide Raw, Discounted;
  }

  // `y` has at least the evidence of `x`: a fall no smaller, inputs no worse, a score no better.
  predicate Stronger(x: Candidate, y: Candidate) {
    && y == x.(score := y.score, base := y.base, drop := y.drop)
    && (x.drop.Some? ==> y.drop.Some? && x.drop.value <= y.drop.value)
    && (x.base.Some? ==> y.base.Some? && x.base.value <= y.base.value)
    && (x.score.Some? ==> y.score.Some? && y.score.value <= x.score.value)
  }

  lemma QuotientOrder(a: real, b: real, k: real)
    requires a <= b && k > 0.0
    ensures a / k <= b / k
  {
  }

  lemma RawRises(x: Candidate, y: Candidate, cfg: Config)
    requires Stronger(x, y)
    ensures Raw(x, cfg) <= Raw(y, cfg)
  {
    if x.base.Some? && cfg.threshold < 1.0 {
      QuotientOrder(x.base.value - cfg.threshold, y.base.value - cfg.threshold, 1.0 - cfg.threshold);
    }
    if x.score.Some? && cfg.threshold > 0.0 {
      QuotientOrder(cfg.threshold - x.score.value, cfg.threshold - y.score.value, cfg.threshold);
    }
  }

  // Main result: attribution rises with the fall and with the inputs, and falls with the score.
  lemma AttributionRises(x: Candidate, y: Candidate, cfg: Config, several: bool, shape: real)
    requires SoundSettings(cfg) && IsShare(shape) && Stronger(x, y)
    ensures Attribution(x, cfg, several, shape) <= Attribution(y, cfg, several, shape)
  {
    RawRises(x, y, cfg);
    DiscountsKeepOrder(Raw(x, cfg), Raw(y, cfg), x, y, cfg, several, shape);
    hide Raw, Discounted;
  }

  lemma DiscountsKeepOrder(v: real, w: real, x: Candidate, y: Candidate, cfg: Config, several: bool, shape: real)
    requires SoundSettings(cfg) && IsShare(shape) && Stronger(x, y) && v <= w
    ensures Discounted(v, x, cfg, several, shape) <= Discounted(w, y, cfg, several, shape)
  {
    TieIsShare(x);
    assert TieFactor(x) == TieFactor(y) && ChannelFactor(x, cfg) == ChannelFactor(y, cfg);
    hide Times, TieFactor, ChannelsIncomplete;
    TimesOrder(v, w, CycleFactor(x, cfg));
    var a, b := Times(v, CycleFactor(x, cfg)), Times(w, CycleFactor(x, cfg));
    TimesOrder(a, b, ChannelFactor(x, cfg));
    a, b := Times(a, ChannelFactor(x, cfg)), Times(b, ChannelFactor(x, cfg));
    TimesOrder(a, b, shape);
    a, b := Times(a, shape), Times(b, shape);
    TimesOrder(a, b, TieFactor(x));
    a, b := Times(a, TieFactor(x)), Times(b, TieFactor(x));
    TimesOrder(a, b, SeveralFactor(cfg, several));
  }

  // ---------- Observation ----------

  const DETERMINISTIC_OBSERVATION := 0.95
  const JUDGED_DEGRADATION_OBSERVATION := 0.7

  function Observation(x: Candidate, cfg: Config, deterministic: bool): real {
    if deterministic then DETERMINISTIC_OBSERVATION else
      var degradation :=
        if x.drop.Some? && !x.baseAssumed then Clamp(x.drop.value / 0.5) * JUDGED_DEGRADATION_OBSERVATION else 0.0;
      Clamp(Max(SeverityTerm(x, cfg), degradation))
  }

  // An assumed baseline manufactures no observation, a measured fall is worth at most a judged
  // finding, and neither reading dilutes the other.
  lemma ObservationIsEarned(x: Candidate, cfg: Config, other: Option<real>)
    ensures IsShare(Observation(x, cfg, false)) && SeverityTerm(x, cfg) <= Observation(x, cfg, false)
    ensures x.baseAssumed ==>
      Observation(x, cfg, false) == Observation(x.(drop := other), cfg, false) == SeverityTerm(x, cfg)
    ensures Observation(x, cfg, false) > SeverityTerm(x, cfg) ==>
      x.drop.Some? && !x.baseAssumed && Observation(x, cfg, false) <= JUDGED_DEGRADATION_OBSERVATION
  {
  }

  // ---------- Ceilings ----------

  function VerdictCap(v: Verdict): real {
    match v
    case CompositionFailure => 0.4
    case RootCauseExternal => 0.5
    case MultiCulprit => 0.8
    case VerificationGap => 0.6
    case TerminalDefectUnlocalized => 0.6
    case _ => 1.0
  }

  function DiversityCap(v: Verdict, singleChannel: bool): real {
    if singleChannel && v == CutPointVerdict then 0.7 else 1.0
  }

  function Headline(confidence: real, v: Verdict, singleChannel: bool): real {
    Min(Min(confidence, VerdictCap(v)), DiversityCap(v, singleChannel))
  }

  // ---------- Ties, stated as ties ----------

  // `origin` is absent for the part none of the tied origins accounts for; weights in ten-thousandths.
  datatype Hypothesis = Hypothesis(origin: Option<RunId>, weight: int)

  // Rounding to four decimals, halves to even.
  function Round4(x: real): int {
    var scaled := x * 10000.0;
    var low := scaled.Floor;
    if scaled - low as real < 0.5 || (scaled - low as real == 0.5 && low % 2 == 0) then low else low + 1
  }

  lemma Round4Near(x: real)
    ensures -0.5 <= x * 10000.0 - Round4(x) as real <= 0.5
    ensures x >= 0.0 ==> Round4(x) >= 0
  {
  }

  function TotalWeight(hs: seq<Hypothesis>): int {
    if hs == [] then 0 else TotalWeight(hs[..|hs| - 1]) + hs[|hs| - 1].weight
  }

  // No split without an attribution to share, or over a culprit without a score.
  method TieHypotheses(tie: seq<RunId>, attribution: Option<real>, score: Option<real>) returns (hs: seq<Hypothesis>)
    requires attribution.Some? ==> attribution.value >= 0.0
    ensures hs == [] <==>
      |tie| <= 1 || attribution.None? || score.None? || Round4(attribution.value) * |tie| > 10000
    ensures hs != [] ==> |hs| == |tie| + 1 && TotalWeight(hs) == 10000
    ensures forall i :: 0 <= i < |hs| ==> hs[i].weight >= 0
    ensures hs != [] ==> attribution.Some? && hs[|tie|].origin == None
    ensures hs != [] ==>
      forall i :: 0 <= i < |tie| ==> hs[i] == Hypothesis(Some(tie[i]), Round4(attribution.value))
  {
    hs := [];
    if |tie| > 1 && attribution.Some? && score.Some? {
      var share := Round4(attribution.value);
      Round4Near(attribution.value);
      var unresolved := 10000 - share * |tie|;
      if unresolved >= 0 {
        for k := 0 to |tie|
          invariant |hs| == k && TotalWeight(hs) == share * k
          invariant forall i :: 0 <= i < k ==> hs[i] == Hypothesis(Some(tie[i]), share)
        {
          Appended(hs, Hypothesis(Some(tie[k]), share));
          hs := hs + [Hypothesis(Some(tie[k]), share)];
        }
        Appended(hs, Hypothesis(None, unresolved));
        hs := hs + [Hypothesis(None, unresolved)];
      }
    }
  }

  lemma Appended(hs: seq<Hypothesis>, h: Hypothesis)
    ensures TotalWeight(hs + [h]) == TotalWeight(hs) + h.weight
  {
    assert (hs + [h])[..|hs|] == hs;
  }

  // A split that leaves each origin its share still loses the tie when rounding lifts the shares above the
  // whole: it is kept exactly when the rounded shares fit, as they do whenever half a unit each is to spare.
  lemma TieFits(attribution: real, k: nat)
    requires k > 1 && attribution >= 0.0 && attribution * 10000.0 + 0.5 <= 10000.0 / k as real
    ensures Round4(attribution) * k <= 10000
  {
    Round4Near(attribution);
    var share := Round4(attribution) as real;
    Scale(share, 10000.0 / k as real, k as real);
    assert (10000.0 / k as real) * k as real == 10000.0;
  }

  // Six origins with exactly a sixth each: rounding drops the tie from the report.
  lemma SixthsVanish()
    ensures Round4(1.0 / 6.0) == 1667 && Round4(1.0 / 6.0) * 6 > 10000
  {
    assert 1666.5 < (1.0 / 6.0) * 10000.0 < 1667.0;
  }
}
