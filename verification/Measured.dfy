// Against what an origin's fall is measured, and what makes a node an origin, told by edges, scores and settings.

module Measured {
  import opened Prelude
  import opened Graphs
  import opened BlameInput
  import opened RunRecord
  import opened Condense
  import opened Propagation
  import opened CutPoint
  import Localize
  import opened Origins
  import opened CandidateFacts
  import opened Soundness
  import opened Attribution

  // ---------- The inputs of a super-node ----------

  ghost predicate Feeds(c: Condensation, p: nat, s: nat) {
    p < |c.supers| && (p, s) in c.dag.edges
  }

  ghost predicate ScoredFeed(inp: Input, c: Condensation, p: nat, s: nat) {
    Feeds(c, p, s) && HasScore(inp, c.supers[p].exit)
  }

  // Nothing comes before it, and it was left unscored because it is the bare request.
  ghost predicate BareRequest(inp: Input, c: Condensation, p: nat) {
    p < |c.supers| && Because(inp, c.supers[p].exit, "payload_missing") && forall q: nat :: (q, p) !in c.dag.edges
  }

  // The best scored input; 1.0 when nothing or only the bare request comes before; unknown otherwise.
  ghost predicate BaseIs(inp: Input, c: Condensation, s: nat, base: Option<real>) {
    if exists p: nat :: ScoredFeed(inp, c, p, s) then
      && base.Some?
      && (exists p: nat :: ScoredFeed(inp, c, p, s) && ScoreIn(inp, c.supers[p].exit) == base.value)
      && forall p: nat :: ScoredFeed(inp, c, p, s) ==> ScoreIn(inp, c.supers[p].exit) <= base.value
    else if forall p: nat :: Feeds(c, p, s) ==> BareRequest(inp, c, p) then base == Some(1.0)
    else base == None
  }

  function Above(base: real, score: real): real {
    if base > score then base - score else 0.0
  }

  predicate FallIs(base: Option<real>, score: real, drop: Option<real>) {
    if base.None? then drop == None else drop == Some(Above(base.value, score))
  }

  lemma FeedExits(inp: Input, c: Condensation, s: nat)
    ensures forall r :: r in PredExits(c, s) <==> exists p: nat :: Feeds(c, p, s) && c.supers[p].exit == r
    ensures KnownScores(inp, PredExits(c, s)) == {} <==> forall p: nat :: !ScoredFeed(inp, c, p, s)
  {
    forall p: nat | Feeds(c, p, s) ensures c.supers[p].exit in PredExits(c, s) {
      assert (p, s) in c.dag.edges;
    }
    forall r ensures HasScore(inp, r) <==> ScoreOf(inp, r).Some? {
      FieldsAre(inp, r);
    }
    hide HasScore, ScoreOf;
    var known := KnownScores(inp, PredExits(c, s));
    if p: nat :| ScoredFeed(inp, c, p, s) {
      assert c.supers[p].exit in known;
    }
    if known != {} {
      var r :| r in known;
      var p: nat :| Feeds(c, p, s) && c.supers[p].exit == r;
      assert ScoredFeed(inp, c, p, s);
    }
  }

  lemma HighestFeed(inp: Input, c: Condensation, s: nat)
    requires exists p: nat :: ScoredFeed(inp, c, p, s)
    ensures Highest(inp, PredExits(c, s)).Some? && BaseIs(inp, c, s, Highest(inp, PredExits(c, s)))
  {
    FeedExits(inp, c, s);
    var preds := PredExits(c, s);
    var m := HighestRun(inp, preds);
    FieldsAre(inp, m);
    var q: nat :| Feeds(c, q, s) && c.supers[q].exit == m;
    assert ScoredFeed(inp, c, q, s);
    forall p: nat | ScoredFeed(inp, c, p, s) ensures ScoreIn(inp, c.supers[p].exit) <= ScoreIn(inp, m) {
      FieldsAre(inp, c.supers[p].exit);
      assert c.supers[p].exit in preds;
    }
    hide PredExits, HighestRun, HasScore, ScoreIn, ScoreOf, KnownScores;
  }

  lemma SourceLikeIs(inp: Input, c: Condensation, s: nat)
    requires c.dag.Valid() && forall n :: n in c.dag.nodes ==> n < |c.supers|
    ensures SourceLike(inp, c, s) <==> forall p: nat :: Feeds(c, p, s) ==> BareRequest(inp, c, p)
  {
    forall p: nat | p < |c.supers| ensures StructuralRoot(inp, c, p) <==> BareRequest(inp, c, p) {
    }
  }

  lemma DagInRange(inp: Input, c: Condensation)
    requires WellFormed(inp, c)
    ensures c.dag.Valid() && forall n :: n in c.dag.nodes ==> n < |c.supers|
  {
    WellFormedDag(inp, c);
    hide Reaches, ProperTopo, ProperSuper, Acyclic, ProperEnds, ProperMembers;
  }

  lemma BaseMeans(inp: Input, c: Condensation, s: nat)
    requires WellFormed(inp, c)
    ensures BaseIs(inp, c, s, Base(inp, c, s))
  {
    DagInRange(inp, c);
    SourceLikeIs(inp, c, s);
    FeedExits(inp, c, s);
    if exists p: nat :: ScoredFeed(inp, c, p, s) {
      HighestFeed(inp, c, s);
    }
    hide WellFormed, HighestRun, SourceLike, PredExits, Feeds, BareRequest, ScoredFeed;
  }

  // ---------- The fall of every candidate ----------

  // Measured at the exit: its score against the best input.
  ghost predicate MeasuredAtExit(inp: Input, c: Condensation, x: Candidate) {
    && HasScore(inp, x.run) && x.score == Some(ScoreIn(inp, x.run))
    && BaseIs(inp, c, x.superId, x.base) && FallIs(x.base, ScoreIn(inp, x.run), x.drop)
  }

  // Measured along a decline: from the healthy head to the end, at the first node that fell.
  predicate MeasuredAlong(inp: Input, x: Candidate) {
    var p := x.cumulativePath;
    && |p| >= 2 && x.run == p[1] && (forall r :: r in p ==> HasScore(inp, r))
    && x.score == Some(ScoreIn(inp, p[1])) && x.base == Some(ScoreIn(inp, p[0]))
    && x.drop == Some(ScoreIn(inp, p[0]) - ScoreIn(inp, p[|p| - 1]))
  }

  lemma EdgeMeasured(inp: Input, c: Condensation, x: Candidate)
    requires WellFormed(inp, c) && EdgeLike(inp, c, x)
    ensures MeasuredAtExit(inp, c, x) && x.cumulativePath == [] && x.sccMember.None?
  {
    SuperScore(inp, c, x.superId);
    BaseMeans(inp, c, x.superId);
    FieldsAre(inp, c.supers[x.superId].exit);
    hide WellFormed, Base, BaseIs, BucketOf, UnknownUpstream, Channels, ObservedDrop, AllHealthy, KnownScores;
  }

  lemma SuperScore(inp: Input, c: Condensation, s: nat)
    requires WellFormed(inp, c) && s < |c.supers|
    ensures c.supers[s].score == ScoreOf(inp, c.supers[s].exit)
  {
    Localize.SuperScore(inp, c, s);
  }

  lemma ChainScored(inp: Input, c: Condensation, ch: Chain)
    requires WellFormed(inp, c) && ChainReady(c, ch) && IsErosionChain(inp, c, ch)
    ensures |ch.runIds| == |ch.superIds| == |ch.scores|
    ensures forall k :: 0 <= k < |ch.runIds| ==>
      ch.superIds[k] < |c.supers| && ch.runIds[k] == c.supers[ch.superIds[k]].exit &&
      HasScore(inp, ch.runIds[k]) && ch.scores[k] == ScoreIn(inp, ch.runIds[k])
    ensures ch.drop == ch.scores[0] - ch.scores[|ch.scores| - 1]
  {
    var p := ch.superIds;
    assert ch == ChainOf(c, p) && IsDescent(inp, c, p);
    FallsTelescope(ch.scores);
    forall k: nat | k < |p|
      ensures p[k] < |c.supers| && ch.runIds[k] == c.supers[p[k]].exit
      ensures HasScore(inp, ch.runIds[k]) && ch.scores[k] == ScoreIn(inp, ch.runIds[k])
    {
      assert p[k] in p;
      SuperScore(inp, c, p[k]);
      FieldsAre(inp, c.supers[p[k]].exit);
      DescentScored(inp, c, p, k);
    }
    hide WellFormed, IsDescent, Declines, Falls, HasScore, ScoreIn, IsErosion, HealthyAt;
  }

  lemma StepScored(inp: Input, c: Condensation, a: nat, b: nat)
    requires WellFormed(inp, c) && StepsTo(inp, c, a, b)
    ensures b < |c.supers| && c.supers[b].score.Some?
  {
    SuperScore(inp, c, b);
    hide WellFormed;
  }

  lemma DescentScored(inp: Input, c: Condensation, p: seq<nat>, k: nat)
    requires WellFormed(inp, c) && IsDescent(inp, c, p) && HealthyAt(inp, c, p[0]) && k < |p|
    ensures p[k] < |c.supers| && c.supers[p[k]].score.Some?
  {
    assert p[k] in p;
    hide WellFormed, IsWalk, Stuck, StepsTo;
    if k > 0 {
      assert StepsTo(inp, c, p[k - 1], p[k]);
      StepScored(inp, c, p[k - 1], p[k]);
    }
  }

  lemma AlongChain(inp: Input, c: Condensation, ch: Chain, x: Candidate)
    requires ChainReady(c, ch) && x == ErosionCandidate(inp, c, ch) && |ch.runIds| == |ch.superIds| == |ch.scores|
    requires forall k :: 0 <= k < |ch.runIds| ==>
      ch.superIds[k] < |c.supers| && ch.runIds[k] == c.supers[ch.superIds[k]].exit &&
      HasScore(inp, ch.runIds[k]) && ch.scores[k] == ScoreIn(inp, ch.runIds[k])
    requires ch.drop == ch.scores[0] - ch.scores[|ch.scores| - 1]
    ensures MeasuredAlong(inp, x)
  {
    hide UnknownUpstream, Channels, HasScore, ScoreIn;
  }

  lemma ErosionMeasured(inp: Input, c: Condensation, x: Candidate)
    requires WellFormed(inp, c) && ErosionLike(inp, c, x)
    ensures MeasuredAlong(inp, x)
  {
    var ch :| ChainReady(c, ch) && IsErosionChain(inp, c, ch) && x == ErosionCandidate(inp, c, ch);
    hide *;
    ChainScored(inp, c, ch);
    AlongChain(inp, c, ch, x);
  }

  lemma CycleBare(inp: Input, c: Condensation, x: Candidate)
    requires CycleLike(inp, c, x)
    ensures x.base.None? && x.drop.None? && x.cumulativePath == [] && x.sccMember.Some?
  {
    hide UnknownUpstream, MemberQualifies, Worst, Channels, MemberRecovered, Lowest;
  }

  lemma HardUnmeasured(inp: Input, c: Condensation, x: Candidate)
    requires HardLike(inp, c, x)
    ensures x.base.None? && x.drop.None? && x.cumulativePath == []
  {
    hide HardFault, AllHealthy, Channels;
  }

  ghost predicate ContentMeasured(inp: Input, c: Condensation, x: Candidate) {
    if x.cumulativePath != [] then MeasuredAlong(inp, x)
    else MeasuredAtExit(inp, c, x) || (x.base.None? && x.drop.None?)
  }

  // Main result: an origin at its exit falls from its best scored input, or from 1.0 where nothing but the bare request
  // comes before it; an origin of a decline falls from the head to the end; a member of a cycle and a hard fault carry
  // no fall of their own.
  lemma FallsAreMeasured(inp: Input, c: Condensation, a: Analysis, x: Candidate)
    requires IsAnalysis(inp, c, a) && x in a.candidates
    ensures x.via == Deterministic ==> x.base.None? && x.drop.None?
    ensures x.cumulativePath != [] ==> x.via != Deterministic && MeasuredAlong(inp, x)
    ensures x.via == Content && x.cumulativePath == [] && x.sccMember.None? ==> MeasuredAtExit(inp, c, x)
    ensures x.via == Content && x.sccMember.Some? ==> x.base.None? && x.drop.None?
    ensures x.via == Both && x.cumulativePath == [] ==>
      MeasuredAtExit(inp, c, x) || (x.base.None? && x.drop.None?)
  {
    hide *;
    AnalysisIs(inp, c, a);
    CandidatesFromChannels(inp, c);
    Channelled(inp, c, x);
    if x.via == Content {
      ContentFalls(inp, c, x);
    } else if x.via == Deterministic {
      HardUnmeasured(inp, c, x);
    } else {
      var y, z := MergedFrom(inp, c, x);
      ContentFalls(inp, c, y);
      MergedFalls(inp, c, x, y);
    }
  }

  lemma Channelled(inp: Input, c: Condensation, x: Candidate)
    requires FromChannels(inp, c, x)
    ensures x.via == Content ==> ContentLike(inp, c, x)
    ensures x.via == Deterministic ==> HardLike(inp, c, x)
  {
    hide ContentLike, HardLike;
  }

  lemma MergedFrom(inp: Input, c: Condensation, x: Candidate) returns (y: Candidate, z: Candidate)
    requires FromChannels(inp, c, x) && x.via == Both
    ensures ContentLike(inp, c, y) && HardLike(inp, c, z) && z.run == y.run && x == y.(via := Both, sccMember := None)
  {
    hide ContentLike, HardLike;
    y, z :| ContentLike(inp, c, y) && HardLike(inp, c, z) && z.run == y.run && x == y.(via := Both, sccMember := None);
  }

  lemma MergedFalls(inp: Input, c: Condensation, x: Candidate, y: Candidate)
    requires x == y.(via := Both, sccMember := None) && ContentMeasured(inp, c, y)
    ensures ContentMeasured(inp, c, x)
    ensures x.cumulativePath != [] ==> MeasuredAlong(inp, x)
    ensures x.cumulativePath == [] ==> MeasuredAtExit(inp, c, x) || (x.base.None? && x.drop.None?)
  {
    hide BaseIs, FallIs, HasScore, ScoreIn;
  }

  lemma ContentFalls(inp: Input, c: Condensation, x: Candidate)
    requires WellFormed(inp, c) && ContentLike(inp, c, x)
    ensures ContentMeasured(inp, c, x)
    ensures x.cumulativePath != [] ==> MeasuredAlong(inp, x) && x.sccMember.None?
    ensures x.cumulativePath == [] && x.sccMember.None? ==> MeasuredAtExit(inp, c, x)
    ensures x.sccMember.Some? ==> x.base.None? && x.drop.None?
  {
    hide WellFormed, EdgeLike, ErosionLike, CycleLike, MeasuredAtExit, MeasuredAlong;
    if EdgeLike(inp, c, x) {
      EdgeMeasured(inp, c, x);
    } else if ErosionLike(inp, c, x) {
      ErosionMeasured(inp, c, x);
      ErosionIsGrounded(inp, c, x);
      AlongIsLong(inp, x);
    } else {
      CycleBare(inp, c, x);
    }
  }

  lemma AlongIsLong(inp: Input, x: Candidate)
    requires MeasuredAlong(inp, x)
    ensures x.cumulativePath != []
  {
  }

  // ---------- What makes a super-node an origin ----------

  ghost predicate FedWell(inp: Input, c: Condensation, s: nat) {
    && (exists p: nat :: ScoredFeed(inp, c, p, s))
    && forall p: nat :: ScoredFeed(inp, c, p, s) ==> ScoreIn(inp, c.supers[p].exit) >= inp.config.threshold
  }

  predicate FarBelow(inp: Input, base: real, score: real) {
    Above(base, score) >= inp.config.gapThreshold && Above(base, score) >= inp.config.minDrop
  }

  // Every scored input came in well, and the fall from the best of them is large enough by both bars.
  ghost predicate FellHere(inp: Input, c: Condensation, s: nat) {
    && s < |c.supers| && HasScore(inp, c.supers[s].exit) && FedWell(inp, c, s)
    && exists p: nat ::
         ScoredFeed(inp, c, p, s) && BaseIs(inp, c, s, Some(ScoreIn(inp, c.supers[p].exit))) &&
         FarBelow(inp, ScoreIn(inp, c.supers[p].exit), ScoreIn(inp, c.supers[s].exit))
  }

  // It says its input was flawed, and no measurement of that input says otherwise.
  ghost predicate Cleared(inp: Input, c: Condensation, s: nat) {
    s < |c.supers| && Admits(inp, c.supers[s].exit) && (!FedWell(inp, c, s) || Checks(inp, c.supers[s].exit))
  }

  // Scored under the bar, with no scored input to tell whether it fell.
  ghost predicate DimEdge(inp: Input, c: Condensation, s: nat) {
    && s < |c.supers| && HasScore(inp, c.supers[s].exit) && ScoreIn(inp, c.supers[s].exit) < inp.config.threshold
    && forall p: nat :: !ScoredFeed(inp, c, p, s)
  }

  // Something comes after, and all of it was scored and came out well.
  ghost predicate HealedAfter(inp: Input, c: Condensation, s: nat) {
    && s < |c.supers| && (exists q: nat :: Feeds(c, s, q) && q < |c.supers|)
    && forall q: nat :: Feeds(c, s, q) && q < |c.supers| ==>
         HasScore(inp, c.supers[q].exit) && ScoreIn(inp, c.supers[q].exit) >= inp.config.threshold
  }

  lemma FedWellIs(inp: Input, c: Condensation, s: nat)
    ensures FedWell(inp, c, s) <==> Healthy(inp, Lowest(inp, PredExits(c, s)))
  {
    FeedExits(inp, c, s);
    var preds := PredExits(c, s);
    forall r ensures HasScore(inp, r) <==> ScoreOf(inp, r).Some? {
      FieldsAre(inp, r);
    }
    if KnownScores(inp, preds) != {} {
      var m := LowestRun(inp, preds);
      FieldsAre(inp, m);
      var q: nat :| Feeds(c, q, s) && c.supers[q].exit == m;
      assert ScoredFeed(inp, c, q, s);
      forall p: nat | ScoredFeed(inp, c, p, s)
        ensures ScoreIn(inp, m) <= ScoreIn(inp, c.supers[p].exit) && c.supers[p].exit in preds
      {
        FieldsAre(inp, c.supers[p].exit);
      }
    }
    hide PredExits, LowestRun, HasScore, ScoreIn, ScoreOf, KnownScores;
  }

  lemma BaseUnique(inp: Input, c: Condensation, s: nat, x: Option<real>, y: Option<real>)
    requires BaseIs(inp, c, s, x) && BaseIs(inp, c, s, y)
    ensures x == y
  {
    hide HasScore, ScoreIn, Feeds, BareRequest;
  }

  lemma BestFeed(inp: Input, c: Condensation, s: nat) returns (q: nat)
    requires exists p: nat :: ScoredFeed(inp, c, p, s)
    ensures ScoredFeed(inp, c, q, s) && Highest(inp, PredExits(c, s)) == Some(ScoreIn(inp, c.supers[q].exit))
    ensures BaseIs(inp, c, s, Some(ScoreIn(inp, c.supers[q].exit)))
  {
    HighestFeed(inp, c, s);
    hide PredExits, Highest, HasScore, ScoreIn;
    var best := Highest(inp, PredExits(c, s)).value;
    q :| ScoredFeed(inp, c, q, s) && ScoreIn(inp, c.supers[q].exit) == best;
  }

  lemma FellIs(inp: Input, c: Condensation, s: nat, q: nat)
    requires s < |c.supers| && HasScore(inp, c.supers[s].exit) && FedWell(inp, c, s) && ScoredFeed(inp, c, q, s)
    requires BaseIs(inp, c, s, Some(ScoreIn(inp, c.supers[q].exit)))
    ensures FellHere(inp, c, s) <==>
      FarBelow(inp, ScoreIn(inp, c.supers[q].exit), ScoreIn(inp, c.supers[s].exit))
  {
    hide FedWell, HasScore, ScoreIn, FarBelow;
    forall p: nat | ScoredFeed(inp, c, p, s) && BaseIs(inp, c, s, Some(ScoreIn(inp, c.supers[p].exit)))
      ensures ScoreIn(inp, c.supers[p].exit) == ScoreIn(inp, c.supers[q].exit)
    {
      BaseUnique(inp, c, s, Some(ScoreIn(inp, c.supers[p].exit)), Some(ScoreIn(inp, c.supers[q].exit)));
    }
    hide BaseIs, ScoredFeed;
  }

  lemma ObservedIs(inp: Input, c: Condensation, s: nat)
    requires s < |c.supers|
    ensures c.supers[s].score.None? || !Healthy(inp, Lowest(inp, PredExits(c, s))) ==> !ObservedDrop(inp, c, s)
    ensures var best := Highest(inp, PredExits(c, s));
      c.supers[s].score.Some? && Healthy(inp, Lowest(inp, PredExits(c, s))) && best.Some? ==>
        (ObservedDrop(inp, c, s) <==> FarBelow(inp, best.value, c.supers[s].score.value))
  {
    hide Highest, Lowest, PredExits, Healthy;
  }

  lemma NotFell(inp: Input, c: Condensation, s: nat)
    requires s < |c.supers| && (!HasScore(inp, c.supers[s].exit) || !FedWell(inp, c, s))
    ensures !FellHere(inp, c, s)
  {
  }

  lemma FedBySome(inp: Input, c: Condensation, s: nat)
    requires FedWell(inp, c, s)
    ensures exists p: nat :: ScoredFeed(inp, c, p, s)
  {
  }

  lemma FellHereIs(inp: Input, c: Condensation, s: nat)
    requires WellFormed(inp, c) && s < |c.supers|
    ensures FellHere(inp, c, s) <==> ObservedDrop(inp, c, s)
  {
    hide *;
    SuperScore(inp, c, s);
    FieldsAre(inp, c.supers[s].exit);
    FedWellIs(inp, c, s);
    ObservedIs(inp, c, s);
    if HasScore(inp, c.supers[s].exit) && FedWell(inp, c, s) {
      FedBySome(inp, c, s);
      var q := BestFeed(inp, c, s);
      FellIs(inp, c, s, q);
    } else {
      NotFell(inp, c, s);
    }
  }

  lemma ClearedIs(inp: Input, c: Condensation, s: nat)
    requires s < |c.supers|
    ensures Cleared(inp, c, s) <==> Excused(inp, c, s)
  {
    FedWellIs(inp, c, s);
    FieldsAre(inp, c.supers[s].exit);
    hide FedWell, Lowest, PredExits;
  }

  lemma HealedIs(inp: Input, c: Condensation, s: nat)
    requires s < |c.supers|
    ensures HealedAfter(inp, c, s) <==> AllHealthy(inp, SuccExits(c, s))
  {
    var succs := SuccExits(c, s);
    forall r ensures HasScore(inp, r) <==> ScoreOf(inp, r).Some? {
      FieldsAre(inp, r);
    }
    forall q: nat | Feeds(c, s, q) && q < |c.supers| ensures c.supers[q].exit in succs {
      FieldsAre(inp, c.supers[q].exit);
      assert (s, q) in c.dag.edges;
    }
    forall r | r in succs ensures exists q: nat :: Feeds(c, s, q) && q < |c.supers| && c.supers[q].exit == r {
      var e :| e in c.dag.edges && e.0 == s && e.1 < |c.supers| && c.supers[e.1].exit == r;
      assert Feeds(c, s, e.1);
    }
    hide SuccExits, HasScore, ScoreIn, ScoreOf, Feeds;
    forall q: nat | Feeds(c, s, q) && q < |c.supers| && HasScore(inp, c.supers[q].exit)
      ensures ScoreIn(inp, c.supers[q].exit) == ScoreOf(inp, c.supers[q].exit).value
    {
      FieldsAre(inp, c.supers[q].exit);
    }
  }

  // Main result: the four verdicts on a super-node, by its scores, its inputs and its successors.
  lemma BucketMeans(inp: Input, c: Condensation, s: nat)
    requires WellFormed(inp, c) && s < |c.supers|
    ensures BucketOf(inp, c, s) == DropOrigin <==> !Cleared(inp, c, s) && FellHere(inp, c, s)
    ensures BucketOf(inp, c, s) == Propagating <==>
      !Cleared(inp, c, s) && DimEdge(inp, c, s) && !HealedAfter(inp, c, s)
    ensures BucketOf(inp, c, s) == RecoveredBoundary <==>
      !Cleared(inp, c, s) && DimEdge(inp, c, s) && HealedAfter(inp, c, s)
  {
    SuperScore(inp, c, s);
    FieldsAre(inp, c.supers[s].exit);
    FellHereIs(inp, c, s);
    ClearedIs(inp, c, s);
    HealedIs(inp, c, s);
    FeedExits(inp, c, s);
    DimIs(inp, c, s);
    hide WellFormed, FellHere, Cleared, HealedAfter, ObservedDrop, Excused, AllHealthy, PredExits, SuccExits, DimEdge,
      KnownScores;
  }

  lemma DimIs(inp: Input, c: Condensation, s: nat)
    requires WellFormed(inp, c) && s < |c.supers|
    ensures DimEdge(inp, c, s) <==>
      c.supers[s].score.Some? && c.supers[s].score.value < inp.config.threshold && Lowest(inp, PredExits(c, s)).None?
    ensures FellHere(inp, c, s) ==> !DimEdge(inp, c, s) && c.supers[s].score.Some?
    ensures ObservedDrop(inp, c, s) ==> Lowest(inp, PredExits(c, s)).Some?
  {
    SuperScore(inp, c, s);
    FieldsAre(inp, c.supers[s].exit);
    FeedExits(inp, c, s);
    FellHereIs(inp, c, s);
    FedWellIs(inp, c, s);
    hide WellFormed, PredExits, BaseIs, FarBelow, LowestRun, HighestRun, KnownScores;
  }

  // ---------- What makes a member of a cycle an origin ----------

  predicate ScoredSource(inp: Input, g: Graph, q: RunId, m: RunId) {
    (q, m) in g.edges && HasScore(inp, q)
  }

  ghost predicate BestSource(inp: Input, g: Graph, q: RunId, m: RunId) {
    ScoredSource(inp, g, q, m) && forall p :: ScoredSource(inp, g, p, m) ==> ScoreIn(inp, p) <= ScoreIn(inp, q)
  }

  // Something in the record comes after, and all of that was scored and came out well.
  ghost predicate MemberHealed(inp: Input, g: Graph, m: RunId) {
    && (exists q :: (m, q) in g.edges && q in inp.scores)
    && forall q :: (m, q) in g.edges && q in inp.scores ==> HasScore(inp, q) && ScoreIn(inp, q) >= inp.config.threshold
  }

  // With scored inputs it must have fallen from the best of them, all good; without, be under the bar and not healed.
  ghost predicate MemberBroke(inp: Input, g: Graph, m: RunId) {
    && HasScore(inp, m) && !Admits(inp, m)
    && if exists q :: ScoredSource(inp, g, q, m) then
         && (forall q :: ScoredSource(inp, g, q, m) ==> ScoreIn(inp, q) >= inp.config.threshold)
         && exists q :: BestSource(inp, g, q, m) && FarBelow(inp, ScoreIn(inp, q), ScoreIn(inp, m))
       else ScoreIn(inp, m) < inp.config.threshold && !MemberHealed(inp, g, m)
  }

  lemma SourcesScored(inp: Input, g: Graph, m: RunId)
    ensures forall q :: q in KnownScores(inp, RunPreds(g, m)) <==> ScoredSource(inp, g, q, m)
  {
    forall q ensures q in KnownScores(inp, RunPreds(g, m)) <==> ScoredSource(inp, g, q, m) {
      FieldsAre(inp, q);
      if ScoredSource(inp, g, q, m) {
        assert (q, m) in g.edges;
      }
    }
  }

  lemma MemberHealedIs(inp: Input, g: Graph, m: RunId)
    ensures MemberHealed(inp, g, m) <==> MemberRecovered(inp, g, m)
  {
    var after := set s | s in RunSuccs(g, m) && s in inp.scores;
    forall q ensures q in after <==> (m, q) in g.edges && q in inp.scores {
      if (m, q) in g.edges && q in inp.scores {
        assert (m, q) in g.edges && q in RunSuccs(g, m);
      }
    }
    forall q ensures HasScore(inp, q) <==> ScoreOf(inp, q).Some? {
      FieldsAre(inp, q);
    }
    hide HasScore, ScoreIn, ScoreOf, RunSuccs;
    forall q | HasScore(inp, q) ensures ScoreIn(inp, q) == ScoreOf(inp, q).value {
      FieldsAre(inp, q);
    }
    assert after == {} <==> !exists q :: (m, q) in g.edges && q in inp.scores;
  }

  lemma SourceExtremes(inp: Input, g: Graph, m: RunId) returns (low: RunId, high: RunId)
    requires KnownScores(inp, RunPreds(g, m)) != {}
    ensures ScoredSource(inp, g, low, m) && BestSource(inp, g, high, m)
    ensures Lowest(inp, RunPreds(g, m)) == Some(ScoreIn(inp, low))
    ensures Highest(inp, RunPreds(g, m)) == Some(ScoreIn(inp, high))
    ensures forall q :: ScoredSource(inp, g, q, m) ==> ScoreIn(inp, low) <= ScoreIn(inp, q) <= ScoreIn(inp, high)
  {
    SourcesScored(inp, g, m);
    var preds := RunPreds(g, m);
    low, high := LowestRun(inp, preds), HighestRun(inp, preds);
    FieldsAre(inp, low);
    FieldsAre(inp, high);
    assert low in KnownScores(inp, preds) && high in KnownScores(inp, preds);
    forall q | ScoredSource(inp, g, q, m)
      ensures ScoreIn(inp, low) <= ScoreIn(inp, q) <= ScoreIn(inp, high)
    {
      FieldsAre(inp, q);
      assert q in KnownScores(inp, preds);
    }
    hide HasScore, ScoreIn, ScoreOf, LowestRun, HighestRun, RunPreds;
  }

  // Main result: which members of a cycle count as breaks of their own.
  lemma MemberMeans(inp: Input, g: Graph, m: RunId)
    ensures MemberQualifies(inp, g, m) <==> MemberBroke(inp, g, m)
  {
    FieldsAre(inp, m);
    MemberHealedIs(inp, g, m);
    SourcesScored(inp, g, m);
    var preds := RunPreds(g, m);
    if KnownScores(inp, preds) != {} {
      var low, high := SourceExtremes(inp, g, m);
      hide HasScore, ScoreOf, ScoreIn, LowestRun, HighestRun, RunPreds, MemberRecovered, MemberHealed, KnownScores,
        Lowest, Highest, ScoredSource;
      assert ScoredSource(inp, g, high, m);
      forall q | BestSource(inp, g, q, m) ensures ScoreIn(inp, q) == ScoreIn(inp, high) {
      }
    } else {
      hide HasScore, ScoreOf, ScoreIn, RunPreds, MemberRecovered, MemberHealed, ScoredSource;
    }
  }
}
