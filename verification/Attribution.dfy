// Which evidence the confidence of a lone origin is computed from, and which defect carries the headline.

module Attribution {
  import opened Prelude
  import opened Graphs
  import opened BlameInput
  import opened Condense
  import opened Propagation
  import opened CutPoint
  import Localize
  import opened Origins
  import opened Evidence
  import opened CandidateFacts
  import opened Cascade
  import opened Soundness
  import opened Confidence

  // ---------- The evidence of a drilled culprit ----------

  // The members that scored exactly what the worst one did, when the drill had to choose by score.
  function DrillTie(inp: Input, c: Condensation, x: Candidate): seq<RunId>
    requires x.superId < |c.supers|
  {
    var members := c.supers[x.superId].members;
    var scored := KnownScores(inp, Elements(members));
    if |members| <= 1 || scored == {} || (x.sccMember.Some? && x.sccMember.value in scored) then [] else
      var equal := Filter(members, (m: RunId) => ScoreOf(inp, m) == ScoreOf(inp, Worst(inp, scored)));
      if |equal| > 1 then equal else []
  }

  function OriginTie(inp: Input, c: Condensation, x: Candidate): seq<RunId>
    requires x.superId < |c.supers|
  {
    if x.tied != [] then x.tied else DrillTie(inp, c, x)
  }

  // The lone origin as the confidence formula reads it: the drilled member's own numbers where its fall was
  // measured, its score alone where it was not, with the tie of whichever localizer chose the member.
  function SoleEvidence(inp: Input, c: Condensation, x: Candidate): Candidate
    requires x.superId < |c.supers|
  {
    var d := Drill(inp, c, x);
    var s, ch := ScoreOf(inp, d.culprit), Channels(inp, d.culprit);
    var own := if InCycle(c, x) && d.fall.Some? then
                 x.(run := d.culprit, score := s,
                    base := if s.Some? then Some(s.value + d.fall.value) else None, drop := d.fall,
                    baseAssumed := false, channels := ch.0, channelsAll := ch.1)
               else if InCycle(c, x) && x.via == Content && x.cumulativePath == [] then
                 x.(run := d.culprit, score := if s.Some? then s else x.score, channels := ch.0, channelsAll := ch.1)
               else x;
    own.(tied := OriginTie(inp, c, x))
  }

  lemma FallIsHighest(inp: Input, g: Graph, m: RunId)
    requires MeasuredFall(inp, g, m).Some?
    ensures ScoreOf(inp, m).Some? && Highest(inp, RunPreds(g, m)).Some? && MeasuredFall(inp, g, m).value >= 0.0
    ensures MeasuredFall(inp, g, m).value > 0.0 ==>
      Highest(inp, RunPreds(g, m)).value == ScoreOf(inp, m).value + MeasuredFall(inp, g, m).value
  {
    hide Highest;
  }

  // Main result: where a member's fall was measured every number is that member's own. The base is its best
  // scored predecessor, no assumed baseline is left, and base, fall and score add up.
  lemma EvidenceIsTheMembers(inp: Input, c: Condensation, x: Candidate)
    requires x.superId < |c.supers| && Drill(inp, c, x).fall.Some?
    ensures var y, m := SoleEvidence(inp, c, x), Drill(inp, c, x).culprit;
      y.run == m && y.score == ScoreOf(inp, m) && y.score.Some? && !y.baseAssumed &&
      y.drop == MeasuredFall(inp, c.graph, m) && y.base == Some(y.score.value + y.drop.value) &&
      (y.drop.value > 0.0 ==> y.base == Highest(inp, RunPreds(c.graph, m)))
  {
    hide MeasuredFall, Highest, Worst, Channels, OriginTie;
    FallIsHighest(inp, c.graph, Drill(inp, c, x).culprit);
  }

  // The worst member by score, unknown ones aside; among equals the first to finish.
  predicate IsWorstMember(inp: Input, members: seq<RunId>, w: RunId) {
    w in members && ScoreOf(inp, w).Some? &&
    forall r :: r in members && r != w && ScoreOf(inp, r).Some? ==> StepLess(RunStep(inp, w), RunStep(inp, r))
  }

  predicate NothingBefore(inp: Input, g: Graph, r: RunId) {
    Lowest(inp, RunPreds(g, r)).None?
  }

  // The confidence of a named member counts a fall although nothing before that member was scored.
  predicate Borrows(inp: Input, c: Condensation, x: Candidate)
    requires x.superId < |c.supers|
  {
    var y := SoleEvidence(inp, c, x);
    y.run != x.run && y.drop.Some? && NothingBefore(inp, c.graph, y.run)
  }

  // The exit as a whole is the origin: a sharp break, or a boundary nothing else outranks.
  ghost predicate ExitBroke(inp: Input, c: Condensation, sid: nat)
    requires sid < |c.supers| && forall i :: 0 <= i < |c.topo| ==> c.topo[i] < |c.supers|
  {
    BucketOf(inp, c, sid) == DropOrigin || BucketOf(inp, c, sid) == Propagating || Broken(inp, c) == []
  }

  lemma {:induction false} BucketedHas(inp: Input, c: Condensation, k: nat, b: Bucket, i: nat)
    requires i < k <= |c.topo| && b != NoOrigin && forall j :: 0 <= j < |c.topo| ==> c.topo[j] < |c.supers|
    requires BucketOf(inp, c, c.topo[i]) == b
    ensures exists x :: x in Bucketed(inp, c, k, b) && x.superId == c.topo[i]
  {
    hide BucketOf, EdgeCandidate, Bucketed;
    BucketedNext(inp, c, k - 1, b);
    if i < k - 1 {
      BucketedHas(inp, c, k - 1, b, i);
    } else {
      EdgeStays(inp, c, c.topo[i]);
      assert EdgeCandidate(inp, c, c.topo[i]) in [EdgeCandidate(inp, c, c.topo[i])];
    }
  }

  lemma EdgeStays(inp: Input, c: Condensation, sid: nat)
    requires sid < |c.supers| && c.supers[sid].score.Some?
    ensures EdgeCandidate(inp, c, sid).superId == sid && EdgeCandidate(inp, c, sid).sccMember.None?
    ensures EdgeCandidate(inp, c, sid).cumulativePath == [] && EdgeCandidate(inp, c, sid).run == c.supers[sid].exit
    ensures EdgeCandidate(inp, c, sid).drop.Some? <==> Base(inp, c, sid).Some?
  {
    hide UnknownUpstream, Channels, ObservedDrop, AllHealthy, Base;
  }

  lemma SharpIsListed(inp: Input, c: Condensation, sid: nat)
    requires WellFormed(inp, c) && sid < |c.supers|
    requires BucketOf(inp, c, sid) == DropOrigin || BucketOf(inp, c, sid) == Propagating
    ensures forall i :: 0 <= i < |c.topo| ==> c.topo[i] < |c.supers|
    ensures sid in SuperIds(SharpOrigins(inp, c))
  {
    TopoPosition(inp, c, sid);
    hide WellFormed, BucketOf, Bucketed;
    var i: nat :| i < |c.topo| && c.topo[i] == sid;
    BucketedHas(inp, c, |c.topo|, BucketOf(inp, c, sid), i);
    var x :| x in Bucketed(inp, c, |c.topo|, BucketOf(inp, c, sid)) && x.superId == sid;
    assert x in SharpOrigins(inp, c);
  }

  lemma EdgeBucket(inp: Input, c: Condensation, k: nat, b: Bucket, x: Candidate)
    requires k <= |c.topo| && b != NoOrigin && forall j :: 0 <= j < |c.topo| ==> c.topo[j] < |c.supers|
    requires x in Bucketed(inp, c, k, b)
    ensures x.superId < |c.supers| && BucketOf(inp, c, x.superId) == b
  {
    hide BucketOf, EdgeCandidate, Bucketed;
    if k > 0 {
      BucketedNext(inp, c, k - 1, b);
      if x in Bucketed(inp, c, k - 1, b) {
        EdgeBucket(inp, c, k - 1, b, x);
      } else {
        EdgeStays(inp, c, c.topo[k - 1]);
      }
    } else {
      NoneYet(inp, c, b);
    }
  }

  lemma NoneYet(inp: Input, c: Condensation, b: Bucket)
    requires b != NoOrigin && forall j :: 0 <= j < |c.topo| ==> c.topo[j] < |c.supers|
    ensures Bucketed(inp, c, 0, b) == []
  {
  }

  // An origin of the content channel without a decline behind it is its exit, or a member of its cycle.
  lemma ExitOrMember(inp: Input, c: Condensation, x: Candidate)
    requires WellFormed(inp, c) && Steady(inp, c) && x in ContentOrigins(inp, c) && x.cumulativePath == []
    ensures x.superId < |c.supers| && forall i :: 0 <= i < |c.topo| ==> c.topo[i] < |c.supers|
    ensures if ExitBroke(inp, c, x.superId) then EdgeLike(inp, c, x) else CycleLike(inp, c, x)
  {
    TopoInRange(inp, c);
    hide WellFormed, Bucketed, Internal, Chains, BucketOf, EdgeLike, CycleLike, Eroded, ChainReady;
    var n, sharp := |c.topo|, SharpOrigins(inp, c);
    if x in sharp {
      var b := if x in Bucketed(inp, c, n, DropOrigin) then DropOrigin else Propagating;
      EdgeBucket(inp, c, n, b, x);
      BucketedAreEdges(inp, c, n, b);
    } else if x in Internal(inp, c, n, SuperIds(sharp)) {
      InternalAreCycles(inp, c, n, SuperIds(sharp));
      InternalOutside(inp, c, n, SuperIds(sharp));
      CycleInside(inp, c, x);
      if BucketOf(inp, c, x.superId) == DropOrigin || BucketOf(inp, c, x.superId) == Propagating {
        SharpIsListed(inp, c, x.superId);
      }
      assert x in Broken(inp, c);
    } else {
      if x in Eroded(inp, c, Chains(inp, c)) {
        ErodedDeclines(inp, c, x);
      }
      EdgeBucket(inp, c, n, RecoveredBoundary, x);
      BucketedAreEdges(inp, c, n, RecoveredBoundary);
    }
  }

  lemma CycleInside(inp: Input, c: Condensation, x: Candidate)
    requires CycleLike(inp, c, x)
    ensures x.superId < |c.supers| && x.drop.None? && x.via == Content
  {
    hide UnknownUpstream, MemberQualifies, Worst, Channels, MemberRecovered, Lowest;
  }

  lemma ErodedDeclines(inp: Input, c: Condensation, x: Candidate)
    requires WellFormed(inp, c) && forall ch :: ch in Chains(inp, c) ==> ChainReady(c, ch)
    requires x in Eroded(inp, c, Chains(inp, c))
    ensures x.cumulativePath != []
  {
    ChainsReadyIff(inp, c);
    hide WellFormed, Chains;
    ErodedAreErosions(inp, c, Chains(inp, c));
    hide IsErosionChain, Eroded;
    assert ErosionLike(inp, c, x);
  }

  lemma OfContent(inp: Input, c: Condensation, a: Analysis, x: Candidate)
    requires IsAnalysis(inp, c, a) && x in a.candidates && x.via == Content
    ensures WellFormed(inp, c) && Steady(inp, c) && x in ContentOrigins(inp, c)
  {
    AnalysisIs(inp, c, a);
    TopoInRange(inp, c);
    HardAreHardLike(inp, c);
    UnshadowedIs(c, SuperIds(ContentOrigins(inp, c)), ContentOrigins(inp, c));
    hide WellFormed, Steady, ContentOrigins, HardLike, Shadowed;
    var content, det := ContentFinal(inp, c), HardOrigins(inp, c);
    if x in det {
      HardIsHard(inp, c, x);
    }
    var k :| 0 <= k < |a.candidates| && a.candidates[k] == x;
    assert k < |content| ==> x == MergeOne(RunsOf(det), content[k]);
  }

  lemma SoleIs(inp: Input, c: Condensation, x: Candidate)
    requires x.superId < |c.supers|
    ensures var y, d := SoleEvidence(inp, c, x), Drill(inp, c, x);
      if InCycle(c, x) && d.fall.Some? then y.run == d.culprit && y.drop == d.fall
      else if InCycle(c, x) && x.via == Content && x.cumulativePath == [] then y.run == d.culprit && y.drop == x.drop
      else y.run == x.run && y.drop == x.drop
  {
    hide Drill, OriginTie, Channels;
  }

  // Without a hint the drill goes to the worst member.
  lemma DrillsWorst(inp: Input, c: Condensation, x: Candidate)
    requires WellFormed(inp, c) && AtExit(c, x) && InCycle(c, x) && x.sccMember.None? && ScoreOf(inp, x.run).Some?
    ensures var d := Drill(inp, c, x);
      && d.fall == MeasuredFall(inp, c.graph, d.culprit) && ScoreOf(inp, d.culprit).Some?
      && forall w :: IsWorstMember(inp, c.supers[x.superId].members, w) <==> w == d.culprit
  {
    ExitInside(inp, c, x);
    hide WellFormed, MeasuredFall, ScoreOf, StepLess;
    var members := c.supers[x.superId].members;
    var scored := KnownScores(inp, Elements(members));
    assert forall r :: r in scored <==> r in members && ScoreOf(inp, r).Some?;
    assert x.run in scored;
    var d := Drill(inp, c, x).culprit;
    assert d == Worst(inp, scored);
    forall w | IsWorstMember(inp, members, w) ensures w == d {
      assert w in scored;
      Localize.WorstUnique(inp, scored, w);
    }
  }

  // What the confidence reads of an exit that broke as a whole.
  lemma EdgeBorrows(inp: Input, c: Condensation, x: Candidate)
    requires WellFormed(inp, c) && AtExit(c, x) && EdgeLike(inp, c, x)
    ensures Borrows(inp, c, x) <==> Base(inp, c, x.superId).Some? && exists w ::
      w != x.run && IsWorstMember(inp, c.supers[x.superId].members, w) && NothingBefore(inp, c.graph, w)
  {
    EdgeIsGrounded(inp, c, x);
    EdgeStays(inp, c, x.superId);
    SoleIs(inp, c, x);
    ExitInside(inp, c, x);
    hide WellFormed, EdgeLike, SoleEvidence, Drill, Base, IsWorstMember, MeasuredFall;
    if InCycle(c, x) {
      DrillsWorst(inp, c, x);
      FallNeedsPreds(inp, c.graph, Drill(inp, c, x).culprit);
    } else {
      OnlyMember(inp, c, x);
    }
  }

  lemma OnlyMember(inp: Input, c: Condensation, x: Candidate)
    requires x.superId < |c.supers| && x.run in c.supers[x.superId].members && !InCycle(c, x)
    ensures forall w :: IsWorstMember(inp, c.supers[x.superId].members, w) ==> w == x.run
  {
  }

  // Main result: the confidence of a named member counts the fall of another run exactly when the exit broke as a
  // whole, against a base that was there to fall from, while the worst scored member of its cycle is another run and
  // nothing before that member was scored.
  lemma BorrowedFall(inp: Input, c: Condensation, a: Analysis, x: Candidate)
    requires IsAnalysis(inp, c, a) && x in a.candidates
    ensures x.superId < |c.supers| && forall i :: 0 <= i < |c.topo| ==> c.topo[i] < |c.supers|
    ensures Borrows(inp, c, x) <==>
      && x.via == Content && x.cumulativePath == [] && ExitBroke(inp, c, x.superId) && Base(inp, c, x.superId).Some?
      && exists w ::
           w != x.run && IsWorstMember(inp, c.supers[x.superId].members, w) && NothingBefore(inp, c.graph, w)
  {
    hide *;
    AnalysisIs(inp, c, a);
    TopoInRange(inp, c);
    AnalysisPlaced(inp, c, a, x);
    SoleIs(inp, c, x);
    if x.via == Content && x.cumulativePath == [] {
      OfContent(inp, c, a, x);
      ExitOrMember(inp, c, x);
      if ExitBroke(inp, c, x.superId) {
        EdgeBorrows(inp, c, x);
      } else {
        CycleInside(inp, c, x);
        FallIsOwn(inp, c, x);
      }
    } else {
      FallIsOwn(inp, c, x);
    }
  }

  lemma FallIsOwn(inp: Input, c: Condensation, x: Candidate)
    requires x.superId < |c.supers| && (x.drop.None? || x.via != Content || x.cumulativePath != [])
    ensures !Borrows(inp, c, x)
  {
    SoleIs(inp, c, x);
    hide SoleEvidence, Drill, MeasuredFall, Lowest;
    var d := Drill(inp, c, x);
    if d.fall.Some? {
      DrillFall(inp, c, x);
      FallIsHighest(inp, c.graph, d.culprit);
      FallNeedsPreds(inp, c.graph, d.culprit);
      assert !NothingBefore(inp, c.graph, d.culprit);
    }
  }

  lemma DrillFall(inp: Input, c: Condensation, x: Candidate)
    requires x.superId < |c.supers| && Drill(inp, c, x).fall.Some?
    ensures Drill(inp, c, x).fall == MeasuredFall(inp, c.graph, Drill(inp, c, x).culprit)
  {
    hide MeasuredFall, Worst;
  }

  lemma AnalysisPlaced(inp: Input, c: Condensation, a: Analysis, x: Candidate)
    requires IsAnalysis(inp, c, a) && x in a.candidates
    ensures AtExit(c, x) && x.superId < |c.supers|
  {
    AnalysisTold(inp, c, a);
    hide IsAnalysis;
  }

  lemma CycleTie(inp: Input, c: Condensation, x: Candidate)
    requires CycleLike(inp, c, x)
    ensures x.sccMember.Some? && (x.tied != [] ==> x.sccMember.value in x.tied)
  {
    hide UnknownUpstream, MemberQualifies, Worst, Channels, MemberRecovered, Lowest;
    var sn := c.supers[x.superId];
    var fit := Qualified(inp, c.graph, sn.members);
    var m := Worst(inp, fit);
    assert m in fit && m in sn.members;
    assert m in TiedMembers(inp, c.graph, sn.members, m);
  }

  lemma OthersUntied(inp: Input, c: Condensation, x: Candidate)
    requires EdgeLike(inp, c, x) || ErosionLike(inp, c, x) || HardLike(inp, c, x)
    ensures x.tied == []
  {
    hide UnknownUpstream, BucketOf, IsErosionChain, HardFault, Channels, AllHealthy, SourceLike, ObservedDrop;
  }

  lemma DrillTieHolds(inp: Input, c: Condensation, x: Candidate)
    requires x.superId < |c.supers| && DrillTie(inp, c, x) != []
    ensures Drill(inp, c, x).culprit in DrillTie(inp, c, x)
  {
    hide Worst, MeasuredFall;
    var members := c.supers[x.superId].members;
    var scored := KnownScores(inp, Elements(members));
    var w := Worst(inp, scored);
    assert w in scored && w in members;
  }

  lemma TieOfContent(inp: Input, c: Condensation, x: Candidate)
    requires ContentLike(inp, c, x) && x.tied != []
    ensures CycleLike(inp, c, x) && x.sccMember.Some? && x.sccMember.value in x.tied
  {
    hide EdgeLike, ErosionLike, CycleLike;
    if EdgeLike(inp, c, x) || ErosionLike(inp, c, x) {
      OthersUntied(inp, c, x);
    }
    CycleTie(inp, c, x);
  }

  lemma LeastIsLeast(inp: Input, s: set<RunId>, r: RunId)
    requires r in s && ScoreOf(inp, r).Some?
    ensures ScoreOf(inp, Worst(inp, s)).Some? && ScoreOf(inp, Worst(inp, s)).value <= ScoreOf(inp, r).value
  {
  }

  // Without the hint the drill takes the worst scored member, which is in the tie exactly when it broke itself.
  lemma UnhintedTie(inp: Input, c: Condensation, y: Candidate, x: Candidate)
    requires CycleLike(inp, c, y) && y.tied != [] && x == y.(via := Both, sccMember := None)
    ensures x.superId < |c.supers|
    ensures Drill(inp, c, x).culprit in x.tied <==> MemberQualifies(inp, c.graph, Drill(inp, c, x).culprit)
  {
    var sn := c.supers[y.superId];
    var fit, scored := Qualified(inp, c.graph, sn.members), KnownScores(inp, Elements(sn.members));
    var m := Worst(inp, fit);
    hide UnknownUpstream, Worst, Channels, MemberRecovered, Lowest, MeasuredFall;
    assert x.tied == TiedMembers(inp, c.graph, sn.members, m) && m in fit;
    Localize.QualifiedIsScored(inp, c.graph, m);
    assert m in scored;
    var w := Worst(inp, scored);
    assert Drill(inp, c, x).culprit == w && w in scored && w in sn.members;
    hide MemberQualifies;
    if MemberQualifies(inp, c.graph, w) {
      assert w in fit;
      LeastIsLeast(inp, fit, w);
      LeastIsLeast(inp, scored, m);
    }
  }

  // Main result: the set a tie is reported over holds the culprit the report names, for every origin of one
  // channel. Merging drops the drill hint and keeps the tie, so an origin of both holds it exactly when the
  // worst member, to which the drill then goes, is one that broke.
  lemma TieHoldsCulprit(inp: Input, c: Condensation, x: Candidate)
    requires WellFormed(inp, c) && AtExit(c, x) && FromChannels(inp, c, x) && Story(inp, c, x)
    requires OriginTie(inp, c, x) != []
    ensures Drill(inp, c, x).culprit in OriginTie(inp, c, x) <==>
      x.via != Both || x.tied == [] || MemberQualifies(inp, c.graph, Drill(inp, c, x).culprit)
  {
    hide WellFormed, Drill, DrillTie, ContentLike, HardLike, PointsInside, BreaksInside, HardFault, MemberQualifies;
    if x.tied == [] {
      DrillTieHolds(inp, c, x);
    } else if x.via == Content {
      TieOfContent(inp, c, x);
      CycleIsInside(inp, c, x);
      DrillFacts(inp, c, x);
    } else if x.via == Deterministic {
      OthersUntied(inp, c, x) by {
        assert HardLike(inp, c, x);
      }
    } else {
      var y, z :| ContentLike(inp, c, y) && HardLike(inp, c, z) && z.run == y.run &&
        x == y.(via := Both, sccMember := None);
      TieOfContent(inp, c, y);
      UnhintedTie(inp, c, y, x);
    }
  }

  // ---------- The defect that carries the headline ----------

  const BOUNDARY_CAP := 0.6

  datatype Share = Share(kind: DefectKind, attribution: real)

  // Origination observed on both sides of the fault, unless the value was already in circulation upstream.
  function ObservedShare(cfg: Config, x: Candidate): real {
    if x.unknownUpstream then cfg.unknownConfidenceCap else DETERMINISTIC_OBSERVATION
  }

  // An origin at the edge of what was measured cannot be near-certain.
  function ContentShare(x: Candidate, raw: real): real {
    if x.baseAssumed then Min(raw, BOUNDARY_CAP) else raw
  }

  // One entry per defect the origin carries.
  function Breakdown(inp: Input, run: RunId, x: Candidate, raw: real): seq<Share> {
    (if Violations(inp, run) != [] then [Share(ContractFault, ObservedShare(inp.config, x))] else []) +
    (if x.via != Deterministic then [Share(ContentFault, ContentShare(x, raw))] else [])
  }

  predicate SawOrigination(inp: Input, run: RunId) {
    Violations(inp, run) != [] || exists s :: s in Signals(inp, run) && s.fail && s.originates
  }

  function HeadlineShare(inp: Input, run: RunId, x: Candidate, raw: real): real {
    if SawOrigination(inp, run) then ObservedShare(inp.config, x)
    else if x.baseAssumed && raw > BOUNDARY_CAP then BOUNDARY_CAP
    else raw
  }

  // The two caps happen to print the number the formula gave.
  predicate Coincides(cfg: Config, x: Candidate, raw: real) {
    if !x.unknownUpstream then !x.baseAssumed && raw == DETERMINISTIC_OBSERVATION
    else if x.baseAssumed && raw > BOUNDARY_CAP then cfg.unknownConfidenceCap == BOUNDARY_CAP
    else raw == cfg.unknownConfidenceCap
  }

  // Main result: the headline is the attribution of a defect of its own exactly when the origin carries a
  // contract breach, or a content defect and no signal that claims to have seen the fault begin. With such a
  // signal and no breach the two agree by coincidence only.
  lemma HeadlineIsCarried(inp: Input, run: RunId, x: Candidate, raw: real)
    ensures (exists e :: e in Breakdown(inp, run, x, raw) && e.attribution == HeadlineShare(inp, run, x, raw)) <==>
      Violations(inp, run) != [] ||
      (x.via != Deterministic && (!SawOrigination(inp, run) || Coincides(inp.config, x, raw)))
    ensures x.baseAssumed && !SawOrigination(inp, run) ==> HeadlineShare(inp, run, x, raw) <= BOUNDARY_CAP
  {
    hide SawOrigination;
    var all := Breakdown(inp, run, x, raw);
    if Violations(inp, run) != [] {
      assert SawOrigination(inp, run) by {
        SawBreach(inp, run);
      }
      assert all[0] in all;
    } else if x.via != Deterministic {
      assert all == [Share(ContentFault, ContentShare(x, raw))] && all[0] in all;
    }
  }

  lemma SawBreach(inp: Input, run: RunId)
    requires Violations(inp, run) != []
    ensures SawOrigination(inp, run)
  {
  }

  // Such a signal at an origin with an assumed baseline prints a headline no defect of it supports.
  lemma SignalOutrunsDefects(inp: Input, run: RunId, x: Candidate, raw: real)
    requires Violations(inp, run) == [] && SawOrigination(inp, run) && x.baseAssumed && !x.unknownUpstream
    ensures HeadlineShare(inp, run, x, raw) == DETERMINISTIC_OBSERVATION
    ensures forall e :: e in Breakdown(inp, run, x, raw) ==>
      e.attribution <= BOUNDARY_CAP < HeadlineShare(inp, run, x, raw)
  {
    hide SawOrigination;
  }
}
