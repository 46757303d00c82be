// What the localizer's candidates guarantee to the cascade that reads them.

module CandidateFacts {
  import opened Prelude
  import opened Graphs
  import opened BlameInput
  import opened Condense
  import opened Propagation
  import opened CutPoint
  import opened Localize
  import opened Origins

  predicate Low(inp: Input, r: RunId) {
    ScoreOf(inp, r).Some? && ScoreOf(inp, r).value < inp.config.threshold
  }

  predicate InCycle(c: Condensation, x: Candidate) {
    x.superId < |c.supers| && |c.supers[x.superId].members| > 1
  }

  // The member a cycle candidate points at qualified as a break of its own.
  ghost predicate PointsInside(inp: Input, c: Condensation, x: Candidate) {
    && InCycle(c, x) && x.sccMember.Some? && x.sccMember.value in c.supers[x.superId].members
    && MemberQualifies(inp, c.graph, x.sccMember.value) && x.drop.None? && x.cumulativePath == []
  }

  // The exit was scored, and either its fall was measured or it is below the threshold.
  predicate Grounded(inp: Input, x: Candidate) {
    x.sccMember.None? && ScoreOf(inp, x.run).Some? && (x.drop.Some? || Low(inp, x.run))
  }

  lemma EdgeIsGrounded(inp: Input, c: Condensation, x: Candidate)
    requires WellFormed(inp, c) && EdgeLike(inp, c, x)
    ensures Grounded(inp, x) && x.via == Content && x.cumulativePath == []
  {
    SuperScore(inp, c, x.superId);
    hide WellFormed, AllHealthy, InputFlawed, IsVerifier, UnknownUpstream, SourceLike;
  }

  lemma ErosionIsGrounded(inp: Input, c: Condensation, x: Candidate)
    requires WellFormed(inp, c) && ErosionLike(inp, c, x)
    ensures Grounded(inp, x) && x.via == Content && x.drop.Some? && x.sccMember.None? && !x.recovered
  {
    hide WellFormed, UnknownUpstream, Declines, InRange, IsErosion, HealthyAt, IsWalk, Stuck;
    var ch :| ChainReady(c, ch) && IsErosionChain(inp, c, ch) && x == ErosionCandidate(inp, c, ch);
    assert StepsTo(inp, c, ch.superIds[0], ch.superIds[1]);
    NextIsScored(inp, c, ch.superIds[0], x.run);
  }

  lemma CycleIsInside(inp: Input, c: Condensation, x: Candidate)
    requires CycleLike(inp, c, x)
    ensures PointsInside(inp, c, x) && x.via == Content
  {
    hide UnknownUpstream, MemberQualifies, Worst, Channels, MemberRecovered, Lowest;
    var fit := Qualified(inp, c.graph, c.supers[x.superId].members);
    assert x.sccMember == Some(Worst(inp, fit));
    assert Worst(inp, fit) in fit;
  }

  lemma HardIsBare(inp: Input, c: Condensation, x: Candidate)
    requires HardLike(inp, c, x)
    ensures x.via == Deterministic && x.drop.None? && x.cumulativePath == [] && x.sccMember.None?
    ensures x.superId < |c.supers| && x.run == c.supers[x.superId].exit && HardFault(inp, c, x.superId)
  {
    hide HardFault, AllHealthy, Channels;
  }

  // ---------- One super-node, one story ----------

  lemma {:induction false} InternalOutside(inp: Input, c: Condensation, k: nat, already: set<nat>)
    requires k <= |c.topo| && forall i :: 0 <= i < |c.topo| ==> c.topo[i] < |c.supers|
    ensures forall x :: x in Internal(inp, c, k, already) ==> x.superId !in already
  {
    if k > 0 {
      InternalOutside(inp, c, k - 1, already);
      InternalAt(inp, c, c.topo[k - 1]);
      hide InternalCandidate;
    }
  }

  lemma InternalAt(inp: Input, c: Condensation, sid: nat)
    requires sid < |c.supers|
    ensures InternalCandidate(inp, c, sid).Some? ==> InternalCandidate(inp, c, sid).value.superId == sid
  {
    hide UnknownUpstream, Qualified, Worst, Channels, MemberRecovered, Lowest, TiedMembers;
  }

  lemma SharpOrCycle(inp: Input, c: Condensation, x: Candidate, y: Candidate)
    requires WellFormed(inp, c) && forall i :: 0 <= i < |c.topo| ==> c.topo[i] < |c.supers|
    requires x in SharpOrigins(inp, c) + Internal(inp, c, |c.topo|, SuperIds(SharpOrigins(inp, c)))
    requires y in SharpOrigins(inp, c) + Internal(inp, c, |c.topo|, SuperIds(SharpOrigins(inp, c)))
    requires x.superId == y.superId
    ensures x == y
  {
    var sharp := SharpOrigins(inp, c);
    BucketedAreEdges(inp, c, |c.topo|, DropOrigin);
    BucketedAreEdges(inp, c, |c.topo|, Propagating);
    InternalAreCycles(inp, c, |c.topo|, SuperIds(sharp));
    InternalOutside(inp, c, |c.topo|, SuperIds(sharp));
    hide WellFormed, Bucketed, Internal, EdgeCandidate, InternalCandidate, BucketOf;
    assert forall z :: z in sharp ==> EdgeLike(inp, c, z) && z.superId in SuperIds(sharp);
  }

  // Two origins at one super-node are the same origin, or both are erosions that enter there.
  lemma SharedOrigin(inp: Input, c: Condensation, x: Candidate, y: Candidate)
    requires WellFormed(inp, c) && Steady(inp, c)
    requires x in ContentOrigins(inp, c) && y in ContentOrigins(inp, c) && x.superId == y.superId
    ensures x == y || (ErosionLike(inp, c, x) && ErosionLike(inp, c, y))
  {
    TopoInRange(inp, c);
    ChainsAreErosions(inp, c, 0, {});
    var sharp := SharpOrigins(inp, c);
    var found := sharp + Internal(inp, c, |c.topo|, SuperIds(sharp));
    BucketedAreEdges(inp, c, |c.topo|, RecoveredBoundary);
    hide WellFormed, SharpOrigins, Internal, Bucketed, IsErosionChain, ChainReady, Eroded, ChainsFrom, EdgeCandidate,
      BucketOf;
    if found != [] {
      SharpOrCycle(inp, c, x, y);
    } else {
      ErodedAreErosions(inp, c, Chains(inp, c));
      hide ErosionLike;
      if Eroded(inp, c, Chains(inp, c)) == [] {
        assert EdgeLike(inp, c, x) && EdgeLike(inp, c, y);
      }
    }
  }

  // Every candidate comes from one of the two lists.
  ghost predicate FromContent(inp: Input, c: Condensation, x: Candidate, y: Candidate)
    requires WellFormed(inp, c) && Steady(inp, c)
    requires forall i :: 0 <= i < |c.topo| ==> c.topo[i] < |c.supers|
  {
    && y in ContentOrigins(inp, c) && y.run in RunsOf(ContentFinal(inp, c))
    && x == MergeOne(RunsOf(HardOrigins(inp, c)), y) && ContentLike(inp, c, y)
  }

  ghost predicate FromHard(inp: Input, c: Condensation, x: Candidate)
    requires WellFormed(inp, c) && Steady(inp, c)
    requires forall i :: 0 <= i < |c.topo| ==> c.topo[i] < |c.supers|
  {
    x in HardOrigins(inp, c) && x.run !in RunsOf(ContentFinal(inp, c)) && HardLike(inp, c, x)
  }

  lemma CandidateSource(inp: Input, c: Condensation, x: Candidate)
    requires WellFormed(inp, c) && Steady(inp, c)
    ensures forall i :: 0 <= i < |c.topo| ==> c.topo[i] < |c.supers|
    ensures x in Candidates(inp, c) ==> FromHard(inp, c, x) || exists y :: FromContent(inp, c, x, y)
  {
    TopoInRange(inp, c);
    HardAreHardLike(inp, c);
    OriginsAreContentLike(inp, c);
    hide WellFormed, Chains, ContentOrigins, HardOrigins, Shadowed, ChainReady, ContentLike, HardLike, MergeOne, RunsOf;
    var content, det := ContentFinal(inp, c), HardOrigins(inp, c);
    UnshadowedIs(c, SuperIds(ContentOrigins(inp, c)), ContentOrigins(inp, c));
    if x in Candidates(inp, c) && !(x in det && x.run !in RunsOf(content)) {
      var i :| 0 <= i < |content| && x == MergeOne(RunsOf(det), content[i]);
      assert content[i] in content;
      Named(content, i);
      assert FromContent(inp, c, x, content[i]);
    }
  }

  lemma Named(xs: seq<Candidate>, i: nat)
    requires i < |xs|
    ensures xs[i].run in RunsOf(xs)
  {
    assert xs[i] in xs;
  }

  lemma HardFacts(inp: Input, c: Condensation, x: Candidate)
    requires WellFormed(inp, c) && Steady(inp, c)
    requires (forall i :: 0 <= i < |c.topo| ==> c.topo[i] < |c.supers|) && FromHard(inp, c, x)
    ensures x.via == Deterministic && x.drop.None? && x.cumulativePath == [] && x.sccMember.None?
    ensures x.superId < |c.supers| && x.run == c.supers[x.superId].exit && HardFault(inp, c, x.superId)
  {
    hide HardOrigins, ContentFinal, Chains, WellFormed;
    HardIsBare(inp, c, x);
  }

  lemma ContentFacts(inp: Input, c: Condensation, x: Candidate, y: Candidate)
    requires WellFormed(inp, c) && Steady(inp, c)
    requires (forall i :: 0 <= i < |c.topo| ==> c.topo[i] < |c.supers|) && FromContent(inp, c, x, y)
    ensures x == y.(via := Both, sccMember := None) || x == y
    ensures x == y <==> x.run !in RunsOf(HardOrigins(inp, c))
    ensures y.via == Content && x.run in RunsOf(ContentFinal(inp, c)) && y in ContentOrigins(inp, c)
    ensures x.superId < |c.supers| && x.run == c.supers[x.superId].exit
  {
    hide HardOrigins, ContentFinal, Chains, WellFormed, ContentLike;
    ContentIsContent(inp, c, y);
    ContentInRange(inp, c, y);
  }

  // Main result: candidates at one super-node agree on everything the cascade decides by.
  lemma SameSuperAgrees(inp: Input, c: Condensation, x: Candidate, y: Candidate)
    requires WellFormed(inp, c) && Steady(inp, c)
    requires x in Candidates(inp, c) && y in Candidates(inp, c) && x.superId == y.superId
    ensures x.run == y.run && x.via == y.via && x.sccMember == y.sccMember && x.drop.Some? == y.drop.Some?
    ensures x.via != Deterministic && x != y ==> x.drop.Some?
  {
    hide *;
    CandidateSource(inp, c, x);
    CandidateSource(inp, c, y);
    if FromHard(inp, c, x) && FromHard(inp, c, y) {
      HardFacts(inp, c, x);
      HardFacts(inp, c, y);
    } else if FromHard(inp, c, x) {
      var y1 :| FromContent(inp, c, y, y1);
      ContentFacts(inp, c, y, y1);
      HardFacts(inp, c, x);
      OneChannel(inp, c, x, y);
    } else if FromHard(inp, c, y) {
      var x1 :| FromContent(inp, c, x, x1);
      ContentFacts(inp, c, x, x1);
      HardFacts(inp, c, y);
      OneChannel(inp, c, y, x);
    } else {
      var x1 :| FromContent(inp, c, x, x1);
      var y1 :| FromContent(inp, c, y, y1);
      ContentFacts(inp, c, x, x1);
      ContentFacts(inp, c, y, y1);
      TwoErosions(inp, c, x, y, x1, y1);
    }
  }

  // A run the content channel named is not named again by the other one.
  lemma OneChannel(inp: Input, c: Condensation, x: Candidate, y: Candidate)
    requires WellFormed(inp, c) && Steady(inp, c)
    requires (forall i :: 0 <= i < |c.topo| ==> c.topo[i] < |c.supers|) && FromHard(inp, c, x)
    requires FromHard(inp, c, y) || exists z :: FromContent(inp, c, y, z)
    ensures x.run == y.run ==> FromHard(inp, c, y)
  {
    if !FromHard(inp, c, y) {
      hide HardOrigins, ContentFinal, Chains, WellFormed, HardLike, ContentLike;
      var z :| FromContent(inp, c, y, z);
    }
  }

  lemma TwoErosions(inp: Input, c: Condensation, x: Candidate, y: Candidate, x1: Candidate, y1: Candidate)
    requires WellFormed(inp, c) && Steady(inp, c)
    requires forall i :: 0 <= i < |c.topo| ==> c.topo[i] < |c.supers|
    requires FromContent(inp, c, x, x1) && FromContent(inp, c, y, y1) && x.run == y.run && x.superId == y.superId
    ensures x.sccMember == y.sccMember && x.drop.Some? == y.drop.Some? && (x != y ==> x.drop.Some?) && x.via == y.via
  {
    hide *;
    ContentFacts(inp, c, x, x1);
    ContentFacts(inp, c, y, y1);
    SharedOrigin(inp, c, x1, y1);
    if x1 != y1 {
      ErosionIsGrounded(inp, c, x1);
      ErosionIsGrounded(inp, c, y1);
    }
  }

  // ---------- What the cascade may rely on ----------

  // A hard origin inside a cycle that some member also broke in: the exit itself fell from nothing measured.
  ghost predicate BreaksInside(inp: Input, c: Condensation, x: Candidate) {
    && InCycle(c, x) && x.drop.None? && x.cumulativePath == []
    && exists m :: m in c.supers[x.superId].members && MemberQualifies(inp, c.graph, m)
  }

  // A candidate of the content channel has evidence of its own; of the hard channel, a hard fault; of both, both.
  ghost predicate Story(inp: Input, c: Condensation, x: Candidate) {
    x.superId < |c.supers| &&
    match x.via
    case Content => Grounded(inp, x) || PointsInside(inp, c, x)
    case Deterministic => x.drop.None? && x.cumulativePath == [] && x.sccMember.None? && HardFault(inp, c, x.superId)
    case Both => x.sccMember.None? && HardFault(inp, c, x.superId) && (Grounded(inp, x) || BreaksInside(inp, c, x))
  }

  lemma ContentStory(inp: Input, c: Condensation, y: Candidate)
    requires WellFormed(inp, c) && ContentLike(inp, c, y)
    ensures Grounded(inp, y) || PointsInside(inp, c, y)
  {
    hide WellFormed, EdgeLike, ErosionLike, CycleLike, Grounded, PointsInside;
    if EdgeLike(inp, c, y) {
      EdgeIsGrounded(inp, c, y);
    } else if ErosionLike(inp, c, y) {
      ErosionIsGrounded(inp, c, y);
    } else {
      CycleIsInside(inp, c, y);
    }
  }

  lemma CandidateStory(inp: Input, c: Condensation, x: Candidate)
    requires WellFormed(inp, c) && FromChannels(inp, c, x)
    ensures Story(inp, c, x)
  {
    hide WellFormed, ContentLike, HardLike, HardFault, MemberQualifies, ScoreOf;
    if x.via == Content {
      ContentStory(inp, c, x);
      ContentInRange(inp, c, x);
    } else if x.via == Deterministic {
      HardIsBare(inp, c, x);
    } else {
      var y, z :| ContentLike(inp, c, y) && HardLike(inp, c, z) && z.run == y.run &&
        x == y.(via := Both, sccMember := None);
      ContentStory(inp, c, y);
      ContentInRange(inp, c, y);
      HardIsBare(inp, c, z);
      ExitsLocated(inp, c, y.superId);
      ExitsLocated(inp, c, z.superId);
    }
  }

  lemma CandidatePlaced(inp: Input, c: Condensation, x: Candidate)
    requires WellFormed(inp, c) && FromChannels(inp, c, x)
    ensures x.superId < |c.supers| && x.run == c.supers[x.superId].exit
    ensures x.run in c.superOf && c.superOf[x.run] == x.superId
  {
    hide WellFormed, ContentLike, HardLike, HardFault;
    if HardLike(inp, c, x) {
      HardIsBare(inp, c, x);
    } else if ContentLike(inp, c, x) {
      ContentInRange(inp, c, x);
    } else {
      var y, z :| ContentLike(inp, c, y) && HardLike(inp, c, z) && z.run == y.run &&
        x == y.(via := Both, sccMember := None);
      ContentInRange(inp, c, y);
    }
    ExitsLocated(inp, c, x.superId);
  }

  // Main result: an unknown score is never an origin of the content channel on its own. Only a scored member of
  // its cycle that broke can bring it in, and no fall is claimed for it.
  lemma UnknownIsNoOrigin(inp: Input, c: Condensation, a: Analysis, x: Candidate)
    requires IsAnalysis(inp, c, a) && x in a.candidates && ScoreOf(inp, x.run).None?
    ensures x.drop.None? && x.cumulativePath == []
    ensures x.via != Deterministic ==>
      InCycle(c, x) && exists m :: m in c.supers[x.superId].members && MemberQualifies(inp, c.graph, m)
    ensures x.via == Content ==> x.sccMember.Some? && ScoreOf(inp, x.sccMember.value).Some?
  {
    hide *;
    AnalysisIs(inp, c, a);
    CandidatesFromChannels(inp, c);
    CandidateStory(inp, c, x);
    UnknownStory(inp, c, x);
  }

  lemma UnknownStory(inp: Input, c: Condensation, x: Candidate)
    requires Story(inp, c, x) && ScoreOf(inp, x.run).None?
    ensures x.drop.None? && x.cumulativePath == []
    ensures x.via != Deterministic ==>
      InCycle(c, x) && exists m :: m in c.supers[x.superId].members && MemberQualifies(inp, c.graph, m)
    ensures x.via == Content ==> x.sccMember.Some? && ScoreOf(inp, x.sccMember.value).Some?
  {
    hide HardFault, Lowest, BrokeHere, MemberRecovered;
  }

  lemma AnalysisIs(inp: Input, c: Condensation, a: Analysis)
    requires IsAnalysis(inp, c, a)
    ensures WellFormed(inp, c) && Steady(inp, c) && a.candidates == Candidates(inp, c)
  {
    hide WellFormed, Steady, Candidates, SomethingBroke;
  }

  // A recovery was observed, so something in the run was scored.
  lemma RecoveryIsMeasured(inp: Input, c: Condensation, x: Candidate) returns (r: RunId)
    requires WellFormed(inp, c) && FromChannels(inp, c, x) && x.recovered
    ensures r in c.graph.nodes && ScoreOf(inp, r).Some?
  {
    hide *;
    RecoverySource(inp, c, x);
    if SuccessorsHealthy(inp, c, x.superId) {
      r := SuccessorScored(inp, c, x.superId);
    } else {
      var m :| MemberRecovered(inp, c.graph, m);
      r := MemberSuccessorScored(inp, c, m);
    }
  }

  ghost predicate SuccessorsHealthy(inp: Input, c: Condensation, sid: nat) {
    AllHealthy(inp, SuccExits(c, sid))
  }

  lemma RecoverySource(inp: Input, c: Condensation, x: Candidate)
    requires WellFormed(inp, c) && FromChannels(inp, c, x) && x.recovered
    ensures SuccessorsHealthy(inp, c, x.superId) || exists m :: MemberRecovered(inp, c.graph, m)
  {
    hide WellFormed, HardFault, ContentLike, AllHealthy, Channels;
    if x.via == Content {
      ContentRecovery(inp, c, x);
    } else if x.via == Both {
      var y, z :| ContentLike(inp, c, y) && HardLike(inp, c, z) && z.run == y.run &&
        x == y.(via := Both, sccMember := None);
      ContentRecovery(inp, c, y);
    }
  }

  lemma ContentRecovery(inp: Input, c: Condensation, y: Candidate)
    requires WellFormed(inp, c) && ContentLike(inp, c, y) && y.recovered
    ensures SuccessorsHealthy(inp, c, y.superId) || exists m :: MemberRecovered(inp, c.graph, m)
  {
    hide WellFormed, ErosionLike, CycleLike, AllHealthy, Channels, UnknownUpstream;
    if ErosionLike(inp, c, y) {
      ErosionIsGrounded(inp, c, y);
    } else if CycleLike(inp, c, y) {
      CycleRecovery(inp, c, y);
    }
  }

  lemma CycleRecovery(inp: Input, c: Condensation, y: Candidate)
    requires CycleLike(inp, c, y) && y.recovered
    ensures y.sccMember.Some? && MemberRecovered(inp, c.graph, y.sccMember.value)
  {
    hide UnknownUpstream, Worst, Qualified, Channels, Lowest, MemberRecovered, TiedMembers;
  }

  lemma SuccessorScored(inp: Input, c: Condensation, sid: nat) returns (r: RunId)
    requires WellFormed(inp, c) && SuccessorsHealthy(inp, c, sid)
    ensures r in c.graph.nodes && ScoreOf(inp, r).Some?
  {
    r :| r in SuccExits(c, sid);
    var e :| e in c.dag.edges && e.0 == sid && e.1 < |c.supers| && c.supers[e.1].exit == r;
    ExitsLocated(inp, c, e.1);
    hide Reaches, ProperTopo, ProperSuper, Acyclic;
  }

  lemma MemberSuccessorScored(inp: Input, c: Condensation, m: RunId) returns (r: RunId)
    requires WellFormed(inp, c) && MemberRecovered(inp, c.graph, m)
    ensures r in c.graph.nodes && ScoreOf(inp, r).Some?
  {
    hide Reaches, ProperTopo, ProperSuper, ProperMembers, Acyclic;
    r :| r in RunSuccs(c.graph, m) && r in inp.scores;
  }

  // ---------- Hard origins name each super-node once ----------

  ghost predicate SupersDiffer(cs: seq<Candidate>) {
    forall i, j :: 0 <= i < j < |cs| ==> cs[i].superId != cs[j].superId
  }

  lemma {:induction false} PrimariesDiffer(inp: Input, c: Condensation, k: nat)
    requires k <= |c.topo| && Distinct(c.topo) && forall i :: 0 <= i < |c.topo| ==> c.topo[i] < |c.supers|
    ensures SupersDiffer(Primaries(inp, c, k))
    ensures forall x :: x in Primaries(inp, c, k) ==> x.superId in c.topo[..k]
  {
    if k > 0 {
      PrimariesDiffer(inp, c, k - 1);
      hide PrimaryActor, Channels;
      assert c.topo[..k] == c.topo[..k - 1] + [c.topo[k - 1]];
      var before := Primaries(inp, c, k - 1);
      assert forall i :: 0 <= i < |before| ==> before[i] in before;
    }
  }

  lemma {:induction false} FilterDiffers(cs: seq<Candidate>, keep: Candidate -> bool)
    requires SupersDiffer(cs)
    ensures SupersDiffer(Filter(cs, keep))
  {
    if cs != [] {
      FilterDiffers(cs[1..], keep);
      var rest := Filter(cs[1..], keep);
      forall j | 0 <= j < |rest| ensures rest[j].superId != cs[0].superId {
        assert rest[j] in cs[1..];
      }
    }
  }

  lemma HardOriginsDiffer(inp: Input, c: Condensation)
    requires WellFormed(inp, c)
    ensures forall i :: 0 <= i < |c.topo| ==> c.topo[i] < |c.supers|
    ensures SupersDiffer(HardOrigins(inp, c))
  {
    TopoInRange(inp, c);
    hide ProperMembers, ProperSuper, Reaches, Acyclic, PrimaryActor, SecondaryActor;
    PrimariesDiffer(inp, c, |c.topo|);
  }

  // Main result: only erosions can name one super-node twice.
  lemma RepeatsAreContent(inp: Input, c: Condensation, i: nat, j: nat)
    requires WellFormed(inp, c) && Steady(inp, c)
    requires i < j < |Candidates(inp, c)| && Candidates(inp, c)[i].superId == Candidates(inp, c)[j].superId
    ensures Candidates(inp, c)[i].via != Deterministic
  {
    HardOriginsDiffer(inp, c);
    hide WellFormed, Chains, HardOrigins, ContentFinal, ChainReady;
    var xs := Candidates(inp, c);
    var content, det := ContentFinal(inp, c), HardOrigins(inp, c);
    var own := Filter(det, (x: Candidate) => x.run !in RunsOf(content));
    FilterDiffers(det, (x: Candidate) => x.run !in RunsOf(content));
    if i < |content| {
      assert xs[i] == MergeOne(RunsOf(det), content[i]);
      ContentOnly(inp, c, content[i]);
    }
  }

  lemma ContentOnly(inp: Input, c: Condensation, y: Candidate)
    requires WellFormed(inp, c) && Steady(inp, c) && y in ContentFinal(inp, c)
    ensures y.via == Content
  {
    OriginsAreContentLike(inp, c);
    UnshadowedIs(c, SuperIds(ContentOrigins(inp, c)), ContentOrigins(inp, c));
    hide WellFormed, Chains, ContentOrigins, ContentLike;
    ContentIsContent(inp, c, y);
  }
}
