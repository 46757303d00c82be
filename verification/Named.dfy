// Which super-nodes the analysis names, and what each named origin says of itself, told by scores and edges.

module Named {
  import opened Prelude
  import opened Graphs
  import opened BlameInput
  import opened RunRecord
  import opened Condense
  import opened Propagation
  import opened CutPoint
  import Localize
  import opened Origins
  import opened CandidateFacts
  import opened Soundness
  import opened Attribution
  import opened Repeats
  import opened Measured

  // ---------- Breaks ----------

  ghost predicate BreaksSharply(inp: Input, c: Condensation, s: nat) {
    !Cleared(inp, c, s) && (FellHere(inp, c, s) || (DimEdge(inp, c, s) && !HealedAfter(inp, c, s)))
  }

  ghost predicate BreaksInside(inp: Input, c: Condensation, s: nat) {
    s < |c.supers| && |c.supers[s].members| >= 2 && exists m :: m in c.supers[s].members && MemberBroke(inp, c.graph, m)
  }

  ghost predicate Breaks(inp: Input, c: Condensation, s: nat) {
    BreaksSharply(inp, c, s) || BreaksInside(inp, c, s)
  }

  // A boundary that was dim and healed.
  ghost predicate FadesOut(inp: Input, c: Condensation, s: nat) {
    !Cleared(inp, c, s) && DimEdge(inp, c, s) && HealedAfter(inp, c, s)
  }

  lemma NamesAt(cs: seq<Candidate>, x: Candidate)
    requires x in cs
    ensures NamesNode(cs, x.superId)
  {
    var i :| 0 <= i < |cs| && cs[i] == x;
  }

  lemma NamedBy(cs: seq<Candidate>, n: nat) returns (x: Candidate)
    requires NamesNode(cs, n)
    ensures x in cs && x.superId == n
  {
    var i :| 0 <= i < |cs| && cs[i].superId == n;
    x := cs[i];
  }

  lemma BucketedNames(inp: Input, c: Condensation, b: Bucket, s: nat)
    requires WellFormed(inp, c) && b != NoOrigin && forall i :: 0 <= i < |c.topo| ==> c.topo[i] < |c.supers|
    ensures NamesNode(Bucketed(inp, c, |c.topo|, b), s) <==> s < |c.supers| && BucketOf(inp, c, s) == b
  {
    hide *;
    var cs := Bucketed(inp, c, |c.topo|, b);
    if NamesNode(cs, s) {
      var x := NamedBy(cs, s);
      EdgeBucket(inp, c, |c.topo|, b, x);
    }
    if s < |c.supers| && BucketOf(inp, c, s) == b {
      TopoPosition(inp, c, s);
      var i: nat :| i < |c.topo| && c.topo[i] == s;
      BucketedHas(inp, c, |c.topo|, b, i);
      var x :| x in cs && x.superId == s;
      NamesAt(cs, x);
    }
  }

  lemma InsideIs(inp: Input, c: Condensation, s: nat)
    requires s < |c.supers|
    ensures InternalCandidate(inp, c, s).Some? <==> BreaksInside(inp, c, s)
  {
    forall m ensures MemberQualifies(inp, c.graph, m) <==> MemberBroke(inp, c.graph, m) {
      MemberMeans(inp, c.graph, m);
    }
    var fit := Qualified(inp, c.graph, c.supers[s].members);
    if m :| m in c.supers[s].members && MemberBroke(inp, c.graph, m) {
      assert m in fit;
    }
    hide MemberQualifies, MemberBroke, UnknownUpstream, Worst, TiedMembers, Channels, MemberRecovered, Lowest;
  }

  lemma {:induction false} InternalNames(inp: Input, c: Condensation, k: nat, already: set<nat>, s: nat)
    requires k <= |c.topo| && forall i :: 0 <= i < |c.topo| ==> c.topo[i] < |c.supers|
    ensures NamesNode(Internal(inp, c, k, already), s) <==>
      s !in already && s < |c.supers| && BreaksInside(inp, c, s) && s in c.topo[..k]
  {
    hide *;
    if k == 0 {
      InternalNone(inp, c, already);
      NoNames(s);
    } else {
      var n := c.topo[k - 1];
      InternalNames(inp, c, k - 1, already, s);
      InternalNext(inp, c, k - 1, already);
      InsideIs(inp, c, n);
      InternalAt(inp, c, n);
      assert c.topo[..k] == c.topo[..k - 1] + [n];
      if n !in already && InternalCandidate(inp, c, n).Some? {
        NamesAppend(Internal(inp, c, k - 1, already), InternalCandidate(inp, c, n).value, s);
      } else {
        assert Internal(inp, c, k - 1, already) + [] == Internal(inp, c, k - 1, already);
      }
    }
  }

  lemma NamesJoin(cs: seq<Candidate>, ds: seq<Candidate>, s: nat)
    ensures NamesNode(cs + ds, s) <==> NamesNode(cs, s) || NamesNode(ds, s)
  {
    var all := cs + ds;
    if i :| 0 <= i < |cs| && cs[i].superId == s {
      assert all[i].superId == s;
    }
    if i :| 0 <= i < |ds| && ds[i].superId == s {
      assert all[|cs| + i].superId == s;
    }
    if i :| 0 <= i < |all| && all[i].superId == s {
      if i >= |cs| {
        assert ds[i - |cs|].superId == s;
      } else {
        assert cs[i].superId == s;
      }
    }
  }

  lemma IdsAre(cs: seq<Candidate>, s: nat)
    ensures s in SuperIds(cs) <==> NamesNode(cs, s)
  {
    if s in SuperIds(cs) {
      var x :| x in cs && x.superId == s;
      NamesAt(cs, x);
    }
    if NamesNode(cs, s) {
      var x := NamedBy(cs, s);
    }
  }

  lemma SharpNames(inp: Input, c: Condensation, s: nat)
    requires WellFormed(inp, c) && forall i :: 0 <= i < |c.topo| ==> c.topo[i] < |c.supers|
    ensures NamesNode(SharpOrigins(inp, c), s) <==> s < |c.supers| && BreaksSharply(inp, c, s)
  {
    hide *;
    var k := |c.topo|;
    SharpAre(inp, c);
    BucketedNames(inp, c, DropOrigin, s);
    BucketedNames(inp, c, Propagating, s);
    NamesJoin(Bucketed(inp, c, k, DropOrigin), Bucketed(inp, c, k, Propagating), s);
    if s < |c.supers| {
      BucketMeans(inp, c, s);
      SharplyIs(inp, c, s);
    }
  }

  lemma SharplyIs(inp: Input, c: Condensation, s: nat)
    ensures BreaksSharply(inp, c, s) <==>
      (!Cleared(inp, c, s) && FellHere(inp, c, s)) ||
      (!Cleared(inp, c, s) && DimEdge(inp, c, s) && !HealedAfter(inp, c, s))
    ensures FadesOut(inp, c, s) <==> !Cleared(inp, c, s) && DimEdge(inp, c, s) && HealedAfter(inp, c, s)
    ensures Breaks(inp, c, s) <==> BreaksSharply(inp, c, s) || BreaksInside(inp, c, s)
    ensures Breaks(inp, c, s) || FadesOut(inp, c, s) ==> s < |c.supers|
  {
    hide Cleared, HealedAfter, MemberBroke;
  }

  lemma BrokenIs(inp: Input, c: Condensation)
    requires forall i :: 0 <= i < |c.topo| ==> c.topo[i] < |c.supers|
    ensures Broken(inp, c) ==
      SharpOrigins(inp, c) + Internal(inp, c, |c.topo|, SuperIds(SharpOrigins(inp, c)))
  {
  }

  lemma BrokenNames(inp: Input, c: Condensation, s: nat)
    requires WellFormed(inp, c) && forall i :: 0 <= i < |c.topo| ==> c.topo[i] < |c.supers|
    ensures NamesNode(Broken(inp, c), s) <==> Breaks(inp, c, s)
  {
    hide *;
    var sharp := SharpOrigins(inp, c);
    var ids := SuperIds(sharp);
    BrokenIs(inp, c);
    SharpNames(inp, c, s);
    IdsAre(sharp, s);
    InternalNames(inp, c, |c.topo|, ids, s);
    NamesJoin(sharp, Internal(inp, c, |c.topo|, ids), s);
    SharplyIs(inp, c, s);
    assert c.topo[..|c.topo|] == c.topo;
    if BreaksInside(inp, c, s) {
      InsideInRange(inp, c, s);
      TopoPosition(inp, c, s);
    }
  }

  lemma InsideInRange(inp: Input, c: Condensation, s: nat)
    requires BreaksInside(inp, c, s)
    ensures s < |c.supers|
  {
  }

  // ---------- The content channel ----------

  ghost predicate SomethingBreaks(inp: Input, c: Condensation) {
    exists s: nat :: Breaks(inp, c, s)
  }

  // Some recorded decline runs over `s` from its head.
  ghost predicate Declines(inp: Input, c: Condensation, s: nat)
    requires WellFormed(inp, c)
  {
    Entered(inp, c, Chains(inp, c), s)
  }

  // An origin before shadowing: a break; else where a decline starts; else a boundary that healed.
  ghost predicate IsOrigin(inp: Input, c: Condensation, s: nat)
    requires WellFormed(inp, c)
  {
    if SomethingBreaks(inp, c) then Breaks(inp, c, s)
    else if exists t: nat :: Declines(inp, c, t) then Declines(inp, c, s)
    else FadesOut(inp, c, s)
  }

  lemma NothingNamed(cs: seq<Candidate>)
    ensures cs == [] <==> forall s: nat :: !NamesNode(cs, s)
  {
    if cs != [] {
      NamesAt(cs, cs[0]);
    }
  }

  lemma OriginsName(inp: Input, c: Condensation, s: nat)
    requires WellFormed(inp, c) && Steady(inp, c)
    ensures NamesNode(ContentOrigins(inp, c), s) <==> IsOrigin(inp, c, s)
  {
    hide *;
    TopoInRange(inp, c);
    forall t: nat ensures NamesNode(Broken(inp, c), t) <==> Breaks(inp, c, t) {
      BrokenNames(inp, c, t);
    }
    NothingNamed(Broken(inp, c));
    BreakingIs(inp, c);
    BucketedNames(inp, c, RecoveredBoundary, s);
    if s < |c.supers| {
      BucketMeans(inp, c, s);
    }
    SharplyIs(inp, c, s);
    OriginsAre(inp, c);
    IsOriginIs(inp, c, s);
    if Broken(inp, c) == [] {
      forall t: nat ensures NamesNode(Eroded(inp, c, Chains(inp, c)), t) <==> Declines(inp, c, t) {
        ErodedNames(inp, c, Chains(inp, c), t);
        DeclinesIs(inp, c, t);
      }
      NothingNamed(Eroded(inp, c, Chains(inp, c)));
    }
  }

  lemma BreakingIs(inp: Input, c: Condensation)
    ensures SomethingBreaks(inp, c) <==> exists s: nat :: Breaks(inp, c, s)
  {
  }

  lemma DeclinesIs(inp: Input, c: Condensation, s: nat)
    requires WellFormed(inp, c)
    ensures Declines(inp, c, s) <==> Entered(inp, c, Chains(inp, c), s)
  {
  }

  lemma IsOriginIs(inp: Input, c: Condensation, s: nat)
    requires WellFormed(inp, c)
    ensures SomethingBreaks(inp, c) ==> (IsOrigin(inp, c, s) <==> Breaks(inp, c, s))
    ensures !SomethingBreaks(inp, c) && (exists t: nat :: Declines(inp, c, t)) ==>
      (IsOrigin(inp, c, s) <==> Declines(inp, c, s))
    ensures !SomethingBreaks(inp, c) && !(exists t: nat :: Declines(inp, c, t)) ==>
      (IsOrigin(inp, c, s) <==> FadesOut(inp, c, s))
  {
    hide WellFormed, SomethingBreaks, Breaks, Declines, FadesOut;
  }

  lemma OriginsAre(inp: Input, c: Condensation)
    requires WellFormed(inp, c) && Steady(inp, c)
    ensures forall i :: 0 <= i < |c.topo| ==> c.topo[i] < |c.supers|
    ensures Broken(inp, c) != [] ==> ContentOrigins(inp, c) == Broken(inp, c)
    ensures Broken(inp, c) == [] ==> forall ch :: ch in Chains(inp, c) ==> ChainReady(c, ch)
    ensures Broken(inp, c) == [] ==>
      ContentOrigins(inp, c) ==
      if Eroded(inp, c, Chains(inp, c)) != [] then Eroded(inp, c, Chains(inp, c))
      else Bucketed(inp, c, |c.topo|, RecoveredBoundary)
  {
    TopoInRange(inp, c);
    hide WellFormed, Broken, Chains, Bucketed, Eroded, ChainReady;
  }

  lemma MergedNames(inp: Input, c: Condensation, s: nat)
    requires WellFormed(inp, c) && Steady(inp, c)
    ensures NamesNode(ContentFinal(inp, c), s) <==>
      exists x :: x in Candidates(inp, c) && x.superId == s && x.via != Deterministic
  {
    hide *;
    var content, all := ContentFinal(inp, c), Candidates(inp, c);
    MergedParts(inp, c);
    if NamesNode(content, s) {
      var i := Repeats.NodeAt(content, s);
      ContentStays(inp, c, i);
      assert all[i] in all;
    }
    if x :| x in all && x.superId == s && x.via != Deterministic {
      var i :| 0 <= i < |all| && all[i] == x;
      if i >= |content| {
        HardPart(inp, c, i);
      } else {
        AtNode(content, i);
      }
    }
  }

  lemma ContentStays(inp: Input, c: Condensation, i: nat)
    requires WellFormed(inp, c) && Steady(inp, c) && i < |ContentFinal(inp, c)| <= |Candidates(inp, c)|
    ensures Candidates(inp, c)[i].via != Deterministic
  {
    ContentOnly(inp, c, ContentFinal(inp, c)[i]);
    hide WellFormed, Steady, ContentFinal, HardOrigins, RunsOf;
  }

  // Main result: a super-node is named by the content channel exactly when it is an origin and no origin lies upstream.
  lemma NamedIff(inp: Input, c: Condensation, a: Analysis, s: nat)
    requires IsAnalysis(inp, c, a)
    ensures WellFormed(inp, c)
    ensures (exists x :: x in a.candidates && x.superId == s && x.via != Deterministic) <==>
      IsOrigin(inp, c, s) && !exists t: nat :: IsOrigin(inp, c, t) && IsAncestor(c.dag, t, s)
  {
    hide *;
    AnalysisIs(inp, c, a);
    var origins := ContentOrigins(inp, c);
    MergedNames(inp, c, s);
    FinalIs(inp, c);
    UnshadowedNames(c, SuperIds(origins), origins, s);
    forall t: nat
      ensures (t in SuperIds(origins) <==> IsOrigin(inp, c, t)) && (NamesNode(origins, t) <==> IsOrigin(inp, c, t))
    {
      OriginsName(inp, c, t);
      IdsAre(origins, t);
    }
    ShadowedIs(c, SuperIds(origins), s);
  }

  lemma ShadowedIs(c: Condensation, ids: set<nat>, s: nat)
    ensures Shadowed(c, ids, s) <==> exists t: nat :: t in ids && IsAncestor(c.dag, t, s)
  {
    hide IsAncestor;
  }

  // ---------- What an origin says of itself ----------

  // An unscored node upstream that may hide the culprit.
  ghost predicate HiddenUpstream(inp: Input, c: Condensation, s: nat) {
    exists t: nat :: IsAncestor(c.dag, t, s) && t < |c.supers| && !HasScore(inp, c.supers[t].exit) &&
      !BareRequest(inp, c, t) && !Because(inp, c.supers[t].exit, "zero_result_set")
  }

  ghost predicate ExitSays(inp: Input, c: Condensation, x: Candidate) {
    && x.superId < |c.supers|
    && (x.recovered <==> HealedAfter(inp, c, x.superId)) && (x.observedDrop <==> FellHere(inp, c, x.superId))
    && (x.baseAssumed <==> x.base.Some? && forall p: nat :: !ScoredFeed(inp, c, p, x.superId))
    && (x.unknownUpstream <==> HiddenUpstream(inp, c, x.superId))
    && forall r :: r in x.unmeasuredInputs <==>
         !HasScore(inp, r) && exists p: nat :: Feeds(c, p, x.superId) && c.supers[p].exit == r
  }

  // `m` is the lowest of the members that broke, ties by time.
  ghost predicate LowestBroken(inp: Input, c: Condensation, s: nat, m: RunId)
    requires s < |c.supers|
  {
    && m in c.supers[s].members && MemberBroke(inp, c.graph, m)
    && forall q :: q in c.supers[s].members && q != m && MemberBroke(inp, c.graph, q) ==>
         HasScore(inp, q) && HasScore(inp, m) &&
         (ScoreIn(inp, m) < ScoreIn(inp, q) || (ScoreIn(inp, m) == ScoreIn(inp, q) && Sooner(inp, m, q)))
  }

  ghost predicate MemberSays(inp: Input, c: Condensation, x: Candidate) {
    && x.superId < |c.supers| && x.sccMember.Some? && LowestBroken(inp, c, x.superId, x.sccMember.value)
    && (x.recovered <==> MemberHealed(inp, c.graph, x.sccMember.value)) && !x.baseAssumed
    && (x.unknownUpstream <==> HiddenUpstream(inp, c, x.superId))
  }

  ghost predicate DeclineSays(inp: Input, c: Condensation, x: Candidate) {
    && x.superId < |c.supers| && !x.recovered && !x.baseAssumed && !x.observedDrop
    && (x.unknownUpstream <==> HiddenUpstream(inp, c, x.superId))
  }

  lemma HiddenIs(inp: Input, c: Condensation, s: nat)
    requires WellFormed(inp, c)
    ensures HiddenUpstream(inp, c, s) <==> UnknownUpstream(inp, c, s)
  {
    DagInRange(inp, c);
    forall t: nat | t < |c.supers|
      ensures HidesCulprit(inp, c, t) <==>
        !HasScore(inp, c.supers[t].exit) && !BareRequest(inp, c, t) &&
        !Because(inp, c.supers[t].exit, "zero_result_set")
    {
      SuperScore(inp, c, t);
      FieldsAre(inp, c.supers[t].exit);
      RootIs(inp, c, t);
      hide WellFormed, StructuralRoot, BareRequest, HasScore;
    }
    hide WellFormed, HidesCulprit, IsAncestor, HasScore, BareRequest, Because;
  }

  lemma RootIs(inp: Input, c: Condensation, t: nat)
    requires c.dag.Valid() && t < |c.supers|
    ensures StructuralRoot(inp, c, t) <==> BareRequest(inp, c, t)
  {
  }

  lemma EdgeSays(inp: Input, c: Condensation, x: Candidate)
    requires WellFormed(inp, c) && EdgeLike(inp, c, x)
    ensures ExitSays(inp, c, x)
  {
    var s := x.superId;
    HealedIs(inp, c, s);
    FellHereIs(inp, c, s);
    HiddenIs(inp, c, s);
    FeedExits(inp, c, s);
    forall r ensures HasScore(inp, r) <==> ScoreOf(inp, r).Some? {
      FieldsAre(inp, r);
    }
    EdgeFields(inp, c, x);
    hide WellFormed, EdgeLike, HealedAfter, FellHere, HiddenUpstream, UnknownUpstream, ObservedDrop, AllHealthy,
      PredExits,
      SuccExits, HasScore, ScoreOf, Feeds, Base;
  }

  lemma EdgeFields(inp: Input, c: Condensation, x: Candidate)
    requires EdgeLike(inp, c, x)
    ensures x.superId < |c.supers| && x.recovered == AllHealthy(inp, SuccExits(c, x.superId))
    ensures x.observedDrop == ObservedDrop(inp, c, x.superId) && x.unknownUpstream == UnknownUpstream(inp, c, x.superId)
    ensures x.base == Base(inp, c, x.superId)
    ensures x.baseAssumed <==> x.base.Some? && KnownScores(inp, PredExits(c, x.superId)) == {}
    ensures x.unmeasuredInputs == PredExits(c, x.superId) - KnownScores(inp, PredExits(c, x.superId))
  {
    hide BucketOf, UnknownUpstream, Channels, ObservedDrop, AllHealthy, SourceLike, PredExits, SuccExits, LowestRun,
      HighestRun;
  }

  lemma CycleSays(inp: Input, c: Condensation, x: Candidate)
    requires WellFormed(inp, c) && CycleLike(inp, c, x)
    ensures MemberSays(inp, c, x)
  {
    var s := x.superId;
    var m := CycleFields(inp, c, x);
    HiddenIs(inp, c, s);
    MemberHealedIs(inp, c.graph, m);
    forall q ensures MemberQualifies(inp, c.graph, q) <==> MemberBroke(inp, c.graph, q) {
      MemberMeans(inp, c.graph, q);
    }
    MemberMeans(inp, c.graph, m);
    FieldsAre(inp, m);
    forall q | q in Qualified(inp, c.graph, c.supers[s].members) && q != m
      ensures HasScore(inp, q) && HasScore(inp, m)
      ensures ScoreIn(inp, m) < ScoreIn(inp, q) || (ScoreIn(inp, m) == ScoreIn(inp, q) && Sooner(inp, m, q))
    {
      Localize.QualifiedIsScored(inp, c.graph, q);
      Localize.QualifiedIsScored(inp, c.graph, m);
      FieldsAre(inp, q);
      SoonerIs(inp, m, q);
    }
    hide WellFormed, CycleLike, MemberQualifies, MemberBroke, HasScore, ScoreIn, Sooner, HiddenUpstream, MemberHealed,
      MemberRecovered, UnknownUpstream, StepLess, RunStep;
  }

  lemma CycleFields(inp: Input, c: Condensation, x: Candidate) returns (m: RunId)
    requires CycleLike(inp, c, x)
    ensures x.superId < |c.supers| && x.sccMember == Some(m)
    ensures m in Qualified(inp, c.graph, c.supers[x.superId].members)
    ensures forall q :: q in Qualified(inp, c.graph, c.supers[x.superId].members) && q != m ==>
      StepLess(RunStep(inp, m), RunStep(inp, q))
    ensures x.recovered == MemberRecovered(inp, c.graph, m) && !x.baseAssumed
    ensures x.unknownUpstream == UnknownUpstream(inp, c, x.superId)
  {
    m := Worst(inp, Qualified(inp, c.graph, c.supers[x.superId].members));
    hide MemberQualifies, UnknownUpstream, TiedMembers, Channels, MemberRecovered, Lowest, StepLess, RunStep;
  }

  lemma ErosionSays(inp: Input, c: Condensation, x: Candidate)
    requires WellFormed(inp, c) && ErosionLike(inp, c, x)
    ensures DeclineSays(inp, c, x)
  {
    var ch :| ChainReady(c, ch) && IsErosionChain(inp, c, ch) && x == ErosionCandidate(inp, c, ch);
    HiddenIs(inp, c, ch.superIds[1]);
    hide WellFormed, IsErosionChain, HiddenUpstream, UnknownUpstream, Channels;
  }

  // Main result: what a content origin reports of its recovery, its baseline, its unmeasured inputs and what is hidden
  // upstream, and the member of a cycle it points at.
  lemma OriginSays(inp: Input, c: Condensation, a: Analysis, x: Candidate)
    requires IsAnalysis(inp, c, a) && x in a.candidates && x.via == Content
    ensures if x.cumulativePath != [] then DeclineSays(inp, c, x)
      else if x.sccMember.Some? then MemberSays(inp, c, x) else ExitSays(inp, c, x)
  {
    hide *;
    AnalysisIs(inp, c, a);
    CandidatesFromChannels(inp, c);
    Channelled(inp, c, x);
    ContentFalls(inp, c, x);
    OneOfThree(inp, c, x);
    if EdgeLike(inp, c, x) {
      EdgeSays(inp, c, x);
      EdgeMeasured(inp, c, x);
    } else if ErosionLike(inp, c, x) {
      ErosionSays(inp, c, x);
      ErosionMeasured(inp, c, x);
      AlongIsLong(inp, x);
    } else {
      CycleSays(inp, c, x);
      CycleBare(inp, c, x);
    }
  }

  lemma OneOfThree(inp: Input, c: Condensation, x: Candidate)
    requires ContentLike(inp, c, x)
    ensures EdgeLike(inp, c, x) || ErosionLike(inp, c, x) || CycleLike(inp, c, x)
  {
    hide EdgeLike, ErosionLike, CycleLike;
  }

  // ---------- Declines ----------

  ghost predicate FallsTo(inp: Input, c: Condensation, a: nat, b: nat) {
    && Feeds(c, a, b) && b < |c.supers| && HasScore(inp, c.supers[a].exit) && HasScore(inp, c.supers[b].exit)
    && ScoreIn(inp, c.supers[a].exit) - ScoreIn(inp, c.supers[b].exit) >= inp.config.cumStepMin
  }

  // The most degraded of the successors that fell far enough, ties by time.
  ghost predicate GoesDownTo(inp: Input, c: Condensation, a: nat, b: nat) {
    && FallsTo(inp, c, a, b)
    && forall q: nat :: FallsTo(inp, c, a, q) && c.supers[q].exit != c.supers[b].exit ==>
         ScoreIn(inp, c.supers[b].exit) < ScoreIn(inp, c.supers[q].exit) ||
         (ScoreIn(inp, c.supers[b].exit) == ScoreIn(inp, c.supers[q].exit) &&
          Sooner(inp, c.supers[b].exit, c.supers[q].exit))
  }

  lemma ErodingAre(inp: Input, c: Condensation, a: nat)
    requires WellFormed(inp, c) && a < |c.supers| && c.supers[a].score.Some?
    ensures var fit := Eroding(inp, SuccExits(c, a), c.supers[a].score.value);
      (forall q: nat :: FallsTo(inp, c, a, q) ==> c.supers[q].exit in fit) &&
      forall r :: r in fit ==> exists q: nat :: FallsTo(inp, c, a, q) && c.supers[q].exit == r
  {
    SuperScore(inp, c, a);
    FieldsAre(inp, c.supers[a].exit);
    var succs := SuccExits(c, a);
    var fit := Eroding(inp, succs, c.supers[a].score.value);
    hide WellFormed;
    forall q: nat | FallsTo(inp, c, a, q) ensures c.supers[q].exit in fit {
      FieldsAre(inp, c.supers[q].exit);
      assert (a, q) in c.dag.edges;
      assert c.supers[q].exit in succs;
    }
    forall r | r in fit ensures exists q: nat :: FallsTo(inp, c, a, q) && c.supers[q].exit == r {
      FieldsAre(inp, r);
      var e :| e in c.dag.edges && e.0 == a && e.1 < |c.supers| && c.supers[e.1].exit == r;
      assert FallsTo(inp, c, a, e.1);
    }
  }

  // Main result: each step of a decline goes to the most degraded successor that fell far enough.
  lemma StepMeans(inp: Input, c: Condensation, a: nat, b: nat)
    requires WellFormed(inp, c) && a < |c.supers| && b < |c.supers|
    ensures StepsTo(inp, c, a, b) <==> GoesDownTo(inp, c, a, b)
  {
    SuperScore(inp, c, a);
    FieldsAre(inp, c.supers[a].exit);
    if c.supers[a].score.Some? {
      var fit := Eroding(inp, SuccExits(c, a), c.supers[a].score.value);
      ErodingAre(inp, c, a);
      if fit != {} {
        var w := Worst(inp, fit);
        FitOrder(inp, c, a, fit, w);
        var q: nat :| FallsTo(inp, c, a, q) && c.supers[q].exit == w;
        SameExit(inp, c, q, b);
        if GoesDownTo(inp, c, a, b) {
          BothWays(inp, c, a, b, q, w);
        }
      }
    }
    hide WellFormed, Worst, Eroding, SuccExits, HasScore, ScoreIn, ScoreOf, Sooner;
  }

  lemma SameExit(inp: Input, c: Condensation, q: nat, b: nat)
    requires WellFormed(inp, c) && q < |c.supers| && b < |c.supers|
    ensures c.supers[q].exit == c.supers[b].exit <==> q == b
  {
    ExitsLocated(inp, c, q);
    ExitsLocated(inp, c, b);
  }

  lemma FitOrder(inp: Input, c: Condensation, a: nat, fit: set<RunId>, w: RunId)
    requires w in fit && forall r :: r in fit && r != w ==> StepLess(RunStep(inp, w), RunStep(inp, r))
    requires forall r :: r in fit ==> ScoreOf(inp, r).Some?
    ensures forall r :: r in fit && r != w ==> HasScore(inp, r) && HasScore(inp, w)
    ensures forall r :: r in fit && r != w ==>
      ScoreIn(inp, w) < ScoreIn(inp, r) || (ScoreIn(inp, w) == ScoreIn(inp, r) && Sooner(inp, w, r))
  {
    FieldsAre(inp, w);
    forall r | r in fit && r != w
      ensures HasScore(inp, r) && HasScore(inp, w)
      ensures ScoreIn(inp, w) < ScoreIn(inp, r) || (ScoreIn(inp, w) == ScoreIn(inp, r) && Sooner(inp, w, r))
    {
      FieldsAre(inp, r);
      SoonerIs(inp, w, r);
    }
  }

  lemma BothWays(inp: Input, c: Condensation, a: nat, b: nat, q: nat, w: RunId)
    requires GoesDownTo(inp, c, a, b) && FallsTo(inp, c, a, q) && c.supers[q].exit == w && HasScore(inp, w)
    requires c.supers[b].exit != w ==>
      ScoreIn(inp, w) < ScoreIn(inp, c.supers[b].exit) ||
      (ScoreIn(inp, w) == ScoreIn(inp, c.supers[b].exit) && Sooner(inp, w, c.supers[b].exit))
    ensures c.supers[b].exit == w
  {
  }

  // ---------- The hard channel ----------

  // The exit broke a contract or failed a check, and does not blame its input.
  predicate HardAt(inp: Input, c: Condensation, s: nat) {
    && s < |c.supers| && (Broke(inp, c.supers[s].exit) || FailsCheck(inp, c.supers[s].exit))
    && !Admits(inp, c.supers[s].exit)
  }

  // Some run upstream already rewrote `key` to `value`.
  ghost predicate AlreadyAbout(inp: Input, c: Condensation, s: nat, key: string, value: string) {
    exists t: nat, m: RunId ::
      IsAncestor(c.dag, t, s) && t < |c.supers| && m in c.supers[t].members && RewroteTo(inp, m, key, value)
  }

  predicate RewroteTo(inp: Input, m: RunId, key: string, value: string) {
    m in inp.scores && exists v :: v in inp.scores[m].violations && v.key == key && v.to == value
  }

  // It failed a check, or rewrote a value that was new to the run on both sides.
  ghost predicate ActsFirst(inp: Input, c: Condensation, s: nat) {
    HardAt(inp, c, s) &&
    (FailsCheck(inp, c.supers[s].exit) ||
     exists v :: v in inp.scores[c.supers[s].exit].violations &&
       !AlreadyAbout(inp, c, s, v.key, v.from) && !AlreadyAbout(inp, c, s, v.key, v.to))
  }

  lemma HardAtIs(inp: Input, c: Condensation, s: nat)
    requires s < |c.supers|
    ensures HardAt(inp, c, s) <==> HardFault(inp, c, s)
    ensures FailsCheck(inp, c.supers[s].exit) <==> HasFailSignal(inp, c.supers[s].exit)
  {
    FieldsAre(inp, c.supers[s].exit);
  }

  lemma AboutIs(inp: Input, c: Condensation, s: nat, key: string, value: string)
    ensures AlreadyAbout(inp, c, s, key, value) <==> Circulates(inp, c, s, key, value)
  {
    hide IsAncestor;
    if AlreadyAbout(inp, c, s, key, value) {
      var t: nat, m: RunId :| IsAncestor(c.dag, t, s) && t < |c.supers| && m in c.supers[t].members &&
        RewroteTo(inp, m, key, value);
      var v :| v in inp.scores[m].violations && v.key == key && v.to == value;
      assert v in Violations(inp, m);
    }
    if Circulates(inp, c, s, key, value) {
      var t: nat, m: RunId, v: Violation :| IsAncestor(c.dag, t, s) && t < |c.supers| && m in c.supers[t].members &&
        v in Violations(inp, m) && v.key == key && v.to == value;
      assert RewroteTo(inp, m, key, value);
    }
  }

  lemma ActsFirstIs(inp: Input, c: Condensation, s: nat)
    requires s < |c.supers|
    ensures ActsFirst(inp, c, s) <==> PrimaryActor(inp, c, s)
  {
    HardAtIs(inp, c, s);
    FieldsAre(inp, c.supers[s].exit);
    var r := c.supers[s].exit;
    forall key, value ensures AlreadyAbout(inp, c, s, key, value) <==> Circulates(inp, c, s, key, value) {
      AboutIs(inp, c, s, key, value);
    }
    assert r in inp.scores ==> Violations(inp, r) == inp.scores[r].violations;
    hide AlreadyAbout, Circulates, HasFailSignal, FailsCheck;
    if PrimaryActor(inp, c, s) && !HasFailSignal(inp, r) {
      var v :| v in Violations(inp, r) && !Circulates(inp, c, s, v.key, v.from) && !Circulates(inp, c, s, v.key, v.to);
    }
  }

  // With nobody acting first, the first hard fault in the order stands in, its origin out of sight.
  ghost predicate StandsIn(inp: Input, c: Condensation, s: nat) {
    && (forall t: nat :: !ActsFirst(inp, c, t)) && HardAt(inp, c, s)
    && exists k: nat :: k < |c.topo| && c.topo[k] == s && forall j: nat :: j < k ==> !HardAt(inp, c, c.topo[j])
  }

  lemma {:induction false} FirstSecondary(inp: Input, c: Condensation, k: nat)
    requires k <= |c.topo| && forall i :: 0 <= i < |c.topo| ==> c.topo[i] < |c.supers|
    ensures Secondaries(inp, c, k) == [] <==> forall i: nat :: i < k ==> !SecondaryActor(inp, c, c.topo[i])
    ensures Secondaries(inp, c, k) != [] ==> exists i: nat ::
      i < k && c.topo[i] == Secondaries(inp, c, k)[0] && SecondaryActor(inp, c, c.topo[i]) &&
      forall j: nat :: j < i ==> !SecondaryActor(inp, c, c.topo[j])
  {
    hide SecondaryActor;
    if k > 0 {
      FirstSecondary(inp, c, k - 1);
    }
  }

  lemma PrimaryNames(inp: Input, c: Condensation, s: nat)
    requires WellFormed(inp, c) && forall i :: 0 <= i < |c.topo| ==> c.topo[i] < |c.supers|
    ensures NamesNode(Primaries(inp, c, |c.topo|), s) <==> s < |c.supers| && PrimaryActor(inp, c, s)
  {
    PrimariesName(inp, c, |c.topo|, s);
    if s < |c.supers| {
      TopoPosition(inp, c, s);
    }
    hide WellFormed, PrimaryActor, Primaries;
    assert c.topo[..|c.topo|] == c.topo;
  }

  lemma {:induction false} PrimariesName(inp: Input, c: Condensation, k: nat, s: nat)
    requires k <= |c.topo| && forall i :: 0 <= i < |c.topo| ==> c.topo[i] < |c.supers|
    ensures NamesNode(Primaries(inp, c, k), s) <==> s in c.topo[..k] && s < |c.supers| && PrimaryActor(inp, c, s)
  {
    hide PrimaryActor, HardCandidate, NamesNode;
    if k == 0 {
      NoNames(s);
    } else {
      var n := c.topo[k - 1];
      PrimariesName(inp, c, k - 1, s);
      assert c.topo[..k] == c.topo[..k - 1] + [n];
      HardSuper(inp, c, n);
      if PrimaryActor(inp, c, n) {
        NamesAppend(Primaries(inp, c, k - 1), HardCandidate(inp, c, n), s);
      } else {
        assert Primaries(inp, c, k - 1) + [] == Primaries(inp, c, k - 1);
      }
    }
  }

  lemma HardSuper(inp: Input, c: Condensation, n: nat)
    requires n < |c.supers|
    ensures HardCandidate(inp, c, n).superId == n
  {
    hide AllHealthy, Channels;
  }

  // Main result: the hard channel names exactly the nodes that act first, or the one that stands in for them.
  lemma HardNamed(inp: Input, c: Condensation, s: nat)
    requires WellFormed(inp, c)
    ensures forall i :: 0 <= i < |c.topo| ==> c.topo[i] < |c.supers|
    ensures NamesNode(HardOrigins(inp, c), s) <==> ActsFirst(inp, c, s) || StandsIn(inp, c, s)
  {
    TopoInRange(inp, c);
    hide *;
    var out, secondary := Primaries(inp, c, |c.topo|), Secondaries(inp, c, |c.topo|);
    forall t: nat ensures NamesNode(out, t) <==> ActsFirst(inp, c, t) {
      PrimaryNames(inp, c, t);
      FirstInRange(inp, c, t);
      if t < |c.supers| {
        ActsFirstIs(inp, c, t);
      }
    }
    NothingNamed(out);
    HardOriginsAre(inp, c, s);
    if out == [] {
      forall t: nat | t < |c.supers| ensures SecondaryActor(inp, c, t) <==> HardAt(inp, c, t) {
        HardAtIs(inp, c, t);
        ActsFirstIs(inp, c, t);
        SecondaryIs(inp, c, t);
      }
      FirstSecondary(inp, c, |c.topo|);
      StandIn(inp, c, s);
    } else {
      SomeoneActs(inp, c, s);
    }
  }

  lemma FirstInRange(inp: Input, c: Condensation, t: nat)
    ensures ActsFirst(inp, c, t) ==> t < |c.supers|
  {
  }

  lemma SecondaryIs(inp: Input, c: Condensation, t: nat)
    requires t < |c.supers|
    ensures SecondaryActor(inp, c, t) <==> HardFault(inp, c, t) && !PrimaryActor(inp, c, t)
  {
    hide PrimaryActor, HardFault;
  }

  lemma HardOriginsAre(inp: Input, c: Condensation, s: nat)
    requires forall i :: 0 <= i < |c.topo| ==> c.topo[i] < |c.supers|
    ensures var out, secondary := Primaries(inp, c, |c.topo|), Secondaries(inp, c, |c.topo|);
      if out != [] || secondary == [] then HardOrigins(inp, c) == out
      else NamesNode(HardOrigins(inp, c), s) <==> s == secondary[0]
  {
    hide Primaries, Secondaries, Channels;
    var out, secondary := Primaries(inp, c, |c.topo|), Secondaries(inp, c, |c.topo|);
    if out == [] && secondary != [] {
      assert secondary[0] in secondary;
      var x := NewCandidate(inp, c, secondary[0], Deterministic, true);
      assert HardOrigins(inp, c) == [x] && x.superId == secondary[0];
      if s == secondary[0] {
        AtNode(HardOrigins(inp, c), 0);
      }
    }
  }

  lemma SomeoneActs(inp: Input, c: Condensation, s: nat)
    requires exists t: nat :: ActsFirst(inp, c, t)
    ensures !StandsIn(inp, c, s)
  {
    hide ActsFirst, HardAt;
  }

  lemma StandIn(inp: Input, c: Condensation, s: nat)
    requires WellFormed(inp, c) && forall i :: 0 <= i < |c.topo| ==> c.topo[i] < |c.supers|
    requires forall t: nat :: !ActsFirst(inp, c, t)
    requires forall t: nat :: t < |c.supers| ==> (SecondaryActor(inp, c, t) <==> HardAt(inp, c, t))
    requires Secondaries(inp, c, |c.topo|) == [] <==>
      forall i: nat :: i < |c.topo| ==> !SecondaryActor(inp, c, c.topo[i])
    requires Secondaries(inp, c, |c.topo|) != [] ==> exists i: nat ::
      i < |c.topo| && c.topo[i] == Secondaries(inp, c, |c.topo|)[0] && SecondaryActor(inp, c, c.topo[i]) &&
      forall j: nat :: j < i ==> !SecondaryActor(inp, c, c.topo[j])
    ensures var secondary := Secondaries(inp, c, |c.topo|);
      StandsIn(inp, c, s) <==> secondary != [] && s == secondary[0]
  {
    var secondary := Secondaries(inp, c, |c.topo|);
    hide WellFormed, ActsFirst, HardAt, SecondaryActor, Secondaries;
    if secondary != [] {
      var i: nat :| i < |c.topo| && c.topo[i] == secondary[0] && SecondaryActor(inp, c, c.topo[i]) &&
        forall j: nat :: j < i ==> !SecondaryActor(inp, c, c.topo[j]);
      assert forall j: nat :: j < i ==> !HardAt(inp, c, c.topo[j]);
      if StandsIn(inp, c, s) {
        var k: nat :| k < |c.topo| && c.topo[k] == s && forall j: nat :: j < k ==> !HardAt(inp, c, c.topo[j]);
        assert k == i;
      }
    }
  }
}
