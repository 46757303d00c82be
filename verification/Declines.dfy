// Slow declines and the broken members of cycles, told by scores, edges and settings.

module Declines {
  import opened Prelude
  import opened Graphs
  import opened BlameInput
  import opened RunRecord
  import opened Condense
  import opened Propagation
  import opened CutPoint
  import Localize
  import opened Origins
  import opened CandidateFacts
  import opened Soundness
  import opened Measured
  import Named
  import Loops
  import Attribution

  // ---------- Declines ----------

  // From a healthy head, each time to the most degraded successor that fell far enough and on until none did, over
  // enough edges and far enough in all.
  ghost predicate IsDecline(inp: Input, c: Condensation, p: seq<nat>) {
    && p != [] && InRange(c, p)
    && (forall i, j :: 0 <= i < |p| && j == i + 1 < |p| ==> Named.GoesDownTo(inp, c, p[i], p[j]))
    && GoesNowhere(inp, c, p[|p| - 1])
    && Qualifies(inp, c, p)
  }

  ghost predicate GoesNowhere(inp: Input, c: Condensation, a: nat) {
    forall q: nat :: !Named.FallsTo(inp, c, a, q)
  }

  predicate Qualifies(inp: Input, c: Condensation, p: seq<nat>)
    requires p != [] && InRange(c, p)
  {
    assert p[0] in p && p[|p| - 1] in p;
    var head, tail := c.supers[p[0]].exit, c.supers[p[|p| - 1]].exit;
    && HasScore(inp, head) && HasScore(inp, tail) && ScoreIn(inp, head) >= inp.config.threshold
    && |p| - 1 >= inp.config.cumMinEdges
    && ScoreIn(inp, head) - ScoreIn(inp, tail) >= inp.config.cumDropThreshold
  }

  lemma StuckIs(inp: Input, c: Condensation, a: nat)
    requires WellFormed(inp, c) && a < |c.supers|
    ensures Stuck(inp, c, a) <==> GoesNowhere(inp, c, a)
  {
    SuperScore(inp, c, a);
    FieldsAre(inp, c.supers[a].exit);
    if c.supers[a].score.Some? {
      Named.ErodingAre(inp, c, a);
    }
    hide WellFormed, Worst, Eroding, SuccExits, HasScore, ScoreIn, ScoreOf;
  }

  lemma DescentIs(inp: Input, c: Condensation, p: seq<nat>)
    requires WellFormed(inp, c) && p != [] && InRange(c, p)
    ensures IsDescent(inp, c, p) <==>
      (forall i, j :: 0 <= i < |p| && j == i + 1 < |p| ==> Named.GoesDownTo(inp, c, p[i], p[j])) &&
      GoesNowhere(inp, c, p[|p| - 1])
  {
    assert p[|p| - 1] in p;
    StuckIs(inp, c, p[|p| - 1]);
    forall i, j | 0 <= i < |p| && j == i + 1 < |p|
      ensures p[i] in p && p[j] in p && (StepsTo(inp, c, p[i], p[j]) <==> Named.GoesDownTo(inp, c, p[i], p[j]))
      ensures Named.GoesDownTo(inp, c, p[i], p[j]) ==> (p[i], p[j]) in c.dag.edges
    {
      assert p[i] in p && p[j] in p;
      Named.StepMeans(inp, c, p[i], p[j]);
      hide WellFormed, StepsTo;
    }
    NodesOfDag(inp, c);
    hide WellFormed, StepsTo, Stuck, Named.GoesDownTo, GoesNowhere;
    if (forall i, j :: 0 <= i < |p| && j == i + 1 < |p| ==> Named.GoesDownTo(inp, c, p[i], p[j])) {
      assert IsWalk(c.dag, p);
    }
  }

  lemma NodesOfDag(inp: Input, c: Condensation)
    requires WellFormed(inp, c)
    ensures c.dag.Valid() && forall n: nat :: n in c.dag.nodes <==> n < |c.supers|
  {
    hide Reaches, ProperTopo, ProperSuper, Acyclic, ProperEnds, ProperMembers;
  }

  lemma QualifiesIs(inp: Input, c: Condensation, p: seq<nat>)
    requires WellFormed(inp, c) && p != [] && InRange(c, p) && IsDescent(inp, c, p)
    ensures Qualifies(inp, c, p) <==> p[0] < |c.supers| && HealthyAt(inp, c, p[0]) && IsErosion(inp, ChainOf(c, p))
  {
    assert p[0] in p && p[|p| - 1] in p;
    SuperScore(inp, c, p[0]);
    SuperScore(inp, c, p[|p| - 1]);
    FieldsAre(inp, c.supers[p[0]].exit);
    FieldsAre(inp, c.supers[p[|p| - 1]].exit);
    if |p| > 1 {
      var k := |p| - 2;
      assert StepsTo(inp, c, p[k], p[|p| - 1]);
      assert p[k] in p;
      StepScored(inp, c, p[k], p[|p| - 1]);
    }
    hide WellFormed, IsDescent, HasScore, ScoreIn, ScoreOf;
  }

  lemma DeclineIs(inp: Input, c: Condensation, p: seq<nat>)
    requires WellFormed(inp, c) && p != [] && InRange(c, p)
    ensures IsDecline(inp, c, p) <==>
      IsDescent(inp, c, p) && p[0] < |c.supers| && HealthyAt(inp, c, p[0]) && IsErosion(inp, ChainOf(c, p))
  {
    DescentIs(inp, c, p);
    if IsDescent(inp, c, p) {
      QualifiesIs(inp, c, p);
    }
    hide WellFormed, IsDescent, Qualifies, HealthyAt, IsErosion, ChainOf, Named.GoesDownTo, GoesNowhere;
  }

  // Two descents from one head are one.
  lemma {:induction false} DescentUnique(inp: Input, c: Condensation, p: seq<nat>, q: seq<nat>)
    requires WellFormed(inp, c) && IsDescent(inp, c, p) && IsDescent(inp, c, q) && p[0] == q[0]
    ensures p == q
  {
    DescentGoesOn(inp, c, p);
    DescentGoesOn(inp, c, q);
    if |p| > 1 {
      assert p[1] in p && q[1] in q;
      ExitsAreDistinct(inp, c, p[1], q[1]);
      TailDescends(inp, c, p);
      TailDescends(inp, c, q);
      DescentUnique(inp, c, p[1..], q[1..]);
      assert p == [p[0]] + p[1..] && q == [q[0]] + q[1..];
    }
  }

  lemma DescentGoesOn(inp: Input, c: Condensation, p: seq<nat>)
    requires IsDescent(inp, c, p)
    ensures p[0] < |c.supers| && (|p| > 1 <==> NextRun(inp, c, p[0]).Some?)
    ensures |p| > 1 ==> p[1] < |c.supers| && NextRun(inp, c, p[0]) == Some(c.supers[p[1]].exit)
  {
    assert p[0] in p;
    if |p| > 1 {
      assert p[1] in p && StepsTo(inp, c, p[0], p[1]);
    }
    hide NextRun;
  }

  lemma TailDescends(inp: Input, c: Condensation, p: seq<nat>)
    requires IsDescent(inp, c, p) && |p| > 1
    ensures IsDescent(inp, c, p[1..])
  {
    hide StepsTo, Stuck;
    var q := p[1..];
    forall i, j | 0 <= i < |q| && j == i + 1 < |q| ensures StepsTo(inp, c, q[i], q[j]) && (q[i], q[j]) in c.dag.edges {
      assert q[i] == p[i + 1] && q[j] == p[j + 1];
      assert StepsTo(inp, c, p[i + 1], p[j + 1]);
    }
    forall x | x in q ensures x in p {
    }
  }

  // Main result: what is recorded are declines, and the head of every decline is recorded or lies on a recorded one.
  lemma DeclinesAreRecorded(inp: Input, c: Condensation, p: seq<nat>)
    requires WellFormed(inp, c)
    ensures forall ch :: ch in Chains(inp, c) ==> IsDecline(inp, c, ch.superIds)
    ensures IsDecline(inp, c, p) ==> exists ch :: ch in Chains(inp, c) && p[0] in ch.superIds
  {
    hide *;
    ChainsReadyIff(inp, c);
    forall ch | ch in Chains(inp, c) ensures IsDecline(inp, c, ch.superIds) {
      ChainDeclines(inp, c, ch);
    }
    if IsDecline(inp, c, p) {
      DeclineParts(inp, c, p);
      DeclineIs(inp, c, p);
      ErodeDescends(inp, c, p[0]);
      DescentUnique(inp, c, p, Erode(inp, c, p[0]));
      TopoPosition(inp, c, p[0]);
      var i: nat :| i < |c.topo| && c.topo[i] == p[0];
      ChainsAre(inp, c);
      HealthyHead(inp, c, p[0]);
      NoErosionMissed(inp, c, 0, {}, i);
    }
  }

  lemma HealthyHead(inp: Input, c: Condensation, a: nat)
    requires HealthyAt(inp, c, a)
    ensures a < |c.supers| && Healthy(inp, c.supers[a].score)
  {
  }

  lemma DeclineParts(inp: Input, c: Condensation, p: seq<nat>)
    requires IsDecline(inp, c, p)
    ensures p != [] && InRange(c, p) && p[0] < |c.supers|
  {
    assert p[0] in p;
  }

  lemma ChainDeclines(inp: Input, c: Condensation, ch: Chain)
    requires WellFormed(inp, c) && IsErosionChain(inp, c, ch)
    ensures IsDecline(inp, c, ch.superIds)
  {
    assert ch.superIds[0] in ch.superIds;
    hide WellFormed, IsDescent, IsDecline, ChainOf, Origins.Declines, Falls, IsErosion, HealthyAt;
    DescentInRange(inp, c, ch.superIds);
    DeclineIs(inp, c, ch.superIds);
  }

  lemma DescentInRange(inp: Input, c: Condensation, p: seq<nat>)
    requires IsDescent(inp, c, p)
    ensures p != [] && InRange(c, p) && p[0] < |c.supers|
  {
    assert p[0] in p;
  }

  // ---------- Ties inside a cycle ----------

  // Every member that broke with the score of `m`, in the order of the members; none when `m` is alone.
  ghost predicate TiedWith(inp: Input, c: Condensation, s: nat, m: RunId, tied: seq<RunId>)
    requires s < |c.supers|
  {
    var members := c.supers[s].members;
    var equal := set q | q in members && Measured.MemberBroke(inp, c.graph, q) && SameScore(inp, q, m);
    if |equal| <= 1 then tied == []
    else Elements(tied) == equal && |tied| == |equal| && InOrderOf(members, tied)
  }

  predicate SameScore(inp: Input, q: RunId, m: RunId) {
    HasScore(inp, q) && HasScore(inp, m) && ScoreIn(inp, q) == ScoreIn(inp, m)
  }

  ghost predicate InOrderOf(members: seq<RunId>, tied: seq<RunId>) {
    forall i, j :: 0 <= i < j < |tied| ==> Loops.Earlier(members, tied[i], tied[j])
  }

  lemma TiedAre(inp: Input, c: Condensation, s: nat, m: RunId)
    requires WellFormed(inp, c) && s < |c.supers| && m in c.supers[s].members && MemberQualifies(inp, c.graph, m)
    ensures var tied := TiedMembers(inp, c.graph, c.supers[s].members, m);
      TiedWith(inp, c, s, m, if |tied| > 1 then tied else [])
  {
    var members := c.supers[s].members;
    SuperContents(inp, c, s);
    var keep := (q: RunId) => MemberQualifies(inp, c.graph, q) && ScoreOf(inp, q) == ScoreOf(inp, m);
    var tied := TiedMembers(inp, c.graph, members, m);
    hide WellFormed;
    assert tied == Filter(members, keep);
    Loops.FilterPicks(members, keep);
    forall q ensures MemberQualifies(inp, c.graph, q) <==> Measured.MemberBroke(inp, c.graph, q) {
      MemberMeans(inp, c.graph, q);
    }
    Localize.QualifiedIsScored(inp, c.graph, m);
    FieldsAre(inp, m);
    forall q | MemberQualifies(inp, c.graph, q)
      ensures SameScore(inp, q, m) <==> ScoreOf(inp, q) == ScoreOf(inp, m)
    {
      Localize.QualifiedIsScored(inp, c.graph, q);
      FieldsAre(inp, q);
    }
    hide MemberQualifies, Measured.MemberBroke, SameScore, ScoreOf, Loops.Earlier, TiedMembers;
    var equal := set q | q in members && Measured.MemberBroke(inp, c.graph, q) && SameScore(inp, q, m);
    assert Elements(tied) == equal;
    DistinctCount(tied);
  }

  // Main result: an origin inside a cycle is tied with all the members that broke with the very score of the one it
  // points at, and carries the score of the whole where that is known, else the member's.
  lemma TieReads(inp: Input, c: Condensation, a: Analysis, x: Candidate)
    requires IsAnalysis(inp, c, a) && x in a.candidates && x.via == Content && x.sccMember.Some?
    ensures x.superId < |c.supers| && TiedWith(inp, c, x.superId, x.sccMember.value, x.tied)
    ensures var exit, m := c.supers[x.superId].exit, x.sccMember.value;
      HasScore(inp, m) && x.score == Some(if HasScore(inp, exit) then ScoreIn(inp, exit) else ScoreIn(inp, m))
  {
    hide *;
    AnalysisIs(inp, c, a);
    CandidatesFromChannels(inp, c);
    Channelled(inp, c, x);
    Named.OneOfThree(inp, c, x);
    OnlyCycles(inp, c, x);
    CycleParts(inp, c, x);
    TiedAre(inp, c, x.superId, x.sccMember.value);
    Localize.QualifiedIsScored(inp, c.graph, x.sccMember.value);
    FieldsAre(inp, x.sccMember.value);
    FieldsAre(inp, c.supers[x.superId].exit);
    SuperScore(inp, c, x.superId);
  }

  lemma OnlyCycles(inp: Input, c: Condensation, x: Candidate)
    requires (EdgeLike(inp, c, x) || ErosionLike(inp, c, x) || CycleLike(inp, c, x)) && x.sccMember.Some?
    ensures CycleLike(inp, c, x)
  {
    hide UnknownUpstream, BucketOf, IsErosionChain, Channels, AllHealthy, SourceLike, ObservedDrop, InternalCandidate;
  }

  lemma CycleParts(inp: Input, c: Condensation, x: Candidate)
    requires CycleLike(inp, c, x) && x.sccMember.Some?
    ensures var sn, m := c.supers[x.superId], x.sccMember.value;
      var tied := TiedMembers(inp, c.graph, sn.members, m);
      && x.superId < |c.supers| && m in sn.members && MemberQualifies(inp, c.graph, m)
      && x.tied == (if |tied| > 1 then tied else [])
      && x.score == if sn.score.Some? then sn.score else ScoreOf(inp, m)
  {
    hide MemberQualifies, UnknownUpstream, TiedMembers, Channels, MemberRecovered, Lowest, Worst;
  }

  // `q` is scored, and no member lower.
  predicate LowestScored(inp: Input, members: seq<RunId>, q: RunId) {
    && q in members && HasScore(inp, q)
    && forall r :: r in members && HasScore(inp, r) ==> ScoreIn(inp, q) <= ScoreIn(inp, r)
  }

  // Main result: where the worst member of a cycle had to be taken, the tie is all the members scored as low as it, in
  // their order, and none when it is alone.
  lemma DrillTieReads(inp: Input, c: Condensation, x: Candidate)
    requires WellFormed(inp, c) && x.superId < |c.supers| && |c.supers[x.superId].members| > 1 && x.sccMember.None?
    ensures var members, tie := c.supers[x.superId].members, Attribution.DrillTie(inp, c, x);
      var lowest := set q | q in members && LowestScored(inp, members, q);
      if |lowest| <= 1 then tie == []
      else Elements(tie) == lowest && |tie| == |lowest| && InOrderOf(members, tie)
  {
    var members := c.supers[x.superId].members;
    SuperContents(inp, c, x.superId);
    hide WellFormed;
    var scored := KnownScores(inp, Elements(members));
    forall q ensures q in scored <==> q in members && HasScore(inp, q) {
      FieldsAre(inp, q);
    }
    if scored == {} {
      NoneLowest(inp, members);
    } else {
      var w := Worst(inp, scored);
      LowestAre(inp, members, w);
    }
    hide Worst, LowestScored, Loops.Earlier, HasScore, ScoreOf;
  }

  lemma NoneLowest(inp: Input, members: seq<RunId>)
    requires KnownScores(inp, Elements(members)) == {}
    ensures (set q | q in members && LowestScored(inp, members, q)) == {}
  {
    forall q | q in members ensures !HasScore(inp, q) {
      FieldsAre(inp, q);
      assert q !in KnownScores(inp, Elements(members));
    }
  }

  lemma LowestAre(inp: Input, members: seq<RunId>, w: RunId)
    requires Distinct(members) && w in members && ScoreOf(inp, w).Some?
    requires forall r :: r in KnownScores(inp, Elements(members)) && r != w ==>
      StepLess(RunStep(inp, w), RunStep(inp, r))
    ensures var equal := Filter(members, (m: RunId) => ScoreOf(inp, m) == ScoreOf(inp, w));
      var lowest := set q | q in members && LowestScored(inp, members, q);
      Elements(equal) == lowest && |equal| == |lowest| && InOrderOf(members, equal)
  {
    var keep := (m: RunId) => ScoreOf(inp, m) == ScoreOf(inp, w);
    Loops.FilterPicks(members, keep);
    forall q | q in members ensures keep(q) <==> LowestScored(inp, members, q) {
      LowestOnes(inp, members, w, q);
    }
    hide LowestScored, ScoreOf, KnownScores, StepLess, RunStep, Loops.Earlier;
    var equal := Filter(members, (m: RunId) => ScoreOf(inp, m) == ScoreOf(inp, w));
    assert equal == Filter(members, keep);
    assert Elements(equal) == set q | q in members && LowestScored(inp, members, q);
    DistinctCount(equal);
  }

  lemma LowestOnes(inp: Input, members: seq<RunId>, w: RunId, q: RunId)
    requires w in members && ScoreOf(inp, w).Some? && q in members
    requires forall r :: r in KnownScores(inp, Elements(members)) && r != w ==>
      StepLess(RunStep(inp, w), RunStep(inp, r))
    ensures ScoreOf(inp, q) == ScoreOf(inp, w) <==> LowestScored(inp, members, q)
  {
    FieldsAre(inp, w);
    FieldsAre(inp, q);
    forall r | r in members && HasScore(inp, r) ensures ScoreIn(inp, w) <= ScoreIn(inp, r) {
      FieldsAre(inp, r);
      assert r in KnownScores(inp, Elements(members));
    }
    hide HasScore, ScoreIn;
  }

  // ---------- Whether any step fell ----------

  // No sharp break as a whole, but a member fell from sources that were scored.
  ghost predicate FellInside(inp: Input, c: Condensation, s: nat) {
    s < |c.supers| && !Named.BreaksSharply(inp, c, s) && |c.supers[s].members| >= 2 &&
    exists m :: Named.LowestBroken(inp, c, s, m) && FedByScored(inp, c, m)
  }

  ghost predicate FedByScored(inp: Input, c: Condensation, m: RunId) {
    exists q :: Measured.ScoredSource(inp, c.graph, q, m)
  }

  lemma FedIs(inp: Input, c: Condensation, m: RunId)
    ensures FedByScored(inp, c, m) <==> Lowest(inp, RunPreds(c.graph, m)).Some?
  {
    Measured.SourcesScored(inp, c.graph, m);
    var known := KnownScores(inp, RunPreds(c.graph, m));
    if known != {} {
      var r :| r in known;
    }
    hide Measured.ScoredSource, RunPreds;
  }

  lemma CycleFed(inp: Input, c: Condensation, x: Candidate)
    requires WellFormed(inp, c) && CycleLike(inp, c, x)
    ensures x.superId < |c.supers| && |c.supers[x.superId].members| >= 2
    ensures x.sccMember.Some? && Named.LowestBroken(inp, c, x.superId, x.sccMember.value)
    ensures x.observedDrop <==> FedByScored(inp, c, x.sccMember.value)
  {
    Named.CycleSays(inp, c, x);
    FedIs(inp, c, x.sccMember.value);
    CycleSeen(inp, c, x);
    hide WellFormed, CycleLike, FedByScored, Named.LowestBroken;
  }

  lemma CycleSeen(inp: Input, c: Condensation, x: Candidate)
    requires CycleLike(inp, c, x) && x.sccMember.Some?
    ensures x.superId < |c.supers| && |c.supers[x.superId].members| >= 2
    ensures x.observedDrop <==> Lowest(inp, RunPreds(c.graph, x.sccMember.value)).Some?
  {
    hide MemberQualifies, UnknownUpstream, TiedMembers, Channels, MemberRecovered, Lowest, Worst;
  }

  lemma OneLowest(inp: Input, c: Condensation, s: nat, m: RunId, n: RunId)
    requires s < |c.supers| && Named.LowestBroken(inp, c, s, m) && Named.LowestBroken(inp, c, s, n)
    ensures m == n
  {
    hide Measured.MemberBroke;
  }

  lemma InsideFell(inp: Input, c: Condensation, s: nat)
    requires WellFormed(inp, c) && forall i :: 0 <= i < |c.topo| ==> c.topo[i] < |c.supers|
    ensures FellInside(inp, c, s) <==> exists x ::
      x in Internal(inp, c, |c.topo|, SuperIds(SharpOrigins(inp, c))) && x.superId == s && x.observedDrop
  {
    hide *;
    var ids := SuperIds(SharpOrigins(inp, c));
    var found := Internal(inp, c, |c.topo|, ids);
    InternalAreCycles(inp, c, |c.topo|, ids);
    InternalOutside(inp, c, |c.topo|, ids);
    Named.SharpNames(inp, c, s);
    Named.IdsAre(SharpOrigins(inp, c), s);
    FellParts(inp, c, s);
    if x :| x in found && x.superId == s && x.observedDrop {
      CycleFed(inp, c, x);
    }
    if FellInside(inp, c, s) {
      var m :| Named.LowestBroken(inp, c, s, m) && FedByScored(inp, c, m);
      BrokenInside(inp, c, s, m);
      Named.InternalNames(inp, c, |c.topo|, ids, s);
      TopoPosition(inp, c, s);
      assert c.topo[..|c.topo|] == c.topo;
      var x := Named.NamedBy(found, s);
      CycleFed(inp, c, x);
      OneLowest(inp, c, s, m, x.sccMember.value);
    }
  }

  lemma FellParts(inp: Input, c: Condensation, s: nat)
    ensures FellInside(inp, c, s) <==>
      s < |c.supers| && !Named.BreaksSharply(inp, c, s) && |c.supers[s].members| >= 2 &&
      exists m :: Named.LowestBroken(inp, c, s, m) && FedByScored(inp, c, m)
  {
    hide Named.BreaksSharply, Named.LowestBroken, FedByScored;
  }

  lemma BrokenInside(inp: Input, c: Condensation, s: nat, m: RunId)
    requires s < |c.supers| && |c.supers[s].members| >= 2 && Named.LowestBroken(inp, c, s, m)
    ensures Named.BreaksInside(inp, c, s)
  {
    hide Measured.MemberBroke;
  }

  // Main result: a significant drop is reported exactly when some node fell from healthy inputs, or, where a component
  // did not break as a whole, the member it points at fell from scored ones.
  lemma DropSeenIff(inp: Input, c: Condensation, a: Analysis)
    requires IsAnalysis(inp, c, a)
    ensures a.hadSignificantDrop <==>
      (exists s: nat :: Measured.FellHere(inp, c, s)) || exists s: nat :: FellInside(inp, c, s)
  {
    hide *;
    AnalysisIs(inp, c, a);
    TopoInRange(inp, c);
    BrokeIs(inp, c, a);
    forall s: nat ensures FellInside(inp, c, s) <==> exists x ::
      x in Internal(inp, c, |c.topo|, SuperIds(SharpOrigins(inp, c))) && x.superId == s && x.observedDrop
    {
      InsideFell(inp, c, s);
    }
    forall s: nat | s < |c.supers| ensures Measured.FellHere(inp, c, s) <==> ObservedDrop(inp, c, s) {
      FellHereIs(inp, c, s);
    }
    if AnyObservedDrop(inp, c) {
      var i := DropAt(inp, c);
      assert Measured.FellHere(inp, c, c.topo[i]);
    }
    if s: nat :| Measured.FellHere(inp, c, s) {
      FellInRange(inp, c, s);
      TopoPosition(inp, c, s);
      var i: nat :| i < |c.topo| && c.topo[i] == s;
      DropSeen(inp, c, i);
    }
    if x :| x in Internal(inp, c, |c.topo|, SuperIds(SharpOrigins(inp, c))) && x.observedDrop {
      assert FellInside(inp, c, x.superId);
    }
  }

  lemma DropAt(inp: Input, c: Condensation) returns (i: nat)
    requires forall i :: 0 <= i < |c.topo| ==> c.topo[i] < |c.supers|
    requires AnyObservedDrop(inp, c)
    ensures i < |c.topo| && ObservedDrop(inp, c, c.topo[i])
  {
    i :| i < |c.topo| && ObservedDrop(inp, c, c.topo[i]);
    hide ObservedDrop;
  }

  lemma DropSeen(inp: Input, c: Condensation, i: nat)
    requires forall i :: 0 <= i < |c.topo| ==> c.topo[i] < |c.supers|
    requires i < |c.topo| && ObservedDrop(inp, c, c.topo[i])
    ensures AnyObservedDrop(inp, c)
  {
    hide ObservedDrop;
  }

  lemma FellInRange(inp: Input, c: Condensation, s: nat)
    requires Measured.FellHere(inp, c, s)
    ensures s < |c.supers|
  {
  }

  lemma BrokeIs(inp: Input, c: Condensation, a: Analysis)
    requires IsAnalysis(inp, c, a)
    ensures WellFormed(inp, c) && forall i :: 0 <= i < |c.topo| ==> c.topo[i] < |c.supers|
    ensures a.hadSignificantDrop <==> AnyObservedDrop(inp, c) || exists x ::
      x in Internal(inp, c, |c.topo|, SuperIds(SharpOrigins(inp, c))) && x.observedDrop
  {
    TopoInRange(inp, c);
    hide WellFormed, Steady, Candidates, Chains, AnyObservedDrop, Internal, SharpOrigins;
  }
}
