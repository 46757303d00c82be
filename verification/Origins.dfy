// What holds of the origins found: declines are real, shadowing is exact, hard breaches never vanish.

module Origins {
  import opened Prelude
  import opened Graphs
  import opened BlameInput
  import opened Condense
  import opened Propagation
  import opened CutPoint
  import opened Localize

  // ---------- Degradation chains ----------

  // A greedy decline: each step follows the most degraded eroding successor, and the last has none.
  ghost predicate StepsTo(inp: Input, c: Condensation, a: nat, b: nat) {
    a < |c.supers| && b < |c.supers| && NextRun(inp, c, a) == Some(c.supers[b].exit)
  }

  ghost predicate Stuck(inp: Input, c: Condensation, a: nat) {
    a < |c.supers| && NextRun(inp, c, a).None?
  }

  ghost predicate HealthyAt(inp: Input, c: Condensation, a: nat) {
    a < |c.supers| && Healthy(inp, c.supers[a].score)
  }

  ghost predicate IsDescent(inp: Input, c: Condensation, p: seq<nat>) {
    && p != [] && InRange(c, p) && IsWalk(c.dag, p)
    && (forall i, j :: 0 <= i < |p| && j == i + 1 < |p| ==> StepsTo(inp, c, p[i], p[j]))
    && Stuck(inp, c, p[|p| - 1])
  }

  lemma {:induction false} ErodeDescends(inp: Input, c: Condensation, sid: nat)
    requires WellFormed(inp, c) && sid < |c.supers|
    ensures IsDescent(inp, c, Erode(inp, c, sid))
    decreases |Downstream(c.dag, sid)|
  {
    WellFormedDag(inp, c);
    hide WellFormed, NextRun, Reaches, Acyclic;
    match NextRun(inp, c, sid)
    case None => ErodeEnds(inp, c, sid);
    case Some(r) =>
      NextIsSuccessor(inp, c, sid, r);
      var next := c.superOf[r];
      ErodeDescends(inp, c, next);
      ErodeSteps(inp, c, sid, r);
      PrependStep(inp, c, sid, Erode(inp, c, next));
  }

  lemma PrependStep(inp: Input, c: Condensation, sid: nat, p: seq<nat>)
    requires c.dag.Valid() && sid < |c.supers| && IsDescent(inp, c, p) && (sid, p[0]) in c.dag.edges
    requires p[0] in p && NextRun(inp, c, sid) == Some(c.supers[p[0]].exit)
    ensures IsDescent(inp, c, [sid] + p)
  {
    hide NextRun;
    var q := [sid] + p;
    forall i, j | 0 <= i < |q| && j == i + 1 < |q|
      ensures (q[i], q[j]) in c.dag.edges && StepsTo(inp, c, q[i], q[j])
    {
      assert q[j] == p[j - 1];
      if i > 0 {
        assert q[i] == p[i - 1];
      }
    }
  }

  // Each step of a decline falls by at least cum_step_min, and the whole of it is the sum of its steps.
  ghost predicate Declines(inp: Input, scores: seq<real>) {
    forall i, j :: 0 <= i < |scores| && j == i + 1 < |scores| ==> scores[i] - scores[j] >= inp.config.cumStepMin
  }

  function Falls(scores: seq<real>): real {
    if |scores| < 2 then 0.0 else scores[0] - scores[1] + Falls(scores[1..])
  }

  lemma {:induction false} FallsTelescope(scores: seq<real>)
    requires scores != []
    ensures Falls(scores) == scores[0] - scores[|scores| - 1]
  {
    if |scores| > 1 {
      FallsTelescope(scores[1..]);
    }
  }

  lemma DescentDeclines(inp: Input, c: Condensation, p: seq<nat>)
    requires WellFormed(inp, c) && IsDescent(inp, c, p)
    ensures Declines(inp, ChainOf(c, p).scores) && ChainOf(c, p).drop == Falls(ChainOf(c, p).scores)
  {
    hide WellFormed, NextRun;
    var scores := ChainOf(c, p).scores;
    FallsTelescope(scores);
    forall i, j | 0 <= i < |scores| && j == i + 1 < |scores| ensures scores[i] - scores[j] >= inp.config.cumStepMin {
      assert p[i] in p && p[j] in p;
      var r := c.supers[p[j]].exit;
      NextIsScored(inp, c, p[i], r);
      ExitsLocated(inp, c, p[j]);
    }
  }

  // Main result on erosion: what a recorded chain is.
  ghost predicate IsErosionChain(inp: Input, c: Condensation, ch: Chain) {
    && IsDescent(inp, c, ch.superIds) && ch == ChainOf(c, ch.superIds)
    && HealthyAt(inp, c, ch.superIds[0])
    && Declines(inp, ch.scores) && ch.drop == Falls(ch.scores)
    && IsErosion(inp, ch)
  }

  lemma NewChain(inp: Input, c: Condensation, sid: nat)
    requires WellFormed(inp, c) && HealthyAt(inp, c, sid)
    ensures ChainOf(c, Erode(inp, c, sid)).superIds[0] == sid
    ensures IsErosion(inp, ChainOf(c, Erode(inp, c, sid))) ==> IsErosionChain(inp, c, ChainOf(c, Erode(inp, c, sid)))
  {
    ErodeDescends(inp, c, sid);
    DescentDeclines(inp, c, Erode(inp, c, sid));
    ErodeStarts(inp, c, sid);
  }

  lemma {:induction false} ChainsAreErosions(inp: Input, c: Condensation, k: nat, consumed: set<nat>)
    requires WellFormed(inp, c) && k <= |c.topo| && forall i :: 0 <= i < |c.topo| ==> c.topo[i] < |c.supers|
    ensures forall ch :: ch in ChainsFrom(inp, c, k, consumed) ==> IsErosionChain(inp, c, ch)
    ensures forall ch :: ch in ChainsFrom(inp, c, k, consumed) ==> ch.superIds != [] && ch.superIds[0] !in consumed
    decreases |c.topo| - k
  {
    hide *;
    if k < |c.topo| {
      var sid := c.topo[k];
      ChainsNext(inp, c, k, consumed);
      ChainsAreErosions(inp, c, k + 1, consumed);
      if !Skipped(inp, c, sid, consumed) && IsErosion(inp, ChainAt(inp, c, sid)) {
        HeadIsNew(inp, c, sid, consumed);
        ChainsAreErosions(inp, c, k + 1, consumed + Elements(ChainAt(inp, c, sid).superIds));
      }
    } else {
      ChainsEnd(inp, c, consumed);
    }
  }

  lemma HeadIsNew(inp: Input, c: Condensation, sid: nat, consumed: set<nat>)
    requires WellFormed(inp, c) && sid < |c.supers| && !Skipped(inp, c, sid, consumed)
    requires IsErosion(inp, ChainAt(inp, c, sid))
    ensures IsErosionChain(inp, c, ChainAt(inp, c, sid))
    ensures ChainAt(inp, c, sid).superIds != [] && ChainAt(inp, c, sid).superIds[0] == sid && sid !in consumed
  {
    hide WellFormed, IsErosionChain, IsErosion, Erode;
    NewChain(inp, c, sid);
  }

  lemma ErodeStarts(inp: Input, c: Condensation, sid: nat)
    requires WellFormed(inp, c) && sid < |c.supers|
    ensures Erode(inp, c, sid) != [] && Erode(inp, c, sid)[0] == sid
  {
  }

  // A recorded chain never starts on an earlier one.
  ghost predicate HeadsAreNew(chains: seq<Chain>) {
    forall i, j :: 0 <= i < j < |chains| && chains[j].superIds != [] ==> chains[j].superIds[0] !in chains[i].superIds
  }

  lemma {:induction false} ChainHeadsAreNew(inp: Input, c: Condensation, k: nat, consumed: set<nat>)
    requires WellFormed(inp, c) && k <= |c.topo| && forall i :: 0 <= i < |c.topo| ==> c.topo[i] < |c.supers|
    ensures HeadsAreNew(ChainsFrom(inp, c, k, consumed))
    decreases |c.topo| - k
  {
    hide *;
    if k < |c.topo| {
      var sid := c.topo[k];
      ChainsNext(inp, c, k, consumed);
      ChainHeadsAreNew(inp, c, k + 1, consumed);
      if !Skipped(inp, c, sid, consumed) && IsErosion(inp, ChainAt(inp, c, sid)) {
        var ch := ChainAt(inp, c, sid);
        var more := consumed + Elements(ch.superIds);
        ChainHeadsAreNew(inp, c, k + 1, more);
        ChainsAreErosions(inp, c, k + 1, more);
        HeadsPrepend(ch, ChainsFrom(inp, c, k + 1, more), consumed);
      }
    } else {
      ChainsEnd(inp, c, consumed);
      OneHead([]);
    }
  }

  lemma OneHead(chains: seq<Chain>)
    requires |chains| <= 1
    ensures HeadsAreNew(chains)
  {
  }

  lemma HeadsPrepend(ch: Chain, rest: seq<Chain>, covered: set<nat>)
    requires HeadsAreNew(rest)
    requires forall x :: x in rest ==> x.superIds != [] && x.superIds[0] !in covered + Elements(ch.superIds)
    ensures HeadsAreNew([ch] + rest)
  {
    assert forall j :: 0 <= j < |rest| ==> rest[j] in rest;
  }

  // No healthy head of a qualifying decline is missed: it is recorded, or already inside a recorded chain.
  lemma {:induction false} NoErosionMissed(inp: Input, c: Condensation, k: nat, consumed: set<nat>, i: nat)
    requires WellFormed(inp, c) && k <= i < |c.topo| && forall i :: 0 <= i < |c.topo| ==> c.topo[i] < |c.supers|
    requires Healthy(inp, c.supers[c.topo[i]].score) && IsErosion(inp, ChainOf(c, Erode(inp, c, c.topo[i])))
    ensures c.topo[i] in consumed || exists ch :: ch in ChainsFrom(inp, c, k, consumed) && c.topo[i] in ch.superIds
    decreases |c.topo| - k
  {
    ErodeStarts(inp, c, c.topo[i]);
    hide WellFormed, Erode;
    var ch := ChainOf(c, Erode(inp, c, c.topo[k]));
    var all := ChainsFrom(inp, c, k, consumed);
    if c.topo[k] in consumed || !Healthy(inp, c.supers[c.topo[k]].score) || !IsErosion(inp, ch) {
      if i > k {
        NoErosionMissed(inp, c, k + 1, consumed, i);
      }
    } else {
      assert ch in all;
      if i > k {
        var more := consumed + Elements(ch.superIds);
        NoErosionMissed(inp, c, k + 1, more, i);
        if x :| x in ChainsFrom(inp, c, k + 1, more) && c.topo[i] in x.superIds {
          assert x in all;
        }
      }
    }
  }

  // Only its length can keep a recorded chain from being blamed.
  lemma ChainsReadyIff(inp: Input, c: Condensation)
    requires WellFormed(inp, c)
    ensures forall ch :: ch in Chains(inp, c) ==>
      IsErosionChain(inp, c, ch) && (ChainReady(c, ch) <==> |ch.superIds| >= 2)
  {
    TopoInRange(inp, c);
    ChainsAreErosions(inp, c, 0, {});
    hide WellFormed, NextRun, Declines;
    forall ch | ch in Chains(inp, c) ensures IsErosionChain(inp, c, ch) && (ChainReady(c, ch) <==> |ch.superIds| >= 2) {
      assert IsErosionChain(inp, c, ch);
      if |ch.superIds| >= 2 {
        assert ch.superIds[1] in ch.superIds;
      }
    }
  }

  // ---------- Heads stand apart ----------

  ghost predicate HeadAt(c: Condensation, ch: Chain, m: nat) {
    m < |c.topo| && ch.superIds != [] && ch.superIds[0] == c.topo[m]
  }

  ghost predicate HeadsFrom(c: Condensation, k: nat, chains: seq<Chain>, at: seq<nat>) {
    && |at| == |chains| && (forall i :: 0 <= i < |at| ==> at[i] >= k && HeadAt(c, chains[i], at[i]))
    && forall i, j :: 0 <= i < j < |at| ==> at[i] < at[j]
  }

  // Heads are recorded in topological order.
  lemma {:induction false} HeadsInOrder(inp: Input, c: Condensation, k: nat, consumed: set<nat>) returns (at: seq<nat>)
    requires WellFormed(inp, c) && k <= |c.topo| && forall i :: 0 <= i < |c.topo| ==> c.topo[i] < |c.supers|
    ensures HeadsFrom(c, k, ChainsFrom(inp, c, k, consumed), at)
    decreases |c.topo| - k
  {
    hide *;
    if k < |c.topo| {
      var sid := c.topo[k];
      ChainsNext(inp, c, k, consumed);
      if !Skipped(inp, c, sid, consumed) && IsErosion(inp, ChainAt(inp, c, sid)) {
        var ch := ChainAt(inp, c, sid);
        at := HeadsInOrder(inp, c, k + 1, consumed + Elements(ch.superIds));
        HeadIsNew(inp, c, sid, consumed);
        HeadsPrefixed(c, k, ch, ChainsFrom(inp, c, k + 1, consumed + Elements(ch.superIds)), at);
        at := [k] + at;
      } else {
        at := HeadsInOrder(inp, c, k + 1, consumed);
        HeadsWiden(c, k, ChainsFrom(inp, c, k + 1, consumed), at);
      }
    } else {
      ChainsEnd(inp, c, consumed);
      at := [];
      HeadsNone(c, k);
    }
  }

  lemma HeadsPrefixed(c: Condensation, k: nat, ch: Chain, chains: seq<Chain>, at: seq<nat>)
    requires HeadsFrom(c, k + 1, chains, at) && HeadAt(c, ch, k)
    ensures HeadsFrom(c, k, [ch] + chains, [k] + at)
  {
  }

  lemma HeadsWiden(c: Condensation, k: nat, chains: seq<Chain>, at: seq<nat>)
    requires HeadsFrom(c, k + 1, chains, at)
    ensures HeadsFrom(c, k, chains, at)
  {
  }

  lemma HeadsNone(c: Condensation, k: nat)
    ensures HeadsFrom(c, k, [], [])
  {
  }

  // Nothing on a walk stands before its start.
  lemma {:induction false} WalkForward(c: Condensation, p: seq<nat>, t: nat, m: nat, n: nat)
    requires ProperTopo(c.dag, c.topo) && IsWalk(c.dag, p) && t < |p| && m < |c.topo| && n < |c.topo|
    requires c.topo[m] == p[0] && c.topo[n] == p[t]
    ensures m <= n
  {
    if t > 0 {
      assert p[t - 1] in p && (p[t - 1], p[t]) in c.dag.edges;
      assert p[t - 1] in Elements(c.topo);
      var l :| 0 <= l < |c.topo| && c.topo[l] == p[t - 1];
      WalkForward(c, p, t - 1, m, l);
    }
  }

  predicate Heads(ch: Chain, other: Chain) {
    ch.superIds != [] && ch.superIds[0] in other.superIds
  }

  // The head of a recorded chain lies on no other recorded chain.
  lemma HeadsApart(inp: Input, c: Condensation)
    requires WellFormed(inp, c)
    ensures var chains := Chains(inp, c);
      forall i, j :: 0 <= i < |chains| && 0 <= j < |chains| && Heads(chains[i], chains[j]) ==> i == j
  {
    ChainsAre(inp, c);
    ChainsReadyIff(inp, c);
    ChainHeadsAreNew(inp, c, 0, {});
    var at := HeadsInOrder(inp, c, 0, {});
    var chains := Chains(inp, c);
    hide Chains, ChainsFrom, IsErosion, Declines, Reaches, Acyclic, ProperMembers, ProperSuper, ProperEnds, NextRun;
    forall i, j | 0 <= i < |chains| && 0 <= j < |chains| && Heads(chains[i], chains[j]) ensures i == j {
      if i < j {
        assert chains[j] in chains && IsErosionChain(inp, c, chains[j]);
        var t :| 0 <= t < |chains[j].superIds| && chains[j].superIds[t] == chains[i].superIds[0];
        assert HeadAt(c, chains[i], at[i]) && HeadAt(c, chains[j], at[j]);
        WalkForward(c, chains[j].superIds, t, at[j], at[i]);
      }
    }
  }

  // ---------- When the analysis fails ----------

  // A healthy node outside every chain of two or more from which no eroding step leads on.
  ghost predicate Stands(inp: Input, c: Condensation, h: nat)
    requires WellFormed(inp, c)
  {
    HealthyAt(inp, c, h) && Stuck(inp, c, h) && forall ch :: ch in Chains(inp, c) && |ch.superIds| >= 2 ==>
      h !in ch.superIds
  }

  // Main result: the analysis fails exactly when nothing broke at one step, the settings count a standstill as a
  // decline, and some healthy node stands still.
  lemma SteadyIff(inp: Input, c: Condensation)
    requires WellFormed(inp, c)
    ensures forall i :: 0 <= i < |c.topo| ==> c.topo[i] < |c.supers|
    ensures Steady(inp, c) <==> Broken(inp, c) != [] || ErosionHasSteps(inp) || !exists h :: Stands(inp, c, h)
  {
    TopoInRange(inp, c);
    ChainsReadyIff(inp, c);
    hide WellFormed, Broken, ChainReady, Chains, Stands, IsErosionChain, ErosionHasSteps;
    forall ch | ch in Chains(inp, c)
      ensures |ch.superIds| < 2 ==> !ErosionHasSteps(inp) && exists h :: Stands(inp, c, h)
    {
      if |ch.superIds| < 2 {
        ShortStands(inp, c, ch);
      }
    }
    if h :| Stands(inp, c, h) {
      if !ErosionHasSteps(inp) {
        var ch := StandingIsShort(inp, c, h);
      }
    }
  }

  lemma ShortStands(inp: Input, c: Condensation, ch: Chain)
    requires WellFormed(inp, c) && ch in Chains(inp, c) && IsErosionChain(inp, c, ch) && |ch.superIds| < 2
    ensures !ErosionHasSteps(inp) && Stands(inp, c, ch.superIds[0])
  {
    HeadsApart(inp, c);
    hide WellFormed, Chains, NextRun;
    var chains := Chains(inp, c);
    var i :| 0 <= i < |chains| && chains[i] == ch;
    forall x | x in chains && |x.superIds| >= 2 ensures ch.superIds[0] !in x.superIds {
      var j :| 0 <= j < |chains| && chains[j] == x;
      assert Heads(chains[i], chains[i]);
    }
  }

  lemma StandingIsShort(inp: Input, c: Condensation, h: nat) returns (ch: Chain)
    requires WellFormed(inp, c) && !ErosionHasSteps(inp) && Stands(inp, c, h)
    ensures ch in Chains(inp, c) && |ch.superIds| < 2
  {
    ErodeEnds(inp, c, h);
    TopoPosition(inp, c, h);
    var i :| 0 <= i < |c.topo| && c.topo[i] == h;
    ChainsAre(inp, c);
    hide WellFormed, Chains, NextRun, ChainsFrom, Erode;
    NoErosionMissed(inp, c, 0, {}, i);
    ch :| ch in ChainsFrom(inp, c, 0, {}) && h in ch.superIds;
  }

  // ---------- Shadowing ----------

  lemma {:induction false} UnshadowedIs(c: Condensation, ids: set<nat>, cs: seq<Candidate>)
    ensures forall x :: x in Unshadowed(c, ids, cs) <==> x in cs && !Shadowed(c, ids, x.superId)
  {
    hide Shadowed;
    if cs != [] {
      UnshadowedIs(c, ids, cs[..|cs| - 1]);
      assert cs == cs[..|cs| - 1] + [cs[|cs| - 1]];
    }
  }

  lemma UpstreamGrows(g: Graph, a: nat, b: nat)
    requires g.Valid() && Acyclic(g) && IsAncestor(g, a, b)
    ensures |Upstream(g, a)| < |Upstream(g, b)|
  {
    ReachesInside(g, a, b);
    forall x | x in Upstream(g, a) ensures x in Upstream(g, b) {
      ReachesTrans(g, x, a, b);
    }
    ReachesSelf(g, b);
    assert b in Upstream(g, b) && b !in Upstream(g, a);
    SubsetSize(Upstream(g, a), Upstream(g, b));
  }

  lemma AncestorTrans(g: Graph, a: nat, b: nat, d: nat)
    requires Acyclic(g) && IsAncestor(g, a, b) && IsAncestor(g, b, d)
    ensures IsAncestor(g, a, d)
  {
    ReachesTrans(g, a, b, d);
  }

  // Climbing from shadow to shadow ends at an id nothing shadows.
  lemma {:induction false} TopShadow(c: Condensation, ids: set<nat>, sid: nat) returns (top: nat)
    requires c.dag.Valid() && Acyclic(c.dag) && sid in ids
    ensures top in ids && !Shadowed(c, ids, top) && (top == sid || IsAncestor(c.dag, top, sid))
    decreases |Upstream(c.dag, sid)|
  {
    if a :| a in ids && IsAncestor(c.dag, a, sid) {
      UpstreamGrows(c.dag, a, sid);
      top := TopShadow(c, ids, a);
      if top != a {
        AncestorTrans(c.dag, top, a, sid);
      }
    } else {
      top := sid;
    }
  }

  // Main result on shadowing: survivors are pairwise unrelated, and every origin survives or has a
  // surviving origin among its ancestors.
  lemma ShadowingIsExact(inp: Input, c: Condensation, cs: seq<Candidate>)
    requires WellFormed(inp, c)
    ensures forall x, y :: x in Unshadowed(c, SuperIds(cs), cs) && y in Unshadowed(c, SuperIds(cs), cs) ==>
      !IsAncestor(c.dag, x.superId, y.superId)
    ensures forall x :: x in cs ==>
      (x in Unshadowed(c, SuperIds(cs), cs) <==>
       !exists y :: y in Unshadowed(c, SuperIds(cs), cs) && IsAncestor(c.dag, y.superId, x.superId))
  {
    WellFormedDag(inp, c);
    hide WellFormed, Reaches, Acyclic;
    var ids := SuperIds(cs);
    var out := Unshadowed(c, ids, cs);
    UnshadowedIs(c, ids, cs);
    forall x, y | x in out && y in out ensures !IsAncestor(c.dag, x.superId, y.superId) {
      assert x.superId in ids;
    }
    forall x | x in cs && x !in out ensures exists y :: y in out && IsAncestor(c.dag, y.superId, x.superId) {
      assert x.superId in ids;
      var top := TopShadow(c, ids, x.superId);
      var y :| y in cs && y.superId == top;
      assert y in out;
    }
  }

  // ---------- The deterministic channel never goes silent ----------

  lemma {:induction false} PrimariesContain(inp: Input, c: Condensation, k: nat)
    requires k <= |c.topo| && forall i :: 0 <= i < |c.topo| ==> c.topo[i] < |c.supers|
    ensures forall i :: 0 <= i < k && PrimaryActor(inp, c, c.topo[i]) ==>
      HardCandidate(inp, c, c.topo[i]) in Primaries(inp, c, k)
    ensures forall x :: x in Primaries(inp, c, k) ==>
      exists i :: 0 <= i < k && PrimaryActor(inp, c, c.topo[i]) && x == HardCandidate(inp, c, c.topo[i])
  {
    if k > 0 {
      hide PrimaryActor, HardCandidate;
      PrimariesContain(inp, c, k - 1);
    }
  }

  lemma {:induction false} SecondariesContain(inp: Input, c: Condensation, k: nat)
    requires k <= |c.topo| && forall i :: 0 <= i < |c.topo| ==> c.topo[i] < |c.supers|
    ensures forall i :: 0 <= i < k && SecondaryActor(inp, c, c.topo[i]) ==> c.topo[i] in Secondaries(inp, c, k)
  {
    if k > 0 {
      hide SecondaryActor;
      SecondariesContain(inp, c, k - 1);
    }
  }

  // Main result: a hard fault at an unflawed exit node always leaves an origin in this channel.
  lemma HardFaultIsNamed(inp: Input, c: Condensation, i: nat)
    requires i < |c.topo| && (forall i :: 0 <= i < |c.topo| ==> c.topo[i] < |c.supers|) && HardFault(inp, c, c.topo[i])
    ensures HardOrigins(inp, c) != []
  {
    hide HardFault;
    PrimariesContain(inp, c, |c.topo|);
    SecondariesContain(inp, c, |c.topo|);
    var sid := c.topo[i];
    SplitActors(inp, c, sid);
    hide PrimaryActor, SecondaryActor;
    if PrimaryActor(inp, c, sid) {
      assert HardCandidate(inp, c, sid) in Primaries(inp, c, |c.topo|);
    } else {
      assert sid in Secondaries(inp, c, |c.topo|);
    }
  }

  lemma SplitActors(inp: Input, c: Condensation, sid: nat)
    requires sid < |c.supers| && HardFault(inp, c, sid)
    ensures PrimaryActor(inp, c, sid) || SecondaryActor(inp, c, sid)
  {
  }

  ghost predicate Singletons(c: Condensation) {
    forall i :: 0 <= i < |c.supers| ==> |c.supers[i].members| == 1
  }

  // What the inherited-value rule points at: with no cycle and no excused node it is itself a hard fault.
  lemma CirculatingSource(inp: Input, c: Condensation, sid: nat) returns (a: nat)
    requires WellFormed(inp, c) && Singletons(c) && sid < |c.supers| && SecondaryActor(inp, c, sid)
    requires forall r :: !InputFlawed(inp, r)
    ensures a < |c.supers| && IsAncestor(c.dag, a, sid) && HardFault(inp, c, a)
  {
    hide Reaches, ProperTopo, ProperMembers, Acyclic, IsAncestor;
    assert Violations(inp, c.supers[sid].exit) != [];
    var v := Violations(inp, c.supers[sid].exit)[0];
    assert v in Violations(inp, c.supers[sid].exit);
    var value := if Circulates(inp, c, sid, v.key, v.from) then v.from else v.to;
    assert Circulates(inp, c, sid, v.key, value);
    var b: nat, m: RunId, w: Violation :| IsAncestor(c.dag, b, sid) && b < |c.supers| && m in c.supers[b].members &&
      w in Violations(inp, m) && w.key == v.key && w.to == value;
    assert ProperSuper(inp, c.graph, c.supers[b]);
    assert m == c.supers[b].exit;
    a := b;
  }

  // Main result: every suppressed rewriter has a reported origin upstream.
  lemma {:induction false} SuppressedHasOrigin(inp: Input, c: Condensation, sid: nat) returns (a: nat)
    requires WellFormed(inp, c) && Singletons(c) && sid < |c.supers| && SecondaryActor(inp, c, sid)
    requires forall r :: !InputFlawed(inp, r)
    ensures forall i :: 0 <= i < |c.topo| ==> c.topo[i] < |c.supers|
    ensures a < |c.supers| && IsAncestor(c.dag, a, sid) && PrimaryActor(inp, c, a)
    ensures HardCandidate(inp, c, a) in HardOrigins(inp, c)
    decreases |Upstream(c.dag, sid)|
  {
    WellFormedDag(inp, c);
    TopoInRange(inp, c);
    hide WellFormed, PrimaryActor, SecondaryActor, HardFault, Singletons, InputFlawed, Reaches, HardOrigins;
    a := CirculatingSource(inp, c, sid);
    SplitActors(inp, c, a);
    UpstreamGrows(c.dag, a, sid);
    if PrimaryActor(inp, c, a) {
      PrimaryIsReported(inp, c, a);
    } else {
      var b := SuppressedHasOrigin(inp, c, a);
      AncestorTrans(c.dag, b, a, sid);
      a := b;
    }
  }

  lemma PrimaryIsReported(inp: Input, c: Condensation, sid: nat)
    requires WellFormed(inp, c) && sid < |c.supers| && PrimaryActor(inp, c, sid)
    ensures forall i :: 0 <= i < |c.topo| ==> c.topo[i] < |c.supers|
    ensures HardCandidate(inp, c, sid) in HardOrigins(inp, c)
  {
    TopoPosition(inp, c, sid);
    hide WellFormed, PrimaryActor;
    PrimariesContain(inp, c, |c.topo|);
  }

  lemma TopoPosition(inp: Input, c: Condensation, sid: nat)
    requires WellFormed(inp, c) && sid < |c.supers|
    ensures exists i :: 0 <= i < |c.topo| && c.topo[i] == sid
    ensures forall i :: 0 <= i < |c.topo| ==> c.topo[i] < |c.supers|
  {
    TopoInRange(inp, c);
    hide Reaches, ProperMembers, ProperSuper, Acyclic;
    assert sid in Elements(c.topo);
  }

  // ... so the fallback that cannot name the origin never fires there.
  lemma FallbackNeverFires(inp: Input, c: Condensation)
    requires WellFormed(inp, c) && Singletons(c) && forall r :: !InputFlawed(inp, r)
    ensures forall i :: 0 <= i < |c.topo| ==> c.topo[i] < |c.supers|
    ensures HardOrigins(inp, c) == Primaries(inp, c, |c.topo|)
    ensures forall x :: x in HardOrigins(inp, c) ==> !x.unknownUpstream
  {
    TopoInRange(inp, c);
    PrimariesContain(inp, c, |c.topo|);
    hide WellFormed, Singletons, InputFlawed, SecondaryActor, PrimaryActor;
    var secondary := Secondaries(inp, c, |c.topo|);
    if secondary != [] {
      assert secondary[0] in secondary;
      var a := SuppressedHasOrigin(inp, c, secondary[0]);
      TopoPosition(inp, c, a);
    }
  }

  // ---------- Where candidates come from ----------

  ghost predicate EdgeLike(inp: Input, c: Condensation, x: Candidate) {
    && x.superId < |c.supers| && c.supers[x.superId].score.Some?
    && BucketOf(inp, c, x.superId) != NoOrigin && x == EdgeCandidate(inp, c, x.superId)
  }

  ghost predicate ErosionLike(inp: Input, c: Condensation, x: Candidate) {
    exists ch :: ChainReady(c, ch) && IsErosionChain(inp, c, ch) && x == ErosionCandidate(inp, c, ch)
  }

  ghost predicate CycleLike(inp: Input, c: Condensation, x: Candidate) {
    x.superId < |c.supers| && InternalCandidate(inp, c, x.superId) == Some(x)
  }

  ghost predicate HardLike(inp: Input, c: Condensation, x: Candidate) {
    && x.superId < |c.supers| && HardFault(inp, c, x.superId)
    && (x == HardCandidate(inp, c, x.superId) || x == NewCandidate(inp, c, x.superId, Deterministic, true))
  }

  ghost predicate ContentLike(inp: Input, c: Condensation, x: Candidate) {
    EdgeLike(inp, c, x) || ErosionLike(inp, c, x) || CycleLike(inp, c, x)
  }

  lemma {:induction false} BucketedAreEdges(inp: Input, c: Condensation, k: nat, b: Bucket)
    requires k <= |c.topo| && b != NoOrigin && forall i :: 0 <= i < |c.topo| ==> c.topo[i] < |c.supers|
    ensures forall x :: x in Bucketed(inp, c, k, b) ==> EdgeLike(inp, c, x)
  {
    if k > 0 {
      BucketedAreEdges(inp, c, k - 1, b);
      EdgeOf(inp, c, c.topo[k - 1]);
      hide EdgeLike, BucketOf, EdgeCandidate;
    }
  }

  lemma EdgeOf(inp: Input, c: Condensation, sid: nat)
    requires sid < |c.supers|
    ensures BucketOf(inp, c, sid) != NoOrigin ==>
      c.supers[sid].score.Some? && EdgeLike(inp, c, EdgeCandidate(inp, c, sid))
  {
  }

  lemma {:induction false} InternalAreCycles(inp: Input, c: Condensation, k: nat, already: set<nat>)
    requires k <= |c.topo| && forall i :: 0 <= i < |c.topo| ==> c.topo[i] < |c.supers|
    ensures forall x :: x in Internal(inp, c, k, already) ==> CycleLike(inp, c, x)
  {
    if k > 0 {
      InternalAreCycles(inp, c, k - 1, already);
      CycleOf(inp, c, c.topo[k - 1]);
      hide CycleLike, InternalCandidate;
    }
  }

  lemma CycleOf(inp: Input, c: Condensation, sid: nat)
    requires sid < |c.supers|
    ensures InternalCandidate(inp, c, sid).Some? ==> CycleLike(inp, c, InternalCandidate(inp, c, sid).value)
  {
  }

  lemma {:induction false} ErodedAreErosions(inp: Input, c: Condensation, chains: seq<Chain>)
    requires forall ch :: ch in chains ==> ChainReady(c, ch) && IsErosionChain(inp, c, ch)
    ensures forall x :: x in Eroded(inp, c, chains) ==> ErosionLike(inp, c, x)
  {
    hide *;
    if chains != [] {
      var n := |chains| - 1;
      assert chains[n] in chains && forall ch :: ch in chains[..n] ==> ch in chains;
      ErodedAreErosions(inp, c, chains[..n]);
      ErosionOf(inp, c, chains[n]);
      ErodedLast(inp, c, chains);
    } else {
      ErodedNone(inp, c);
    }
  }

  lemma ErodedNone(inp: Input, c: Condensation)
    ensures Eroded(inp, c, []) == []
  {
  }

  lemma ErodedLast(inp: Input, c: Condensation, chains: seq<Chain>)
    requires chains != [] && forall ch :: ch in chains ==> ChainReady(c, ch)
    ensures forall ch :: ch in chains[..|chains| - 1] ==> ChainReady(c, ch)
    ensures ChainReady(c, chains[|chains| - 1])
    ensures forall x :: x in Eroded(inp, c, chains) ==>
      x in Eroded(inp, c, chains[..|chains| - 1]) || x == ErosionCandidate(inp, c, chains[|chains| - 1])
  {
    hide ChainReady, ErosionCandidate, InputFlawed;
    assert chains[|chains| - 1] in chains;
  }

  lemma ErosionOf(inp: Input, c: Condensation, ch: Chain)
    requires ChainReady(c, ch) && IsErosionChain(inp, c, ch)
    ensures ErosionLike(inp, c, ErosionCandidate(inp, c, ch))
  {
  }

  lemma OriginsAreContentLike(inp: Input, c: Condensation)
    requires WellFormed(inp, c) && Steady(inp, c)
    ensures forall x :: x in ContentOrigins(inp, c) ==> ContentLike(inp, c, x)
  {
    TopoInRange(inp, c);
    ChainsAreErosions(inp, c, 0, {});
    hide WellFormed, EdgeLike, CycleLike, ErosionLike, ChainReady, IsErosionChain, ChainsFrom, Eroded, Internal,
      Bucketed;
    BucketedAreEdges(inp, c, |c.topo|, DropOrigin);
    BucketedAreEdges(inp, c, |c.topo|, Propagating);
    BucketedAreEdges(inp, c, |c.topo|, RecoveredBoundary);
    InternalAreCycles(inp, c, |c.topo|, SuperIds(SharpOrigins(inp, c)));
    if Broken(inp, c) == [] {
      ErodedAreErosions(inp, c, Chains(inp, c));
    }
  }

  lemma HardAreHardLike(inp: Input, c: Condensation)
    requires forall i :: 0 <= i < |c.topo| ==> c.topo[i] < |c.supers|
    ensures forall x :: x in HardOrigins(inp, c) ==> HardLike(inp, c, x)
  {
    PrimariesContain(inp, c, |c.topo|);
    var secondary := Secondaries(inp, c, |c.topo|);
    hide HardFault;
    forall x | x in HardOrigins(inp, c) ensures HardLike(inp, c, x) {
      if x in Primaries(inp, c, |c.topo|) {
        var i :| 0 <= i < |c.topo| && PrimaryActor(inp, c, c.topo[i]) && x == HardCandidate(inp, c, c.topo[i]);
      } else {
        assert secondary[0] in secondary;
      }
    }
  }

  // A candidate is a content origin, a hard one, or a content origin at a node that is also a hard one.
  ghost predicate FromChannels(inp: Input, c: Condensation, x: Candidate) {
    || (x.via == Content && ContentLike(inp, c, x))
    || (x.via == Deterministic && HardLike(inp, c, x))
    || (x.via == Both && exists y, z ::
          ContentLike(inp, c, y) && HardLike(inp, c, z) && z.run == y.run && x == y.(via := Both, sccMember := None))
  }

  lemma ContentIsContent(inp: Input, c: Condensation, x: Candidate)
    requires ContentLike(inp, c, x)
    ensures x.via == Content
  {
  }

  lemma CandidatesFromChannels(inp: Input, c: Condensation)
    requires WellFormed(inp, c) && Steady(inp, c)
    ensures forall x :: x in Candidates(inp, c) ==> FromChannels(inp, c, x)
  {
    TopoInRange(inp, c);
    OriginsAreContentLike(inp, c);
    HardAreHardLike(inp, c);
    hide WellFormed, ContentLike, HardLike, Chains, ContentOrigins, HardOrigins, Shadowed;
    var content, det := ContentFinal(inp, c), HardOrigins(inp, c);
    UnshadowedIs(c, SuperIds(ContentOrigins(inp, c)), ContentOrigins(inp, c));
    forall x | x in Candidates(inp, c) ensures FromChannels(inp, c, x) {
      if x in Filter(det, (x: Candidate) => x.run !in RunsOf(content)) {
        HardIsHard(inp, c, x);
      } else {
        var i :| 0 <= i < |content| && x == MergeOne(RunsOf(det), content[i]);
        assert content[i] in content;
        MergedFromChannels(inp, c, det, content[i]);
      }
    }
  }

  lemma MergedFromChannels(inp: Input, c: Condensation, det: seq<Candidate>, y: Candidate)
    requires ContentLike(inp, c, y) && forall z :: z in det ==> HardLike(inp, c, z)
    ensures FromChannels(inp, c, MergeOne(RunsOf(det), y))
  {
    hide ContentLike, HardLike;
    ContentIsContent(inp, c, y);
    if y.run in RunsOf(det) {
      var z :| z in det && z.run == y.run;
      assert HardLike(inp, c, z);
    }
  }

  lemma HardIsHard(inp: Input, c: Condensation, x: Candidate)
    requires HardLike(inp, c, x)
    ensures x.via == Deterministic
  {
  }

  // ---------- The analysis as the source runs it ----------

  ghost predicate SomethingBroke(inp: Input, c: Condensation)
    requires WellFormed(inp, c)
  {
    TopoInRange(inp, c);
    AnyObservedDrop(inp, c) || exists x ::
      x in Internal(inp, c, |c.topo|, SuperIds(SharpOrigins(inp, c))) && x.observedDrop
  }

  ghost predicate IsAnalysis(inp: Input, c: Condensation, a: Analysis) {
    && WellFormed(inp, c) && Steady(inp, c)
    && a.candidates == Candidates(inp, c)
    && a.unscored == Filter(c.topo, (s: nat) => s < |c.supers| && c.supers[s].score.None?)
    && a.hadSignificantDrop == SomethingBroke(inp, c)
    && a.chains == Chains(inp, c)
  }

  // Nothing is picked when a chain to be blamed has no second node.
  method PickOrigins(inp: Input, c: Condensation, sharp: seq<Candidate>, cured: seq<Candidate>, chains: seq<Chain>)
    returns (picked: Option<seq<Candidate>>, brokeInside: bool)
    requires WellFormed(inp, c) && forall i :: 0 <= i < |c.topo| ==> c.topo[i] < |c.supers|
    requires chains == Chains(inp, c)
    requires sharp == SharpOrigins(inp, c) && cured == Bucketed(inp, c, |c.topo|, RecoveredBoundary)
    ensures picked.Some? <==> Steady(inp, c)
    ensures picked.Some? ==> picked.value == ContentOrigins(inp, c)
    ensures brokeInside <==> exists x :: x in Internal(inp, c, |c.topo|, SuperIds(sharp)) && x.observedDrop
  {
    ChainsReadyIff(inp, c);
    hide WellFormed, Chains, Eroded, Internal, Bucketed, ChainReady, SharpOrigins, IsErosionChain;
    var internal := FindInternal(inp, c, SuperIds(sharp));
    brokeInside := exists x :: x in internal && x.observedDrop;
    var origins := sharp + internal;
    assert origins == Broken(inp, c);
    if origins == [] && chains != [] {
      var eroded := BlameErosion(inp, c, chains);
      if eroded.None? {
        return None, brokeInside;
      }
      origins := eroded.value;
    } else if origins == [] {
      NoChains(inp, c);
    }
    if origins == [] {
      origins := cured;
    }
    picked := Some(origins);
  }

  method Analyze(inp: Input, c: Condensation) returns (a: Option<Analysis>)
    requires WellFormed(inp, c)
    ensures a.Some? <==> Steady(inp, c)
    ensures a.Some? ==> IsAnalysis(inp, c, a.value)
  {
    TopoInRange(inp, c);
    hide *;
    var drops, spreading, cured, unscored, significant := ScanEdges(inp, c);
    var chains := FindChains(inp, c);
    SharpAre(inp, c);
    var picked, brokeInside := PickOrigins(inp, c, drops + spreading, cured, chains);
    if picked.None? {
      return None;
    }
    OriginsInRange(inp, c);
    var origins := picked.value;
    var content := DropShadowed(inp, c, SuperIds(origins), origins);
    var det := FindHardOrigins(inp, c);
    var merged := MergeChannels(content, det);
    a := Some(Analysis(merged, unscored, significant || brokeInside, chains));
    AnalysisComplete(inp, c, a.value);
  }

  lemma SharpAre(inp: Input, c: Condensation)
    requires forall i :: 0 <= i < |c.topo| ==> c.topo[i] < |c.supers|
    ensures SharpOrigins(inp, c) == Bucketed(inp, c, |c.topo|, DropOrigin) + Bucketed(inp, c, |c.topo|, Propagating)
  {
  }

  lemma AnalysisComplete(inp: Input, c: Condensation, a: Analysis)
    requires WellFormed(inp, c) && forall i :: 0 <= i < |c.topo| ==> c.topo[i] < |c.supers|
    requires a.chains == Chains(inp, c) && Steady(inp, c)
    requires a.candidates ==
      Merge(Unshadowed(c, SuperIds(ContentOrigins(inp, c)), ContentOrigins(inp, c)), HardOrigins(inp, c))
    requires a.unscored == Filter(c.topo, (s: nat) => s < |c.supers| && c.supers[s].score.None?)
    requires a.hadSignificantDrop <==>
      (AnyObservedDrop(inp, c) || exists x ::
        x in Internal(inp, c, |c.topo|, SuperIds(SharpOrigins(inp, c))) && x.observedDrop)
    ensures IsAnalysis(inp, c, a)
  {
    hide WellFormed, Chains, ContentOrigins, HardOrigins, Internal, SharpOrigins, AnyObservedDrop, Unshadowed, Merge,
      ChainReady;
  }

  lemma NoChains(inp: Input, c: Condensation)
    ensures Eroded(inp, c, []) == []
  {
  }

  lemma OriginsInRange(inp: Input, c: Condensation)
    requires WellFormed(inp, c) && Steady(inp, c)
    ensures forall x :: x in ContentOrigins(inp, c) ==> x.superId < |c.supers|
  {
    OriginsAreContentLike(inp, c);
    hide ContentOrigins, WellFormed, Chains;
    forall x | x in ContentOrigins(inp, c) ensures x.superId < |c.supers| {
      ContentInRange(inp, c, x);
    }
  }

  lemma ContentInRange(inp: Input, c: Condensation, x: Candidate)
    requires ContentLike(inp, c, x)
    ensures x.superId < |c.supers| && x.run == c.supers[x.superId].exit
  {
  }

  method BlameErosion(inp: Input, c: Condensation, chains: seq<Chain>) returns (eroded: Option<seq<Candidate>>)
    requires WellFormed(inp, c) && forall ch :: ch in chains ==> (ChainReady(c, ch) <==> |ch.superIds| >= 2)
    ensures eroded.Some? <==> forall ch :: ch in chains ==> ChainReady(c, ch)
    ensures eroded.Some? ==> eroded.value == Eroded(inp, c, chains)
  {
    var origins := [];
    hide WellFormed;
    for k := 0 to |chains|
      invariant forall ch :: ch in chains[..k] ==> ChainReady(c, ch)
      invariant origins == Eroded(inp, c, chains[..k])
    {
      var ch := chains[k];
      assert ch in chains && chains[..k + 1][..k] == chains[..k];
      if |ch.superIds| < 2 {
        return None;
      }
      var sid := ch.superIds[1];
      var unknown := HasUnknownUpstream(inp, c, sid);
      if !InputFlawed(inp, c.supers[sid].exit) {
        origins := origins + [NewCandidate(inp, c, sid, Content, unknown).(
          score := Some(ch.scores[1]),
          base := Some(ch.scores[0]),
          drop := Some(ch.drop),
          cumulativePath := ch.runIds)];
      }
    }
    assert chains[..|chains|] == chains;
    eroded := Some(origins);
  }
}
