// The loops that find the origins, each proved against its specification in CutPoint.

module Localize {
  import opened Prelude
  import opened Graphs
  import opened BlameInput
  import opened Condense
  import opened Propagation
  import opened CutPoint

  method HasUnknownUpstream(inp: Input, c: Condensation, sid: nat) returns (unknown: bool)
    requires WellFormed(inp, c) && sid < |c.supers|
    ensures unknown == UnknownUpstream(inp, c, sid)
  {
    WellFormedDag(inp, c);
    hide WellFormed, Reaches;
    var ancestors := AncestorsOf(c.dag, sid);
    hide IsAncestor;
    unknown := exists a: nat :: a in ancestors && a < |c.supers| && HidesCulprit(inp, c, a);
  }

  ghost predicate DropBefore(inp: Input, c: Condensation, k: nat)
    requires k <= |c.topo| && forall i :: 0 <= i < |c.topo| ==> c.topo[i] < |c.supers|
  {
    exists i :: 0 <= i < k && ObservedDrop(inp, c, c.topo[i])
  }

  lemma DropNext(inp: Input, c: Condensation, k: nat)
    requires k < |c.topo| && forall i :: 0 <= i < |c.topo| ==> c.topo[i] < |c.supers|
    ensures DropBefore(inp, c, k + 1) <==> DropBefore(inp, c, k) || ObservedDrop(inp, c, c.topo[k])
    ensures !DropBefore(inp, c, 0)
  {
    hide ObservedDrop;
  }

  lemma NothingScanned(inp: Input, c: Condensation)
    requires forall i :: 0 <= i < |c.topo| ==> c.topo[i] < |c.supers|
    ensures forall b :: b != NoOrigin ==> Bucketed(inp, c, 0, b) == []
    ensures Filter(c.topo[..0], (s: nat) => s < |c.supers| && c.supers[s].score.None?) == []
    ensures !DropBefore(inp, c, 0) && (DropBefore(inp, c, |c.topo|) <==> AnyObservedDrop(inp, c))
  {
    hide ObservedDrop, BucketOf, EdgeCandidate;
  }

  // One pass over the topological order sorts every super-node into its bucket.
  method ScanEdges(inp: Input, c: Condensation)
    returns (drops: seq<Candidate>, spreading: seq<Candidate>, cured: seq<Candidate>, unscored: seq<nat>,
      significant: bool)
    requires WellFormed(inp, c) && forall i :: 0 <= i < |c.topo| ==> c.topo[i] < |c.supers|
    ensures drops == Bucketed(inp, c, |c.topo|, DropOrigin)
    ensures spreading == Bucketed(inp, c, |c.topo|, Propagating)
    ensures cured == Bucketed(inp, c, |c.topo|, RecoveredBoundary)
    ensures unscored == Filter(c.topo, (s: nat) => s < |c.supers| && c.supers[s].score.None?)
    ensures significant == AnyObservedDrop(inp, c)
  {
    hide *;
    drops, spreading, cured, unscored, significant := [], [], [], [], false;
    NothingScanned(inp, c);
    for k := 0 to |c.topo|
      invariant drops == Bucketed(inp, c, k, DropOrigin)
      invariant spreading == Bucketed(inp, c, k, Propagating)
      invariant cured == Bucketed(inp, c, k, RecoveredBoundary)
      invariant unscored == Filter(c.topo[..k], (s: nat) => s < |c.supers| && c.supers[s].score.None?)
      invariant significant <==> DropBefore(inp, c, k)
    {
      var sid := c.topo[k];
      FilterNext(c.topo, k, (s: nat) => s < |c.supers| && c.supers[s].score.None?);
      BucketedNext(inp, c, k, DropOrigin);
      BucketedNext(inp, c, k, Propagating);
      BucketedNext(inp, c, k, RecoveredBoundary);
      DropNext(inp, c, k);
      if c.supers[sid].score.None? {
        unscored := unscored + [sid];
        NeverBlamed(inp, c, sid);
      } else {
        significant := significant || ObservedDrop(inp, c, sid);
        var cand := Judge(inp, c, sid);
        match BucketOf(inp, c, sid)
        case DropOrigin => drops := drops + [cand];
        case Propagating => spreading := spreading + [cand];
        case RecoveredBoundary => cured := cured + [cand];
        case NoOrigin =>
      }
    }
    assert c.topo[..|c.topo|] == c.topo;
  }

  lemma {:induction false} FilterNext<T>(s: seq<T>, k: nat, keep: T -> bool)
    requires k < |s|
    ensures Filter(s[..k + 1], keep) == Filter(s[..k], keep) + if keep(s[k]) then [s[k]] else []
  {
    FilterAppend(s[..k], s[k], keep);
    assert s[..k + 1] == s[..k] + [s[k]];
  }

  lemma {:induction false} FilterAppend<T>(s: seq<T>, x: T, keep: T -> bool)
    ensures Filter(s + [x], keep) == Filter(s, keep) + if keep(x) then [x] else []
  {
    if s != [] {
      FilterAppend(s[1..], x, keep);
      assert (s + [x])[1..] == s[1..] + [x];
    }
  }

  // An unknown score is never a culprit.
  lemma NeverBlamed(inp: Input, c: Condensation, sid: nat)
    requires sid < |c.supers| && c.supers[sid].score.None?
    ensures BucketOf(inp, c, sid) == NoOrigin && !ObservedDrop(inp, c, sid)
  {
  }

  method Judge(inp: Input, c: Condensation, sid: nat) returns (cand: Candidate)
    requires WellFormed(inp, c) && sid < |c.supers| && c.supers[sid].score.Some?
    ensures cand == EdgeCandidate(inp, c, sid)
  {
    hide WellFormed;
    var unknown := HasUnknownUpstream(inp, c, sid);
    var preds := PredExits(c, sid);
    cand := NewCandidate(inp, c, sid, Content, unknown).(
      base := Base(inp, c, sid),
      drop := DropFrom(Base(inp, c, sid), c.supers[sid].score.value),
      observedDrop := ObservedDrop(inp, c, sid),
      recovered := AllHealthy(inp, SuccExits(c, sid)),
      baseAssumed := Lowest(inp, preds).None? && SourceLike(inp, c, sid),
      unmeasuredInputs := preds - KnownScores(inp, preds));
  }

  // ---------- Erosion ----------

  // The successors in chronological order; a later one wins only with a strictly lower score.
  method FindNext(inp: Input, c: Condensation, sid: nat) returns (best: Option<RunId>)
    requires sid < |c.supers| && c.supers[sid].score.Some?
    ensures best == NextRun(inp, c, sid)
  {
    var score := c.supers[sid].score.value;
    ghost var fit := Eroding(inp, SuccExits(c, sid), score);
    var succs := SortRuns(inp.endTimes, SuccExits(c, sid));
    best := None;
    for k := 0 to |succs|
      invariant best.None? ==> forall i :: 0 <= i < k ==> succs[i] !in fit
      invariant best.Some? ==> best.value in succs[..k] && best.value in fit
      invariant best.Some? ==> forall i :: 0 <= i < k && succs[i] in fit && succs[i] != best.value ==>
        StepLess(RunStep(inp, best.value), RunStep(inp, succs[i]))
    {
      var succ := succs[k];
      assert succ in Elements(succs);
      if ScoreOf(inp, succ).Some? && score - ScoreOf(inp, succ).value >= inp.config.cumStepMin {
        if best.None? || ScoreOf(inp, succ).value < ScoreOf(inp, best.value).value {
          best := Some(succ);
        }
      }
    }
    EveryFitSeen(inp, c, sid, succs, fit);
    if best.Some? {
      WorstUnique(inp, fit, best.value);
    }
  }

  lemma EveryFitSeen(inp: Input, c: Condensation, sid: nat, succs: seq<RunId>, fit: set<RunId>)
    requires Elements(succs) == SuccExits(c, sid) && fit <= SuccExits(c, sid)
    ensures forall r :: r in fit ==> exists i :: 0 <= i < |succs| && succs[i] == r
  {
    forall r | r in fit ensures exists i :: 0 <= i < |succs| && succs[i] == r {
      assert r in Elements(succs);
    }
  }

  lemma WorstUnique(inp: Input, s: set<RunId>, m: RunId)
    requires m in s && forall x :: x in s && x != m ==> StepLess(RunStep(inp, m), RunStep(inp, x))
    ensures Worst(inp, s) == m
  {
  }

  method WalkDown(inp: Input, c: Condensation, sid: nat) returns (path: seq<nat>)
    requires WellFormed(inp, c) && sid < |c.supers| && c.supers[sid].score.Some?
    ensures path == Erode(inp, c, sid)
  {
    hide *;
    path := [sid];
    var cur: nat := sid;
    ghost var front: seq<nat> := [];
    assert front + Erode(inp, c, cur) == Erode(inp, c, cur);
    while true
      invariant cur < |c.supers| && c.supers[cur].score.Some? && path == front + [cur]
      invariant front + Erode(inp, c, cur) == Erode(inp, c, sid)
      decreases |Downstream(c.dag, cur)|
    {
      var best := FindNext(inp, c, cur);
      if best.None? {
        ErodeEnds(inp, c, cur);
        return;
      }
      NextIsSuccessor(inp, c, cur, best.value);
      NextIsScored(inp, c, cur, best.value);
      ErodeSteps(inp, c, cur, best.value);
      Regroup(front, cur, Erode(inp, c, c.superOf[best.value]));
      front := front + [cur];
      cur := c.superOf[best.value];
      path := path + [cur];
    }
  }

  lemma ErodeEnds(inp: Input, c: Condensation, sid: nat)
    requires WellFormed(inp, c) && sid < |c.supers| && NextRun(inp, c, sid).None?
    ensures Erode(inp, c, sid) == [sid]
  {
  }

  lemma ErodeSteps(inp: Input, c: Condensation, sid: nat, r: RunId)
    requires WellFormed(inp, c) && sid < |c.supers| && NextRun(inp, c, sid) == Some(r)
    requires r in c.superOf && c.superOf[r] < |c.supers|
    ensures Erode(inp, c, sid) == [sid] + Erode(inp, c, c.superOf[r])
  {
  }

  lemma NextIsScored(inp: Input, c: Condensation, sid: nat, r: RunId)
    requires WellFormed(inp, c) && sid < |c.supers| && NextRun(inp, c, sid) == Some(r)
    ensures r in c.superOf && c.superOf[r] < |c.supers| && c.supers[c.superOf[r]].score.Some?
    ensures c.supers[c.superOf[r]].score == ScoreOf(inp, r)
    ensures c.supers[sid].score.Some? && ScoreOf(inp, r).Some?
    ensures c.supers[sid].score.value - ScoreOf(inp, r).value >= inp.config.cumStepMin
  {
    NextIsSuccessor(inp, c, sid, r);
    SuperScore(inp, c, c.superOf[r]);
    hide WellFormed;
    assert r in Eroding(inp, SuccExits(c, sid), c.supers[sid].score.value);
  }

  lemma SuperScore(inp: Input, c: Condensation, sid: nat)
    requires WellFormed(inp, c) && sid < |c.supers|
    ensures c.supers[sid].score == ScoreOf(inp, c.supers[sid].exit)
  {
    hide Reaches, ProperTopo, ProperMembers, Acyclic;
    assert ProperSuper(inp, c.graph, c.supers[sid]);
  }

  method FindChains(inp: Input, c: Condensation) returns (chains: seq<Chain>)
    requires WellFormed(inp, c)
    ensures chains == Chains(inp, c)
  {
    hide *;
    ChainsAre(inp, c);
    chains := [];
    var consumed: set<nat> := {};
    for k := 0 to |c.topo|
      invariant forall i :: 0 <= i < |c.topo| ==> c.topo[i] < |c.supers|
      invariant chains + ChainsFrom(inp, c, k, consumed) == Chains(inp, c)
    {
      var sid := c.topo[k];
      ChainsNext(inp, c, k, consumed);
      SkippedIs(inp, c, sid, consumed);
      if sid !in consumed && Healthy(inp, c.supers[sid].score) {
        var path := WalkDown(inp, c, sid);
        ChainAtIs(inp, c, sid, path);
        var ch := ChainOf(c, path);
        if IsErosion(inp, ch) {
          assert chains + ([ch] + ChainsFrom(inp, c, k + 1, consumed + Elements(path))) ==
                 (chains + [ch]) + ChainsFrom(inp, c, k + 1, consumed + Elements(path));
          consumed := consumed + Elements(path);
          chains := chains + [ch];
        }
      }
    }
    ChainsEnd(inp, c, consumed);
  }

  lemma SkippedIs(inp: Input, c: Condensation, sid: nat, consumed: set<nat>)
    requires sid < |c.supers|
    ensures Skipped(inp, c, sid, consumed) <==> sid in consumed || !Healthy(inp, c.supers[sid].score)
    ensures Healthy(inp, c.supers[sid].score) ==> c.supers[sid].score.Some?
  {
  }

  lemma ChainAtIs(inp: Input, c: Condensation, sid: nat, path: seq<nat>)
    requires WellFormed(inp, c) && sid < |c.supers| && path == Erode(inp, c, sid)
    ensures path != [] && InRange(c, path) && ChainAt(inp, c, sid) == ChainOf(c, path)
    ensures ChainOf(c, path).superIds == path
  {
    hide WellFormed;
  }

  // ---------- Inside a cycle ----------

  ghost predicate IsBestAmong(inp: Input, g: Graph, seen: seq<RunId>, best: RunId) {
    && best in seen && MemberQualifies(inp, g, best) && ScoreOf(inp, best).Some?
    && forall x :: x in seen && x != best && MemberQualifies(inp, g, x) ==>
       StepLess(RunStep(inp, best), RunStep(inp, x))
  }

  // The best member seen so far, with everything tied to it.
  ghost predicate Tracked(inp: Input, g: Graph, seen: seq<RunId>, best: Option<RunId>, tied: seq<RunId>) {
    && (best.None? ==> forall x :: x in seen ==> !MemberQualifies(inp, g, x))
    && (best.Some? ==> IsBestAmong(inp, g, seen, best.value) && tied == TiedMembers(inp, g, seen, best.value))
  }

  lemma QualifiedIsScored(inp: Input, g: Graph, m: RunId)
    requires MemberQualifies(inp, g, m)
    ensures ScoreOf(inp, m).Some?
  {
  }

  lemma {:induction false} FilterNone<T>(s: seq<T>, keep: T -> bool)
    requires forall i :: 0 <= i < |s| ==> !keep(s[i])
    ensures Filter(s, keep) == []
  {
    if s != [] {
      FilterNone(s[1..], keep);
    }
  }

  lemma TrackNew(inp: Input, g: Graph, seen: seq<RunId>, best: Option<RunId>, tied: seq<RunId>, m: RunId)
    requires Tracked(inp, g, seen, best, tied) && MemberQualifies(inp, g, m)
    requires best.Some? ==> ScoreOf(inp, m).Some? && ScoreOf(inp, m).value < ScoreOf(inp, best.value).value
    ensures Tracked(inp, g, seen + [m], Some(m), [m])
  {
    QualifiedIsScored(inp, g, m);
    hide MemberQualifies;
    var keep := (x: RunId) => MemberQualifies(inp, g, x) && ScoreOf(inp, x) == ScoreOf(inp, m);
    forall i | 0 <= i < |seen| ensures !keep(seen[i]) {
      assert seen[i] in seen;
    }
    FilterNone(seen, keep);
    FilterAppend(seen, m, keep);
    assert TiedMembers(inp, g, seen + [m], m) == Filter(seen + [m], keep);
  }

  lemma TrackOld(inp: Input, g: Graph, seen: seq<RunId>, best: Option<RunId>, tied: seq<RunId>, m: RunId)
    requires Tracked(inp, g, seen, best, tied) && (best.None? ==> !MemberQualifies(inp, g, m))
    requires best.Some? && MemberQualifies(inp, g, m) ==> StepLess(RunStep(inp, best.value), RunStep(inp, m))
    ensures Tracked(inp, g, seen + [m], best,
      if best.Some? && MemberQualifies(inp, g, m) && ScoreOf(inp, m) == ScoreOf(inp, best.value) then tied + [m]
        else tied)
  {
    hide MemberQualifies;
    if best.Some? {
      var keep := (x: RunId) => MemberQualifies(inp, g, x) && ScoreOf(inp, x) == ScoreOf(inp, best.value);
      FilterAppend(seen, m, keep);
      assert TiedMembers(inp, g, seen + [m], best.value) == Filter(seen + [m], keep);
      assert TiedMembers(inp, g, seen, best.value) == Filter(seen, keep);
    }
  }

  // Members in chronological order; ties are collected, never re-ordered.
  method BestMember(inp: Input, g: Graph, members: seq<RunId>) returns (best: Option<RunId>, tied: seq<RunId>)
    requires Chronological(inp.endTimes, members)
    ensures best.None? <==> Qualified(inp, g, members) == {}
    ensures best.Some? ==> best.value == Worst(inp, Qualified(inp, g, members))
    ensures best.Some? ==> tied == TiedMembers(inp, g, members, best.value)
  {
    best, tied := None, [];
    hide MemberQualifies, TiedMembers, IsBestAmong, StepLess;
    for k := 0 to |members|
      invariant Tracked(inp, g, members[..k], best, tied)
    {
      var m := members[k];
      assert members[..k + 1] == members[..k] + [m];
      if MemberQualifies(inp, g, m) {
        QualifiedIsScored(inp, g, m);
        if best.Some? {
          LaterLoses(inp, g, members, k, best.value);
        }
        if best.None? || ScoreOf(inp, m).value < ScoreOf(inp, best.value).value {
          TrackNew(inp, g, members[..k], best, tied, m);
          best, tied := Some(m), [m];
        } else {
          TrackOld(inp, g, members[..k], best, tied, m);
          if ScoreOf(inp, m) == ScoreOf(inp, best.value) {
            tied := tied + [m];
          }
        }
      } else {
        TrackOld(inp, g, members[..k], best, tied, m);
      }
    }
    assert members[..|members|] == members;
    TrackedAll(inp, g, members, best, tied);
  }

  // A later member with no lower score stays behind the current best.
  lemma LaterLoses(inp: Input, g: Graph, members: seq<RunId>, k: nat, best: RunId)
    requires k < |members| && Chronological(inp.endTimes, members) && IsBestAmong(inp, g, members[..k], best)
    requires ScoreOf(inp, members[k]).Some?
    ensures ScoreOf(inp, best).Some?
    ensures ScoreOf(inp, members[k]).value >= ScoreOf(inp, best).value ==>
      StepLess(RunStep(inp, best), RunStep(inp, members[k]))
  {
    hide MemberQualifies;
    var i :| 0 <= i < k && members[..k][i] == best;
    assert members[i] == best;
  }

  lemma TrackedAll(inp: Input, g: Graph, members: seq<RunId>, best: Option<RunId>, tied: seq<RunId>)
    requires Tracked(inp, g, members, best, tied)
    ensures best.None? <==> Qualified(inp, g, members) == {}
    ensures best.Some? ==> best.value == Worst(inp, Qualified(inp, g, members))
    ensures best.Some? ==> tied == TiedMembers(inp, g, members, best.value)
  {
    hide MemberQualifies;
    var fit := Qualified(inp, g, members);
    if best.Some? {
      assert best.value in fit;
      WorstUnique(inp, fit, best.value);
    }
  }

  method FindInside(inp: Input, c: Condensation, sid: nat) returns (found: Option<Candidate>)
    requires WellFormed(inp, c) && sid < |c.supers|
    ensures found == InternalCandidate(inp, c, sid)
  {
    hide WellFormed, MemberQualifies, UnknownUpstream, ProperSuper, Channels, Lowest, MemberRecovered;
    var sn := c.supers[sid];
    found := None;
    if |sn.members| >= 2 {
      MembersInOrder(inp, c, sid);
      var best, tied := BestMember(inp, c.graph, sn.members);
      if best.Some? {
        var m := best.value;
        var unknown := HasUnknownUpstream(inp, c, sid);
        found := Some(NewCandidate(inp, c, sid, Content, unknown).(
          score := if sn.score.Some? then sn.score else ScoreOf(inp, m),
          observedDrop := Lowest(inp, RunPreds(c.graph, m)).Some?,
          recovered := MemberRecovered(inp, c.graph, m),
          sccMember := Some(m),
          tied := if |tied| > 1 then tied else []));
      }
    }
  }

  method FindInternal(inp: Input, c: Condensation, already: set<nat>) returns (out: seq<Candidate>)
    requires WellFormed(inp, c) && forall i :: 0 <= i < |c.topo| ==> c.topo[i] < |c.supers|
    ensures out == Internal(inp, c, |c.topo|, already)
  {
    out := [];
    for k := 0 to |c.topo|
      invariant out == Internal(inp, c, k, already)
    {
      hide *;
      InternalNext(inp, c, k, already);
      if c.topo[k] !in already {
        var found := FindInside(inp, c, c.topo[k]);
        if found.Some? {
          out := out + [found.value];
        }
      }
    }
  }

  lemma MembersInOrder(inp: Input, c: Condensation, sid: nat)
    requires WellFormed(inp, c) && sid < |c.supers|
    ensures Chronological(inp.endTimes, c.supers[sid].members)
  {
    hide Reaches, ProperTopo, ProperMembers, Acyclic;
    assert ProperSuper(inp, c.graph, c.supers[sid]);
  }

  // ---------- The deterministic channel ----------

  method AncestorRewrites(inp: Input, c: Condensation, sid: nat) returns (rewrites: set<(string, string)>)
    requires WellFormed(inp, c) && sid < |c.supers|
    ensures forall k, v :: (k, v) in rewrites <==> Circulates(inp, c, sid, k, v)
  {
    WellFormedDag(inp, c);
    hide WellFormed, Reaches;
    var ancestors := AncestorsOf(c.dag, sid);
    hide IsAncestor;
    rewrites := set a, m, v | a in ancestors && a < |c.supers| && m in c.supers[a].members && v in Violations(inp, m) ::
      (v.key, v.to);
    forall k, v | Circulates(inp, c, sid, k, v) ensures (k, v) in rewrites {
      var a: nat, m: RunId, w: Violation :| IsAncestor(c.dag, a, sid) && a < |c.supers| && m in c.supers[a].members &&
        w in Violations(inp, m) && w.key == k && w.to == v;
    }
  }

  method IsFresh(inp: Input, c: Condensation, sid: nat) returns (isFresh: bool)
    requires WellFormed(inp, c) && sid < |c.supers|
    ensures isFresh == FreshContract(inp, c, sid)
  {
    hide WellFormed, Circulates;
    var rewrites := AncestorRewrites(inp, c, sid);
    isFresh := exists v ::
      v in Violations(inp, c.supers[sid].exit) && (v.key, v.from) !in rewrites && (v.key, v.to) !in rewrites;
  }

  method FindHardOrigins(inp: Input, c: Condensation) returns (out: seq<Candidate>)
    requires WellFormed(inp, c) && forall i :: 0 <= i < |c.topo| ==> c.topo[i] < |c.supers|
    ensures out == HardOrigins(inp, c)
  {
    out := [];
    var secondary: seq<nat> := [];
    hide WellFormed, FreshContract, HasFailSignal, DeterministicDefect;
    for k := 0 to |c.topo|
      invariant out == Primaries(inp, c, k) && secondary == Secondaries(inp, c, k)
    {
      var sid := c.topo[k];
      if !HardFault(inp, c, sid) {
        continue;
      }
      var isFresh := IsFresh(inp, c, sid);
      if HasFailSignal(inp, c.supers[sid].exit) || isFresh {
        out := out + [HardCandidate(inp, c, sid)];
      } else {
        secondary := secondary + [sid];
      }
    }
    if out == [] && secondary != [] {
      assert secondary[0] in secondary;
      out := [NewCandidate(inp, c, secondary[0], Deterministic, true)];
    }
  }

  // ---------- The whole analysis ----------

  method DropShadowed(inp: Input, c: Condensation, ids: set<nat>, origins: seq<Candidate>) returns (out: seq<Candidate>)
    requires WellFormed(inp, c) && forall x :: x in origins ==> x.superId < |c.supers|
    ensures out == Unshadowed(c, ids, origins)
  {
    WellFormedDag(inp, c);
    hide WellFormed, Reaches;
    out := [];
    for k := 0 to |origins|
      invariant out == Unshadowed(c, ids, origins[..k])
    {
      assert origins[k] in origins;
      var ancestors := AncestorsOf(c.dag, origins[k].superId);
      assert origins[..k + 1][..k] == origins[..k];
      if !(exists a :: a in ids && a in ancestors) {
        out := out + [origins[k]];
      }
    }
    assert origins[..|origins|] == origins;
  }

  method MergeChannels(content: seq<Candidate>, det: seq<Candidate>) returns (merged: seq<Candidate>)
    ensures merged == Merge(content, det)
  {
    hide RunsOf, MergeOne;
    merged := [];
    for k := 0 to |content|
      invariant |merged| == k && forall i :: 0 <= i < k ==> merged[i] == MergeOne(RunsOf(det), content[i])
    {
      merged := merged + [MergeOne(RunsOf(det), content[k])];
    }
    ghost var first := merged;
    for k := 0 to |det|
      invariant merged == first + Filter(det[..k], (x: Candidate) => x.run !in RunsOf(content))
    {
      FilterNext(det, k, (x: Candidate) => x.run !in RunsOf(content));
      if det[k].run !in RunsOf(content) {
        merged := merged + [det[k]];
      }
    }
    assert det[..|det|] == det;
  }
}
