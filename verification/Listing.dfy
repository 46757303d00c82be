// In which order the candidates come, and what a hard origin says of itself.

module Listing {
  import opened Prelude
  import opened Graphs
  import opened BlameInput
  import opened RunRecord
  import opened Condense
  import opened Propagation
  import opened CutPoint
  import Localize
  import opened Origins
  import opened CandidateFacts
  import opened Soundness
  import opened Repeats
  import opened Measured
  import Attribution
  import Named

  ghost predicate ComesBefore(c: Condensation, s: nat, t: nat) {
    exists k: nat, l: nat :: k < l < |c.topo| && c.topo[k] == s && c.topo[l] == t
  }

  // ---------- Lists in topological order ----------

  ghost predicate InTopo(c: Condensation, k: nat, cs: seq<Candidate>) {
    && k <= |c.topo| && (forall x :: x in cs ==> x.superId in c.topo[..k])
    && forall i, j :: 0 <= i < j < |cs| ==> ComesBefore(c, cs[i].superId, cs[j].superId)
  }

  lemma NoneInTopo(c: Condensation)
    ensures InTopo(c, 0, [])
  {
  }

  lemma TopoNext(c: Condensation, k: nat, cs: seq<Candidate>, x: Candidate)
    requires InTopo(c, k, cs) && k < |c.topo|
    ensures InTopo(c, k + 1, cs) && (x.superId == c.topo[k] ==> InTopo(c, k + 1, cs + [x]))
  {
    assert c.topo[..k + 1] == c.topo[..k] + [c.topo[k]];
    forall y | y in cs ensures ComesBefore(c, y.superId, c.topo[k]) {
      var l: nat :| l < k && c.topo[..k][l] == y.superId;
      assert c.topo[l] == y.superId && c.topo[k] == c.topo[k];
    }
    hide ComesBefore;
    if x.superId == c.topo[k] {
      var all := cs + [x];
      forall i, j | 0 <= i < j < |all| ensures ComesBefore(c, all[i].superId, all[j].superId) {
        assert all[i] in cs;
      }
    }
  }

  lemma {:induction false} BucketInTopo(inp: Input, c: Condensation, k: nat, b: Bucket)
    requires k <= |c.topo| && b != NoOrigin && forall i :: 0 <= i < |c.topo| ==> c.topo[i] < |c.supers|
    ensures InTopo(c, k, Bucketed(inp, c, k, b))
  {
    hide *;
    if k == 0 {
      Attribution.NoneYet(inp, c, b);
      NoneInTopo(c);
    } else {
      BucketInTopo(inp, c, k - 1, b);
      BucketedNext(inp, c, k - 1, b);
      var n := c.topo[k - 1];
      assert Bucketed(inp, c, k - 1, b) + [] == Bucketed(inp, c, k - 1, b);
      if BucketOf(inp, c, n) == b {
        Attribution.EdgeStays(inp, c, n);
        TopoNext(c, k - 1, Bucketed(inp, c, k - 1, b), EdgeCandidate(inp, c, n));
      } else {
        TopoStays(c, k - 1, Bucketed(inp, c, k - 1, b));
      }
    }
  }

  lemma TopoStays(c: Condensation, k: nat, cs: seq<Candidate>)
    requires InTopo(c, k, cs) && k < |c.topo|
    ensures InTopo(c, k + 1, cs)
  {
    hide ComesBefore;
    assert c.topo[..k + 1] == c.topo[..k] + [c.topo[k]];
  }

  lemma {:induction false} InsideInTopo(inp: Input, c: Condensation, k: nat, already: set<nat>)
    requires k <= |c.topo| && forall i :: 0 <= i < |c.topo| ==> c.topo[i] < |c.supers|
    ensures InTopo(c, k, Internal(inp, c, k, already))
  {
    hide *;
    if k == 0 {
      InternalNone(inp, c, already);
      NoneInTopo(c);
    } else {
      InsideInTopo(inp, c, k - 1, already);
      InternalNext(inp, c, k - 1, already);
      var n := c.topo[k - 1];
      assert Internal(inp, c, k - 1, already) + [] == Internal(inp, c, k - 1, already);
      InternalAt(inp, c, n);
      TopoStays(c, k - 1, Internal(inp, c, k - 1, already));
      if n !in already && InternalCandidate(inp, c, n).Some? {
        TopoNext(c, k - 1, Internal(inp, c, k - 1, already), InternalCandidate(inp, c, n).value);
      }
    }
  }

  lemma {:induction false} PrimariesInTopo(inp: Input, c: Condensation, k: nat)
    requires k <= |c.topo| && forall i :: 0 <= i < |c.topo| ==> c.topo[i] < |c.supers|
    ensures InTopo(c, k, Primaries(inp, c, k))
  {
    hide PrimaryActor, HardCandidate, InTopo;
    if k == 0 {
      NoneInTopo(c);
    } else {
      var n := c.topo[k - 1];
      PrimariesInTopo(inp, c, k - 1);
      Named.HardSuper(inp, c, n);
      TopoStays(c, k - 1, Primaries(inp, c, k - 1));
      TopoNext(c, k - 1, Primaries(inp, c, k - 1), HardCandidate(inp, c, n));
      assert Primaries(inp, c, k - 1) + [] == Primaries(inp, c, k - 1);
    }
  }

  lemma HardInTopo(inp: Input, c: Condensation)
    requires forall i :: 0 <= i < |c.topo| ==> c.topo[i] < |c.supers|
    ensures forall i, j :: 0 <= i < j < |HardOrigins(inp, c)| ==>
      ComesBefore(c, HardOrigins(inp, c)[i].superId, HardOrigins(inp, c)[j].superId)
  {
    PrimariesInTopo(inp, c, |c.topo|);
    hide Primaries, Secondaries, ComesBefore, Channels;
  }

  // ---------- The order of the content origins ----------

  // Sharp falls, then low boundaries, then breaks inside cycles.
  ghost function Rank(inp: Input, c: Condensation, s: nat): nat {
    if !Named.BreaksSharply(inp, c, s) then 2 else if FellHere(inp, c, s) then 0 else 1
  }

  ghost predicate RanksBefore(inp: Input, c: Condensation, s: nat, t: nat) {
    Rank(inp, c, s) < Rank(inp, c, t) || (Rank(inp, c, s) == Rank(inp, c, t) && ComesBefore(c, s, t))
  }

  // Declines go by their heads.
  ghost predicate HeadsBefore(c: Condensation, x: Candidate, y: Candidate) {
    x.cumulativePath != [] && y.cumulativePath != [] && exists s: nat, t: nat ::
      s < |c.supers| && t < |c.supers| && c.supers[s].exit == x.cumulativePath[0] &&
      c.supers[t].exit == y.cumulativePath[0] && ComesBefore(c, s, t)
  }

  ghost predicate Precedes(inp: Input, c: Condensation, x: Candidate, y: Candidate) {
    if x.cumulativePath != [] then HeadsBefore(c, x, y)
    else y.cumulativePath == [] && RanksBefore(inp, c, x.superId, y.superId)
  }

  ghost predicate Listed(inp: Input, c: Condensation, cs: seq<Candidate>) {
    forall i, j :: 0 <= i < j < |cs| ==> Precedes(inp, c, cs[i], cs[j])
  }

  // Candidates of one rank and without a decline, in topological order, are listed.
  ghost predicate OneRank(inp: Input, c: Condensation, cs: seq<Candidate>, rank: nat) {
    forall x :: x in cs ==> x.cumulativePath == [] && Rank(inp, c, x.superId) == rank
  }

  lemma RankListed(inp: Input, c: Condensation, cs: seq<Candidate>, rank: nat)
    requires InTopo(c, |c.topo|, cs) && OneRank(inp, c, cs, rank)
    ensures Listed(inp, c, cs)
  {
    hide ComesBefore, Rank;
    forall i, j | 0 <= i < j < |cs| ensures Precedes(inp, c, cs[i], cs[j]) {
      assert cs[i] in cs && cs[j] in cs;
    }
  }

  lemma RanksJoin(inp: Input, c: Condensation, cs: seq<Candidate>, ds: seq<Candidate>, rank: nat)
    requires Listed(inp, c, cs) && Listed(inp, c, ds) && OneRank(inp, c, ds, rank)
    requires forall x :: x in cs ==> x.cumulativePath == [] && Rank(inp, c, x.superId) < rank
    ensures Listed(inp, c, cs + ds)
  {
    var all := cs + ds;
    forall i, j | 0 <= i < j < |all| ensures Precedes(inp, c, all[i], all[j]) {
      if i < |cs| <= j {
        assert all[i] in cs && all[j] in ds;
      }
    }
    hide Rank, ComesBefore;
  }

  lemma BucketRank(inp: Input, c: Condensation, b: Bucket, x: Candidate)
    requires WellFormed(inp, c) && forall i :: 0 <= i < |c.topo| ==> c.topo[i] < |c.supers|
    requires b != NoOrigin && x in Bucketed(inp, c, |c.topo|, b)
    ensures x.cumulativePath == []
    ensures Rank(inp, c, x.superId) == match b case DropOrigin => 0 case Propagating => 1 case _ => 2
  {
    hide *;
    Attribution.EdgeBucket(inp, c, |c.topo|, b, x);
    BucketedAreEdges(inp, c, |c.topo|, b);
    EdgeMeasured(inp, c, x);
    BucketMeans(inp, c, x.superId);
    Named.SharplyIs(inp, c, x.superId);
    DimIs(inp, c, x.superId);
    RankIs(inp, c, x.superId);
  }

  lemma RankIs(inp: Input, c: Condensation, s: nat)
    ensures Rank(inp, c, s) ==
      if !Named.BreaksSharply(inp, c, s) then 2 else if FellHere(inp, c, s) then 0 else 1
  {
  }

  lemma InsideRank(inp: Input, c: Condensation, x: Candidate)
    requires WellFormed(inp, c) && forall i :: 0 <= i < |c.topo| ==> c.topo[i] < |c.supers|
    requires x in Internal(inp, c, |c.topo|, SuperIds(SharpOrigins(inp, c)))
    ensures x.cumulativePath == [] && Rank(inp, c, x.superId) == 2
  {
    hide *;
    var ids := SuperIds(SharpOrigins(inp, c));
    InternalAreCycles(inp, c, |c.topo|, ids);
    InternalOutside(inp, c, |c.topo|, ids);
    CycleBare(inp, c, x);
    CycleInRange(inp, c, x);
    Named.SharpNames(inp, c, x.superId);
    Named.IdsAre(SharpOrigins(inp, c), x.superId);
    RankIs(inp, c, x.superId);
  }

  lemma CycleInRange(inp: Input, c: Condensation, x: Candidate)
    requires CycleLike(inp, c, x)
    ensures x.superId < |c.supers|
  {
  }

  lemma BrokenListed(inp: Input, c: Condensation)
    requires WellFormed(inp, c) && forall i :: 0 <= i < |c.topo| ==> c.topo[i] < |c.supers|
    ensures Listed(inp, c, Broken(inp, c))
  {
    hide *;
    var n := |c.topo|;
    var falls, low := Bucketed(inp, c, n, DropOrigin), Bucketed(inp, c, n, Propagating);
    var inside := Internal(inp, c, n, SuperIds(SharpOrigins(inp, c)));
    SharpAre(inp, c);
    Named.BrokenIs(inp, c);
    BucketInTopo(inp, c, n, DropOrigin);
    BucketInTopo(inp, c, n, Propagating);
    InsideInTopo(inp, c, n, SuperIds(SharpOrigins(inp, c)));
    forall x | x in falls ensures x.cumulativePath == [] && Rank(inp, c, x.superId) == 0 {
      BucketRank(inp, c, DropOrigin, x);
    }
    forall x | x in low ensures x.cumulativePath == [] && Rank(inp, c, x.superId) == 1 {
      BucketRank(inp, c, Propagating, x);
    }
    forall x | x in inside ensures x.cumulativePath == [] && Rank(inp, c, x.superId) == 2 {
      InsideRank(inp, c, x);
    }
    RanksAre(inp, c, falls, 0);
    RanksAre(inp, c, low, 1);
    RanksAre(inp, c, inside, 2);
    RankListed(inp, c, falls, 0);
    RankListed(inp, c, low, 1);
    RankListed(inp, c, inside, 2);
    RanksJoin(inp, c, falls, low, 1);
    RanksJoin(inp, c, falls + low, inside, 2);
  }

  lemma RanksAre(inp: Input, c: Condensation, cs: seq<Candidate>, rank: nat)
    ensures OneRank(inp, c, cs, rank) <==>
      forall x :: x in cs ==> x.cumulativePath == [] && Rank(inp, c, x.superId) == rank
  {
  }

  // ---------- Declines ----------

  ghost predicate FromChain(inp: Input, c: Condensation, chains: seq<Chain>, i: nat, x: Candidate) {
    i < |chains| && ChainReady(c, chains[i]) && chains[i].superIds != [] && InRange(c, chains[i].superIds) &&
    x.cumulativePath != [] && chains[i].superIds[0] < |c.supers| &&
    x.cumulativePath[0] == c.supers[chains[i].superIds[0]].exit
  }

  ghost predicate FromChains(inp: Input, c: Condensation, chains: seq<Chain>, cs: seq<Candidate>, from: seq<nat>) {
    && |from| == |cs| && (forall i :: 0 <= i < |cs| ==> FromChain(inp, c, chains, from[i], cs[i]))
    && forall i, j :: 0 <= i < j < |from| ==> from[i] < from[j]
  }

  lemma ChainStarts(inp: Input, c: Condensation, ch: Chain)
    requires IsErosionChain(inp, c, ch) && ChainReady(c, ch)
    ensures |ch.superIds| >= 2 && InRange(c, ch.superIds) && ch.superIds[0] < |c.supers| && ch.superIds[1] < |c.supers|
    ensures ErosionCandidate(inp, c, ch).cumulativePath != []
    ensures ErosionCandidate(inp, c, ch).cumulativePath[0] == c.supers[ch.superIds[0]].exit
  {
    assert ch.superIds[0] in ch.superIds;
    hide UnknownUpstream, Channels, StepsTo, Stuck, Origins.Declines, Origins.Falls;
  }

  lemma FromNext(inp: Input, c: Condensation, chains: seq<Chain>, n: nat, cs: seq<Candidate>, from: seq<nat>,
                 x: Candidate)
    requires n < |chains| && FromChains(inp, c, chains[..n], cs, from)
    ensures FromChains(inp, c, chains, cs, from)
    ensures FromChain(inp, c, chains, n, x) ==> FromChains(inp, c, chains, cs + [x], from + [n])
  {
    hide ChainReady;
    forall i | 0 <= i < |cs| ensures from[i] < n && FromChain(inp, c, chains, from[i], cs[i]) {
      assert FromChain(inp, c, chains[..n], from[i], cs[i]);
      assert chains[..n][from[i]] == chains[from[i]];
    }
    hide FromChain;
  }

  lemma FromNone(inp: Input, c: Condensation)
    ensures FromChains(inp, c, [], Eroded(inp, c, []), [])
  {
  }

  lemma ErodedNext(inp: Input, c: Condensation, chains: seq<Chain>)
    requires chains != [] && forall ch :: ch in chains ==> ChainReady(c, ch)
    ensures forall ch :: ch in chains[..|chains| - 1] ==> ch in chains
    ensures var n := |chains| - 1;
      ChainReady(c, chains[n]) && Eroded(inp, c, chains) == Eroded(inp, c, chains[..n]) +
        if InputFlawed(inp, c.supers[chains[n].superIds[1]].exit) then [] else [ErosionCandidate(inp, c, chains[n])]
  {
    assert chains[|chains| - 1] in chains;
    assert forall ch :: ch in chains[..|chains| - 1] ==> ch in chains;
    hide ErosionCandidate, InputFlawed;
  }

  lemma {:induction false} ErodedFrom(inp: Input, c: Condensation, chains: seq<Chain>) returns (from: seq<nat>)
    requires forall ch :: ch in chains ==> ChainReady(c, ch) && IsErosionChain(inp, c, ch)
    ensures FromChains(inp, c, chains, Eroded(inp, c, chains), from)
  {
    hide *;
    if chains == [] {
      from := [];
      FromNone(inp, c);
    } else {
      var n := |chains| - 1;
      ErodedNext(inp, c, chains);
      assert chains[n] in chains;
      from := ErodedFrom(inp, c, chains[..n]);
      ChainStarts(inp, c, chains[n]);
      var x := ErosionCandidate(inp, c, chains[n]);
      StartsChain(inp, c, chains, n, x);
      FromNext(inp, c, chains, n, Eroded(inp, c, chains[..n]), from, x);
      assert Eroded(inp, c, chains[..n]) + [] == Eroded(inp, c, chains[..n]);
      from := if InputFlawed(inp, c.supers[chains[n].superIds[1]].exit) then from else from + [n];
    }
  }

  lemma StartsChain(inp: Input, c: Condensation, chains: seq<Chain>, i: nat, x: Candidate)
    requires i < |chains| && ChainReady(c, chains[i]) && chains[i].superIds != [] && InRange(c, chains[i].superIds)
    requires chains[i].superIds[0] < |c.supers| && x.cumulativePath != []
    requires x.cumulativePath[0] == c.supers[chains[i].superIds[0]].exit
    ensures FromChain(inp, c, chains, i, x)
  {
  }

  lemma ErodedListed(inp: Input, c: Condensation)
    requires WellFormed(inp, c) && forall ch :: ch in Chains(inp, c) ==> ChainReady(c, ch)
    ensures Listed(inp, c, Eroded(inp, c, Chains(inp, c)))
  {
    hide *;
    TopoInRange(inp, c);
    ChainsReadyIff(inp, c);
    ChainsAre(inp, c);
    var chains := Chains(inp, c);
    var at := HeadsInOrder(inp, c, 0, {});
    var from := ErodedFrom(inp, c, chains);
    FromListed(inp, c, chains, at, Eroded(inp, c, chains), from);
  }

  lemma FromListed(inp: Input, c: Condensation, chains: seq<Chain>, at: seq<nat>, cs: seq<Candidate>, from: seq<nat>)
    requires HeadsFrom(c, 0, chains, at) && FromChains(inp, c, chains, cs, from)
    ensures Listed(inp, c, cs)
  {
    forall i, j | 0 <= i < j < |cs| ensures Precedes(inp, c, cs[i], cs[j]) {
      var a, b := from[i], from[j];
      assert FromChain(inp, c, chains, a, cs[i]) && FromChain(inp, c, chains, b, cs[j]) && a < b;
      assert HeadAt(c, chains[a], at[a]) && HeadAt(c, chains[b], at[b]) && at[a] < at[b];
      assert ComesBefore(c, chains[a].superIds[0], chains[b].superIds[0]);
    }
  }

  lemma HealedListed(inp: Input, c: Condensation)
    requires WellFormed(inp, c) && forall i :: 0 <= i < |c.topo| ==> c.topo[i] < |c.supers|
    ensures Listed(inp, c, Bucketed(inp, c, |c.topo|, RecoveredBoundary))
  {
    hide *;
    var cs := Bucketed(inp, c, |c.topo|, RecoveredBoundary);
    BucketInTopo(inp, c, |c.topo|, RecoveredBoundary);
    forall x | x in cs ensures x.cumulativePath == [] && Rank(inp, c, x.superId) == 2 {
      BucketRank(inp, c, RecoveredBoundary, x);
    }
    RanksAre(inp, c, cs, 2);
    RankListed(inp, c, cs, 2);
  }

  // ---------- Shadowing and merging keep the order ----------

  lemma {:induction false} UnshadowedFrom(c: Condensation, ids: set<nat>, cs: seq<Candidate>) returns (from: seq<nat>)
    ensures |from| == |Unshadowed(c, ids, cs)|
    ensures forall i :: 0 <= i < |from| ==> from[i] < |cs| && cs[from[i]] == Unshadowed(c, ids, cs)[i]
    ensures forall i, j :: 0 <= i < j < |from| ==> from[i] < from[j]
  {
    hide Shadowed;
    if cs == [] {
      from := [];
    } else {
      var n := |cs| - 1;
      var front := UnshadowedFrom(c, ids, cs[..n]);
      from := if Shadowed(c, ids, cs[n].superId) then front else front + [n];
    }
  }

  lemma ContentListed(inp: Input, c: Condensation)
    requires WellFormed(inp, c) && Steady(inp, c)
    ensures Listed(inp, c, ContentFinal(inp, c))
  {
    hide *;
    Named.OriginsAre(inp, c);
    var origins := ContentOrigins(inp, c);
    if Broken(inp, c) != [] {
      BrokenListed(inp, c);
    } else if Eroded(inp, c, Chains(inp, c)) != [] {
      ErodedListed(inp, c);
    } else {
      HealedListed(inp, c);
    }
    FinalIs(inp, c);
    var from := UnshadowedFrom(c, SuperIds(origins), origins);
    StaysListed(inp, c, origins, ContentFinal(inp, c), from);
  }

  lemma StaysListed(inp: Input, c: Condensation, cs: seq<Candidate>, out: seq<Candidate>, from: seq<nat>)
    requires Listed(inp, c, cs) && |from| == |out|
    requires forall i :: 0 <= i < |from| ==> from[i] < |cs| && cs[from[i]] == out[i]
    requires forall i, j :: 0 <= i < j < |from| ==> from[i] < from[j]
    ensures Listed(inp, c, out)
  {
    hide Precedes;
    forall i, j | 0 <= i < j < |out| ensures Precedes(inp, c, out[i], out[j]) {
      assert Precedes(inp, c, cs[from[i]], cs[from[j]]);
    }
  }

  lemma {:induction false} FilterFrom(cs: seq<Candidate>, keep: Candidate -> bool) returns (from: seq<nat>)
    ensures |from| == |Filter(cs, keep)|
    ensures forall i :: 0 <= i < |from| ==> from[i] < |cs| && cs[from[i]] == Filter(cs, keep)[i]
    ensures forall i, j :: 0 <= i < j < |from| ==> from[i] < from[j]
  {
    FilterNone(keep);
    hide Filter;
    if cs == [] {
      from := [];
    } else {
      var n := |cs| - 1;
      var front := FilterFrom(cs[..n], keep);
      Localize.FilterAppend(cs[..n], cs[n], keep);
      assert cs == cs[..n] + [cs[n]];
      assert Filter(cs[..n], keep) + [] == Filter(cs[..n], keep);
      from := if keep(cs[n]) then front + [n] else front;
    }
  }

  lemma FilterNone(keep: Candidate -> bool)
    ensures Filter([], keep) == []
  {
  }

  // Main result: the candidates of the content channel come first: sharp falls, low boundaries, then breaks inside
  // cycles, each in the order of the quotient, or declines in the order of their heads; then those of the hard channel
  // alone, in that order too.
  lemma CandidatesInOrder(inp: Input, c: Condensation, a: Analysis, i: nat, j: nat)
    requires IsAnalysis(inp, c, a) && i < j < |a.candidates|
    ensures var x, y := a.candidates[i], a.candidates[j];
      && (x.via == Deterministic ==> y.via == Deterministic && ComesBefore(c, x.superId, y.superId))
      && (y.via != Deterministic ==> x.via != Deterministic && Precedes(inp, c, x, y))
  {
    hide *;
    AnalysisIs(inp, c, a);
    CandidatesAre(inp, c);
    ContentListed(inp, c);
    HardInTopo(inp, c);
    var content, det := ContentFinal(inp, c), HardOrigins(inp, c);
    var keep := (x: Candidate) => x.run !in RunsOf(content);
    var from := FilterFrom(det, keep);
    MergedAt(content, det, i);
    MergedAt(content, det, j);
    if i < |content| {
      Named.ContentStays(inp, c, i) by {
        MergedParts(inp, c);
      }
    } else {
      HardPart(inp, c, i);
    }
    if j < |content| {
      Named.ContentStays(inp, c, j) by {
        MergedParts(inp, c);
      }
      ListedAt(inp, c, content, i, j);
      MergeKeeps(inp, c, RunsOf(det), content[i], content[j]);
    } else {
      HardPart(inp, c, j);
    }
  }

  lemma ListedAt(inp: Input, c: Condensation, cs: seq<Candidate>, i: nat, j: nat)
    requires Listed(inp, c, cs) && i < j < |cs|
    ensures Precedes(inp, c, cs[i], cs[j])
  {
    hide Precedes;
  }

  lemma MergeKeeps(inp: Input, c: Condensation, det: set<RunId>, x: Candidate, y: Candidate)
    ensures Precedes(inp, c, MergeOne(det, x), MergeOne(det, y)) <==> Precedes(inp, c, x, y)
  {
    SamePlaces(inp, c, x, y, MergeOne(det, x), MergeOne(det, y));
    hide Precedes;
  }

  lemma SamePlaces(inp: Input, c: Condensation, x: Candidate, y: Candidate, u: Candidate, v: Candidate)
    requires x.superId == u.superId && x.cumulativePath == u.cumulativePath
    requires y.superId == v.superId && y.cumulativePath == v.cumulativePath
    ensures Precedes(inp, c, x, y) <==> Precedes(inp, c, u, v)
  {
    hide RanksBefore, ComesBefore;
  }

  lemma MergedAt(content: seq<Candidate>, det: seq<Candidate>, i: nat)
    requires i < |Merge(content, det)|
    ensures if i < |content| then Merge(content, det)[i] == MergeOne(RunsOf(det), content[i])
      else
        i - |content| < |Filter(det, (x: Candidate) => x.run !in RunsOf(content))| &&
        Merge(content, det)[i] == Filter(det, (x: Candidate) => x.run !in RunsOf(content))[i - |content|]
  {
    hide RunsOf, MergeOne, Filter;
  }

  // ---------- The hard channel ----------

  ghost predicate NamedHard(inp: Input, c: Condensation, s: nat) {
    Named.ActsFirst(inp, c, s) || Named.StandsIn(inp, c, s)
  }

  // What a hard origin says: the exit's own score, recovery where it acts first, an unknown upstream where it stands
  // in.
  ghost predicate HardSays(inp: Input, c: Condensation, x: Candidate) {
    && x.superId < |c.supers| && x.run == c.supers[x.superId].exit && x.sccMember.None? && x.tied == []
    && (x.unknownUpstream <==> !Named.ActsFirst(inp, c, x.superId))
    && (x.recovered <==> Named.ActsFirst(inp, c, x.superId) && HealedAfter(inp, c, x.superId))
  }

  lemma {:induction false} PrimarySays(inp: Input, c: Condensation, k: nat, x: Candidate)
    requires k <= |c.topo| && forall i :: 0 <= i < |c.topo| ==> c.topo[i] < |c.supers|
    requires x in Primaries(inp, c, k)
    ensures x.superId < |c.supers| && PrimaryActor(inp, c, x.superId) && x == HardCandidate(inp, c, x.superId)
  {
    hide PrimaryActor, HardCandidate;
    if k > 0 {
      Named.HardSuper(inp, c, c.topo[k - 1]);
      if x in Primaries(inp, c, k - 1) {
        PrimarySays(inp, c, k - 1, x);
      }
    }
  }

  lemma HardFields(inp: Input, c: Condensation, s: nat, u: bool)
    requires s < |c.supers|
    ensures var x := HardCandidate(inp, c, s);
      x.superId == s && x.run == c.supers[s].exit && x.sccMember.None? && x.tied == [] && !x.unknownUpstream &&
      x.recovered == AllHealthy(inp, SuccExits(c, s))
    ensures var x := NewCandidate(inp, c, s, Deterministic, u);
      x.superId == s && x.run == c.supers[s].exit && x.sccMember.None? && x.tied == [] && x.unknownUpstream == u &&
      !x.recovered
  {
    hide Channels, AllHealthy;
  }

  lemma OriginSaysHard(inp: Input, c: Condensation, x: Candidate)
    requires WellFormed(inp, c) && forall i :: 0 <= i < |c.topo| ==> c.topo[i] < |c.supers|
    requires x in HardOrigins(inp, c)
    ensures HardSays(inp, c, x) && NamedHard(inp, c, x.superId)
  {
    hide *;
    var out, secondary := Primaries(inp, c, |c.topo|), Secondaries(inp, c, |c.topo|);
    HardParts(inp, c);
    Named.HardNamed(inp, c, x.superId);
    Named.NamesAt(HardOrigins(inp, c), x);
    NamedIs(inp, c, x.superId);
    if out != [] || secondary == [] {
      PrimarySays(inp, c, |c.topo|, x);
      HardFields(inp, c, x.superId, true);
      Named.ActsFirstIs(inp, c, x.superId);
      HealedIs(inp, c, x.superId);
    } else {
      SecondaryFirst(inp, c);
      HardFields(inp, c, secondary[0], true);
      NoneActs(inp, c, x.superId);
    }
    SaysIs(inp, c, x);
  }

  lemma NamedIs(inp: Input, c: Condensation, s: nat)
    ensures NamedHard(inp, c, s) <==> Named.ActsFirst(inp, c, s) || Named.StandsIn(inp, c, s)
  {
    hide Named.ActsFirst, Named.StandsIn;
  }

  lemma SaysIs(inp: Input, c: Condensation, x: Candidate)
    ensures HardSays(inp, c, x) <==>
      && x.superId < |c.supers| && x.run == c.supers[x.superId].exit && x.sccMember.None? && x.tied == []
      && (x.unknownUpstream <==> !Named.ActsFirst(inp, c, x.superId))
      && (x.recovered <==> Named.ActsFirst(inp, c, x.superId) && HealedAfter(inp, c, x.superId))
  {
    hide Named.ActsFirst, HealedAfter;
  }

  lemma HardParts(inp: Input, c: Condensation)
    requires forall i :: 0 <= i < |c.topo| ==> c.topo[i] < |c.supers|
    ensures var out, secondary := Primaries(inp, c, |c.topo|), Secondaries(inp, c, |c.topo|);
      if out != [] || secondary == [] then HardOrigins(inp, c) == out
      else secondary[0] < |c.supers| && HardOrigins(inp, c) == [NewCandidate(inp, c, secondary[0], Deterministic, true)]
  {
    var secondary := Secondaries(inp, c, |c.topo|);
    hide Primaries, Secondaries, Channels;
    if secondary != [] {
      assert secondary[0] in secondary;
    }
  }

  lemma SecondaryFirst(inp: Input, c: Condensation)
    requires forall i :: 0 <= i < |c.topo| ==> c.topo[i] < |c.supers|
    requires Secondaries(inp, c, |c.topo|) != []
    ensures Secondaries(inp, c, |c.topo|)[0] < |c.supers|
  {
    var secondary := Secondaries(inp, c, |c.topo|);
    assert secondary[0] in secondary;
    hide Secondaries;
  }

  // Nobody acts first where no primary origin is listed.
  lemma NoneActs(inp: Input, c: Condensation, s: nat)
    requires WellFormed(inp, c) && forall i :: 0 <= i < |c.topo| ==> c.topo[i] < |c.supers|
    requires Primaries(inp, c, |c.topo|) == []
    ensures !Named.ActsFirst(inp, c, s)
  {
    hide *;
    if Named.ActsFirst(inp, c, s) {
      Named.FirstInRange(inp, c, s);
      Named.ActsFirstIs(inp, c, s);
      Named.PrimaryNames(inp, c, s);
      var x := Named.NamedBy([], s);
    }
  }

  lemma ContentAtExit(inp: Input, c: Condensation, x: Candidate)
    requires WellFormed(inp, c) && Steady(inp, c) && x in ContentFinal(inp, c)
    ensures x.superId < |c.supers| && x.run == c.supers[x.superId].exit && x.via == Content
  {
    hide *;
    ContentOnly(inp, c, x);
    OriginsAreContentLike(inp, c);
    FinalIs(inp, c);
    UnshadowedIs(c, SuperIds(ContentOrigins(inp, c)), ContentOrigins(inp, c));
    LikeAtExit(inp, c, x);
  }

  lemma LikeAtExit(inp: Input, c: Condensation, x: Candidate)
    requires WellFormed(inp, c) && ContentLike(inp, c, x)
    ensures x.superId < |c.supers| && x.run == c.supers[x.superId].exit
  {
    hide WellFormed, UnknownUpstream, BucketOf, IsErosionChain, Channels, AllHealthy, SourceLike, ObservedDrop,
      MemberQualifies, TiedMembers, MemberRecovered, Lowest, Worst;
  }

  // The run of a content origin is a hard origin exactly when its super-node is named by the hard channel.
  lemma HardRuns(inp: Input, c: Condensation, x: Candidate)
    requires WellFormed(inp, c) && forall i :: 0 <= i < |c.topo| ==> c.topo[i] < |c.supers|
    requires x.superId < |c.supers| && x.run == c.supers[x.superId].exit
    ensures x.run in RunsOf(HardOrigins(inp, c)) <==> NamedHard(inp, c, x.superId)
  {
    hide *;
    var det := HardOrigins(inp, c);
    Named.HardNamed(inp, c, x.superId);
    NamedIs(inp, c, x.superId);
    RunsAre(det, x.run);
    if NamedHard(inp, c, x.superId) {
      var y := Named.NamedBy(det, x.superId);
      OriginSaysHard(inp, c, y);
      SaysIs(inp, c, y);
    }
    if x.run in RunsOf(det) {
      var y :| y in det && y.run == x.run;
      OriginSaysHard(inp, c, y);
      SaysIs(inp, c, y);
      ExitsAreDistinct(inp, c, x.superId, y.superId);
      Named.NamesAt(det, y);
    }
  }

  lemma RunsAre(cs: seq<Candidate>, r: RunId)
    ensures r in RunsOf(cs) <==> exists x :: x in cs && x.run == r
  {
  }

  lemma MergedVia(det: set<RunId>, x: Candidate)
    requires x.via == Content
    ensures var y := MergeOne(det, x);
      (y.via == Both <==> x.run in det) && (y.via == Both ==> y == x.(via := Both, sccMember := None)) &&
      (y.via != Both ==> y == x)
  {
  }

  // Main result: a candidate the content channel names is of both channels exactly when the hard channel names its
  // super-node too, and then points at no member; any other candidate is one the hard channel alone names, and says so.
  lemma ChannelsTold(inp: Input, c: Condensation, a: Analysis, x: Candidate)
    requires IsAnalysis(inp, c, a) && x in a.candidates
    ensures x.via == Both ==> NamedHard(inp, c, x.superId) && x.sccMember.None?
    ensures x.via == Content ==> !NamedHard(inp, c, x.superId)
    ensures x.via == Deterministic ==> NamedHard(inp, c, x.superId) && HardSays(inp, c, x)
    ensures x.via == Deterministic ==> forall y :: y in a.candidates && y.via != Deterministic ==> y.run != x.run
  {
    hide *;
    AnalysisIs(inp, c, a);
    CandidatesAre(inp, c);
    var content, det := ContentFinal(inp, c), HardOrigins(inp, c);
    var i :| 0 <= i < |a.candidates| && a.candidates[i] == x;
    MergedAt(content, det, i);
    if i < |content| {
      ContentAtExit(inp, c, content[i]);
      MergedVia(RunsOf(det), content[i]);
      HardRuns(inp, c, content[i]);
    } else {
      HardPart(inp, c, i);
      var own := Filter(det, (x: Candidate) => x.run !in RunsOf(content));
      assert own[i - |content|] in own;
      OriginSaysHard(inp, c, x);
      forall y | y in a.candidates && y.via != Deterministic ensures y.run != x.run {
        var j :| 0 <= j < |a.candidates| && a.candidates[j] == y;
        MergedAt(content, det, j);
        if j < |content| {
          ContentAtExit(inp, c, content[j]);
          MergedVia(RunsOf(det), content[j]);
          RunsAre(content, x.run);
          assert content[j] in content;
        } else {
          HardPart(inp, c, j);
        }
      }
    }
  }

  // ---------- What every candidate carries ----------

  // Its place and size, when it ended, and which channels the score of its exit rests on.
  ghost predicate Carries(inp: Input, c: Condensation, x: Candidate) {
    && x.superId < |c.supers| && x.run == c.supers[x.superId].exit
    && (x.isSource <==> forall p: nat :: (p, x.superId) !in c.dag.edges)
    && x.iterations == |c.supers[x.superId].members|
    && x.endTime == (if x.run in inp.endTimes then Some(inp.endTimes[x.run]) else None)
    && if x.run in inp.scores && inp.scores[x.run].weighed.Some?
       then x.channels == inp.scores[x.run].weighed && x.channelsAll == Some(inp.scores[x.run].components)
       else x.channels == None && x.channelsAll == None
  }

  lemma FreshCarries(inp: Input, c: Condensation, s: nat, via: Via, u: bool)
    requires s < |c.supers| && c.dag.Valid()
    ensures Carries(inp, c, NewCandidate(inp, c, s, via, u))
  {
  }

  lemma LikeCarries(inp: Input, c: Condensation, x: Candidate)
    requires WellFormed(inp, c) && (ContentLike(inp, c, x) || HardLike(inp, c, x))
    ensures Carries(inp, c, x)
  {
    DagInRange(inp, c);
    LikeFresh(inp, c, x);
    FreshCarries(inp, c, x.superId, x.via, false);
    hide WellFormed, ContentLike, HardLike, Channels;
  }

  lemma LikeFresh(inp: Input, c: Condensation, x: Candidate)
    requires ContentLike(inp, c, x) || HardLike(inp, c, x)
    ensures x.superId < |c.supers|
    ensures var y := NewCandidate(inp, c, x.superId, x.via, false);
      x.run == y.run && x.isSource == y.isSource && x.iterations == y.iterations && x.endTime == y.endTime &&
      x.channels == y.channels && x.channelsAll == y.channelsAll
  {
    hide UnknownUpstream, BucketOf, IsErosionChain, Channels, AllHealthy, SourceLike, ObservedDrop, MemberQualifies,
      TiedMembers, MemberRecovered, Lowest, Worst, HardFault, Base;
  }

  // Main result: the rest of what a candidate carries is read off its exit.
  lemma CandidatesCarry(inp: Input, c: Condensation, a: Analysis, x: Candidate)
    requires IsAnalysis(inp, c, a) && x in a.candidates
    ensures Carries(inp, c, x)
  {
    hide *;
    AnalysisIs(inp, c, a);
    CandidatesFromChannels(inp, c);
    Channelled(inp, c, x);
    if x.via == Both {
      var y, z := MergedFrom(inp, c, x);
      LikeCarries(inp, c, y);
      SameCarries(inp, c, y, x);
    } else {
      LikeCarries(inp, c, x);
    }
  }

  lemma SameCarries(inp: Input, c: Condensation, y: Candidate, x: Candidate)
    requires Carries(inp, c, y) && x == y.(via := x.via, sccMember := x.sccMember)
    ensures Carries(inp, c, x)
  {
  }
}
