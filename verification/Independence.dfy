// Everything the engine reports, as run ids, is independent of the encoding of the run.

module Independence {
  import opened Prelude
  import opened Graphs
  import opened BlameInput
  import opened Condense
  import opened Encoding
  import opened Propagation
  import opened CutPoint
  import opened Origins

  // The same super-node under its two ids.
  ghost predicate Matched(c: Condensation, d: Condensation, i: nat, j: nat) {
    exists k :: 0 <= k < |c.topo| && k < |d.topo| && c.topo[k] == i && d.topo[k] == j
  }

  // Two encodings of one run, condensed.
  ghost predicate Recoded(x: Input, y: Input, c: Condensation, d: Condensation) {
    SameRun(x, y) && WellFormed(x, c) && WellFormed(y, d) && Alike(c, d)
  }

  lemma RecodedBack(x: Input, y: Input, c: Condensation, d: Condensation)
    requires Recoded(x, y, c, d)
    ensures Recoded(y, x, d, c)
    ensures forall i, j :: Matched(c, d, i, j) <==> Matched(d, c, j, i)
  {
    hide WellFormed;
  }

  lemma CondensedRecoded(x: Input, y: Input, a: seq<set<RunId>>, b: seq<set<RunId>>, c: Condensation, d: Condensation)
    requires SameRun(x, y) && Condensed(x, a, c) && Condensed(y, b, d)
    ensures Recoded(x, y, c, d)
  {
    CondensationIndependent(x, y, a, b, c, d);
    CondensedIsWellFormed(x, a, c);
    CondensedIsWellFormed(y, b, d);
  }

  lemma MatchOf(x: Input, y: Input, c: Condensation, d: Condensation, i: nat) returns (j: nat)
    requires Recoded(x, y, c, d) && i < |c.supers|
    ensures Matched(c, d, i, j)
  {
    hide WellFormed;
    TopoPosition(x, c, i);
    var k :| 0 <= k < |c.topo| && c.topo[k] == i;
    j := d.topo[k];
  }

  lemma MatchedFacts(x: Input, y: Input, c: Condensation, d: Condensation, i: nat, j: nat)
    requires Recoded(x, y, c, d) && Matched(c, d, i, j)
    ensures i < |c.supers| && j < |d.supers| && c.supers[i] == d.supers[j]
    ensures i in c.dag.nodes && j in d.dag.nodes
  {
    hide WellFormed;
    TopoInRange(x, c);
    TopoInRange(y, d);
  }

  lemma MatchedEdges(x: Input, y: Input, c: Condensation, d: Condensation, i: nat, j: nat, i': nat, j': nat)
    requires Recoded(x, y, c, d) && Matched(c, d, i, j) && Matched(c, d, i', j')
    ensures (i, i') in c.dag.edges <==> (j, j') in d.dag.edges
    ensures i == i' <==> j == j'
  {
    hide WellFormed;
    assert Alike(c, d);
    DistinctTopo(x, c);
    DistinctTopo(y, d);
  }

  lemma DistinctTopo(x: Input, c: Condensation)
    requires WellFormed(x, c)
    ensures Distinct(c.topo)
  {
  }

  lemma EdgeInside(x: Input, c: Condensation, i: nat, j: nat)
    requires WellFormed(x, c) && (i, j) in c.dag.edges
    ensures i < |c.supers| && j < |c.supers|
  {
    hide ProperTopo, ProperMembers, ProperSuper, Acyclic;
  }

  // ---------- Neighbourhoods ----------

  lemma PredExitsCarried(x: Input, y: Input, c: Condensation, d: Condensation, i: nat, j: nat)
    requires Recoded(x, y, c, d) && Matched(c, d, i, j)
    ensures PredExits(c, i) <= PredExits(d, j) && SuccExits(c, i) <= SuccExits(d, j)
  {
    hide Recoded, Matched, Alike;
    hide WellFormed;
    WellFormedOf(x, y, c, d);
    forall r | r in PredExits(c, i) ensures r in PredExits(d, j) {
      var e :| e in c.dag.edges && e.1 == i && e.0 < |c.supers| && c.supers[e.0].exit == r;
      var q := MatchOf(x, y, c, d, e.0);
      MatchedEdges(x, y, c, d, e.0, q, i, j);
      MatchedFacts(x, y, c, d, e.0, q);
      assert (e.0, i) == e && (q, j) in d.dag.edges;
    }
    forall r | r in SuccExits(c, i) ensures r in SuccExits(d, j) {
      var e :| e in c.dag.edges && e.0 == i && e.1 < |c.supers| && c.supers[e.1].exit == r;
      var q := MatchOf(x, y, c, d, e.1);
      MatchedEdges(x, y, c, d, i, j, e.1, q);
      MatchedFacts(x, y, c, d, e.1, q);
      assert (i, e.1) == e && (j, q) in d.dag.edges;
    }
  }

  lemma WellFormedOf(x: Input, y: Input, c: Condensation, d: Condensation)
    requires Recoded(x, y, c, d)
    ensures SameRun(x, y) && WellFormed(x, c) && WellFormed(y, d) && c.graph == d.graph && |c.topo| == |d.topo|
  {
  }

  lemma ExitsSame(x: Input, y: Input, c: Condensation, d: Condensation, i: nat, j: nat)
    requires Recoded(x, y, c, d) && Matched(c, d, i, j)
    ensures PredExits(c, i) == PredExits(d, j) && SuccExits(c, i) == SuccExits(d, j)
  {
    hide Recoded, Matched, PredExits, SuccExits;
    RecodedBack(x, y, c, d);
    PredExitsCarried(x, y, c, d, i, j);
    PredExitsCarried(y, x, d, c, j, i);
  }

  lemma SourceCarried(x: Input, y: Input, c: Condensation, d: Condensation, i: nat, j: nat)
    requires Recoded(x, y, c, d) && Matched(c, d, i, j) && IsSource(d.dag, j)
    ensures IsSource(c.dag, i)
  {
    hide Recoded, Matched, WellFormed;
    WellFormedOf(x, y, c, d);
    forall p | p in c.dag.nodes && (p, i) in c.dag.edges ensures false {
      EdgeInside(x, c, p, i);
      var q := MatchOf(x, y, c, d, p);
      MatchedEdges(x, y, c, d, p, q, i, j);
      MatchedFacts(x, y, c, d, p, q);
    }
  }

  lemma SourceSame(x: Input, y: Input, c: Condensation, d: Condensation, i: nat, j: nat)
    requires Recoded(x, y, c, d) && Matched(c, d, i, j)
    ensures IsSource(c.dag, i) <==> IsSource(d.dag, j)
  {
    hide Recoded, Matched, IsSource;
    RecodedBack(x, y, c, d);
    if IsSource(d.dag, j) { SourceCarried(x, y, c, d, i, j); }
    if IsSource(c.dag, i) { SourceCarried(y, x, d, c, j, i); }
  }

  lemma RootSame(x: Input, y: Input, c: Condensation, d: Condensation, i: nat, j: nat)
    requires Recoded(x, y, c, d) && Matched(c, d, i, j)
    ensures i < |c.supers| && j < |d.supers|
    ensures StructuralRoot(x, c, i) <==> StructuralRoot(y, d, j)
    ensures HidesCulprit(x, c, i) <==> HidesCulprit(y, d, j)
  {
    hide Recoded, Matched, IsSource, WellFormed;
    SourceSame(x, y, c, d, i, j);
    MatchedFacts(x, y, c, d, i, j);
    WellFormedOf(x, y, c, d);
  }

  lemma SourceLikeCarried(x: Input, y: Input, c: Condensation, d: Condensation, i: nat, j: nat)
    requires Recoded(x, y, c, d) && Matched(c, d, i, j) && SourceLike(x, c, i)
    ensures SourceLike(y, d, j)
  {
    hide Recoded, Matched, IsSource, WellFormed, StructuralRoot;
    RecodedBack(x, y, c, d);
    WellFormedOf(x, y, c, d);
    SourceSame(x, y, c, d, i, j);
    if !IsSource(c.dag, i) {
      forall q | q in d.dag.nodes && (q, j) in d.dag.edges && q < |d.supers| ensures StructuralRoot(y, d, q) {
        var p := MatchOf(y, x, d, c, q);
        MatchedEdges(x, y, c, d, p, q, i, j);
        MatchedFacts(x, y, c, d, p, q);
        RootSame(x, y, c, d, p, q);
      }
    }
  }

  // ---------- Ancestry ----------

  lemma {:induction false} WalkCarried(x: Input, y: Input, c: Condensation, d: Condensation, p: seq<nat>, j: nat,
                                       j': nat)
    requires Recoded(x, y, c, d) && IsWalk(c.dag, p) && Matched(c, d, p[0], j) && Matched(c, d, p[|p| - 1], j')
    ensures Reaches(d.dag, j, j')
    decreases |p|
  {
    hide Recoded, Matched, WellFormed, Acyclic;
    WellFormedOf(x, y, c, d);
    WellFormedDag(y, d);
    WellFormedDag(x, c);
    MatchedFacts(x, y, c, d, p[|p| - 1], j');
    if |p| == 1 {
      MatchedEdges(x, y, c, d, p[0], j, p[0], j');
      ReachesSelf(d.dag, j);
    } else {
      var n := |p| - 2;
      SubWalk(c.dag, p, 0, n);
      assert p[n] in p;
      var q := MatchOf(x, y, c, d, p[n]);
      WalkCarried(x, y, c, d, p[0..n + 1], j, q);
      MatchedEdges(x, y, c, d, p[n], q, p[n + 1], j');
      EdgeReaches(d.dag, q, j');
      ReachesTrans(d.dag, j, q, j');
    }
  }

  lemma AncestorCarried(x: Input, y: Input, c: Condensation, d: Condensation, i: nat, j: nat, i': nat, j': nat)
    requires Recoded(x, y, c, d) && Matched(c, d, i, j) && Matched(c, d, i', j') && IsAncestor(c.dag, i, i')
    ensures IsAncestor(d.dag, j, j')
  {
    hide Recoded, Matched;
    var p :| WalkFromTo(c.dag, i, i', p);
    WalkCarried(x, y, c, d, p, j, j');
    MatchedEdges(x, y, c, d, i, j, i', j');
  }

  lemma AncestorInside(x: Input, c: Condensation, a: nat, i: nat)
    requires WellFormed(x, c) && IsAncestor(c.dag, a, i)
    ensures a < |c.supers|
  {
    hide ProperTopo, ProperMembers, ProperSuper, Acyclic;
    ReachesInside(c.dag, a, i);
  }

  lemma UnknownCarried(x: Input, y: Input, c: Condensation, d: Condensation, i: nat, j: nat)
    requires Recoded(x, y, c, d) && Matched(c, d, i, j) && UnknownUpstream(x, c, i)
    ensures UnknownUpstream(y, d, j)
  {
    hide Recoded, Matched, IsAncestor;
    var a: nat :| IsAncestor(c.dag, a, i) && a < |c.supers| && HidesCulprit(x, c, a);
    var b := MatchOf(x, y, c, d, a);
    AncestorCarried(x, y, c, d, a, b, i, j);
    RootSame(x, y, c, d, a, b);
  }

  lemma CirculatesCarried(x: Input, y: Input, c: Condensation, d: Condensation, i: nat, j: nat, key: string,
                          value: string)
    requires Recoded(x, y, c, d) && Matched(c, d, i, j) && Circulates(x, c, i, key, value)
    ensures Circulates(y, d, j, key, value)
  {
    hide Recoded, Matched, IsAncestor, WellFormed;
    WellFormedOf(x, y, c, d);
    var a: nat, m: RunId, v: Violation :| IsAncestor(c.dag, a, i) && a < |c.supers| && m in c.supers[a].members &&
      v in Violations(x, m) && v.key == key && v.to == value;
    var b := MatchOf(x, y, c, d, a);
    AncestorCarried(x, y, c, d, a, b, i, j);
    MatchedFacts(x, y, c, d, a, b);
    assert v in Violations(y, m);
  }

  // ---------- Judgements read only what the encodings share ----------

  lemma SameRuns(x: Input, y: Input, r: RunId)
    requires SameRun(x, y)
    ensures x.config == y.config && x.endTimes == y.endTimes && x.scores == y.scores && x.terminal == y.terminal
    ensures ScoreOf(x, r) == ScoreOf(y, r) && RunStep(x, r) == RunStep(y, r) && InputFlawed(x, r) == InputFlawed(y, r)
    ensures DeterministicDefect(x, r) == DeterministicDefect(y, r) && HasFailSignal(x, r) == HasFailSignal(y, r)
    ensures Violations(x, r) == Violations(y, r) && IsVerifier(x, r) == IsVerifier(y, r)
    ensures Channels(x, r) == Channels(y, r)
  {
  }

  lemma WorstSame(x: Input, y: Input, s: set<RunId>)
    requires SameRun(x, y) && s != {}
    ensures Worst(x, s) == Worst(y, s)
  {
    hide RunStep;
    forall r ensures RunStep(x, r) == RunStep(y, r) {
      SameRuns(x, y, r);
    }
    var m, n := Worst(x, s), Worst(y, s);
  }

  lemma ExtremesSame(x: Input, y: Input, s: set<RunId>)
    requires SameRun(x, y)
    ensures KnownScores(x, s) == KnownScores(y, s)
    ensures Lowest(x, s) == Lowest(y, s) && Highest(x, s) == Highest(y, s)
    ensures AllHealthy(x, s) == AllHealthy(y, s)
  {
    hide ScoreOf, SameRun;
    forall r ensures ScoreOf(x, r) == ScoreOf(y, r) {
      SameRuns(x, y, r);
    }
    SameRuns(x, y, 0);
    assert KnownScores(x, s) == KnownScores(y, s);
    if KnownScores(x, s) != {} {
      var a, b := LowestRun(x, s), LowestRun(y, s);
      assert ScoreOf(x, a).value <= ScoreOf(x, b).value && ScoreOf(y, b).value <= ScoreOf(y, a).value;
      var e, f := HighestRun(x, s), HighestRun(y, s);
      assert ScoreOf(x, f).value <= ScoreOf(x, e).value && ScoreOf(y, e).value <= ScoreOf(y, f).value;
    }
  }

  // Candidates that differ in nothing but the id of their super-node.
  ghost predicate SameCandidate(c: Condensation, d: Condensation, u: Candidate, v: Candidate) {
    u.(superId := v.superId) == v && Matched(c, d, u.superId, v.superId)
  }

  ghost predicate SameCandidates(c: Condensation, d: Condensation, s: seq<Candidate>, t: seq<Candidate>) {
    |s| == |t| && forall i :: 0 <= i < |s| ==> SameCandidate(c, d, s[i], t[i])
  }

  lemma SameAppend(c: Condensation, d: Condensation, s: seq<Candidate>, t: seq<Candidate>, s': seq<Candidate>,
                   t': seq<Candidate>)
    requires SameCandidates(c, d, s, t) && SameCandidates(c, d, s', t')
    ensures SameCandidates(c, d, s + s', t + t')
  {
    hide SameCandidate;
  }

  lemma NewSame(x: Input, y: Input, c: Condensation, d: Condensation, i: nat, j: nat, via: Via, b: bool)
    requires Recoded(x, y, c, d) && Matched(c, d, i, j)
    ensures i < |c.supers| && j < |d.supers|
    ensures SameCandidate(c, d, NewCandidate(x, c, i, via, b), NewCandidate(y, d, j, via, b))
  {
    hide Recoded, Matched, IsSource, WellFormed;
    MatchedFacts(x, y, c, d, i, j);
    SourceSame(x, y, c, d, i, j);
    WellFormedOf(x, y, c, d);
    SameRuns(x, y, c.supers[i].exit);
  }

  lemma UnknownSame(x: Input, y: Input, c: Condensation, d: Condensation, i: nat, j: nat)
    requires Recoded(x, y, c, d) && Matched(c, d, i, j)
    ensures UnknownUpstream(x, c, i) <==> UnknownUpstream(y, d, j)
  {
    hide Recoded, Matched, UnknownUpstream;
    RecodedBack(x, y, c, d);
    if UnknownUpstream(x, c, i) { UnknownCarried(x, y, c, d, i, j); }
    if UnknownUpstream(y, d, j) { UnknownCarried(y, x, d, c, j, i); }
  }

  lemma SourceLikeSame(x: Input, y: Input, c: Condensation, d: Condensation, i: nat, j: nat)
    requires Recoded(x, y, c, d) && Matched(c, d, i, j)
    ensures SourceLike(x, c, i) <==> SourceLike(y, d, j)
  {
    hide Recoded, Matched, SourceLike;
    RecodedBack(x, y, c, d);
    if SourceLike(x, c, i) { SourceLikeCarried(x, y, c, d, i, j); }
    if SourceLike(y, d, j) { SourceLikeCarried(y, x, d, c, j, i); }
  }

  lemma EdgeSame(x: Input, y: Input, c: Condensation, d: Condensation, i: nat, j: nat)
    requires Recoded(x, y, c, d) && Matched(c, d, i, j)
    ensures i < |c.supers| && j < |d.supers| && BucketOf(x, c, i) == BucketOf(y, d, j)
    ensures ObservedDrop(x, c, i) == ObservedDrop(y, d, j)
    ensures c.supers[i].score == d.supers[j].score
    ensures c.supers[i].score.Some? ==> SameCandidate(c, d, EdgeCandidate(x, c, i), EdgeCandidate(y, d, j))
  {
    hide Recoded, Matched, WellFormed, UnknownUpstream, SourceLike, PredExits, SuccExits, Lowest, Highest, AllHealthy,
      SameRun,
      IsVerifier, KnownScores, InputFlawed, NewCandidate;
    MatchedFacts(x, y, c, d, i, j);
    ExitsSame(x, y, c, d, i, j);
    UnknownSame(x, y, c, d, i, j);
    SourceLikeSame(x, y, c, d, i, j);
    NewSame(x, y, c, d, i, j, Content, UnknownUpstream(x, c, i));
    WellFormedOf(x, y, c, d);
    SameRuns(x, y, c.supers[i].exit);
    ExtremesSame(x, y, PredExits(c, i));
    ExtremesSame(x, y, SuccExits(c, i));
  }

  lemma AtPosition(c: Condensation, d: Condensation, k: nat)
    requires k < |c.topo| == |d.topo|
    ensures Matched(c, d, c.topo[k], d.topo[k])
  {
  }

  lemma OneSame(c: Condensation, d: Condensation, u: Candidate, v: Candidate)
    requires SameCandidate(c, d, u, v)
    ensures SameCandidates(c, d, [u], [v])
  {
  }

  lemma NoneSame(c: Condensation, d: Condensation)
    ensures SameCandidates(c, d, [], [])
  {
  }

  lemma {:induction false} BucketedSame(x: Input, y: Input, c: Condensation, d: Condensation, k: nat, b: Bucket)
    requires Recoded(x, y, c, d) && k <= |c.topo| == |d.topo| && b != NoOrigin
    requires forall i :: 0 <= i < |c.topo| ==> c.topo[i] < |c.supers| && d.topo[i] < |d.supers|
    ensures SameCandidates(c, d, Bucketed(x, c, k, b), Bucketed(y, d, k, b))
  {
    hide Recoded, Matched, SameCandidate, SameCandidates, BucketOf, EdgeCandidate, ObservedDrop;
    NoneSame(c, d);
    if k > 0 {
      var i, j := c.topo[k - 1], d.topo[k - 1];
      AtPosition(c, d, k - 1);
      BucketedSame(x, y, c, d, k - 1, b);
      EdgeSame(x, y, c, d, i, j);
      if BucketOf(x, c, i) == b {
        EdgeOf(x, c, i);
        OneSame(c, d, EdgeCandidate(x, c, i), EdgeCandidate(y, d, j));
        SameAppend(c, d, Bucketed(x, c, k - 1, b), Bucketed(y, d, k - 1, b), [EdgeCandidate(x, c, i)],
          [EdgeCandidate(y, d, j)]);
      } else {
        SameAppend(c, d, Bucketed(x, c, k - 1, b), Bucketed(y, d, k - 1, b), [], []);
      }
    }
  }

  // ---------- Erosion ----------

  lemma NextSame(x: Input, y: Input, c: Condensation, d: Condensation, i: nat, j: nat)
    requires Recoded(x, y, c, d) && Matched(c, d, i, j)
    ensures i < |c.supers| && j < |d.supers| && NextRun(x, c, i) == NextRun(y, d, j)
  {
    hide Recoded, Matched, WellFormed, PredExits, SuccExits;
    MatchedFacts(x, y, c, d, i, j);
    ExitsSame(x, y, c, d, i, j);
    WellFormedOf(x, y, c, d);
    forall r ensures ScoreOf(x, r) == ScoreOf(y, r) {
      SameRuns(x, y, r);
    }
    if c.supers[i].score.Some? {
      var fit := Eroding(x, SuccExits(c, i), c.supers[i].score.value);
      assert fit == Eroding(y, SuccExits(d, j), d.supers[j].score.value);
      if fit != {} {
        WorstSame(x, y, fit);
      }
    }
  }

  lemma LocatedSame(x: Input, y: Input, c: Condensation, d: Condensation, r: RunId)
    requires Recoded(x, y, c, d) && r in c.superOf
    ensures r in d.superOf && Matched(c, d, c.superOf[r], d.superOf[r])
  {
    WellFormedOf(x, y, c, d);
    LocatedIn(x, c, r);
    var j := MatchOf(x, y, c, d, c.superOf[r]);
    MatchedFacts(x, y, c, d, c.superOf[r], j);
    LocatedAs(y, d, j, r);
  }

  lemma LocatedIn(x: Input, c: Condensation, r: RunId)
    requires WellFormed(x, c) && r in c.superOf
    ensures c.superOf[r] < |c.supers| && r in c.supers[c.superOf[r]].members
  {
  }

  lemma LocatedAs(x: Input, c: Condensation, i: nat, r: RunId)
    requires WellFormed(x, c) && i < |c.supers| && r in c.supers[i].members
    ensures r in c.superOf && c.superOf[r] == i
  {
  }

  ghost predicate MatchedSeq(c: Condensation, d: Condensation, p: seq<nat>, q: seq<nat>) {
    |p| == |q| && forall i :: 0 <= i < |p| ==> Matched(c, d, p[i], q[i])
  }

  lemma {:induction false} ErodeSame(x: Input, y: Input, c: Condensation, d: Condensation, i: nat, j: nat)
    requires Recoded(x, y, c, d) && Matched(c, d, i, j)
    ensures i < |c.supers| && j < |d.supers| && WellFormed(x, c) && WellFormed(y, d)
    ensures MatchedSeq(c, d, Erode(x, c, i), Erode(y, d, j))
    decreases |Downstream(c.dag, i)|
  {
    hide Recoded, Matched, WellFormed, NextRun;
    NextSame(x, y, c, d, i, j);
    WellFormedOf(x, y, c, d);
    match NextRun(x, c, i)
    case None =>
    case Some(r) =>
      NextIsSuccessor(x, c, i, r);
      NextIsSuccessor(y, d, j, r);
      LocatedSame(x, y, c, d, r);
      ErodeSame(x, y, c, d, c.superOf[r], d.superOf[r]);
  }

  ghost predicate SameChain(c: Condensation, d: Condensation, s: Chain, t: Chain) {
    s.(superIds := t.superIds) == t && MatchedSeq(c, d, s.superIds, t.superIds)
  }

  lemma ChainOfSame(x: Input, y: Input, c: Condensation, d: Condensation, p: seq<nat>, q: seq<nat>)
    requires Recoded(x, y, c, d) && MatchedSeq(c, d, p, q) && p != [] && InRange(c, p) && InRange(d, q)
    ensures SameChain(c, d, ChainOf(c, p), ChainOf(d, q))
  {
    hide Recoded, Matched;
    forall i | 0 <= i < |p| ensures p[i] < |c.supers| && q[i] < |d.supers| && c.supers[p[i]] == d.supers[q[i]] {
      MatchedFacts(x, y, c, d, p[i], q[i]);
    }
  }

  ghost predicate SameIds(c: Condensation, d: Condensation, s: set<nat>, t: set<nat>) {
    forall i, j :: Matched(c, d, i, j) ==> (i in s <==> j in t)
  }

  lemma ElementsSame(x: Input, y: Input, c: Condensation, d: Condensation, s: set<nat>, t: set<nat>, p: seq<nat>,
                     q: seq<nat>)
    requires Recoded(x, y, c, d) && SameIds(c, d, s, t) && MatchedSeq(c, d, p, q)
    ensures SameIds(c, d, s + Elements(p), t + Elements(q))
  {
    forall i, j | Matched(c, d, i, j) ensures i in Elements(p) <==> j in Elements(q) {
      if k :| 0 <= k < |p| && p[k] == i {
        MatchedEdges(x, y, c, d, i, j, p[k], q[k]);
        assert q[k] in q;
      }
      if k :| 0 <= k < |q| && q[k] == j {
        MatchedEdges(x, y, c, d, i, j, p[k], q[k]);
        assert p[k] in p;
      }
    }
  }

  ghost predicate SameChains(c: Condensation, d: Condensation, s: seq<Chain>, t: seq<Chain>) {
    |s| == |t| && forall i :: 0 <= i < |s| ==> SameChain(c, d, s[i], t[i])
  }

  lemma PrependChain(c: Condensation, d: Condensation, u: Chain, v: Chain, s: seq<Chain>, t: seq<Chain>)
    requires SameChain(c, d, u, v) && SameChains(c, d, s, t)
    ensures SameChains(c, d, [u] + s, [v] + t)
  {
    hide SameChain;
  }

  lemma ErosionSame(x: Input, y: Input, c: Condensation, d: Condensation, u: Chain, v: Chain)
    requires SameRun(x, y) && SameChain(c, d, u, v)
    ensures IsErosion(x, u) <==> IsErosion(y, v)
    ensures MatchedSeq(c, d, u.superIds, v.superIds)
  {
    hide Matched;
  }

  lemma ErodedChainSame(x: Input, y: Input, c: Condensation, d: Condensation, i: nat, j: nat)
    requires Recoded(x, y, c, d) && WellFormed(x, c) && WellFormed(y, d) && Matched(c, d, i, j) && i < |c.supers|
    requires j < |d.supers|
    ensures SameChain(c, d, ChainOf(c, Erode(x, c, i)), ChainOf(d, Erode(y, d, j)))
  {
    hide Recoded, Matched, WellFormed, MatchedSeq, Erode;
    ErodeSame(x, y, c, d, i, j);
    ChainOfSame(x, y, c, d, Erode(x, c, i), Erode(y, d, j));
  }

  lemma ConsumedSame(c: Condensation, d: Condensation, s: set<nat>, t: set<nat>, i: nat, j: nat)
    requires SameIds(c, d, s, t) && Matched(c, d, i, j)
    ensures i in s <==> j in t
  {
    hide Matched;
  }

  lemma {:induction false} ChainsSame(x: Input, y: Input, c: Condensation, d: Condensation, k: nat, s: set<nat>,
                                      t: set<nat>)
    requires Recoded(x, y, c, d) && WellFormed(x, c) && WellFormed(y, d) && k <= |c.topo| == |d.topo|
    requires SameIds(c, d, s, t)
    requires forall i :: 0 <= i < |c.topo| ==> c.topo[i] < |c.supers| && d.topo[i] < |d.supers|
    ensures SameChains(c, d, ChainsFrom(x, c, k, s), ChainsFrom(y, d, k, t))
    decreases |c.topo| - k
  {
    hide WellFormed, Recoded, Matched, SameRun, SameIds, SameChain, SameChains, IsErosion, ChainOf, Erode, MatchedSeq,
      Healthy;
    if k == |c.topo| {
      NoChainsSame(c, d);
    } else {
      var i, j := c.topo[k], d.topo[k];
      AtPosition(c, d, k);
      ConsumedSame(c, d, s, t, i, j);
      HealthSame(x, y, c, d, i, j);
      var u, v := ChainOf(c, Erode(x, c, i)), ChainOf(d, Erode(y, d, j));
      ErodedChainSame(x, y, c, d, i, j);
      RunsShared(x, y, c, d);
      ErosionSame(x, y, c, d, u, v);
      if i !in s && Healthy(x, c.supers[i].score) && IsErosion(x, u) {
        ElementsSame(x, y, c, d, s, t, u.superIds, v.superIds);
        var s', t' := s + Elements(u.superIds), t + Elements(v.superIds);
        ChainsSame(x, y, c, d, k + 1, s', t');
        PrependChain(c, d, u, v, ChainsFrom(x, c, k + 1, s'), ChainsFrom(y, d, k + 1, t'));
      } else {
        ChainsSame(x, y, c, d, k + 1, s, t);
      }
    }
  }

  lemma RunsShared(x: Input, y: Input, c: Condensation, d: Condensation)
    requires Recoded(x, y, c, d)
    ensures SameRun(x, y)
  {
  }

  lemma NoChainsSame(c: Condensation, d: Condensation)
    ensures SameChains(c, d, [], [])
  {
  }

  lemma HealthSame(x: Input, y: Input, c: Condensation, d: Condensation, i: nat, j: nat)
    requires Recoded(x, y, c, d) && Matched(c, d, i, j)
    ensures i < |c.supers| && j < |d.supers| && (Healthy(x, c.supers[i].score) <==> Healthy(y, d.supers[j].score))
  {
    hide WellFormed, Matched;
    MatchedFacts(x, y, c, d, i, j);
  }

  lemma ErosionCandidateSame(x: Input, y: Input, c: Condensation, d: Condensation, u: Chain, v: Chain)
    requires Recoded(x, y, c, d) && SameChain(c, d, u, v) && ChainReady(c, u) && ChainReady(d, v)
    ensures SameCandidate(c, d, ErosionCandidate(x, c, u), ErosionCandidate(y, d, v))
    ensures InputFlawed(x, c.supers[u.superIds[1]].exit) == InputFlawed(y, d.supers[v.superIds[1]].exit)
  {
    hide Recoded, Matched, UnknownUpstream, NewCandidate, InputFlawed;
    var i, j := u.superIds[1], v.superIds[1];
    assert Matched(c, d, i, j);
    RunsShared(x, y, c, d);
    MatchedFacts(x, y, c, d, i, j);
    UnknownSame(x, y, c, d, i, j);
    NewSame(x, y, c, d, i, j, Content, UnknownUpstream(x, c, i));
    SameRuns(x, y, c.supers[i].exit);
  }

  lemma {:induction false} ErodedSame(x: Input, y: Input, c: Condensation, d: Condensation, s: seq<Chain>,
                                      t: seq<Chain>)
    requires Recoded(x, y, c, d) && SameChains(c, d, s, t)
    requires (forall ch :: ch in s ==> ChainReady(c, ch)) && forall ch :: ch in t ==> ChainReady(d, ch)
    ensures SameCandidates(c, d, Eroded(x, c, s), Eroded(y, d, t))
  {
    hide Recoded, Matched, SameChain, SameCandidate, SameCandidates, ErosionCandidate, InputFlawed, UnknownUpstream;
    NoneSame(c, d);
    if s != [] {
      var n := |s| - 1;
      assert s[n] in s && t[n] in t && SameChain(c, d, s[n], t[n]);
      assert (forall ch :: ch in s[..n] ==> ch in s) && forall ch :: ch in t[..n] ==> ch in t;
      ErodedSame(x, y, c, d, s[..n], t[..n]);
      ErosionCandidateSame(x, y, c, d, s[n], t[n]);
      OneSame(c, d, ErosionCandidate(x, c, s[n]), ErosionCandidate(y, d, t[n]));
      if InputFlawed(x, c.supers[s[n].superIds[1]].exit) {
        SameAppend(c, d, Eroded(x, c, s[..n]), Eroded(y, d, t[..n]), [], []);
      } else {
        SameAppend(c, d, Eroded(x, c, s[..n]), Eroded(y, d, t[..n]), [ErosionCandidate(x, c, s[n])],
          [ErosionCandidate(y, d, t[n])]);
      }
    }
  }

  // ---------- Cycles ----------

  lemma QualifiesSame(x: Input, y: Input, g: Graph, m: RunId)
    requires SameRun(x, y)
    ensures MemberQualifies(x, g, m) == MemberQualifies(y, g, m) && MemberRecovered(x, g, m) == MemberRecovered(y, g, m)
  {
    hide Lowest, Highest, AllHealthy;
    SameRuns(x, y, m);
    ExtremesSame(x, y, RunPreds(g, m));
    ExtremesSame(x, y, set s | s in RunSuccs(g, m) && s in x.scores);
    assert (set s | s in RunSuccs(g, m) && s in x.scores) == (set s | s in RunSuccs(g, m) && s in y.scores);
  }

  lemma {:induction false} FilterSame<T>(s: seq<T>, f: T -> bool, g: T -> bool)
    requires forall i :: 0 <= i < |s| ==> f(s[i]) == g(s[i])
    ensures Filter(s, f) == Filter(s, g)
  {
    if s != [] {
      FilterSame(s[1..], f, g);
    }
  }

  lemma QualifiedSame(x: Input, y: Input, g: Graph, members: seq<RunId>)
    requires SameRun(x, y)
    ensures Qualified(x, g, members) == Qualified(y, g, members)
    ensures forall m :: TiedMembers(x, g, members, m) == TiedMembers(y, g, members, m)
  {
    hide MemberQualifies, SameRun, ScoreOf;
    forall m ensures MemberQualifies(x, g, m) == MemberQualifies(y, g, m) && ScoreOf(x, m) == ScoreOf(y, m) {
      QualifiesSame(x, y, g, m);
      SameRuns(x, y, m);
    }
    forall m ensures TiedMembers(x, g, members, m) == TiedMembers(y, g, members, m) {
      FilterSame(members, (r: RunId) => MemberQualifies(x, g, r) && ScoreOf(x, r) == ScoreOf(x, m),
                 (r: RunId) => MemberQualifies(y, g, r) && ScoreOf(y, r) == ScoreOf(y, m));
    }
  }

  lemma InternalCandidateSame(x: Input, y: Input, c: Condensation, d: Condensation, i: nat, j: nat)
    requires Recoded(x, y, c, d) && Matched(c, d, i, j)
    ensures i < |c.supers| && j < |d.supers|
    ensures InternalCandidate(x, c, i).Some? == InternalCandidate(y, d, j).Some?
    ensures InternalCandidate(x, c, i).Some? ==>
      SameCandidate(c, d, InternalCandidate(x, c, i).value, InternalCandidate(y, d, j).value)
  {
    hide Recoded, Matched, UnknownUpstream, NewCandidate, MemberQualifies, Qualified, TiedMembers, MemberRecovered,
      WellFormed, Lowest, SameRun, ScoreOf;
    WellFormedOf(x, y, c, d);
    MatchedFacts(x, y, c, d, i, j);
    UnknownSame(x, y, c, d, i, j);
    NewSame(x, y, c, d, i, j, Content, UnknownUpstream(x, c, i));
    var ms := c.supers[i].members;
    QualifiedSame(x, y, c.graph, ms);
    var fit := Qualified(x, c.graph, ms);
    if fit != {} {
      WorstSame(x, y, fit);
      var m := Worst(x, fit);
      SameRuns(x, y, m);
      QualifiesSame(x, y, c.graph, m);
      ExtremesSame(x, y, RunPreds(c.graph, m));
    }
  }

  lemma {:induction false} InternalSame(x: Input, y: Input, c: Condensation, d: Condensation, k: nat, s: set<nat>,
                                        t: set<nat>)
    requires Recoded(x, y, c, d) && k <= |c.topo| == |d.topo| && SameIds(c, d, s, t)
    requires forall i :: 0 <= i < |c.topo| ==> c.topo[i] < |c.supers| && d.topo[i] < |d.supers|
    ensures SameCandidates(c, d, Internal(x, c, k, s), Internal(y, d, k, t))
  {
    hide Recoded, Matched, SameCandidate, SameCandidates, InternalCandidate, SameIds;
    NoneSame(c, d);
    if k > 0 {
      var i, j := c.topo[k - 1], d.topo[k - 1];
      AtPosition(c, d, k - 1);
      ConsumedSame(c, d, s, t, i, j);
      InternalSame(x, y, c, d, k - 1, s, t);
      InternalCandidateSame(x, y, c, d, i, j);
      if i !in s && InternalCandidate(x, c, i).Some? {
        var u, v := InternalCandidate(x, c, i).value, InternalCandidate(y, d, j).value;
        OneSame(c, d, u, v);
        SameAppend(c, d, Internal(x, c, k - 1, s), Internal(y, d, k - 1, t), [u], [v]);
      } else {
        SameAppend(c, d, Internal(x, c, k - 1, s), Internal(y, d, k - 1, t), [], []);
      }
    }
  }

  lemma SuperIdsSame(x: Input, y: Input, c: Condensation, d: Condensation, s: seq<Candidate>, t: seq<Candidate>)
    requires Recoded(x, y, c, d) && SameCandidates(c, d, s, t)
    ensures SameIds(c, d, SuperIds(s), SuperIds(t))
  {
    hide Recoded, Matched;
    forall i, j | Matched(c, d, i, j) ensures i in SuperIds(s) <==> j in SuperIds(t) {
      if u :| u in s && u.superId == i {
        var k :| 0 <= k < |s| && s[k] == u;
        assert SameCandidate(c, d, s[k], t[k]);
        MatchedEdges(x, y, c, d, i, j, s[k].superId, t[k].superId);
        assert t[k] in t;
      }
      if v :| v in t && v.superId == j {
        var k :| 0 <= k < |t| && t[k] == v;
        assert SameCandidate(c, d, s[k], t[k]);
        MatchedEdges(x, y, c, d, i, j, s[k].superId, t[k].superId);
        assert s[k] in s;
      }
    }
  }

  // ---------- The deterministic channel ----------

  lemma CirculatesSame(x: Input, y: Input, c: Condensation, d: Condensation, i: nat, j: nat, key: string, value: string)
    requires Recoded(x, y, c, d) && Matched(c, d, i, j)
    ensures Circulates(x, c, i, key, value) <==> Circulates(y, d, j, key, value)
  {
    hide Recoded, Matched, Circulates;
    RecodedBack(x, y, c, d);
    if Circulates(x, c, i, key, value) { CirculatesCarried(x, y, c, d, i, j, key, value); }
    if Circulates(y, d, j, key, value) { CirculatesCarried(y, x, d, c, j, i, key, value); }
  }

  lemma FreshSame(x: Input, y: Input, c: Condensation, d: Condensation, i: nat, j: nat)
    requires Recoded(x, y, c, d) && Matched(c, d, i, j)
    ensures i < |c.supers| && j < |d.supers| && FreshContract(x, c, i) == FreshContract(y, d, j)
  {
    hide Recoded, Matched, Circulates, Violations;
    MatchedFacts(x, y, c, d, i, j);
    RunsShared(x, y, c, d);
    SameRuns(x, y, c.supers[i].exit);
    forall k, v ensures Circulates(x, c, i, k, v) <==> Circulates(y, d, j, k, v) {
      CirculatesSame(x, y, c, d, i, j, k, v);
    }
  }

  lemma HardSame(x: Input, y: Input, c: Condensation, d: Condensation, i: nat, j: nat)
    requires Recoded(x, y, c, d) && Matched(c, d, i, j)
    ensures i < |c.supers| && j < |d.supers|
    ensures PrimaryActor(x, c, i) == PrimaryActor(y, d, j) && SecondaryActor(x, c, i) == SecondaryActor(y, d, j)
    ensures SameCandidate(c, d, HardCandidate(x, c, i), HardCandidate(y, d, j))
  {
    hide Recoded, Matched, FreshContract, NewCandidate, AllHealthy, DeterministicDefect, HasFailSignal, InputFlawed,
      SuccExits, PredExits;
    FreshSame(x, y, c, d, i, j);
    MatchedFacts(x, y, c, d, i, j);
    RunsShared(x, y, c, d);
    SameRuns(x, y, c.supers[i].exit);
    NewSame(x, y, c, d, i, j, Deterministic, false);
    ExitsSame(x, y, c, d, i, j);
    ExtremesSame(x, y, SuccExits(c, i));
  }

  lemma {:induction false} PrimariesSame(x: Input, y: Input, c: Condensation, d: Condensation, k: nat)
    requires Recoded(x, y, c, d) && k <= |c.topo| == |d.topo|
    requires forall i :: 0 <= i < |c.topo| ==> c.topo[i] < |c.supers| && d.topo[i] < |d.supers|
    ensures SameCandidates(c, d, Primaries(x, c, k), Primaries(y, d, k))
    ensures MatchedSeq(c, d, Secondaries(x, c, k), Secondaries(y, d, k))
  {
    hide Recoded, Matched, SameCandidate, SameCandidates, PrimaryActor, SecondaryActor, HardCandidate;
    NoneSame(c, d);
    if k > 0 {
      var i, j := c.topo[k - 1], d.topo[k - 1];
      AtPosition(c, d, k - 1);
      PrimariesSame(x, y, c, d, k - 1);
      HardSame(x, y, c, d, i, j);
      if PrimaryActor(x, c, i) {
        OneSame(c, d, HardCandidate(x, c, i), HardCandidate(y, d, j));
        SameAppend(c, d, Primaries(x, c, k - 1), Primaries(y, d, k - 1), [HardCandidate(x, c, i)],
          [HardCandidate(y, d, j)]);
      } else {
        SameAppend(c, d, Primaries(x, c, k - 1), Primaries(y, d, k - 1), [], []);
      }
    }
  }

  lemma HardOriginsSame(x: Input, y: Input, c: Condensation, d: Condensation)
    requires Recoded(x, y, c, d) && |c.topo| == |d.topo|
    requires forall i :: 0 <= i < |c.topo| ==> c.topo[i] < |c.supers| && d.topo[i] < |d.supers|
    ensures SameCandidates(c, d, HardOrigins(x, c), HardOrigins(y, d))
  {
    hide Recoded, Matched, SameCandidate, NewCandidate, Primaries, Secondaries;
    PrimariesSame(x, y, c, d, |c.topo|);
    var s, t := Secondaries(x, c, |c.topo|), Secondaries(y, d, |d.topo|);
    if s != [] {
      assert s[0] in s && t[0] in t && Matched(c, d, s[0], t[0]);
      NewSame(x, y, c, d, s[0], t[0], Deterministic, true);
    }
  }

  // ---------- Shadowing and merging ----------

  lemma ShadowedCarried(x: Input, y: Input, c: Condensation, d: Condensation, s: set<nat>, t: set<nat>, i: nat, j: nat)
    requires Recoded(x, y, c, d) && SameIds(c, d, s, t) && Matched(c, d, i, j) && Shadowed(c, s, i)
    ensures Shadowed(d, t, j)
  {
    hide Recoded, Matched, IsAncestor, WellFormed;
    WellFormedOf(x, y, c, d);
    var a :| a in s && IsAncestor(c.dag, a, i);
    AncestorInside(x, c, a, i);
    var b := MatchOf(x, y, c, d, a);
    AncestorCarried(x, y, c, d, a, b, i, j);
    assert b in t;
  }

  lemma ShadowedSame(x: Input, y: Input, c: Condensation, d: Condensation, s: set<nat>, t: set<nat>, i: nat, j: nat)
    requires Recoded(x, y, c, d) && SameIds(c, d, s, t) && Matched(c, d, i, j)
    ensures Shadowed(c, s, i) <==> Shadowed(d, t, j)
  {
    hide Recoded, Matched, Shadowed;
    RecodedBack(x, y, c, d);
    assert SameIds(d, c, t, s);
    if Shadowed(c, s, i) { ShadowedCarried(x, y, c, d, s, t, i, j); }
    if Shadowed(d, t, j) { ShadowedCarried(y, x, d, c, t, s, j, i); }
  }

  lemma {:induction false} UnshadowedSame(x: Input, y: Input, c: Condensation, d: Condensation, s: set<nat>,
                                          t: set<nat>,
                                          cs: seq<Candidate>, ds: seq<Candidate>)
    requires Recoded(x, y, c, d) && SameIds(c, d, s, t) && SameCandidates(c, d, cs, ds)
    ensures SameCandidates(c, d, Unshadowed(c, s, cs), Unshadowed(d, t, ds))
  {
    hide Recoded, Matched, Shadowed, SameIds;
    if cs != [] {
      var n := |cs| - 1;
      assert SameCandidate(c, d, cs[n], ds[n]);
      UnshadowedSame(x, y, c, d, s, t, cs[..n], ds[..n]);
      ShadowedSame(x, y, c, d, s, t, cs[n].superId, ds[n].superId);
    }
  }

  lemma RunsOfSame(c: Condensation, d: Condensation, s: seq<Candidate>, t: seq<Candidate>)
    requires SameCandidates(c, d, s, t)
    ensures RunsOf(s) == RunsOf(t)
  {
    hide Matched;
    forall r ensures r in RunsOf(s) <==> r in RunsOf(t) {
      if u :| u in s && u.run == r {
        var k :| 0 <= k < |s| && s[k] == u;
        assert SameCandidate(c, d, s[k], t[k]) && t[k] in t;
      }
      if v :| v in t && v.run == r {
        var k :| 0 <= k < |t| && t[k] == v;
        assert SameCandidate(c, d, s[k], t[k]) && s[k] in s;
      }
    }
  }

  lemma {:induction false} FilterCandidatesSame(c: Condensation, d: Condensation, s: seq<Candidate>, t: seq<Candidate>,
                                                runs: set<RunId>)
    requires SameCandidates(c, d, s, t)
    ensures SameCandidates(c, d, Filter(s, (u: Candidate) => u.run !in runs),
      Filter(t, (u: Candidate) => u.run !in runs))
  {
    hide Matched;
    if s != [] {
      assert SameCandidate(c, d, s[0], t[0]);
      FilterCandidatesSame(c, d, s[1..], t[1..], runs);
    }
  }

  lemma MergeSame(c: Condensation, d: Condensation, s: seq<Candidate>, t: seq<Candidate>, s': seq<Candidate>,
                  t': seq<Candidate>)
    requires SameCandidates(c, d, s, t) && SameCandidates(c, d, s', t')
    ensures SameCandidates(c, d, Merge(s, s'), Merge(t, t'))
  {
    hide Matched;
    RunsOfSame(c, d, s, t);
    RunsOfSame(c, d, s', t');
    FilterCandidatesSame(c, d, s', t', RunsOf(s));
  }

  lemma BrokenSame(x: Input, y: Input, c: Condensation, d: Condensation)
    requires Recoded(x, y, c, d) && |c.topo| == |d.topo|
    requires forall i :: 0 <= i < |c.topo| ==> c.topo[i] < |c.supers| && d.topo[i] < |d.supers|
    ensures SameCandidates(c, d, Broken(x, c), Broken(y, d))
  {
    hide Recoded, Matched, SameCandidate, WellFormed, Bucketed, Internal, SameIds;
    var n := |c.topo|;
    BucketedSame(x, y, c, d, n, DropOrigin);
    BucketedSame(x, y, c, d, n, Propagating);
    var s, t := SharpOrigins(x, c), SharpOrigins(y, d);
    SuperIdsSame(x, y, c, d, s, t);
    InternalSame(x, y, c, d, n, SuperIds(s), SuperIds(t));
  }

  lemma RecordedSame(x: Input, y: Input, c: Condensation, d: Condensation)
    requires Recoded(x, y, c, d) && WellFormed(x, c) && WellFormed(y, d)
    ensures SameChains(c, d, Chains(x, c), Chains(y, d))
  {
    hide Recoded, WellFormed, ChainsFrom, SameChains, SameIds;
    WellFormedOf(x, y, c, d);
    TopoInRange(x, c);
    TopoInRange(y, d);
    NothingConsumed(c, d);
    ChainsSame(x, y, c, d, 0, {}, {});
  }

  lemma SteadyCarried(x: Input, y: Input, c: Condensation, d: Condensation)
    requires Recoded(x, y, c, d) && WellFormed(x, c) && WellFormed(y, d) && Steady(x, c)
    ensures Steady(y, d)
  {
    hide Recoded, Matched, WellFormed, Broken, Chains, ChainReady, SameCandidate, IsErosionChain;
    WellFormedOf(x, y, c, d);
    TopoInRange(x, c);
    TopoInRange(y, d);
    BrokenSame(x, y, c, d);
    RecordedSame(x, y, c, d);
    ChainsReadyIff(x, c);
    ChainsReadyIff(y, d);
    var s, t := Chains(x, c), Chains(y, d);
    if Broken(y, d) == [] {
      forall ch | ch in t ensures ChainReady(d, ch) {
        var i :| 0 <= i < |t| && t[i] == ch;
        assert SameChain(c, d, s[i], t[i]) && s[i] in s;
      }
    }
  }

  // One encoding fails in the localizer exactly when the other does.
  lemma SteadySame(x: Input, y: Input, c: Condensation, d: Condensation)
    requires Recoded(x, y, c, d) && WellFormed(x, c) && WellFormed(y, d)
    ensures Steady(x, c) <==> Steady(y, d)
  {
    hide Recoded, WellFormed, Steady;
    RecodedBack(x, y, c, d);
    if Steady(x, c) { SteadyCarried(x, y, c, d); }
    if Steady(y, d) { SteadyCarried(y, x, d, c); }
  }

  lemma OriginsSame(x: Input, y: Input, c: Condensation, d: Condensation)
    requires Recoded(x, y, c, d) && WellFormed(x, c) && WellFormed(y, d)
    requires Steady(x, c) && Steady(y, d)
    ensures SameCandidates(c, d, ContentOrigins(x, c), ContentOrigins(y, d))
  {
    hide Recoded, Matched, SameCandidate, WellFormed, Bucketed, Broken, Eroded, ChainsFrom, ChainReady, SameIds,
      SameChain;
    WellFormedOf(x, y, c, d);
    TopoInRange(x, c);
    TopoInRange(y, d);
    BucketedSame(x, y, c, d, |c.topo|, RecoveredBoundary);
    BrokenSame(x, y, c, d);
    if Broken(x, c) == [] {
      RecordedSame(x, y, c, d);
      ErodedSame(x, y, c, d, Chains(x, c), Chains(y, d));
    }
  }

  lemma NothingConsumed(c: Condensation, d: Condensation)
    ensures SameIds(c, d, {}, {})
  {
  }

  lemma CandidatesSame(x: Input, y: Input, c: Condensation, d: Condensation)
    requires Recoded(x, y, c, d) && WellFormed(x, c) && WellFormed(y, d) && Steady(x, c) && Steady(y, d)
    ensures SameCandidates(c, d, Candidates(x, c), Candidates(y, d))
  {
    hide Recoded, Matched, SameCandidate, SameCandidates, WellFormed, SameIds, ContentOrigins, HardOrigins, Unshadowed,
      Merge, Steady;
    WellFormedOf(x, y, c, d);
    TopoInRange(x, c);
    TopoInRange(y, d);
    OriginsSame(x, y, c, d);
    var s, t := ContentOrigins(x, c), ContentOrigins(y, d);
    SuperIdsSame(x, y, c, d, s, t);
    UnshadowedSame(x, y, c, d, SuperIds(s), SuperIds(t), s, t);
    HardOriginsSame(x, y, c, d);
    MergeSame(c, d, ContentFinal(x, c), ContentFinal(y, d), HardOrigins(x, c), HardOrigins(y, d));
  }

  // Main result: the same chains and the same origins, whatever the order of the lists and the numbering of the
  // components; and the localizer fails on one encoding exactly when it fails on the other.
  lemma CandidatesIndependent(x: Input, y: Input, a: seq<set<RunId>>, b: seq<set<RunId>>, c: Condensation,
                              d: Condensation)
    requires SameRun(x, y) && Condensed(x, a, c) && Condensed(y, b, d)
    ensures WellFormed(x, c) && WellFormed(y, d) && (Steady(x, c) <==> Steady(y, d))
    ensures SameChains(c, d, Chains(x, c), Chains(y, d))
    ensures Steady(x, c) ==> SameCandidates(c, d, Candidates(x, c), Candidates(y, d))
  {
    hide *;
    CondensedRecoded(x, y, a, b, c, d);
    WellFormedOf(x, y, c, d);
    RecordedSame(x, y, c, d);
    SteadySame(x, y, c, d);
    if Steady(x, c) {
      CandidatesSame(x, y, c, d);
    }
  }

  // ---------- The propagation path ----------

  lemma LatestSame(x: Input, y: Input, s: set<RunId>)
    requires SameRun(x, y) && s != {}
    ensures Latest(x, s) == Latest(y, s) && Scored(x, s) == Scored(y, s)
  {
    var m, n := Latest(x, s), Latest(y, s);
    assert x.endTimes == y.endTimes;
  }

  lemma TargetRunSame(x: Input, y: Input, terms: set<RunId>, exits: set<RunId>)
    requires SameRun(x, y) && exits != {}
    ensures TargetRun(x, terms, exits) == TargetRun(y, terms, exits)
  {
    hide Latest, Worst, Scored;
    LatestSame(x, y, exits);
    if Scored(x, exits) != {} { WorstSame(x, y, Scored(x, exits)); }
    if terms != {} {
      LatestSame(x, y, terms);
      if Scored(x, terms) != {} { WorstSame(x, y, Scored(x, terms)); }
    } else {
      NoneScored(x);
      NoneScored(y);
    }
  }

  lemma NoneScored(x: Input)
    ensures Scored(x, {}) == {}
  {
  }

  lemma ExitsCarried(x: Input, y: Input, c: Condensation, d: Condensation, s: set<nat>, t: set<nat>)
    requires Recoded(x, y, c, d) && SameIds(c, d, s, t)
    ensures Exits(c, s) <= Exits(d, t) && Terms(c, s) <= Terms(d, t)
  {
    hide Recoded, Matched, WellFormed;
    WellFormedOf(x, y, c, d);
    forall r | r in Exits(c, s) ensures r in Exits(d, t) {
      var i :| i in s && i < |c.supers| && c.supers[i].exit == r;
      var j := MatchOf(x, y, c, d, i);
      MatchedFacts(x, y, c, d, i, j);
      assert j in t;
    }
    forall r | r in Terms(c, s) ensures r in Terms(d, t) {
      LocatedSame(x, y, c, d, r);
    }
  }

  lemma PickSame(x: Input, y: Input, c: Condensation, d: Condensation, s: set<nat>, t: set<nat>)
    requires Recoded(x, y, c, d) && WellFormed(x, c) && WellFormed(y, d) && SameIds(c, d, s, t)
    requires s != {} && t != {} && (forall i :: i in s ==> i < |c.supers|) && forall j :: j in t ==> j < |d.supers|
    ensures Matched(c, d, PickTarget(x, c, s), PickTarget(y, d, t))
  {
    hide Recoded, Matched, WellFormed, SameRun, Exits, Terms, TargetRun;
    RunsShared(x, y, c, d);
    RecodedBack(x, y, c, d);
    SameIdsBack(x, y, c, d, s, t);
    ExitsCarried(x, y, c, d, s, t);
    ExitsCarried(y, x, d, c, t, s);
    assert Terms(c, s) == Terms(d, t) && Exits(c, s) == Exits(d, t);
    TargetLocated(x, c, s);
    TargetRunSame(x, y, Terms(c, s), Exits(c, s));
    LocatedSame(x, y, c, d, TargetRun(x, Terms(c, s), Exits(c, s)));
  }

  lemma SameIdsBack(x: Input, y: Input, c: Condensation, d: Condensation, s: set<nat>, t: set<nat>)
    requires Recoded(x, y, c, d) && SameIds(c, d, s, t)
    ensures SameIds(d, c, t, s)
  {
    hide Recoded, Matched;
    RecodedBack(x, y, c, d);
  }

  lemma SinkCarried(x: Input, y: Input, c: Condensation, d: Condensation, i: nat, j: nat)
    requires Recoded(x, y, c, d) && Matched(c, d, i, j) && i in c.sinks
    ensures j in d.sinks
  {
    hide Recoded, Matched, WellFormed;
    WellFormedOf(x, y, c, d);
    SinksInRange(x, c);
    MatchedFacts(x, y, c, d, i, j);
    forall b | (j, b) in d.dag.edges ensures false {
      EdgeInside(y, d, j, b);
      RecodedBack(x, y, c, d);
      var a := MatchOf(y, x, d, c, b);
      MatchedEdges(x, y, c, d, i, j, a, b);
      MatchedFacts(x, y, c, d, a, b);
    }
    SinkListed(y, d, j);
  }

  lemma SinksSame(x: Input, y: Input, c: Condensation, d: Condensation)
    requires Recoded(x, y, c, d)
    ensures SameIds(c, d, Elements(c.sinks), Elements(d.sinks))
  {
    hide Recoded, Matched;
    RecodedBack(x, y, c, d);
    forall i, j | Matched(c, d, i, j) ensures i in Elements(c.sinks) <==> j in Elements(d.sinks) {
      if i in c.sinks { SinkCarried(x, y, c, d, i, j); }
      if j in d.sinks { SinkCarried(y, x, d, c, j, i); }
    }
  }

  lemma ReachesCarried(x: Input, y: Input, c: Condensation, d: Condensation, i: nat, j: nat, i': nat, j': nat)
    requires Recoded(x, y, c, d) && Matched(c, d, i, j) && Matched(c, d, i', j') && Reaches(c.dag, i, i')
    ensures Reaches(d.dag, j, j')
  {
    hide Recoded, Matched;
    var p :| WalkFromTo(c.dag, i, i', p);
    WalkCarried(x, y, c, d, p, j, j');
  }

  lemma ReachableSinksSame(x: Input, y: Input, c: Condensation, d: Condensation, i: nat, j: nat)
    requires Recoded(x, y, c, d) && Matched(c, d, i, j)
    ensures SameIds(c, d, ReachableSinks(c, i), ReachableSinks(d, j))
  {
    hide Recoded, Matched, Reaches;
    RecodedBack(x, y, c, d);
    SinksSame(x, y, c, d);
    forall i', j' | Matched(c, d, i', j') ensures i' in ReachableSinks(c, i) <==> j' in ReachableSinks(d, j) {
      assert i' in Elements(c.sinks) <==> j' in Elements(d.sinks);
      if Reaches(c.dag, i, i') { ReachesCarried(x, y, c, d, i, j, i', j'); }
      if Reaches(d.dag, j, j') { ReachesCarried(y, x, d, c, j, i, j', i'); }
    }
  }

  lemma TargetSame(x: Input, y: Input, c: Condensation, d: Condensation, i: nat, j: nat)
    requires Recoded(x, y, c, d) && WellFormed(x, c) && WellFormed(y, d) && Matched(c, d, i, j) && i < |c.supers|
    requires j < |d.supers|
    ensures Matched(c, d, TargetOf(x, c, i), TargetOf(y, d, j))
  {
    hide Recoded, Matched, WellFormed, Reaches, PickTarget, SameIds, ReachableSinks;
    SinkReachable(x, c, i);
    SinkReachable(y, d, j);
    SinksSame(x, y, c, d);
    SomeSink(x, c, i);
    SomeSink(y, d, j);
    PickSame(x, y, c, d, Elements(c.sinks), Elements(d.sinks));
    ReachableSinksSame(x, y, c, d, i, j);
    PickSame(x, y, c, d, ReachableSinks(c, i), ReachableSinks(d, j));
    var a, b := PickTarget(x, c, Elements(c.sinks)), PickTarget(y, d, Elements(d.sinks));
    RecodedBack(x, y, c, d);
    if Reaches(c.dag, i, a) { ReachesCarried(x, y, c, d, i, j, a, b); }
    if Reaches(d.dag, j, b) { ReachesCarried(y, x, d, c, j, i, b, a); }
  }

  lemma SomeSink(x: Input, c: Condensation, i: nat)
    requires WellFormed(x, c) && i < |c.supers|
    ensures Elements(c.sinks) != {} && (forall s :: s in Elements(c.sinks) ==> s < |c.supers|)
    ensures ReachableSinks(c, i) != {} && forall s :: s in ReachableSinks(c, i) ==> s < |c.supers|
  {
    hide WellFormed, Reaches;
    SinkReachable(x, c, i);
    var s :| s in ReachableSinks(c, i);
    assert s in Elements(c.sinks);
  }

  ghost function Recode(x: Input, y: Input, c: Condensation, d: Condensation, p: seq<nat>): (q: seq<nat>)
    requires Recoded(x, y, c, d) && InRange(c, p)
    ensures MatchedSeq(c, d, p, q)
  {
    seq(|p|, k requires 0 <= k < |p| => assert p[k] in p; Recode1(x, y, c, d, p[k]))
  }

  ghost function Recode1(x: Input, y: Input, c: Condensation, d: Condensation, i: nat): (j: nat)
    requires Recoded(x, y, c, d) && i < |c.supers|
    ensures Matched(c, d, i, j)
  {
    assert exists j :: Matched(c, d, i, j) by {
      var j := MatchOf(x, y, c, d, i);
    }
    var j :| Matched(c, d, i, j);
    j
  }

  lemma PathCarried(x: Input, y: Input, c: Condensation, d: Condensation, p: seq<nat>, q: seq<nat>)
    requires Recoded(x, y, c, d) && MatchedSeq(c, d, p, q) && p != [] && InRange(c, p) && IsWalk(c.dag, p)
    ensures InRange(d, q) && IsWalk(d.dag, q) && Steps(x, c, p) == Steps(y, d, q)
  {
    hide Recoded, Matched, WellFormed;
    WellFormedOf(x, y, c, d);
    forall k | 0 <= k < |p|
      ensures p[k] < |c.supers| && q[k] < |d.supers| && q[k] in d.dag.nodes && StepOf(x, c, p[k]) == StepOf(y, d, q[k])
    {
      assert Matched(c, d, p[k], q[k]);
      MatchedFacts(x, y, c, d, p[k], q[k]);
    }
    forall k, l | 0 <= k < |q| && l == k + 1 < |q| ensures (q[k], q[l]) in d.dag.edges {
      assert Matched(c, d, p[k], q[k]) && Matched(c, d, p[l], q[l]);
      MatchedEdges(x, y, c, d, p[k], q[k], p[l], q[l]);
    }
  }

  lemma MatchedTwice(x: Input, y: Input, c: Condensation, d: Condensation, p: seq<nat>, q: seq<nat>, p': seq<nat>,
                     q': seq<nat>)
    requires Recoded(x, y, c, d) && MatchedSeq(c, d, p, q) && MatchedSeq(c, d, p', q')
    ensures p == p' <==> q == q'
  {
    hide Recoded, Matched;
    if |p| == |p'| {
      forall k | 0 <= k < |p| ensures p[k] == p'[k] <==> q[k] == q'[k] {
        assert Matched(c, d, p[k], q[k]) && Matched(c, d, p'[k], q'[k]);
        MatchedEdges(x, y, c, d, p[k], q[k], p'[k], q'[k]);
      }
    }
  }

  lemma LeastCarried(x: Input, y: Input, c: Condensation, d: Condensation, a: nat, b: nat, a': nat, b': nat,
                     p: seq<nat>, q: seq<nat>)
    requires Recoded(x, y, c, d) && Matched(c, d, a, a') && Matched(c, d, b, b')
    requires IsLeastPath(x, c, a, b, p) && MatchedSeq(c, d, p, q)
    ensures IsLeastPath(y, d, a', b', q)
  {
    hide Recoded, Matched, Steps, LexLess;
    RecodedBack(x, y, c, d);
    PathCarried(x, y, c, d, p, q);
    assert Matched(c, d, p[0], q[0]) && Matched(c, d, p[|p| - 1], q[|q| - 1]);
    MatchedEdges(x, y, c, d, a, a', p[0], q[0]);
    MatchedEdges(x, y, c, d, b, b', p[|p| - 1], q[|q| - 1]);
    forall r' | PathBetween(d, a', b', r') && r' != q ensures PathLess(y, d, q, r') {
      var r := Recode(y, x, d, c, r');
      PathCarried(y, x, d, c, r', r);
      assert Matched(d, c, r'[0], r[0]) && Matched(d, c, r'[|r'| - 1], r[|r| - 1]);
      MatchedEdges(y, x, d, c, a', a, r'[0], r[0]);
      MatchedEdges(y, x, d, c, b', b, r'[|r'| - 1], r[|r| - 1]);
      assert MatchedSeq(c, d, r, r');
      MatchedTwice(x, y, c, d, p, q, r, r');
      assert PathBetween(c, a, b, r) && PathLess(x, c, p, r);
    }
  }

  lemma {:induction false} ExpandSame(x: Input, y: Input, c: Condensation, d: Condensation, p: seq<nat>, q: seq<nat>)
    requires Recoded(x, y, c, d) && MatchedSeq(c, d, p, q) && InRange(c, p) && InRange(d, q)
    ensures Expand(c, p) == Expand(d, q)
  {
    hide Recoded, Matched;
    if p != [] {
      assert Matched(c, d, p[0], q[0]);
      MatchedFacts(x, y, c, d, p[0], q[0]);
      SuffixInRange(c, p, 1);
      SuffixInRange(d, q, 1);
      ExpandSame(x, y, c, d, p[1..], q[1..]);
    }
  }

  lemma PathSame(x: Input, y: Input, c: Condensation, d: Condensation, culprit: RunId,
                 p: seq<nat>, q: seq<nat>, path: seq<RunId>, path': seq<RunId>)
    requires Recoded(x, y, c, d) && WellFormed(x, c) && WellFormed(y, d) && culprit in c.superOf && culprit in d.superOf
    requires IsPropagation(x, c, culprit, p, path) && IsPropagation(y, d, culprit, q, path')
    ensures path == path'
  {
    hide Recoded, Matched, WellFormed, IsLeastPath, TargetOf;
    var i, j := c.superOf[culprit], d.superOf[culprit];
    LocatedSame(x, y, c, d, culprit);
    TargetSame(x, y, c, d, i, j);
    var a, b := TargetOf(x, c, i), TargetOf(y, d, j);
    LeastInRange(x, c, i, a, p);
    LeastInRange(y, d, j, b, q);
    var r := Recode(x, y, c, d, p);
    LeastCarried(x, y, c, d, i, a, j, b, p, r);
    LeastPathUnique(y, d, j, b, r, q);
    ExpandSame(x, y, c, d, p, q);
  }

  // Main result: the propagation path is the same list of runs.
  lemma PropagationIndependent(x: Input, y: Input, a: seq<set<RunId>>, b: seq<set<RunId>>, c: Condensation,
                               d: Condensation,
                               culprit: RunId, p: seq<nat>, q: seq<nat>, path: seq<RunId>, path': seq<RunId>)
    requires SameRun(x, y) && Condensed(x, a, c) && Condensed(y, b, d) && culprit in c.superOf
    ensures WellFormed(x, c) && WellFormed(y, d) && culprit in d.superOf
    ensures IsPropagation(x, c, culprit, p, path) && IsPropagation(y, d, culprit, q, path') ==> path == path'
  {
    hide *;
    CondensedRecoded(x, y, a, b, c, d);
    WellFormedOf(x, y, c, d);
    LocatedSame(x, y, c, d, culprit);
    if IsPropagation(x, c, culprit, p, path) && IsPropagation(y, d, culprit, q, path') {
      PathSame(x, y, c, d, culprit, p, q, path, path');
    }
  }
}
