// Two encodings of one run are blamed alike: the same culprits, the same verdict, the same gaps.

module SameBlame {
  import opened Prelude
  import opened Graphs
  import opened BlameInput
  import opened Condense
  import opened Encoding
  import opened Propagation
  import opened CutPoint
  import Localize
  import opened Origins
  import opened Evidence
  import opened Support
  import opened Derive
  import opened Independence
  import opened Loops
  import opened CandidateFacts
  import opened Cascade
  import opened Gaps
  import opened Soundness
  import opened Verdicts
  import opened Blame

  // ---------- Cycles are judged by their members ----------

  lemma RoundsOfSame(x: Input, y: Input, members: seq<RunId>, agent: string)
    requires SameRun(x, y)
    ensures RoundsOf(x, members, agent) == RoundsOf(y, members, agent)
  {
    FilterSame(members, (m: RunId) => IsRound(x, m, agent), (m: RunId) => IsRound(y, m, agent));
  }

  lemma {:induction false} InsertSame(x: Input, y: Input, sorted: seq<RunId>, m: RunId)
    requires SameRun(x, y) && m in x.attempts && forall r :: r in sorted ==> r in x.attempts
    ensures InsertRound(x, sorted, m) == InsertRound(y, sorted, m)
  {
    if sorted != [] && x.attempts[m] < x.attempts[sorted[|sorted| - 1]] {
      InsertSame(x, y, sorted[..|sorted| - 1], m);
    }
  }

  lemma {:induction false} ArrangedSame(x: Input, y: Input, s: seq<RunId>)
    requires SameRun(x, y) && forall r :: r in s ==> r in x.attempts
    ensures Arranged(x, s) == Arranged(y, s)
  {
    if s != [] {
      var n := |s| - 1;
      ArrangedSame(x, y, s[..n]);
      InsertSame(x, y, Arranged(x, s[..n]), s[n]);
    }
  }

  lemma BusiestSame(x: Input, y: Input, members: seq<RunId>, agents: set<string>, a: string)
    requires SameRun(x, y) && IsBusiest(x, members, agents, a)
    ensures IsBusiest(y, members, agents, a)
  {
    hide RoundsOf, SameRun;
    forall b ensures RoundsOf(x, members, b) == RoundsOf(y, members, b) {
      RoundsOfSame(x, y, members, b);
    }
  }

  lemma AgentsSame(x: Input, y: Input, members: seq<RunId>)
    requires SameRun(x, y)
    ensures Agents(x, members) == Agents(y, members)
  {
  }

  lemma RoundsCarried(x: Input, y: Input, members: seq<RunId>, rounds: nat, repeating: seq<RunId>)
    requires SameRun(x, y) && AreRounds(x, members, rounds, repeating)
    ensures AreRounds(y, members, rounds, repeating)
  {
    AgentsSame(x, y, members);
    hide IsBusiest, Agents, RoundsOf, SameRun, Arranged;
    if Agents(x, members) != {} {
      var a :| IsBusiest(x, members, Agents(x, members), a) && repeating == Arranged(x, RoundsOf(x, members, a));
      BusiestSame(x, y, members, Agents(x, members), a);
      RoundsOfSame(x, y, members, a);
      RoundsAttempted(x, members, a);
      ArrangedSame(x, y, RoundsOf(x, members, a));
    }
  }

  lemma RoundsAttempted(x: Input, members: seq<RunId>, a: string)
    ensures forall r :: r in RoundsOf(x, members, a) ==> r in x.attempts
  {
  }

  lemma RanCarried(x: Input, y: Input, sn: SuperNode, iterations: int, repeating: seq<RunId>)
    requires SameRun(x, y) && RanAs(x, sn, iterations, repeating)
    ensures RanAs(y, sn, iterations, repeating)
  {
    hide AreRounds, SameRun;
    var rounds: nat :| AreRounds(x, sn.members, rounds, repeating) && iterations == IterationsOf(sn, rounds);
    RoundsCarried(x, y, sn.members, rounds, repeating);
  }

  lemma CommonSame(x: Input, y: Input, members: seq<RunId>, names: set<string>, a: string)
    requires SameRun(x, y) && IsMostCommon(x, members, names, a)
    ensures IsMostCommon(y, members, names, a) && Names(x, members) == Names(y, members)
  {
    forall r ensures NameOf(x, r) == NameOf(y, r) {
    }
    hide NameOf, SameRun;
    forall b ensures CountName(x, members, b) == CountName(y, members, b) {
      FilterSame(members, (m: RunId) => NameOf(x, m) == b, (m: RunId) => NameOf(y, m) == b);
    }
    hide CountName;
  }

  lemma DominantCarried(x: Input, y: Input, members: seq<RunId>, repeating: seq<RunId>, agent: string)
    requires SameRun(x, y) && IsDominant(x, members, repeating, agent)
    ensures IsDominant(y, members, repeating, agent)
  {
    hide IsMostCommon, Names;
    if repeating == [] {
      CommonSame(x, y, members, Names(x, members), agent);
    }
  }

  lemma AnomalyCarried(x: Input, y: Input, sn: SuperNode, an: Anomaly)
    requires SameRun(x, y) && IsAnomaly(x, sn, an)
    ensures IsAnomaly(y, sn, an)
  {
    hide RanAs, IsDominant, Outlier, Exceeds, SameRun;
    RanCarried(x, y, sn, an.iterations, an.repeating);
    LimitsSame(x, y, an.iterations);
    if an.statistical {
      var agent :| IsDominant(x, sn.members, an.repeating, agent) && Outlier(x, an.iterations, agent);
      DominantCarried(x, y, sn.members, an.repeating, agent);
    }
  }

  lemma LimitsSame(x: Input, y: Input, iterations: int)
    requires SameRun(x, y)
    ensures Exceeds(x, iterations) == Exceeds(y, iterations)
    ensures forall agent :: Outlier(x, iterations, agent) == Outlier(y, iterations, agent)
  {
  }

  lemma BenignCarried(x: Input, y: Input, sn: SuperNode)
    requires SameRun(x, y) && IsBenign(x, sn)
    ensures IsBenign(y, sn)
  {
    hide RanAs, IsDominant, Outlier, Exceeds, SameRun;
    if IsCycle(sn) {
      var n, s, agent :| IsUnremarkable(x, sn, n, s, agent);
      LimitsSame(x, y, n);
      RanCarried(x, y, sn, n, s);
      DominantCarried(x, y, sn.members, s, agent);
      assert IsUnremarkable(y, sn, n, s, agent);
    }
  }

  // The scan over the second encoding is a scan over the first.
  lemma ScanCarried(x: Input, y: Input, c: Condensation, d: Condensation, found: seq<Anomaly>, at: seq<nat>)
    requires Recoded(x, y, c, d) && AreAnomalies(y, d, |d.topo|, found, at)
    ensures AreAnomalies(x, c, |c.topo|, found, at) && forall i :: 0 <= i < |c.topo| ==> c.topo[i] < |c.supers|
  {
    hide WellFormed, IsAnomaly, IsBenign, SameRun;
    RecodedBack(x, y, c, d);
    forall i | 0 <= i < |at| ensures c.topo[at[i]] < |c.supers| && IsAnomaly(x, c.supers[c.topo[at[i]]], found[i]) {
      AnomalyCarried(y, x, d.supers[d.topo[at[i]]], found[i]);
    }
    forall i: nat | i < |c.topo| && i !in at ensures IsBenign(x, c.supers[c.topo[i]]) {
      BenignCarried(y, x, d.supers[d.topo[i]]);
    }
  }

  lemma AnomaliesSame(x: Input, y: Input, c: Condensation, d: Condensation, a: Analysis, b: Analysis, f: seq<Anomaly>,
                      g: seq<Anomaly>)
    requires Recoded(x, y, c, d) && Analyzed(x, c, a, f) && Analyzed(y, d, b, g)
    ensures f == g
  {
    hide *;
    var s := AnalyzedParts(x, c, a, f);
    var t := AnalyzedParts(y, d, b, g);
    ScanCarried(x, y, c, d, g, t);
    AnomaliesUnique(x, c, |c.topo|, f, s, g, t);
  }

  // ---------- The analysis ----------

  lemma ObservedSame(x: Input, y: Input, c: Condensation, d: Condensation, i: nat, j: nat)
    requires Recoded(x, y, c, d) && Matched(c, d, i, j) && i < |c.supers| && j < |d.supers|
    ensures ObservedDrop(x, c, i) <==> ObservedDrop(y, d, j)
  {
    hide Recoded, Matched, WellFormed, Lowest, Highest, PredExits, SameRun, AllHealthy, KnownScores;
    MatchedFacts(x, y, c, d, i, j);
    RunsShared(x, y, c, d);
    ExitsSame(x, y, c, d, i, j);
    ExtremesSame(x, y, PredExits(c, i));
    SameRuns(x, y, 0);
  }

  lemma SomethingSame(x: Input, y: Input, c: Condensation, d: Condensation)
    requires Recoded(x, y, c, d) && WellFormed(x, c) && WellFormed(y, d)
    ensures SomethingBroke(x, c) <==> SomethingBroke(y, d)
  {
    hide Recoded, Matched, WellFormed, ObservedDrop, Internal, Bucketed, SameCandidate, SameIds;
    WellFormedOf(x, y, c, d);
    TopoInRange(x, c);
    TopoInRange(y, d);
    var n := |c.topo|;
    forall k: nat | k < n ensures ObservedDrop(x, c, c.topo[k]) <==> ObservedDrop(y, d, d.topo[k]) {
      AtPosition(c, d, k);
      ObservedSame(x, y, c, d, c.topo[k], d.topo[k]);
    }
    BucketedSame(x, y, c, d, n, DropOrigin);
    BucketedSame(x, y, c, d, n, Propagating);
    var s, t := SharpOrigins(x, c), SharpOrigins(y, d);
    SuperIdsSame(x, y, c, d, s, t);
    InternalSame(x, y, c, d, n, SuperIds(s), SuperIds(t));
    BrokeInsideSame(c, d, Internal(x, c, n, SuperIds(s)), Internal(y, d, n, SuperIds(t)));
  }

  lemma BrokeInsideSame(c: Condensation, d: Condensation, s: seq<Candidate>, t: seq<Candidate>)
    requires SameCandidates(c, d, s, t)
    ensures (exists u :: u in s && u.observedDrop) <==> exists v :: v in t && v.observedDrop
  {
    hide Matched;
    if u :| u in s && u.observedDrop {
      var k :| 0 <= k < |s| && s[k] == u;
      assert SameCandidate(c, d, s[k], t[k]) && t[k] in t;
    }
    if v :| v in t && v.observedDrop {
      var k :| 0 <= k < |t| && t[k] == v;
      assert SameCandidate(c, d, s[k], t[k]) && s[k] in s;
    }
  }

  lemma AnalysesSame(x: Input, y: Input, c: Condensation, d: Condensation, a: Analysis, b: Analysis)
    requires Recoded(x, y, c, d) && IsAnalysis(x, c, a) && IsAnalysis(y, d, b)
    ensures SameCandidates(c, d, a.candidates, b.candidates) && a.hadSignificantDrop == b.hadSignificantDrop
  {
    hide Recoded, WellFormed, Steady, Candidates, SomethingBroke, SameCandidates, Chains;
    CandidatesSame(x, y, c, d);
    SomethingSame(x, y, c, d);
  }

  // ---------- The row ----------

  // Both condensations list their sources in their own topological order.
  ghost predicate Listed(c: Condensation) {
    c.sources == Sources(c.dag, c.topo)
  }

  lemma CondensedLists(x: Input, a: seq<set<RunId>>, c: Condensation)
    requires Condensed(x, a, c)
    ensures Listed(c)
  {
    hide IsSccListing, IsQuotient, SupersOf, Locates, IsKahnOrder;
  }

  ghost predicate SameExits(c: Condensation, d: Condensation, s: seq<nat>, t: seq<nat>) {
    |s| == |t| && forall k :: 0 <= k < |s| ==>
      s[k] < |c.supers| && t[k] < |d.supers| && c.supers[s[k]].exit == d.supers[t[k]].exit
  }

  lemma {:induction false} SourcesPrefix(x: Input, y: Input, c: Condensation, d: Condensation, k: nat)
    requires Recoded(x, y, c, d) && k <= |c.topo| == |d.topo|
    ensures SameExits(c, d, Sources(c.dag, c.topo[..k]), Sources(d.dag, d.topo[..k]))
  {
    hide Recoded, Matched, IsSource;
    if k > 0 {
      SourcesPrefix(x, y, c, d, k - 1);
      AtPosition(c, d, k - 1);
      SourceSame(x, y, c, d, c.topo[k - 1], d.topo[k - 1]);
      MatchedFacts(x, y, c, d, c.topo[k - 1], d.topo[k - 1]);
      SourcesNext(c, k - 1);
      SourcesNext(d, k - 1);
    }
  }

  lemma SourcesNext(c: Condensation, k: nat)
    requires k < |c.topo|
    ensures Sources(c.dag, c.topo[..k + 1]) ==
      Sources(c.dag, c.topo[..k]) + if IsSource(c.dag, c.topo[k]) then [c.topo[k]] else []
  {
    hide IsSource;
    Localize.FilterNext(c.topo, k, (n: nat) => IsSource(c.dag, n));
    SourcesAre(c.dag, c.topo[..k]);
    SourcesAre(c.dag, c.topo[..k + 1]);
  }

  lemma SourcesAre(dag: Graph, s: seq<nat>)
    ensures Sources(dag, s) == Filter(s, (n: nat) => IsSource(dag, n))
  {
    FilterSame(s, n => IsSource(dag, n), (n: nat) => IsSource(dag, n));
  }

  lemma SourceExitsSame(x: Input, y: Input, c: Condensation, d: Condensation)
    requires Recoded(x, y, c, d) && Listed(c) && Listed(d) && InRange(c, c.sources) && InRange(d, d.sources)
    ensures SourceExits(c) == SourceExits(d) && FlawedSources(x, c) == FlawedSources(y, d) && |c.sources| == |d.sources|
  {
    WellFormedOf(x, y, c, d);
    hide Recoded, WellFormed, InputFlawed;
    SourcesPrefix(x, y, c, d, |c.topo|);
    assert c.topo[..|c.topo|] == c.topo && d.topo[..|d.topo|] == d.topo;
    assert SourceExits(c) == SourceExits(d);
    forall r ensures InputFlawed(x, r) == InputFlawed(y, r) {
      SameRuns(x, y, r);
    }
    FilterSame(SourceExits(c), (r: RunId) => InputFlawed(x, r), (r: RunId) => InputFlawed(y, r));
  }

  ghost predicate SameRow(c: Condensation, d: Condensation, r: Row, s: Row) {
    match r
    case Runaway(an, others) => s.Runaway? && s.anomaly == an && SameCandidates(c, d, others, s.others)
    case NearMiss(u) => s.NearMiss? && SameCandidate(c, d, u, s.origin)
    case ContentUnplaced(u) => s.ContentUnplaced? && SameCandidate(c, d, u, s.origin)
    case OneOrigin(u) => s.OneOrigin? && SameCandidate(c, d, u, s.origin)
    case ManyOrigins(us) => s.ManyOrigins? && SameCandidates(c, d, us, s.origins)
    case _ => s == r
  }

  lemma UnmeasuredSame(x: Input, y: Input, c: Condensation, d: Condensation)
    requires SameRun(x, y) && c.graph == d.graph
    ensures QualityUnmeasured(x, c) == QualityUnmeasured(y, d)
    ensures TerminalBad(x) == TerminalBad(y) && TerminalOk(x) == TerminalOk(y) && LiveBad(x) == LiveBad(y)
  {
    hide SameRun, ScoreOf;
    SameRuns(x, y, 0);
    forall r ensures ScoreOf(x, r) == ScoreOf(y, r) {
      SameRuns(x, y, r);
    }
  }

  // Either condensation knows a run, and in a named place, when the other does.
  predicate InNamed(c: Condensation, ids: set<nat>, an: Anomaly) {
    an.members != [] && an.members[0] in c.superOf && c.superOf[an.members[0]] in ids
  }

  lemma InNamedSame(x: Input, y: Input, c: Condensation, d: Condensation, s: set<nat>, t: set<nat>, an: Anomaly)
    requires Recoded(x, y, c, d) && SameIds(c, d, s, t)
    ensures InNamed(c, s, an) <==> InNamed(d, t, an)
    ensures an.members != [] ==> (an.members[0] in c.superOf <==> an.members[0] in d.superOf)
  {
    hide Recoded, Matched;
    if an.members != [] {
      RecodedBack(x, y, c, d);
      if an.members[0] in c.superOf { LocatedSame(x, y, c, d, an.members[0]); }
      if an.members[0] in d.superOf { LocatedSame(y, x, d, c, an.members[0]); }
    }
  }

  lemma ChosenIs(c: Condensation, ids: set<nat>, anomalies: seq<Anomaly>)
    requires anomalies != [] && forall an :: an in anomalies ==> an.members != [] && an.members[0] in c.superOf
    ensures var named := Filter(anomalies, (an: Anomaly) => InNamed(c, ids, an));
      ChosenAnomaly(c, ids, anomalies) == (if named != [] then named[0] else anomalies[0]) &&
      (LoopIsNamed(c, ids, anomalies) <==> named != [])
  {
    FilterSame(anomalies, (an: Anomaly) => InNamed(c, ids, an),
               (an: Anomaly) => an.members != [] && an.members[0] in c.superOf && c.superOf[an.members[0]] in ids);
    var named := Filter(anomalies, (an: Anomaly) => InNamed(c, ids, an));
    if named != [] {
      assert named[0] in named && InNamed(c, ids, named[0]) && named[0] in anomalies;
    }
    if an :| an in anomalies && c.superOf[an.members[0]] in ids {
      assert InNamed(c, ids, an) && an in named;
    }
  }

  lemma ChosenSame(x: Input, y: Input, c: Condensation, d: Condensation, s: set<nat>, t: set<nat>,
                   anomalies: seq<Anomaly>)
    requires Recoded(x, y, c, d) && SameIds(c, d, s, t) && anomalies != []
    requires forall an :: an in anomalies ==>
      an.members != [] && an.members[0] in c.superOf && an.members[0] in d.superOf
    ensures ChosenAnomaly(c, s, anomalies) == ChosenAnomaly(d, t, anomalies)
    ensures LoopIsNamed(c, s, anomalies) <==> LoopIsNamed(d, t, anomalies)
  {
    hide Recoded, SameIds, InNamed, ChosenAnomaly, LoopIsNamed;
    ChosenIs(c, s, anomalies);
    ChosenIs(d, t, anomalies);
    forall an: Anomaly ensures InNamed(c, s, an) <==> InNamed(d, t, an) {
      InNamedSame(x, y, c, d, s, t, an);
    }
    FilterSame(anomalies, (an: Anomaly) => InNamed(c, s, an), (an: Anomaly) => InNamed(d, t, an));
  }

  lemma {:induction false} OthersSame(x: Input, y: Input, c: Condensation, d: Condensation, s: seq<Candidate>,
                                      t: seq<Candidate>, i: nat, j: nat)
    requires Recoded(x, y, c, d) && SameCandidates(c, d, s, t) && Matched(c, d, i, j)
    ensures SameCandidates(c, d, Outside(s, i), Outside(t, j))
  {
    hide Recoded, Matched, SameCandidates, SameCandidate;
    if s != [] {
      TailsSame(c, d, s, t);
      MatchedEdges(x, y, c, d, s[0].superId, t[0].superId, i, j);
      OthersSame(x, y, c, d, s[1..], t[1..], i, j);
      OneSame(c, d, s[0], t[0]);
      NoneSame(c, d);
      var f, g := Outside(s[1..], i), Outside(t[1..], j);
      if s[0].superId != i {
        SameAppend(c, d, [s[0]], [t[0]], f, g);
      } else {
        SameAppend(c, d, [], [], f, g);
      }
    } else {
      EmptyAlike(c, d, s, t);
      NoneSame(c, d);
    }
  }

  lemma TailsSame(c: Condensation, d: Condensation, s: seq<Candidate>, t: seq<Candidate>)
    requires SameCandidates(c, d, s, t) && s != []
    ensures t != [] && SameCandidate(c, d, s[0], t[0]) && SameCandidates(c, d, s[1..], t[1..])
    ensures Matched(c, d, s[0].superId, t[0].superId)
  {
    assert SameCandidate(c, d, s[0], t[0]);
    hide Matched;
  }

  lemma EmptyAlike(c: Condensation, d: Condensation, s: seq<Candidate>, t: seq<Candidate>)
    requires SameCandidates(c, d, s, t) && s == []
    ensures t == []
  {
  }

  lemma SingleRowSame(x: Input, y: Input, c: Condensation, d: Condensation, u: Candidate, v: Candidate)
    requires Recoded(x, y, c, d) && SameCandidate(c, d, u, v) && u.superId < |c.supers| && v.superId < |d.supers|
    requires TerminalBad(x) == TerminalBad(y) && TerminalOk(x) == TerminalOk(y)
    ensures SameRow(c, d, SingleRow(x, c, u), SingleRow(y, d, v)) && (InCycle(c, u) <==> InCycle(d, v))
  {
    hide Recoded, Matched, TerminalBad, TerminalOk;
    MatchedFacts(x, y, c, d, u.superId, v.superId);
  }

  lemma ConfessesSame(x: Input, y: Input, c: Condensation, d: Condensation)
    requires Recoded(x, y, c, d) && InRange(c, c.topo) && InRange(d, d.topo)
    ensures Filter(Expand(c, c.topo), (n: RunId) => Confesses(x, n)) ==
      Filter(Expand(d, d.topo), (n: RunId) => Confesses(y, n))
  {
    WellFormedOf(x, y, c, d);
    hide WellFormed;
    TopoMatched(c, d);
    ExpandSame(x, y, c, d, c.topo, d.topo);
    assert SameRun(x, y);
    hide Recoded, Expand;
    forall n ensures Confesses(x, n) == Confesses(y, n) {
      SameRuns(x, y, n);
    }
    hide Confesses;
    FilterSame(Expand(c, c.topo), (n: RunId) => Confesses(x, n), (n: RunId) => Confesses(y, n));
  }

  lemma TopoMatched(c: Condensation, d: Condensation)
    requires |c.topo| == |d.topo|
    ensures MatchedSeq(c, d, c.topo, d.topo)
  {
  }

  lemma LooksSame(x: Input, y: Input, c: Condensation, d: Condensation, a: Analysis, b: Analysis)
    requires SameRun(x, y) && c.graph == d.graph && InRange(c, c.sources) && InRange(d, d.sources)
    requires SourceExits(c) == SourceExits(d) && a.hadSignificantDrop == b.hadSignificantDrop
    requires |c.sources| == |d.sources|
    ensures LooksHealthy(x, c, a) == LooksHealthy(y, d, b)
  {
    hide SourceExits;
    forall n ensures HidesSomething(x, c, n) == HidesSomething(y, d, n) && Low(x, n) == Low(y, n) {
      SameRuns(x, y, n);
    }
    hide HidesSomething, Low, SameRun;
  }

  lemma NoCandidateSame(x: Input, y: Input, c: Condensation, d: Condensation, a: Analysis, b: Analysis)
    requires Recoded(x, y, c, d) && InRange(c, c.topo) && InRange(d, d.topo) && InRange(c, c.sources)
    requires InRange(d, d.sources)
    requires Listed(c) && Listed(d) && a.hadSignificantDrop == b.hadSignificantDrop
    ensures NoCandidateRow(x, c, a) == NoCandidateRow(y, d, b)
  {
    WellFormedOf(x, y, c, d);
    hide WellFormed;
    SourceExitsSame(x, y, c, d);
    ConfessesSame(x, y, c, d);
    UnmeasuredSame(x, y, c, d);
    LooksSame(x, y, c, d, a, b);
    SameRuns(x, y, 0);
    hide Recoded, SameRun, Expand, Confesses, SourceExits, TerminalBad, LooksHealthy, InRange, Listed, Filter;
  }

  lemma RowsSame(x: Input, y: Input, c: Condensation, d: Condensation, a: Analysis, b: Analysis,
                 anomalies: seq<Anomaly>)
    requires Recoded(x, y, c, d) && Listed(c) && Listed(d) && CascadeReady(c, a, anomalies)
    requires CascadeReady(d, b, anomalies)
    requires SameCandidates(c, d, a.candidates, b.candidates) && a.hadSignificantDrop == b.hadSignificantDrop
    ensures SameRow(c, d, RowOf(x, c, a, anomalies), RowOf(y, d, b, anomalies))
  {
    hide *;
    ReadyParts(c, a, anomalies);
    ReadyParts(d, b, anomalies);
    WellFormedOf(x, y, c, d);
    UnmeasuredSame(x, y, c, d);
    SourceExitsSame(x, y, c, d);
    NoCandidateSame(x, y, c, d, a, b);
    SuperIdsSame(x, y, c, d, a.candidates, b.candidates);
    var s, t := SuperIds(a.candidates), SuperIds(b.candidates);
    SameLength(c, d, a.candidates, b.candidates);
    if anomalies != [] {
      ChosenSame(x, y, c, d, s, t, anomalies);
      ChosenInside(c, s, anomalies);
      var first := ChosenAnomaly(c, s, anomalies).members[0];
      LocatedSame(x, y, c, d, first);
      OthersSame(x, y, c, d, a.candidates, b.candidates, c.superOf[first], d.superOf[first]);
    }
    if |a.candidates| == 1 {
      assert a.candidates[0] in a.candidates && b.candidates[0] in b.candidates;
      SingleRowSame(x, y, c, d, a.candidates[0], b.candidates[0]);
    }
    RowsFollow(x, y, c, d, a, b, anomalies);
  }

  lemma ChosenInside(c: Condensation, ids: set<nat>, anomalies: seq<Anomaly>)
    requires anomalies != [] && forall an :: an in anomalies ==> an.members != [] && an.members[0] in c.superOf
    ensures ChosenAnomaly(c, ids, anomalies) in anomalies
  {
    hide ChosenAnomaly;
  }

  lemma SameLength(c: Condensation, d: Condensation, s: seq<Candidate>, t: seq<Candidate>)
    requires SameCandidates(c, d, s, t)
    ensures |s| == |t| && forall k :: 0 <= k < |s| ==> SameCandidate(c, d, s[k], t[k])
  {
    hide SameCandidate;
  }

  lemma ReadyParts(c: Condensation, a: Analysis, anomalies: seq<Anomaly>)
    requires CascadeReady(c, a, anomalies)
    ensures InRange(c, c.topo) && InRange(c, c.sources)
    ensures forall x :: x in a.candidates ==> x.superId < |c.supers|
    ensures forall an :: an in anomalies ==> an.members != [] && an.members[0] in c.superOf
  {
  }

  // The tests of the cascade come out alike, so the same row is reached.
  lemma RowsFollow(x: Input, y: Input, c: Condensation, d: Condensation, a: Analysis, b: Analysis,
                   anomalies: seq<Anomaly>)
    requires CascadeReady(c, a, anomalies) && CascadeReady(d, b, anomalies) && |a.candidates| == |b.candidates|
    requires SameCandidates(c, d, a.candidates, b.candidates) && QualityUnmeasured(x, c) == QualityUnmeasured(y, d)
    requires FlawedSources(x, c) == FlawedSources(y, d) && NoCandidateRow(x, c, a) == NoCandidateRow(y, d, b)
    requires anomalies != [] ==>
      var s, t := SuperIds(a.candidates), SuperIds(b.candidates);
      var chosen := ChosenAnomaly(c, s, anomalies);
      chosen == ChosenAnomaly(d, t, anomalies) && (LoopIsNamed(c, s, anomalies) <==> LoopIsNamed(d, t, anomalies)) &&
      chosen.members != [] && chosen.members[0] in c.superOf && chosen.members[0] in d.superOf &&
      SameCandidates(c, d, Outside(a.candidates, c.superOf[chosen.members[0]]),
                     Outside(b.candidates, d.superOf[chosen.members[0]]))
    requires |a.candidates| == 1 ==>
      a.candidates[0].superId < |c.supers| && b.candidates[0].superId < |d.supers| &&
      SameRow(c, d, SingleRow(x, c, a.candidates[0]), SingleRow(y, d, b.candidates[0]))
    ensures SameRow(c, d, RowOf(x, c, a, anomalies), RowOf(y, d, b, anomalies))
  {
    NoCandidateKinds(x, c, a);
    hide QualityUnmeasured, FlawedSources, NoCandidateRow, SingleRow, ChosenAnomaly, LoopIsNamed, SuperIds,
      SameCandidates, SameCandidate, Outside;
  }

  lemma NoCandidateKinds(x: Input, c: Condensation, a: Analysis)
    requires InRange(c, c.topo) && InRange(c, c.sources)
    ensures var r := NoCandidateRow(x, c, a); r.Fabrication? || r.WholeOnly? || r.NothingFound?
  {
    hide TerminalBad, LooksHealthy, Confesses, Expand, SourceExits;
  }

  // ---------- What the row reports ----------

  lemma DrillSame(x: Input, y: Input, c: Condensation, d: Condensation, u: Candidate, v: Candidate)
    requires Recoded(x, y, c, d) && SameCandidate(c, d, u, v) && u.superId < |c.supers| && v.superId < |d.supers|
    ensures Drill(x, c, u) == Drill(y, d, v) && Resolved(x, c, u) == Resolved(y, d, v)
  {
    hide *;
    PairedNodes(x, y, c, d, u, v);
    var s := Elements(c.supers[u.superId].members);
    ExtremesSame(x, y, s);
    if KnownScores(x, s) != {} {
      WorstSame(x, y, KnownScores(x, s));
    }
    forall m ensures MeasuredFall(x, c.graph, m) == MeasuredFall(y, d.graph, m) {
      FallSame(x, y, c.graph, m);
    }
    DrillFollows(x, y, c, d, u, v);
  }

  lemma PairedNodes(x: Input, y: Input, c: Condensation, d: Condensation, u: Candidate, v: Candidate)
    requires Recoded(x, y, c, d) && SameCandidate(c, d, u, v) && u.superId < |c.supers| && v.superId < |d.supers|
    ensures SameRun(x, y) && c.graph == d.graph && c.supers[u.superId] == d.supers[v.superId]
    ensures u.(superId := v.superId) == v
  {
    WellFormedOf(x, y, c, d);
    hide Recoded, Matched, WellFormed;
    MatchedFacts(x, y, c, d, u.superId, v.superId);
  }

  lemma DrillFollows(x: Input, y: Input, c: Condensation, d: Condensation, u: Candidate, v: Candidate)
    requires u.superId < |c.supers| && v.superId < |d.supers| && u.(superId := v.superId) == v
    requires c.supers[u.superId] == d.supers[v.superId]
    requires var s := Elements(c.supers[u.superId].members);
      KnownScores(x, s) == KnownScores(y, s) &&
      (KnownScores(x, s) != {} ==> Worst(x, KnownScores(x, s)) == Worst(y, KnownScores(x, s)))
    requires forall m :: MeasuredFall(x, c.graph, m) == MeasuredFall(y, d.graph, m)
    ensures Drill(x, c, u) == Drill(y, d, v) && Resolved(x, c, u) == Resolved(y, d, v)
  {
    hide Worst, KnownScores, MeasuredFall, Elements;
  }

  lemma FallSame(x: Input, y: Input, g: Graph, m: RunId)
    requires SameRun(x, y)
    ensures MeasuredFall(x, g, m) == MeasuredFall(y, g, m)
  {
    hide SameRun, Highest;
    SameRuns(x, y, m);
    ExtremesSame(x, y, RunPreds(g, m));
  }

  lemma AllResolvedSame(x: Input, y: Input, c: Condensation, d: Condensation, s: seq<Candidate>, t: seq<Candidate>)
    requires Recoded(x, y, c, d) && SameCandidates(c, d, s, t) && Placed(c, s) && Placed(d, t)
    ensures AllResolved(x, c, s) == AllResolved(y, d, t)
  {
    hide Recoded, Matched, Resolved, SameCandidate;
    forall i | 0 <= i < |s| ensures AllResolved(x, c, s)[i] == AllResolved(y, d, t)[i] {
      assert s[i] in s && t[i] in t && SameCandidate(c, d, s[i], t[i]);
      DrillSame(x, y, c, d, s[i], t[i]);
    }
  }

  lemma StarvedSame(x: Input, y: Input, c: Condensation, d: Condensation, u: Candidate, v: Candidate)
    requires SameRun(x, y) && SameCandidate(c, d, u, v) && LiveBad(x) == LiveBad(y) && TerminalBad(x) == TerminalBad(y)
    ensures StarvedOrigin(x, u) == StarvedOrigin(y, v)
  {
    hide Matched, LiveBad, TerminalBad;
    EvidenceSame(x, y, u.run);
  }

  lemma EvidenceSame(x: Input, y: Input, r: RunId)
    requires SameRun(x, y)
    ensures OwnEvidence(x, r) == OwnEvidence(y, r)
  {
  }

  lemma AnyStarvedSame(x: Input, y: Input, c: Condensation, d: Condensation, s: seq<Candidate>, t: seq<Candidate>)
    requires SameRun(x, y) && SameCandidates(c, d, s, t) && LiveBad(x) == LiveBad(y) && TerminalBad(x) == TerminalBad(y)
    ensures (exists u :: u in s && StarvedOrigin(x, u)) <==> exists v :: v in t && StarvedOrigin(y, v)
  {
    hide SameRun, SameCandidate, LiveBad, TerminalBad, StarvedOrigin;
    if u :| u in s && StarvedOrigin(x, u) {
      var k :| 0 <= k < |s| && s[k] == u;
      StarvedSame(x, y, c, d, s[k], t[k]);
      assert t[k] in t;
    }
    if v :| v in t && StarvedOrigin(y, v) {
      var k :| 0 <= k < |t| && t[k] == v;
      StarvedSame(x, y, c, d, s[k], t[k]);
      assert s[k] in s;
    }
  }

  lemma PlacesSame(x: Input, y: Input, c: Condensation, d: Condensation, s: seq<Candidate>, t: seq<Candidate>)
    requires Recoded(x, y, c, d) && SameCandidates(c, d, s, t)
    ensures TwoPlaces(s) <==> TwoPlaces(t)
  {
    hide Recoded, Matched;
    if TwoPlaces(s) {
      var u, w :| u in s && w in s && u.superId != w.superId;
      var k :| 0 <= k < |s| && s[k] == u;
      var l :| 0 <= l < |s| && s[l] == w;
      assert SameCandidate(c, d, s[k], t[k]) && SameCandidate(c, d, s[l], t[l]);
      MatchedEdges(x, y, c, d, u.superId, t[k].superId, w.superId, t[l].superId);
      assert t[k] in t && t[l] in t;
    }
    if TwoPlaces(t) {
      var u, w :| u in t && w in t && u.superId != w.superId;
      var k :| 0 <= k < |t| && t[k] == u;
      var l :| 0 <= l < |t| && t[l] == w;
      assert SameCandidate(c, d, s[k], t[k]) && SameCandidate(c, d, s[l], t[l]);
      MatchedEdges(x, y, c, d, s[k].superId, u.superId, s[l].superId, w.superId);
      assert s[k] in s && s[l] in s;
    }
  }

  lemma RunsAlike(x: Input, y: Input, c: Condensation, d: Condensation)
    requires Recoded(x, y, c, d)
    ensures SameRun(x, y) && c.graph == d.graph && QualityUnmeasured(x, c) == QualityUnmeasured(y, d)
    ensures TerminalBad(x) == TerminalBad(y) && LiveBad(x) == LiveBad(y)
    ensures forall r :: Violations(x, r) == Violations(y, r)
  {
    WellFormedOf(x, y, c, d);
    UnmeasuredSame(x, y, c, d);
    hide Recoded, WellFormed, SameRun, Violations;
    forall r ensures Violations(x, r) == Violations(y, r) {
      SameRuns(x, y, r);
    }
  }

  // One candidate, one culprit, one reason to fail.
  lemma LoneSame(x: Input, y: Input, c: Condensation, d: Condensation, r: Row, s: Row)
    requires Recoded(x, y, c, d) && SameRow(c, d, r, s) && RowReady(c, r) && RowReady(d, s)
    requires !r.Runaway? && !r.ManyOrigins?
    ensures RowCulprits(x, c, r) == RowCulprits(y, d, s) && RowVerdict(x, c, r) == RowVerdict(y, d, s)
    ensures Starved(x, c, r) <==> Starved(y, d, s)
  {
    hide Recoded, Matched, Drill, TerminalBad, QualityUnmeasured, LiveBad, StarvedOrigin, OwnEvidence, SameRun,
      Violations;
    RunsAlike(x, y, c, d);
    if r.OneOrigin? {
      DrillSame(x, y, c, d, r.origin, s.origin);
      EvidenceSame(x, y, Drill(x, c, r.origin).culprit);
      StarvedSame(x, y, c, d, r.origin, s.origin);
    }
  }

  lemma SeveralSame(x: Input, y: Input, c: Condensation, d: Condensation, r: Row, s: Row)
    requires Recoded(x, y, c, d) && SameRow(c, d, r, s) && RowReady(c, r) && RowReady(d, s)
    requires r.Runaway? || r.ManyOrigins?
    ensures RowCulprits(x, c, r) == RowCulprits(y, d, s) && RowVerdict(x, c, r) == RowVerdict(y, d, s)
    ensures Starved(x, c, r) <==> Starved(y, d, s)
  {
    var us := if r.Runaway? then r.others else r.origins;
    var vs := if s.Runaway? then s.others else s.origins;
    RunsAlike(x, y, c, d);
    AllResolvedSame(x, y, c, d, us, vs);
    AnyStarvedSame(x, y, c, d, us, vs);
    PlacesSame(x, y, c, d, us, vs);
    hide Recoded, Matched, SameCandidate, AllResolved, TwoPlaces, StarvedOrigin, TerminalBad, LiveBad,
      QualityUnmeasured, LoopCulprits, Filter,
      Violations, SameRun;
  }

  lemma {:induction false} ScoredSame(x: Input, y: Input, runs: seq<RunId>)
    requires SameRun(x, y)
    ensures ScoredGaps(x, runs) == ScoredGaps(y, runs)
  {
    if runs != [] {
      ScoredSame(x, y, runs[..|runs| - 1]);
      BasisSame(x, y, runs[|runs| - 1]);
      hide ScoredBasis, SameRun;
    }
  }

  lemma BasisSame(x: Input, y: Input, r: RunId)
    requires SameRun(x, y)
    ensures ScoredBasis(x, r) == ScoredBasis(y, r) && LetThrough(x, r) == LetThrough(y, r)
  {
  }

  lemma {:induction false} PassedSame(x: Input, y: Input, g: Graph, culprits: seq<RunId>, runs: seq<RunId>)
    requires SameRun(x, y)
    ensures PassedGaps(x, g, culprits, runs) == PassedGaps(y, g, culprits, runs)
  {
    if runs != [] {
      PassedSame(x, y, g, culprits, runs[..|runs| - 1]);
      BasisSame(x, y, runs[|runs| - 1]);
      hide LetThrough, Implicated, SameRun;
    }
  }

  lemma GapsSame(x: Input, y: Input, g: Graph, culprits: seq<RunId>)
    requires SameRun(x, y)
    ensures AllGaps(x, g, culprits) == AllGaps(y, g, culprits)
  {
    ScoredSame(x, y, SortRuns(map[], g.nodes));
    PassedSame(x, y, g, culprits, SortRuns(map[], g.nodes));
    hide ScoredGaps, PassedGaps;
  }

  lemma FinalSame(x: Input, y: Input, c: Condensation, d: Condensation, r: Row, s: Row)
    requires Recoded(x, y, c, d) && SameRow(c, d, r, s) && RowReady(c, r) && RowReady(d, s)
    ensures RowCulprits(x, c, r) == RowCulprits(y, d, s)
    ensures AllGaps(x, c.graph, RowCulprits(x, c, r)) == AllGaps(y, d.graph, RowCulprits(y, d, s))
    ensures FinalCulprits(x, c, r) == FinalCulprits(y, d, s) && FinalVerdict(x, c, r) == FinalVerdict(y, d, s)
    ensures Unsupported(x, c, r) <==> Unsupported(y, d, s)
  {
    hide RowCulprits, RowVerdict, Starved, AllGaps, SameRow, Recoded, RowReady;
    if r.Runaway? || r.ManyOrigins? {
      SeveralSame(x, y, c, d, r, s);
    } else {
      LoneSame(x, y, c, d, r, s);
    }
    RunsAlike(x, y, c, d);
    GapsSame(x, y, c.graph, RowCulprits(x, c, r));
  }

  // Main result: however the node and edge lists are ordered and the components numbered, the engine reports the same
  // culprits, the same verdict before escalation and the same gaps, and raises on one encoding exactly when it does
  // on the other.
  lemma BlameIndependent(x: Input, y: Input, p: seq<set<RunId>>, q: seq<set<RunId>>, c: Condensation, d: Condensation,
                         a: Analysis, b: Analysis, f: seq<Anomaly>, g: seq<Anomaly>)
    requires SameRun(x, y) && Condensed(x, p, c) && Condensed(y, q, d) && Analyzed(x, c, a, f) && Analyzed(y, d, b, g)
    ensures CascadeReady(c, a, f) && RowReady(c, RowOf(x, c, a, f)) && CascadeReady(d, b, g)
    ensures RowReady(d, RowOf(y, d, b, g))
    ensures f == g && FinalCulprits(x, c, RowOf(x, c, a, f)) == FinalCulprits(y, d, RowOf(y, d, b, g))
    ensures FinalVerdict(x, c, RowOf(x, c, a, f)) == FinalVerdict(y, d, RowOf(y, d, b, g))
    ensures AllGaps(x, c.graph, RowCulprits(x, c, RowOf(x, c, a, f))) ==
      AllGaps(y, d.graph, RowCulprits(y, d, RowOf(y, d, b, g)))
    ensures Unsupported(x, c, RowOf(x, c, a, f)) <==> Unsupported(y, d, RowOf(y, d, b, g))
  {
    hide *;
    CondensedRecoded(x, y, p, q, c, d);
    CondensedLists(x, p, c);
    CondensedLists(y, q, d);
    AnalyzedIsReady(x, c, a, f);
    AnalyzedIsReady(y, d, b, g);
    AnomaliesSame(x, y, c, d, a, b, f, g);
    AnalysisOf(x, c, a, f);
    AnalysisOf(y, d, b, g);
    AnalysesSame(x, y, c, d, a, b);
    RowsSame(x, y, c, d, a, b, f);
    FinalSame(x, y, c, d, RowOf(x, c, a, f), RowOf(y, d, b, g));
  }

  // Main result: two published reports on one run agree in culprits, gaps and path, and in the verdict up to
  // escalation.
  lemma ReportsAgree(x: Input, y: Input, p: seq<set<RunId>>, q: seq<set<RunId>>, c: Condensation, d: Condensation,
                     a: Analysis, b: Analysis, f: seq<Anomaly>, g: seq<Anomaly>, r: Report, s: Report)
    requires SameRun(x, y) && Condensed(x, p, c) && Condensed(y, q, d) && Analyzed(x, c, a, f) && Analyzed(y, d, b, g)
    requires WellFormed(x, c) && CascadeReady(c, a, f) && RowReady(c, RowOf(x, c, a, f))
    requires IsReport(x, c, RowOf(x, c, a, f), r)
    requires WellFormed(y, d) && CascadeReady(d, b, g) && RowReady(d, RowOf(y, d, b, g))
    requires IsReport(y, d, RowOf(y, d, b, g), s)
    ensures r.culprits == s.culprits && r.gaps == s.gaps && r.path == s.path
    ensures exists v :: r.verdict == Escalate(v, r.findings) && s.verdict == Escalate(v, s.findings)
  {
    hide *;
    BlameIndependent(x, y, p, q, c, d, a, b, f, g);
    var i := ReportParts(x, c, RowOf(x, c, a, f), r);
    var j := ReportParts(y, d, RowOf(y, d, b, g), s);
    if r.culprits != [] {
      PropagationIndependent(x, y, p, q, c, d, r.culprits[0], i, j, r.path, s.path);
    }
  }

  lemma ReportParts(x: Input, c: Condensation, row: Row, r: Report) returns (sids: seq<nat>)
    requires WellFormed(x, c) && RowReady(c, row) && IsReport(x, c, row, r)
    ensures r.culprits == FinalCulprits(x, c, row) && r.verdict == Escalate(FinalVerdict(x, c, row), r.findings)
    ensures r.gaps == AllGaps(x, c.graph, RowCulprits(x, c, row))
    ensures if r.culprits == [] then r.path == []
      else r.culprits[0] in c.superOf && IsPropagation(x, c, r.culprits[0], sids, r.path)
  {
    hide WellFormed, RowReady, FinalCulprits, FinalVerdict, AllGaps, RowCulprits, AllValid, AgreesButForm,
      QualityUnmeasured, IsPropagation, Escalate,
      DeriveVerdict;
    sids := [];
    if r.culprits != [] {
      sids :| IsPropagation(x, c, r.culprits[0], sids, r.path);
    }
  }
}
