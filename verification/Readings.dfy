// The condensation and the verification gaps, told by the recorded runs alone.

module Readings {
  import opened Prelude
  import opened Graphs
  import opened BlameInput
  import opened RunRecord
  import opened Condense
  import opened CutPoint
  import opened Evidence
  import opened CandidateFacts
  import opened Cascade
  import opened Gaps

  // ---------- Super-nodes and their order ----------

  // The members in order of finishing, the last of them standing for the whole.
  predicate ReadsAs(inp: Input, g: Graph, sn: SuperNode) {
    && sn.members != [] && sn.exit == sn.members[|sn.members| - 1]
    && (forall i, j :: 0 <= i < j < |sn.members| ==> Sooner(inp, sn.members[i], sn.members[j]))
    && (if HasScore(inp, sn.exit) then sn.score == Some(ScoreIn(inp, sn.exit)) else sn.score == None)
    && (sn.selfLoop <==> |sn.members| == 1 && (sn.exit, sn.exit) in g.edges)
  }

  // `b` comes after the first `k` of the order, and everything that feeds it is among them.
  ghost predicate CouldCome(c: Condensation, k: nat, b: nat) {
    && b < |c.supers| && k <= |c.topo| && b !in c.topo[..k]
    && forall p: nat :: (p, b) in c.dag.edges ==> p in c.topo[..k]
  }

  lemma SuperReads(inp: Input, g: Graph, members: set<RunId>)
    requires members != {}
    ensures ReadsAs(inp, g, MakeSuper(inp, g, members))
  {
    var sn := MakeSuper(inp, g, members);
    FieldsAre(inp, sn.exit);
    var ms := SortRuns(inp.endTimes, members);
    assert ms == [] ==> Elements(ms) == {};
    forall i, j | 0 <= i < j < |ms| ensures Sooner(inp, ms[i], ms[j]) {
      SoonerIs(inp, ms[i], ms[j]);
    }
    hide SortRuns, Sooner, HasScore, ScoreIn, ScoreOf;
  }

  // Main result: each super-node lists its members as they finished and is scored as the last of them, and the order
  // takes, each time, the super-node that finished first among those everything before which is already there.
  lemma OrderReads(inp: Input, comps: seq<set<RunId>>, c: Condensation, k: nat)
    requires Condensed(inp, comps, c) && k < |c.topo|
    ensures forall s :: s in c.supers ==> ReadsAs(inp, c.graph, s)
    ensures CouldCome(c, k, c.topo[k])
    ensures forall b: nat :: b != c.topo[k] && CouldCome(c, k, b) ==>
      c.topo[k] < |c.supers| && Sooner(inp, c.supers[c.topo[k]].exit, c.supers[b].exit)
  {
    hide IsSccListing, Locates, ReadsAs, MakeSuper, Crosses, Sources, Sinks, BuildGraph;
    forall s | s in c.supers ensures ReadsAs(inp, c.graph, s) {
      var i :| 0 <= i < |c.supers| && c.supers[i] == s;
      SuperReads(inp, c.graph, comps[i]);
    }
    var key := ExitKey(inp.endTimes, c.supers);
    var n := c.topo[k];
    assert LeastReady(c.dag, key, Elements(c.topo[..k]), n);
    assert Ready(c.dag, Elements(c.topo[..k]), n);
    forall b: nat | b != n && CouldCome(c, k, b) ensures Sooner(inp, c.supers[n].exit, c.supers[b].exit) {
      assert Ready(c.dag, Elements(c.topo[..k]), b);
      SoonerIs(inp, c.supers[n].exit, c.supers[b].exit);
    }
  }

  // ---------- Gaps ----------

  predicate CalledFail(inp: Input, r: RunId) {
    r in inp.scores && "issued_fail" in inp.scores[r].flags
  }

  ghost predicate After(g: Graph, culprits: seq<RunId>, r: RunId) {
    exists x :: x in culprits && x in g.nodes && x != r && Reaches(g, x, r)
  }

  // The verdict of `r` is contradicted in the way `basis` says.
  ghost predicate Contradicted(inp: Input, g: Graph, culprits: seq<RunId>, r: RunId, basis: GapBasis) {
    r in g.nodes && Checks(inp, r) && HasScore(inp, r) &&
    var low := ScoreIn(inp, r) < inp.config.threshold;
    match basis
    case FlagConflict => low && CalledFail(inp, r) && DeliverableBad(inp)
    case ScoredIncorrect => low && if CalledFail(inp, r) then DeliverableOk(inp) else DeliverableBad(inp)
    case PassedBadTerminal =>
      && !low && !CalledFail(inp, r) && DeliverableBad(inp)
      && (After(g, culprits, r) || forall q :: !After(g, culprits, q))
  }

  lemma ContradictedIs(inp: Input, g: Graph, culprits: seq<RunId>, r: RunId, basis: GapBasis)
    ensures Gap(r, basis) in AllGaps(inp, g, culprits) <==> Contradicted(inp, g, culprits, r, basis)
  {
    GapsAreRefuted(inp, g, culprits, r);
    FieldsAre(inp, r);
    forall q ensures After(g, culprits, q) <==> Downwind(g, culprits, q) {
    }
    hide AllGaps, After, Downwind, HasScore, ScoreIn, Checks, IsVerifier, ScoreOf;
  }

  // Scored verifiers first, then those that let the bad deliverable pass, each kind by run.
  ghost predicate ListedAs(gaps: seq<Gap>) {
    forall i, j :: 0 <= i < j < |gaps| ==>
      if gaps[i].basis == PassedBadTerminal then gaps[j].basis == PassedBadTerminal && gaps[i].run < gaps[j].run
      else gaps[j].basis == PassedBadTerminal || gaps[i].run < gaps[j].run
  }

  ghost predicate RunsRise(gaps: seq<Gap>) {
    forall i, j :: 0 <= i < j < |gaps| ==> gaps[i].run < gaps[j].run
  }

  lemma {:induction false} ScoredRise(inp: Input, runs: seq<RunId>)
    requires forall i, j :: 0 <= i < j < |runs| ==> runs[i] < runs[j]
    ensures RunsRise(ScoredGaps(inp, runs))
  {
    hide ScoredBasis;
    if runs != [] {
      var n := |runs| - 1;
      ScoredRise(inp, runs[..n]);
      var before := ScoredGaps(inp, runs[..n]);
      ScoredContents(inp, runs[..n]);
      forall i | 0 <= i < |before| ensures before[i].run < runs[n] {
        assert before[i] in before;
      }
    }
  }

  lemma {:induction false} PassedRise(inp: Input, g: Graph, culprits: seq<RunId>, runs: seq<RunId>)
    requires forall i, j :: 0 <= i < j < |runs| ==> runs[i] < runs[j]
    ensures RunsRise(PassedGaps(inp, g, culprits, runs))
  {
    hide LetThrough, Implicated;
    if runs != [] {
      var n := |runs| - 1;
      PassedRise(inp, g, culprits, runs[..n]);
      var before := PassedGaps(inp, g, culprits, runs[..n]);
      PassedContents(inp, g, culprits, runs[..n]);
      forall i | 0 <= i < |before| ensures before[i].run < runs[n] {
        assert before[i] in before;
      }
    }
  }

  // Main result: the gaps are exactly the verifiers whose verdict the terminal review contradicts, each in its way,
  // the scored ones first, by run.
  lemma GapsRead(inp: Input, g: Graph, culprits: seq<RunId>)
    ensures forall x :: x in AllGaps(inp, g, culprits) <==> Contradicted(inp, g, culprits, x.run, x.basis)
    ensures ListedAs(AllGaps(inp, g, culprits))
  {
    forall x ensures x in AllGaps(inp, g, culprits) <==> Contradicted(inp, g, culprits, x.run, x.basis) {
      ContradictedIs(inp, g, culprits, x.run, x.basis);
    }
    var runs := SortRuns(map[], g.nodes);
    assert forall i, j :: 0 <= i < j < |runs| ==> runs[i] < runs[j];
    ScoredRise(inp, runs);
    PassedRise(inp, g, culprits, runs);
    ScoredContents(inp, runs);
    PassedContents(inp, g, culprits, runs);
    var scored, passed := ScoredGaps(inp, runs), PassedGaps(inp, g, culprits, runs);
    forall i | 0 <= i < |scored| ensures scored[i].basis != PassedBadTerminal {
      assert scored[i] in scored;
    }
    forall i | 0 <= i < |passed| ensures passed[i].basis == PassedBadTerminal {
      assert passed[i] in passed;
    }
    hide Contradicted, ScoredGaps, PassedGaps, SortRuns;
  }
}
