// Where the propagation path leads, told by the graph, the scores and the clock.

module Targets {
  import opened Prelude
  import opened Graphs
  import opened BlameInput
  import opened RunRecord
  import opened Condense
  import opened Propagation
  import Localize

  // ---------- The sinks considered ----------

  // Nothing in the run comes after super-node `s`.
  ghost predicate Ends(c: Condensation, s: nat) {
    s < |c.supers| && forall q: nat :: (s, q) !in c.dag.edges
  }

  // `cand` are all the ends, or those the culprit leads to.
  ghost predicate AreEnds(c: Condensation, cand: set<nat>) {
    forall s: nat :: s in cand <==> Ends(c, s)
  }

  ghost predicate AreReached(c: Condensation, start: nat, cand: set<nat>) {
    forall s: nat :: s in cand <==> Ends(c, s) && Reaches(c.dag, start, s)
  }

  // ---------- The preferred run among them ----------

  // An original terminal: a run nothing reads from, in one of the super-nodes considered.
  ghost predicate Terminal(c: Condensation, cand: set<nat>, t: RunId) {
    t in c.graph.nodes && t in c.superOf && c.superOf[t] in cand && forall q: nat :: (t, q) !in c.graph.edges
  }

  ghost predicate ExitOf(c: Condensation, cand: set<nat>, t: RunId) {
    exists s :: s in cand && s < |c.supers| && c.supers[s].exit == t
  }

  // `r` satisfies `in1` and every other run that does finished before it.
  ghost predicate LastOf(inp: Input, runs: iset<RunId>, r: RunId) {
    r in runs && forall t :: t in runs && t != r ==> Sooner(inp, t, r)
  }

  // `r` is scored below every other run of `runs`, ties by time.
  ghost predicate LowestOf(inp: Input, runs: iset<RunId>, r: RunId) {
    r in runs && HasScore(inp, r) && forall t :: t in runs && t != r && HasScore(inp, t) ==>
      ScoreIn(inp, r) < ScoreIn(inp, t) || (ScoreIn(inp, r) == ScoreIn(inp, t) && Sooner(inp, r, t))
  }

  // The lowest scored of `runs`, or the last to finish when none is scored.
  ghost predicate WorstOf(inp: Input, runs: iset<RunId>, r: RunId) {
    if exists t :: t in runs && HasScore(inp, t) then LowestOf(inp, runs, r) else LastOf(inp, runs, r)
  }

  // A flagged deliverable points at the last original terminal, any other at the worst one; without original
  // terminals the exits stand for their super-nodes.
  ghost predicate Preferred(inp: Input, c: Condensation, cand: set<nat>, r: RunId) {
    var terms, exits := iset t | Terminal(c, cand, t), iset t | ExitOf(c, cand, t);
    if terms == iset{} then WorstOf(inp, exits, r)
    else if inp.terminal.Some? && inp.terminal.value.bad then LastOf(inp, terms, r)
    else WorstOf(inp, terms, r)
  }

  lemma LastIs(inp: Input, s: set<RunId>, runs: iset<RunId>)
    requires s != {} && forall t :: t in s <==> t in runs
    ensures LastOf(inp, runs, Latest(inp, s))
  {
    var m := Latest(inp, s);
    forall t | t in runs && t != m ensures Sooner(inp, t, m) {
      SoonerIs(inp, t, m);
    }
    hide Sooner, Latest;
  }

  lemma LowestIsWorst(inp: Input, s: set<RunId>, runs: iset<RunId>)
    requires Scored(inp, s) != {} && forall t :: t in s <==> t in runs
    ensures LowestOf(inp, runs, Worst(inp, Scored(inp, s)))
  {
    var m := Worst(inp, Scored(inp, s));
    FieldsAre(inp, m);
    forall t | t in runs && t != m && HasScore(inp, t)
      ensures ScoreIn(inp, m) < ScoreIn(inp, t) || (ScoreIn(inp, m) == ScoreIn(inp, t) && Sooner(inp, m, t))
    {
      FieldsAre(inp, t);
      SoonerIs(inp, m, t);
      assert t in Scored(inp, s);
    }
  }

  lemma WorstIs(inp: Input, s: set<RunId>, runs: iset<RunId>)
    requires s != {} && forall t :: t in s <==> t in runs
    ensures WorstOf(inp, runs, if Scored(inp, s) != {} then Worst(inp, Scored(inp, s)) else Latest(inp, s))
  {
    if Scored(inp, s) != {} {
      var t :| t in Scored(inp, s);
      FieldsAre(inp, t);
      LowestIsWorst(inp, s, runs);
    } else {
      forall t | t in runs ensures !HasScore(inp, t) {
        FieldsAre(inp, t);
        assert t !in Scored(inp, s);
      }
      LastIs(inp, s, runs);
    }
    hide HasScore, LowestOf, LastOf, Worst, Latest, Scored;
  }

  lemma TerminalsAre(c: Condensation, cand: set<nat>)
    requires c.graph.Valid()
    ensures forall t :: t in Terms(c, cand) <==> Terminal(c, cand, t)
  {
  }

  lemma TargetIsPreferred(inp: Input, c: Condensation, cand: set<nat>)
    requires c.graph.Valid() && Exits(c, cand) != {}
    ensures Preferred(inp, c, cand, TargetRun(inp, Terms(c, cand), Exits(c, cand)))
  {
    var terms, exits := iset t | Terminal(c, cand, t), iset t | ExitOf(c, cand, t);
    var ts, es := Terms(c, cand), Exits(c, cand);
    TerminalsAre(c, cand);
    assert forall t :: t in es <==> t in exits;
    hide Terms, Exits, Terminal, ExitOf, LastOf, WorstOf, Worst, Latest, Scored;
    if ts != {} {
      LastIs(inp, ts, terms);
      WorstIs(inp, ts, terms);
      var t :| t in ts;
      assert t in terms;
    } else {
      assert terms == iset{};
      WorstIs(inp, es, exits);
    }
  }

  // ---------- The end of the path ----------

  // The last super-node holds the preferred run of all the ends, or, when the culprit does not lead there, of those
  // it leads to.
  ghost predicate LeadsTo(inp: Input, c: Condensation, culprit: RunId, end: nat) {
    culprit in c.superOf && exists all: set<nat>, q: RunId ::
      AreEnds(c, all) && Preferred(inp, c, all, q) && q in c.superOf &&
      if Reaches(c.dag, c.superOf[culprit], c.superOf[q]) then end == c.superOf[q]
      else exists some: set<nat>, r: RunId ::
        AreReached(c, c.superOf[culprit], some) && Preferred(inp, c, some, r) && r in c.superOf && end == c.superOf[r]
  }

  lemma SinksAreEnds(inp: Input, c: Condensation)
    requires WellFormed(inp, c)
    ensures AreEnds(c, Elements(c.sinks))
  {
    WellFormedDag(inp, c);
    SinksInRange(inp, c);
    forall s: nat ensures s in Elements(c.sinks) <==> Ends(c, s) {
      if Ends(c, s) {
        SuperIsNode(inp, c, s);
        SinkListed(inp, c, s);
      }
    }
  }

  lemma SuperIsNode(inp: Input, c: Condensation, s: nat)
    requires WellFormed(inp, c) && s < |c.supers|
    ensures s in c.dag.nodes
  {
    hide Reaches, ProperMembers, ProperSuper, Acyclic, ProperTopo, ProperEnds;
  }

  lemma GraphIsValid(inp: Input, c: Condensation)
    requires WellFormed(inp, c)
    ensures c.graph.Valid()
  {
    hide Reaches, ProperMembers, ProperSuper, Acyclic, ProperTopo, ProperEnds;
  }

  lemma PickedIs(inp: Input, c: Condensation, cand: set<nat>) returns (r: RunId)
    requires WellFormed(inp, c) && cand != {} && forall s :: s in cand ==> s < |c.supers|
    ensures Preferred(inp, c, cand, r) && r in c.superOf && c.superOf[r] == PickTarget(inp, c, cand)
  {
    TargetLocated(inp, c, cand);
    GraphIsValid(inp, c);
    TargetIsPreferred(inp, c, cand);
    r := TargetRun(inp, Terms(c, cand), Exits(c, cand));
    hide WellFormed, TargetRun, Terms, Exits, Preferred;
  }

  lemma TargetLeads(inp: Input, c: Condensation, culprit: RunId)
    requires WellFormed(inp, c) && culprit in c.superOf && c.superOf[culprit] < |c.supers|
    ensures LeadsTo(inp, c, culprit, TargetOf(inp, c, c.superOf[culprit]))
  {
    var start := c.superOf[culprit];
    SinkReachable(inp, c, start);
    SinksAreEnds(inp, c);
    var all, some := Elements(c.sinks), ReachableSinks(c, start);
    assert forall s :: s in some ==> s in all;
    var q := PickedIs(inp, c, all);
    var r := PickedIs(inp, c, some);
    assert AreReached(c, start, some);
    hide WellFormed, Preferred, PickTarget, AreEnds, AreReached, Reaches;
  }

  // Main result: the path opens with the culprit's super-node and ends with the super-node of the preferred terminal.
  lemma PathLeads(inp: Input, c: Condensation, culprit: RunId, sids: seq<nat>, path: seq<RunId>)
    requires WellFormed(inp, c) && culprit in c.superOf && IsPropagation(inp, c, culprit, sids, path)
    ensures sids != [] && sids[0] == c.superOf[culprit] && LeadsTo(inp, c, culprit, sids[|sids| - 1])
    ensures path != [] && path[|path| - 1] == c.supers[sids[|sids| - 1]].exit
  {
    var start := c.superOf[culprit];
    TargetLeads(inp, c, culprit);
    LeastInRange(inp, c, start, TargetOf(inp, c, start), sids);
    PathCloses(inp, c, sids);
    hide WellFormed, LeadsTo, IsLeastPath, Expand;
  }

  lemma {:induction false} PathCloses(inp: Input, c: Condensation, sids: seq<nat>)
    requires WellFormed(inp, c) && InRange(c, sids) && sids != []
    ensures Expand(c, sids) != [] && sids[|sids| - 1] < |c.supers|
    ensures Expand(c, sids)[|Expand(c, sids)| - 1] == c.supers[sids[|sids| - 1]].exit
  {
    assert sids[0] in sids && forall x :: x in sids[1..] ==> x in sids;
    LastIsExit(inp, c, sids[0]);
    hide WellFormed;
    if |sids| > 1 {
      PathCloses(inp, c, sids[1..]);
    } else {
      assert Expand(c, sids[1..]) == [];
    }
  }

  lemma LastIsExit(inp: Input, c: Condensation, s: nat)
    requires WellFormed(inp, c) && s < |c.supers|
    ensures c.supers[s].members != [] && c.supers[s].members[|c.supers[s].members| - 1] == c.supers[s].exit
  {
    hide Reaches, ProperTopo, ProperMembers, Acyclic;
    assert ProperSuper(inp, c.graph, c.supers[s]);
  }

  // ---------- The path among all that lead there ----------

  // Super-node `a` is a better hop than `b`: scored rather than not, lower rather than higher, sooner done.
  ghost predicate BetterHop(inp: Input, c: Condensation, a: nat, b: nat)
    requires a < |c.supers| && b < |c.supers|
  {
    var q, r := c.supers[a].exit, c.supers[b].exit;
    if HasScore(inp, q) && HasScore(inp, r)
    then ScoreIn(inp, q) < ScoreIn(inp, r) || (ScoreIn(inp, q) == ScoreIn(inp, r) && Sooner(inp, q, r))
    else if HasScore(inp, q) || HasScore(inp, r) then HasScore(inp, q)
    else Sooner(inp, q, r)
  }

  // Fewer hops, or as many with the better one where the two part.
  ghost predicate Preferable(inp: Input, c: Condensation, p: seq<nat>, q: seq<nat>) {
    |p| < |q| || (|p| == |q| && exists k: nat :: PartsBetter(inp, c, p, q, k))
  }

  ghost predicate PartsBetter(inp: Input, c: Condensation, p: seq<nat>, q: seq<nat>, k: nat) {
    && k < |p| && k < |q| && p[..k] == q[..k] && p[k] != q[k] && p[k] < |c.supers| && q[k] < |c.supers|
    && BetterHop(inp, c, p[k], q[k])
  }

  lemma {:induction false} LexParts(s: seq<StepKey>, t: seq<StepKey>) returns (k: nat)
    requires |s| == |t| && LexLess(s, t)
    ensures k < |s| && s[..k] == t[..k] && StepLess(s[k], t[k])
  {
    if StepLess(s[0], t[0]) {
      k := 0;
    } else {
      var j := LexParts(s[1..], t[1..]);
      k := j + 1;
      assert s[..k] == [s[0]] + s[1..][..j] && t[..k] == [t[0]] + t[1..][..j];
    }
  }

  lemma BetterIs(inp: Input, c: Condensation, a: nat, b: nat)
    requires WellFormed(inp, c) && a < |c.supers| && b < |c.supers|
    ensures StepLess(StepOf(inp, c, a), StepOf(inp, c, b)) <==> BetterHop(inp, c, a, b)
  {
    Localize.SuperScore(inp, c, a);
    Localize.SuperScore(inp, c, b);
    FieldsAre(inp, c.supers[a].exit);
    FieldsAre(inp, c.supers[b].exit);
    SoonerIs(inp, c.supers[a].exit, c.supers[b].exit);
    hide WellFormed, HasScore, ScoreIn, Sooner;
  }

  lemma PreferableIs(inp: Input, c: Condensation, p: seq<nat>, q: seq<nat>)
    requires WellFormed(inp, c) && p != [] && q != [] && InRange(c, p) && InRange(c, q) && p[0] == q[0]
    requires PathLess(inp, c, p, q)
    ensures Preferable(inp, c, p, q)
  {
    if |p| == |q| {
      var s, t := Steps(inp, c, p), Steps(inp, c, q);
      var k := LexParts(s, t);
      StepsDiffer(inp, c, p, q) by {
        if p == q {
          LexIrreflexive(s);
        }
      }
      forall j | 0 <= j < k + 1 ensures p[j] == q[j] {
        if j > 0 {
          assert s[j - 1] == s[..k][j - 1] && t[j - 1] == t[..k][j - 1];
          SameHop(inp, c, p, q, j);
        }
      }
      assert p[k + 1] in p && q[k + 1] in q;
      BetterIs(inp, c, p[k + 1], q[k + 1]);
      if p[k + 1] == q[k + 1] {
        NeverBefore(s[k]);
      }
      assert p[..k + 1] == q[..k + 1];
      assert PartsBetter(inp, c, p, q, k + 1);
    }
    hide WellFormed, BetterHop, LexLess, StepLess;
  }

  lemma NeverBefore(s: StepKey)
    ensures !StepLess(s, s)
  {
  }

  lemma SameHop(inp: Input, c: Condensation, p: seq<nat>, q: seq<nat>, j: nat)
    requires WellFormed(inp, c) && InRange(c, p) && InRange(c, q) && |p| == |q| && 0 < j < |p|
    requires Steps(inp, c, p)[j - 1] == Steps(inp, c, q)[j - 1]
    ensures p[j] == q[j]
  {
    assert p[j] in p && q[j] in q;
    ExitsAreDistinct(inp, c, p[j], q[j]);
  }

  // Main result: the path is a walk of the quotient from the culprit's super-node, preferable to every other walk
  // between the same ends.
  lemma PathIsPreferable(inp: Input, c: Condensation, culprit: RunId, sids: seq<nat>, path: seq<RunId>, q: seq<nat>)
    requires WellFormed(inp, c) && culprit in c.superOf && IsPropagation(inp, c, culprit, sids, path)
    requires q != [] && sids != [] && (forall x :: x in q ==> x < |c.supers|)
    requires WalkFromTo(c.dag, sids[0], sids[|sids| - 1], q)
    ensures WalkFromTo(c.dag, c.superOf[culprit], sids[|sids| - 1], sids)
    ensures q != sids ==> Preferable(inp, c, sids, q)
  {
    var start := c.superOf[culprit];
    var end := TargetOf(inp, c, start);
    LeastInRange(inp, c, start, end, sids);
    LeastBelow(inp, c, start, end, sids, q);
    hide WellFormed, TargetOf, PathLess, IsLeastPath;
    if q != sids {
      PreferableIs(inp, c, sids, q);
    }
  }

  lemma LeastBelow(inp: Input, c: Condensation, start: nat, end: nat, sids: seq<nat>, q: seq<nat>)
    requires IsLeastPath(inp, c, start, end, sids) && q != [] && InRange(c, q)
    requires WalkFromTo(c.dag, sids[0], sids[|sids| - 1], q)
    ensures sids != [] && InRange(c, sids) && WalkFromTo(c.dag, start, end, sids)
    ensures sids[0] == start == q[0] && sids[|sids| - 1] == end
    ensures q != sids ==> PathLess(inp, c, sids, q)
  {
    hide PathLess;
    assert PathBetween(c, start, end, q);
  }
}
