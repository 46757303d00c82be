// Verification gaps: verifiers whose verdict the terminal ground truth contradicts.

module Gaps {
  import opened Prelude
  import opened Graphs
  import opened BlameInput
  import opened Condense
  import opened CutPoint
  import opened Evidence
  import opened CandidateFacts
  import opened Cascade

  predicate IssuedFail(inp: Input, r: RunId) {
    "issued_fail" in Flags(inp, r)
  }

  // A verdict scored wrong is a gap only where the terminal corroborates it; a fail on work that is bad
  // contradicts the score itself.
  function ScoredBasis(inp: Input, r: RunId): Option<GapBasis> {
    if !IsVerifier(inp, r) || !Low(inp, r) then None
    else if IssuedFail(inp, r) && TerminalBad(inp) then Some(FlagConflict)
    else if if IssuedFail(inp, r) then TerminalOk(inp) else TerminalBad(inp) then Some(ScoredIncorrect)
    else None
  }

  function ScoredGaps(inp: Input, runs: seq<RunId>): seq<Gap> {
    if runs == [] then [] else
      var n := |runs| - 1;
      ScoredGaps(inp, runs[..n]) +
      if ScoredBasis(inp, runs[n]).Some? then [Gap(runs[n], ScoredBasis(inp, runs[n]).value)] else []
  }

  predicate LetThrough(inp: Input, r: RunId) {
    IsVerifier(inp, r) && Healthy(inp, ScoreOf(inp, r)) && !IssuedFail(inp, r)
  }

  // Strictly downstream of some culprit.
  ghost predicate Downwind(g: Graph, culprits: seq<RunId>, r: RunId) {
    exists x :: x in culprits && x in g.nodes && x != r && Reaches(g, x, r)
  }

  // With nothing downstream of a culprit, every verifier saw the work.
  ghost predicate Implicated(g: Graph, culprits: seq<RunId>, r: RunId) {
    Downwind(g, culprits, r) || forall q :: !Downwind(g, culprits, q)
  }

  ghost function PassedGaps(inp: Input, g: Graph, culprits: seq<RunId>, runs: seq<RunId>): seq<Gap> {
    if runs == [] then [] else
      var n := |runs| - 1;
      PassedGaps(inp, g, culprits, runs[..n]) +
      if LetThrough(inp, runs[n]) && Implicated(g, culprits, runs[n]) then [Gap(runs[n], PassedBadTerminal)] else []
  }

  ghost function AllGaps(inp: Input, g: Graph, culprits: seq<RunId>): seq<Gap> {
    var runs := SortRuns(map[], g.nodes);
    ScoredGaps(inp, runs) + if TerminalBad(inp) then PassedGaps(inp, g, culprits, runs) else []
  }

  method FindDownwind(g: Graph, culprits: seq<RunId>) returns (s: set<RunId>)
    requires g.Valid()
    ensures forall r :: r in s <==> Downwind(g, culprits, r)
  {
    s := {};
    for k := 0 to |culprits|
      invariant forall r :: r in s <==> Downwind(g, culprits[..k], r)
    {
      assert culprits[..k + 1] == culprits[..k] + [culprits[k]];
      if culprits[k] in g.nodes {
        var reached := ReachableFrom(g, culprits[k]);
        s := s + (reached - {culprits[k]});
      }
    }
    assert culprits[..|culprits|] == culprits;
  }

  lemma ScoredNext(inp: Input, runs: seq<RunId>, k: nat)
    requires k < |runs|
    ensures ScoredGaps(inp, runs[..k + 1]) == ScoredGaps(inp, runs[..k]) +
      if ScoredBasis(inp, runs[k]).Some? then [Gap(runs[k], ScoredBasis(inp, runs[k]).value)] else []
  {
    hide ScoredBasis;
    assert runs[..k + 1][..k] == runs[..k];
  }

  lemma PassedNext(inp: Input, g: Graph, culprits: seq<RunId>, runs: seq<RunId>, k: nat)
    requires k < |runs|
    ensures PassedGaps(inp, g, culprits, runs[..k + 1]) == PassedGaps(inp, g, culprits, runs[..k]) +
      if LetThrough(inp, runs[k]) && Implicated(g, culprits, runs[k]) then [Gap(runs[k], PassedBadTerminal)] else []
  {
    hide LetThrough, Implicated;
    assert runs[..k + 1][..k] == runs[..k];
  }

  method FindScoredGaps(inp: Input, runs: seq<RunId>) returns (gaps: seq<Gap>)
    ensures gaps == ScoredGaps(inp, runs)
  {
    gaps := [];
    for k := 0 to |runs|
      invariant gaps == ScoredGaps(inp, runs[..k])
    {
      hide *;
      ScoredNext(inp, runs, k);
      var basis := ScoredBasis(inp, runs[k]);
      if basis.Some? {
        gaps := gaps + [Gap(runs[k], basis.value)];
      }
    }
    assert runs[..|runs|] == runs;
  }

  method FindPassedGaps(inp: Input, g: Graph, culprits: seq<RunId>, runs: seq<RunId>) returns (gaps: seq<Gap>)
    requires g.Valid()
    ensures gaps == PassedGaps(inp, g, culprits, runs)
  {
    var seen := FindDownwind(g, culprits);
    gaps := [];
    for k := 0 to |runs|
      invariant gaps == PassedGaps(inp, g, culprits, runs[..k])
    {
      hide *;
      PassedNext(inp, g, culprits, runs, k);
      SeenIsImplicated(g, culprits, seen, runs[k]);
      if LetThrough(inp, runs[k]) && (seen == {} || runs[k] in seen) {
        gaps := gaps + [Gap(runs[k], PassedBadTerminal)];
      }
    }
    assert runs[..|runs|] == runs;
  }

  method FindGaps(inp: Input, g: Graph, culprits: seq<RunId>) returns (gaps: seq<Gap>)
    requires g.Valid()
    ensures gaps == AllGaps(inp, g, culprits)
  {
    hide ScoredGaps, PassedGaps, Chronological;
    var runs := SortRuns(map[], g.nodes);
    gaps := FindScoredGaps(inp, runs);
    if TerminalBad(inp) {
      var passed := FindPassedGaps(inp, g, culprits, runs);
      gaps := gaps + passed;
    }
  }

  lemma SeenIsImplicated(g: Graph, culprits: seq<RunId>, seen: set<RunId>, r: RunId)
    requires forall r :: r in seen <==> Downwind(g, culprits, r)
    ensures (seen == {} || r in seen) <==> Implicated(g, culprits, r)
  {
    hide Downwind;
    if seen != {} {
      var q :| q in seen;
      assert Downwind(g, culprits, q);
    }
  }

  // ---------- What a gap claims ----------

  lemma {:induction false} ScoredContents(inp: Input, runs: seq<RunId>)
    ensures forall x :: x in ScoredGaps(inp, runs) <==> x.run in runs && ScoredBasis(inp, x.run) == Some(x.basis)
  {
    hide ScoredBasis;
    if runs != [] {
      ScoredContents(inp, runs[..|runs| - 1]);
      assert runs == runs[..|runs| - 1] + [runs[|runs| - 1]];
    }
  }

  lemma {:induction false} PassedContents(inp: Input, g: Graph, culprits: seq<RunId>, runs: seq<RunId>)
    ensures forall x :: x in PassedGaps(inp, g, culprits, runs) <==>
      x.run in runs && LetThrough(inp, x.run) && Implicated(g, culprits, x.run) && x.basis == PassedBadTerminal
  {
    hide LetThrough, Implicated;
    if runs != [] {
      PassedContents(inp, g, culprits, runs[..|runs| - 1]);
      assert runs == runs[..|runs| - 1] + [runs[|runs| - 1]];
    }
  }

  // Of each basis, a gap is exactly a verifier the terminal verdict contradicts in that way.
  lemma GapsAreRefuted(inp: Input, g: Graph, culprits: seq<RunId>, r: RunId)
    ensures Gap(r, PassedBadTerminal) in AllGaps(inp, g, culprits) <==>
      r in g.nodes && IsVerifier(inp, r) && Healthy(inp, ScoreOf(inp, r)) && !IssuedFail(inp, r) && TerminalBad(inp) &&
        Implicated(g, culprits, r)
    ensures Gap(r, ScoredIncorrect) in AllGaps(inp, g, culprits) <==>
      r in g.nodes && IsVerifier(inp, r) && Low(inp, r) &&
        (if IssuedFail(inp, r) then TerminalOk(inp) else TerminalBad(inp))
    ensures Gap(r, FlagConflict) in AllGaps(inp, g, culprits) <==>
      r in g.nodes && IsVerifier(inp, r) && Low(inp, r) && IssuedFail(inp, r) && TerminalBad(inp)
  {
    hide Reaches;
    var runs := SortRuns(map[], g.nodes);
    assert r in runs <==> r in Elements(runs);
    ScoredContents(inp, runs);
    PassedContents(inp, g, culprits, runs);
  }

  // No ground truth, no gap; and no verifier has two.
  lemma GapsNeedGroundTruth(inp: Input, g: Graph, culprits: seq<RunId>)
    ensures AllGaps(inp, g, culprits) != [] ==> inp.terminal.Some? && inp.terminal.value.checkable
    ensures forall x, y :: x in AllGaps(inp, g, culprits) && y in AllGaps(inp, g, culprits) && x.run == y.run ==> x == y
    ensures forall x :: x in AllGaps(inp, g, culprits) ==> x.run in g.nodes
  {
    hide Reaches, Implicated;
    var gaps := AllGaps(inp, g, culprits);
    var runs := SortRuns(map[], g.nodes);
    assert forall r :: r in runs <==> r in Elements(runs);
    ScoredContents(inp, runs);
    PassedContents(inp, g, culprits, runs);
    if gaps != [] {
      assert gaps[0] in gaps;
    }
  }

  // A conflict between flag and score is reported but blames nobody.
  function Asserted(gaps: seq<Gap>): seq<RunId> {
    var told := Filter(gaps, (x: Gap) => x.basis != FlagConflict);
    seq(|told|, i requires 0 <= i < |told| => told[i].run)
  }
}
