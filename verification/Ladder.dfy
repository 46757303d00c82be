// The cascade as a reader of the report sees it: which rung is taken, told by the input and the analysis alone.

module Ladder {
  import opened Prelude
  import opened Graphs
  import opened BlameInput
  import opened RunRecord
  import opened Condense
  import opened Propagation
  import opened CutPoint
  import Localize
  import opened Origins
  import opened Evidence
  import opened Derive
  import opened Loops
  import opened CandidateFacts
  import opened Cascade
  import opened Gaps
  import opened Soundness
  import opened Verdicts
  import opened Blame
  import opened Reports
  import Repeats

  // ---------- The record of a run ----------

  // Its own judge flagged a content defect, and it is neither a verifier nor excused by its input.
  predicate OwnsUp(inp: Input, r: RunId) {
    && HasScore(inp, r) && !Admits(inp, r) && !Checks(inp, r)
    && exists f :: f in inp.scores[r].flags && f in {"missing_required_content", "ignored_instruction", "factual_error"}
  }

  predicate NothingScored(inp: Input, c: Condensation) {
    forall n :: n in c.graph.nodes ==> !HasScore(inp, n)
  }

  // Nothing in the run comes before super-node `s`.
  ghost predicate Entry(c: Condensation, s: nat) {
    s < |c.supers| && forall p: nat :: (p, s) !in c.dag.edges
  }

  // An unscored run that is neither the raw request nor an observed absence of output.
  ghost predicate MayHide(inp: Input, c: Condensation, r: RunId) {
    && !HasScore(inp, r) && !Because(inp, r, "empty_output") && !Because(inp, r, "zero_result_set")
    && !(Because(inp, r, "payload_missing") && exists s: nat :: Entry(c, s) && c.supers[s].exit == r)
  }

  // ---------- What a report concludes ----------

  ghost predicate Shipped(extra: seq<Finding>) {
    exists f :: f in extra && f.kind == BreachPropagated
  }

  // Someone is named, under this verdict or its escalation.
  ghost predicate Says(extra: seq<Finding>, r: Report, v: Verdict, culprits: seq<RunId>) {
    && r.culprits == culprits
    && r.verdict == if v == DegradedRecovered && Shipped(extra) then ShippedWithLatentDefect else v
  }

  // Nobody is pinned: this verdict stands unless some verifier was refuted.
  ghost predicate Concludes(r: Report, v: Verdict, culprits: seq<RunId>) {
    if exists g :: g in r.gaps && g.basis != FlagConflict
    then r.verdict == VerificationGap && RunsOfDecided(r.gaps, r.culprits)
    else r.verdict == v && r.culprits == culprits
  }

  lemma RowConcludes(inp: Input, c: Condensation, a: Analysis, anomalies: seq<Anomaly>, extra: seq<Finding>, r: Report)
    requires Publishes(inp, c, a, anomalies, extra, r)
    ensures CascadeReady(c, a, anomalies) && RowReady(c, RowOf(inp, c, a, anomalies))
    ensures var row := RowOf(inp, c, a, anomalies);
      var v, culprits := RowVerdict(inp, c, row), RowCulprits(inp, c, row);
      if v == CompositionFailure || v == Unclassified then Concludes(r, v, culprits) else Says(extra, r, v, culprits)
  {
    hide *;
    PublishedParts(inp, c, a, anomalies, extra, r);
    var row := RowOf(inp, c, a, anomalies);
    VerdictParts(inp, c, row, r);
    TakenIs(inp, c, row);
    AssertedAre(AllGaps(inp, c.graph, RowCulprits(inp, c, row)));
    EscalateIs(FinalVerdict(inp, c, row), r.findings);
    ShippedIsSupplied(inp, c, a, anomalies, extra, r);
    NeverGap(inp, c, row);
    Conclude(extra, r, RowVerdict(inp, c, row), RowCulprits(inp, c, row));
  }

  lemma NeverGap(inp: Input, c: Condensation, row: Row)
    requires RowReady(c, row)
    ensures RowVerdict(inp, c, row) != VerificationGap && RowVerdict(inp, c, row) != ShippedWithLatentDefect
  {
    hide Drill, TwoPlaces, ContractAlone;
  }

  lemma Conclude(extra: seq<Finding>, r: Report, v: Verdict, culprits: seq<RunId>)
    requires v != VerificationGap && v != ShippedWithLatentDefect
    requires (exists f :: f in r.findings && f.kind == BreachPropagated) <==>
      exists f :: f in extra && f.kind == BreachPropagated
    requires var taken := (v == CompositionFailure || v == Unclassified) && exists g :: g in r.gaps && Decided(g);
      var w := if taken then VerificationGap else v;
      && (if taken then RunsOfDecided(r.gaps, r.culprits) else r.culprits == culprits)
      && r.verdict == if w == DegradedRecovered && exists f :: f in r.findings && f.kind == BreachPropagated
        then ShippedWithLatentDefect else w
    ensures if v == CompositionFailure || v == Unclassified then Concludes(r, v, culprits)
      else Says(extra, r, v, culprits)
  {
    hide RunsOfDecided;
    assert forall g: Gap :: Decided(g) <==> g.basis != FlagConflict;
  }

  // ---------- Told by the record ----------

  lemma OwnsUpIs(inp: Input, r: RunId)
    ensures OwnsUp(inp, r) <==> Confesses(inp, r)
  {
  }

  lemma TerminalIs(inp: Input)
    ensures DeliverableBad(inp) <==> TerminalBad(inp)
    ensures DeliverableOk(inp) <==> TerminalOk(inp)
  {
  }

  lemma UnmeasuredIs(inp: Input, c: Condensation)
    ensures NothingScored(inp, c) <==> QualityUnmeasured(inp, c)
  {
    assert forall r :: HasScore(inp, r) <==> ScoreOf(inp, r).Some?;
  }

  lemma EntryIs(inp: Input, c: Condensation, s: nat)
    requires WellFormed(inp, c)
    ensures Entry(c, s) <==> s in c.sources
  {
    WellFormedDag(inp, c);
    TopoInRange(inp, c);
    if s < |c.supers| {
      TopoPosition(inp, c, s);
    }
    hide Reaches, ProperMembers, ProperSuper, Acyclic, ProperTopo;
    assert s in c.sources <==> s in c.topo && IsSource(c.dag, s);
  }

  // The `k`-th source listed admits a flawed input.
  predicate AdmitsAt(inp: Input, c: Condensation, k: nat) {
    k < |c.sources| && c.sources[k] < |c.supers| && Admits(inp, c.supers[c.sources[k]].exit)
  }

  // `r` is the first source listed that does.
  ghost predicate FirstAdmitting(inp: Input, c: Condensation, r: RunId) {
    exists k: nat ::
      AdmitsAt(inp, c, k) && r == c.supers[c.sources[k]].exit && forall j: nat :: j < k ==> !AdmitsAt(inp, c, j)
  }

  ghost predicate SomeAdmits(inp: Input, c: Condensation) {
    exists s: nat :: Entry(c, s) && Admits(inp, c.supers[s].exit)
  }

  lemma {:induction false} FirstKept(s: seq<RunId>, keep: RunId -> bool)
    ensures Filter(s, keep) == [] <==> forall x :: x in s ==> !keep(x)
    ensures Filter(s, keep) != [] ==> exists k: nat ::
      k < |s| && s[k] == Filter(s, keep)[0] && keep(s[k]) && forall j: nat :: j < k ==> !keep(s[j])
  {
    if s != [] {
      FirstKept(s[1..], keep);
      if keep(s[0]) {
        assert s[0] == Filter(s, keep)[0];
      } else if Filter(s, keep) != [] {
        var k: nat :| k < |s[1..]| && s[1..][k] == Filter(s[1..], keep)[0] && keep(s[1..][k]) &&
          forall j: nat :: j < k ==> !keep(s[1..][j]);
        assert s[k + 1] == Filter(s, keep)[0] && forall j: nat :: j < k + 1 ==> !keep(s[j]) by {
          forall j: nat | j < k + 1 ensures !keep(s[j]) {
            assert j > 0 ==> s[j] == s[1..][j - 1];
          }
        }
      }
    }
  }

  lemma ExitFlawed(inp: Input, c: Condensation, k: nat)
    requires InRange(c, c.sources) && k < |c.sources|
    ensures |SourceExits(c)| == |c.sources| && c.sources[k] < |c.supers|
    ensures SourceExits(c)[k] == c.supers[c.sources[k]].exit && SourceExits(c)[k] in SourceExits(c)
    ensures AdmitsAt(inp, c, k) <==> InputFlawed(inp, SourceExits(c)[k])
  {
    assert c.sources[k] in c.sources;
  }

  lemma FlawedIs(inp: Input, c: Condensation)
    requires WellFormed(inp, c) && InRange(c, c.sources)
    ensures FlawedSources(inp, c) != [] <==> SomeAdmits(inp, c)
    ensures FlawedSources(inp, c) != [] ==> FirstAdmitting(inp, c, FlawedSources(inp, c)[0])
  {
    var exits := SourceExits(c);
    FlawedFirst(inp, c);
    forall k: nat | k < |c.sources|
      ensures |exits| == |c.sources| && c.sources[k] < |c.supers| && exits[k] == c.supers[c.sources[k]].exit
      ensures exits[k] in exits && (AdmitsAt(inp, c, k) <==> InputFlawed(inp, exits[k]))
    {
      ExitFlawed(inp, c, k);
    }
    SameCount(c);
    hide WellFormed, SomeAdmits, FlawedSources, SourceExits, AdmitsAt, InRange, Admits, InputFlawed;
    if FlawedSources(inp, c) != [] {
      var k: nat :| k < |exits| && exits[k] == FlawedSources(inp, c)[0] && InputFlawed(inp, exits[k]) &&
        forall j: nat :: j < k ==> !InputFlawed(inp, exits[j]);
      assert AdmitsAt(inp, c, k) && forall j: nat :: j < k ==> !AdmitsAt(inp, c, j);
      AdmitsSome(inp, c, k);
    }
    if SomeAdmits(inp, c) {
      var k := AdmittingSource(inp, c);
      assert exits[k] in exits;
    }
  }

  lemma SameCount(c: Condensation)
    requires InRange(c, c.sources)
    ensures |SourceExits(c)| == |c.sources|
  {
  }

  lemma AdmitsSome(inp: Input, c: Condensation, k: nat)
    requires WellFormed(inp, c) && AdmitsAt(inp, c, k)
    ensures SomeAdmits(inp, c)
  {
    EntryIs(inp, c, c.sources[k]);
    hide WellFormed, Entry;
  }

  lemma AdmittingSource(inp: Input, c: Condensation) returns (k: nat)
    requires WellFormed(inp, c) && SomeAdmits(inp, c)
    ensures AdmitsAt(inp, c, k) && k < |c.sources|
  {
    var s: nat :| Entry(c, s) && Admits(inp, c.supers[s].exit);
    EntryIs(inp, c, s);
    hide WellFormed;
    k :| k < |c.sources| && c.sources[k] == s;
  }

  lemma FlawedFirst(inp: Input, c: Condensation)
    requires InRange(c, c.sources)
    ensures var exits := SourceExits(c);
      && (FlawedSources(inp, c) == [] <==> forall x :: x in exits ==> !InputFlawed(inp, x))
      && (FlawedSources(inp, c) != [] ==> exists k: nat ::
            k < |exits| && exits[k] == FlawedSources(inp, c)[0] && InputFlawed(inp, exits[k]) &&
            forall j: nat :: j < k ==> !InputFlawed(inp, exits[j]))
  {
    hide InputFlawed;
    FirstKept(SourceExits(c), (r: RunId) => InputFlawed(inp, r));
  }

  // ---------- The rungs ----------

  // Main result: with nothing scored, nothing localized and no runaway loop, nothing is classified.
  lemma UnmeasuredRung(inp: Input, c: Condensation, a: Analysis, anomalies: seq<Anomaly>, extra: seq<Finding>,
                       r: Report)
    requires Publishes(inp, c, a, anomalies, extra, r) && NothingScored(inp, c) && a.candidates == [] && anomalies == []
    ensures Concludes(r, Unclassified, [])
  {
    RowConcludes(inp, c, a, anomalies, extra, r);
    UnmeasuredIs(inp, c);
    hide Publishes, Concludes, QualityUnmeasured, NothingScored, FlawedSources, NoCandidateRow;
  }

  // Main result: otherwise, with nothing localized, the first source that admits a flawed input is blamed.
  lemma ExternalRung(inp: Input, c: Condensation, a: Analysis, anomalies: seq<Anomaly>, extra: seq<Finding>, r: Report)
    requires Publishes(inp, c, a, anomalies, extra, r) && a.candidates == [] && SomeAdmits(inp, c)
    requires !NothingScored(inp, c) || anomalies != []
    ensures r.verdict == RootCauseExternal
    ensures |r.culprits| == 1 && FirstAdmitting(inp, c, r.culprits[0])
  {
    hide *;
    PublishedParts(inp, c, a, anomalies, extra, r);
    RowConcludes(inp, c, a, anomalies, extra, r);
    UnmeasuredIs(inp, c);
    SourcesReady(c, a, anomalies);
    FlawedIs(inp, c);
    ExternalRow(inp, c, a, anomalies);
    SaysPlain(extra, r, RootCauseExternal, [FlawedSources(inp, c)[0]]);
  }

  lemma ExternalRow(inp: Input, c: Condensation, a: Analysis, anomalies: seq<Anomaly>)
    requires CascadeReady(c, a, anomalies) && InRange(c, c.sources) && a.candidates == []
    requires (!QualityUnmeasured(inp, c) || anomalies != []) && FlawedSources(inp, c) != []
    ensures var row := RowOf(inp, c, a, anomalies);
      row.ExternalFault? && RowVerdict(inp, c, row) == RootCauseExternal &&
      RowCulprits(inp, c, row) == [FlawedSources(inp, c)[0]]
  {
    hide QualityUnmeasured, FlawedSources, NoCandidateRow;
  }

  lemma SourcesReady(c: Condensation, a: Analysis, anomalies: seq<Anomaly>)
    requires CascadeReady(c, a, anomalies)
    ensures InRange(c, c.sources)
  {
  }

  // ---------- Whom an origin names ----------

  // The run a cycle's origin is drilled to: the member that broke, else the lowest one; outside cycles the exit.
  predicate DrillsTo(inp: Input, c: Condensation, x: Candidate, m: RunId)
    requires x.superId < |c.supers|
  {
    var members := c.supers[x.superId].members;
    if |members| <= 1 || forall q :: q in members ==> !HasScore(inp, q) then m == x.run
    else if x.sccMember.Some? && x.sccMember.value in members && HasScore(inp, x.sccMember.value)
    then m == x.sccMember.value
    else LowestAmong(inp, members, m)
  }

  // The fall of `m` can be measured: it is scored, and so is something it reads from.
  predicate FallSeen(inp: Input, c: Condensation, m: RunId) {
    HasScore(inp, m) && exists e :: e in c.graph.edges && e.1 == m && HasScore(inp, e.0)
  }

  // Among several, only a content origin inside a cycle moves, onto a member that broke or fell.
  ghost predicate SharedNames(inp: Input, c: Condensation, x: Candidate, m: RunId)
    requires x.superId < |c.supers|
  {
    if |c.supers[x.superId].members| > 1 && x.via == Content &&
       (x.sccMember.Some? || exists q :: DrillsTo(inp, c, x, q) && FallSeen(inp, c, q))
    then DrillsTo(inp, c, x, m)
    else m == x.run
  }

  lemma DrillsToIs(inp: Input, c: Condensation, x: Candidate, m: RunId)
    requires x.superId < |c.supers|
    ensures DrillsTo(inp, c, x, m) <==> m == Drill(inp, c, x).culprit
  {
    var members := c.supers[x.superId].members;
    var scored := KnownScores(inp, Elements(members));
    forall q ensures q in scored <==> q in members && HasScore(inp, q) {
      FieldsAre(inp, q);
    }
    LowestIs(inp, members, m);
    if scored != {} {
      LowestIs(inp, members, Worst(inp, scored));
      if LowestAmong(inp, members, m) {
        Localize.WorstUnique(inp, scored, m);
      }
    }
    assert scored == {} <==> forall q :: q in members ==> !HasScore(inp, q) by {
      if scored == {} {
        forall q | q in members ensures !HasScore(inp, q) {
          assert q !in scored;
        }
      }
    }
    hide LowestAmong, HasScore, MeasuredFall, KnownScores;
  }

  lemma FallSeenIs(inp: Input, c: Condensation, m: RunId)
    ensures FallSeen(inp, c, m) <==> MeasuredFall(inp, c.graph, m).Some?
  {
    FieldsAre(inp, m);
    var known := KnownScores(inp, RunPreds(c.graph, m));
    if e :| e in c.graph.edges && e.1 == m && HasScore(inp, e.0) {
      FieldsAre(inp, e.0);
      assert e.0 in known;
    }
    if known != {} {
      var q :| q in known;
      FieldsAre(inp, q);
      var e :| e in c.graph.edges && e.1 == m && e.0 == q;
    }
  }

  lemma SharedIs(inp: Input, c: Condensation, x: Candidate, m: RunId)
    requires x.superId < |c.supers| && x.run in c.supers[x.superId].members
    ensures SharedNames(inp, c, x, m) <==> m == Resolved(inp, c, x)
  {
    forall q ensures DrillsTo(inp, c, x, q) <==> q == Drill(inp, c, x).culprit {
      DrillsToIs(inp, c, x, q);
    }
    FallSeenIs(inp, c, Drill(inp, c, x).culprit);
    FallOfDrill(inp, c, x);
    hide DrillsTo, FallSeen, Drill, MeasuredFall;
  }

  lemma FallOfDrill(inp: Input, c: Condensation, x: Candidate)
    requires x.superId < |c.supers| && x.run in c.supers[x.superId].members
    ensures Drill(inp, c, x).fall.Some? <==>
      InCycle(c, x) && MeasuredFall(inp, c.graph, Drill(inp, c, x).culprit).Some?
  {
    var scored := KnownScores(inp, Elements(c.supers[x.superId].members));
    assert ScoreOf(inp, x.run).Some? ==> x.run in scored;
    hide Worst;
  }

  // ---------- Several origins, and origins beside a loop ----------

  ghost predicate AllNamed(inp: Input, c: Condensation, xs: seq<Candidate>, runs: seq<RunId>) {
    |runs| == |xs| && forall i :: 0 <= i < |xs| ==> xs[i].superId < |c.supers| && SharedNames(inp, c, xs[i], runs[i])
  }

  lemma AllNamedIs(inp: Input, c: Condensation, xs: seq<Candidate>)
    requires Placed(c, xs) && WellFormed(inp, c) && forall x :: x in xs ==> AtExit(c, x)
    ensures AllNamed(inp, c, xs, AllResolved(inp, c, xs))
  {
    hide WellFormed, AtExit, SharedNames, Resolved;
    forall i | 0 <= i < |xs|
      ensures xs[i].superId < |c.supers| && SharedNames(inp, c, xs[i], AllResolved(inp, c, xs)[i])
    {
      assert xs[i] in xs;
      ExitInside(inp, c, xs[i]);
      SharedIs(inp, c, xs[i], Resolved(inp, c, xs[i]));
    }
  }

  // The candidates that do not lie in super-node `sid`, in order.
  ghost predicate OutsideAre(cs: seq<Candidate>, sid: nat, at: seq<nat>, out: seq<Candidate>) {
    && |at| == |out| && (forall i :: 0 <= i < |at| ==> at[i] < |cs| && out[i] == cs[at[i]] && out[i].superId != sid)
    && (forall i, j :: 0 <= i < j < |at| ==> at[i] < at[j])
    && forall k: nat :: k < |cs| && cs[k].superId != sid ==> k in at
  }

  function Up(at: seq<nat>): (up: seq<nat>)
    ensures |up| == |at| && forall i :: 0 <= i < |at| ==> up[i] == at[i] + 1
  {
    seq(|at|, i requires 0 <= i < |at| => at[i] + 1)
  }

  lemma InUp(at: seq<nat>, k: nat)
    requires k in at
    ensures k + 1 in Up(at)
  {
    var i :| 0 <= i < |at| && at[i] == k;
    assert Up(at)[i] == k + 1;
  }

  lemma OutsideShift(x: Candidate, cs: seq<Candidate>, sid: nat, at: seq<nat>, out: seq<Candidate>)
    requires OutsideAre(cs, sid, at, out) && x.superId == sid
    ensures OutsideAre([x] + cs, sid, Up(at), out)
  {
    var all := [x] + cs;
    assert forall i :: 0 <= i < |cs| ==> all[i + 1] == cs[i];
    forall k: nat | k < |all| && all[k].superId != sid ensures k in Up(at) {
      assert cs[k - 1] == all[k];
      InUp(at, k - 1);
    }
  }

  lemma PrependAt(x: Candidate, cs: seq<Candidate>, at: seq<nat>, out: seq<Candidate>, i: nat)
    requires |at| == |out| && i <= |at| && forall j :: 0 <= j < |at| ==> at[j] < |cs| && out[j] == cs[at[j]]
    ensures ([0] + Up(at))[i] == if i == 0 then 0 else at[i - 1] + 1
    ensures ([0] + Up(at))[i] < |[x] + cs| && ([x] + out)[i] == ([x] + cs)[([0] + Up(at))[i]]
  {
  }

  lemma OutsidePrepend(x: Candidate, cs: seq<Candidate>, sid: nat, at: seq<nat>, out: seq<Candidate>)
    requires OutsideAre(cs, sid, at, out) && x.superId != sid
    ensures OutsideAre([x] + cs, sid, [0] + Up(at), [x] + out)
  {
    var all, up, more := [x] + cs, [0] + Up(at), [x] + out;
    forall i: nat | i < |up|
      ensures up[i] == if i == 0 then 0 else at[i - 1] + 1
      ensures up[i] < |all| && more[i] == all[up[i]] && more[i].superId != sid
    {
      PrependAt(x, cs, at, out, i);
      assert i > 0 ==> more[i] == out[i - 1];
    }
    forall k: nat | k < |all| && all[k].superId != sid ensures k in up {
      if k > 0 {
        assert cs[k - 1] == all[k];
        InUp(at, k - 1);
      } else {
        assert up[0] == 0;
      }
    }
    hide Up;
  }

  lemma OutsideNext(cs: seq<Candidate>, sid: nat)
    requires cs != []
    ensures cs == [cs[0]] + cs[1..] && Outside(cs, sid) ==
      if cs[0].superId != sid then [cs[0]] + Outside(cs[1..], sid) else Outside(cs[1..], sid)
  {
  }

  lemma OutsideNone(sid: nat)
    ensures Outside([], sid) == [] && OutsideAre([], sid, [], [])
  {
  }

  lemma {:induction false} OutsideIs(cs: seq<Candidate>, sid: nat) returns (at: seq<nat>)
    ensures OutsideAre(cs, sid, at, Outside(cs, sid))
  {
    hide *;
    at := [];
    OutsideNone(sid);
    if cs != [] {
      var rest := OutsideIs(cs[1..], sid);
      OutsideNext(cs, sid);
      if cs[0].superId != sid {
        OutsidePrepend(cs[0], cs[1..], sid, rest, Outside(cs[1..], sid));
        at := [0] + Up(rest);
      } else {
        OutsideShift(cs[0], cs[1..], sid, rest, Outside(cs[1..], sid));
        at := Up(rest);
      }
    }
  }

  // ---------- The rungs with an origin or a loop ----------

  // Some origin lies in the cycle of the anomaly.
  ghost predicate LoopBlamed(c: Condensation, a: Analysis, an: Anomaly) {
    && an.members != [] && an.members[0] in c.superOf
    && exists x :: x in a.candidates && x.superId == c.superOf[an.members[0]]
  }

  // The anomaly reported: the first that is also an origin, else the first of all.
  ghost predicate LoopChosen(c: Condensation, a: Analysis, anomalies: seq<Anomaly>, k: nat) {
    k < |anomalies| &&
    if exists an :: an in anomalies && LoopBlamed(c, a, an)
    then LoopBlamed(c, a, anomalies[k]) && forall j: nat :: j < k ==> !LoopBlamed(c, a, anomalies[j])
    else k == 0
  }

  lemma {:induction false} FirstAnomaly(s: seq<Anomaly>, keep: Anomaly -> bool)
    ensures Filter(s, keep) == [] <==> forall x :: x in s ==> !keep(x)
    ensures Filter(s, keep) != [] ==> exists k: nat ::
      k < |s| && s[k] == Filter(s, keep)[0] && keep(s[k]) && forall j: nat :: j < k ==> !keep(s[j])
  {
    if s != [] {
      FirstAnomaly(s[1..], keep);
      if !keep(s[0]) && Filter(s, keep) != [] {
        var k: nat :| k < |s[1..]| && s[1..][k] == Filter(s[1..], keep)[0] && keep(s[1..][k]) &&
          forall j: nat :: j < k ==> !keep(s[1..][j]);
        assert s[k + 1] == Filter(s, keep)[0];
        forall j: nat | j < k + 1 ensures !keep(s[j]) {
          assert j > 0 ==> s[j] == s[1..][j - 1];
        }
      }
    }
  }

  lemma ChosenIs(c: Condensation, a: Analysis, anomalies: seq<Anomaly>) returns (k: nat)
    requires CascadeReady(c, a, anomalies) && anomalies != []
    ensures LoopChosen(c, a, anomalies, k) && k < |anomalies|
    ensures anomalies[k] == ChosenAnomaly(c, SuperIds(a.candidates), anomalies)
    ensures LoopIsNamed(c, SuperIds(a.candidates), anomalies) <==> exists an :: an in anomalies && LoopBlamed(c, a, an)
  {
    var ids := SuperIds(a.candidates);
    var keep := (x: Anomaly) => x.members != [] && x.members[0] in c.superOf && c.superOf[x.members[0]] in ids;
    forall an ensures keep(an) <==> LoopBlamed(c, a, an) {
    }
    FirstAnomaly(anomalies, keep);
    ChosenBy(c, ids, anomalies, keep);
    hide LoopBlamed, Filter;
    k := 0;
    if Filter(anomalies, keep) != [] {
      k :| k < |anomalies| && anomalies[k] == Filter(anomalies, keep)[0] && keep(anomalies[k]) &&
        forall j: nat :: j < k ==> !keep(anomalies[j]);
      assert anomalies[k] in anomalies;
    }
  }

  lemma ChosenBy(c: Condensation, ids: set<nat>, anomalies: seq<Anomaly>, keep: Anomaly -> bool)
    requires anomalies != [] && forall x :: x in anomalies ==> x.members != [] && x.members[0] in c.superOf
    requires forall x ::
      keep(x) <==> x.members != [] && x.members[0] in c.superOf && c.superOf[x.members[0]] in ids
    ensures ChosenAnomaly(c, ids, anomalies) ==
      if Filter(anomalies, keep) != [] then Filter(anomalies, keep)[0] else anomalies[0]
    ensures LoopIsNamed(c, ids, anomalies) <==> exists an :: an in anomalies && keep(an)
  {
    FilterAgrees(anomalies, keep,
      (x: Anomaly) => x.members != [] && x.members[0] in c.superOf && c.superOf[x.members[0]] in ids);
  }

  // Main result: then a runaway loop, if it is an origin or nothing else is; beside it every origin outside its cycle.
  lemma LoopRung(inp: Input, c: Condensation, a: Analysis, anomalies: seq<Anomaly>, extra: seq<Finding>, r: Report)
    returns (k: nat, at: seq<nat>, others: seq<Candidate>, named: seq<RunId>)
    requires Publishes(inp, c, a, anomalies, extra, r) && anomalies != []
    requires if a.candidates == [] then !SomeAdmits(inp, c) else exists an :: an in anomalies && LoopBlamed(c, a, an)
    ensures LoopChosen(c, a, anomalies, k) && anomalies[k].members != [] && anomalies[k].members[0] in c.superOf
    ensures OutsideAre(a.candidates, c.superOf[anomalies[k].members[0]], at, others)
    ensures AllNamed(inp, c, others, named)
    ensures Says(extra, r, if others == [] then LoopDetected else MultiCulprit,
      (if anomalies[k].repeating != [] then anomalies[k].repeating else anomalies[k].members) + named)
  {
    hide *;
    PublishedParts(inp, c, a, anomalies, extra, r);
    RowConcludes(inp, c, a, anomalies, extra, r);
    SourcesReady(c, a, anomalies);
    if a.candidates == [] {
      FlawedIs(inp, c);
    }
    k := ChosenIs(c, a, anomalies);
    var row := RowOf(inp, c, a, anomalies);
    LoopRowIs(inp, c, a, anomalies);
    AnalyzedIsReady(inp, c, a, anomalies);
    RowFits(inp, c, a, anomalies);
    RunawayFits(c, a, row.anomaly, row.others);
    OthersTold(inp, c, a.candidates, row.others);
    LoopMember(inp, c, row.anomaly);
    Repeats.RunawayNames(inp, c, row.anomaly, row.others);
    at := OutsideIs(a.candidates, c.superOf[row.anomaly.members[0]]);
    others, named := row.others, AllResolved(inp, c, row.others);
    ToldAtExit(inp, c, row.others);
    AllNamedIs(inp, c, row.others);
    LoopSays(inp, c, row);
  }

  lemma ToldAtExit(inp: Input, c: Condensation, xs: seq<Candidate>)
    requires Told(inp, c, xs)
    ensures forall x :: x in xs ==> AtExit(c, x)
  {
    hide AtExit, Story, FromChannels;
  }

  lemma LoopSays(inp: Input, c: Condensation, row: Row)
    requires RowReady(c, row) && row.Runaway?
    ensures RowVerdict(inp, c, row) == if row.others == [] then LoopDetected else MultiCulprit
    ensures LoopCulprits(row.anomaly) ==
      if row.anomaly.repeating != [] then row.anomaly.repeating else row.anomaly.members
  {
  }

  lemma LoopRowIs(inp: Input, c: Condensation, a: Analysis, anomalies: seq<Anomaly>)
    requires CascadeReady(c, a, anomalies) && anomalies != []
    requires if a.candidates == [] then FlawedSources(inp, c) == []
      else LoopIsNamed(c, SuperIds(a.candidates), anomalies)
    ensures var row := RowOf(inp, c, a, anomalies);
      var an := ChosenAnomaly(c, SuperIds(a.candidates), anomalies);
      an in anomalies && an.members != [] && an.members[0] in c.superOf && row.Runaway? && row.anomaly == an &&
        row.others == Outside(a.candidates, c.superOf[an.members[0]])
  {
    hide QualityUnmeasured, FlawedSources, LoopIsNamed, ChosenAnomaly, Outside, NoCandidateRow, SingleRow;
  }

  // No runaway loop is an origin.
  ghost predicate NoLoopBlamed(c: Condensation, a: Analysis, anomalies: seq<Anomaly>) {
    forall an :: an in anomalies ==> !LoopBlamed(c, a, an)
  }

  lemma PastTheLoop(inp: Input, c: Condensation, a: Analysis, anomalies: seq<Anomaly>)
    requires CascadeReady(c, a, anomalies) && a.candidates != [] && NoLoopBlamed(c, a, anomalies)
    ensures a.candidates[0] in a.candidates && a.candidates[0].superId < |c.supers|
    ensures |a.candidates| == 1 ==> RowOf(inp, c, a, anomalies) == SingleRow(inp, c, a.candidates[0])
    ensures |a.candidates| > 1 ==> RowOf(inp, c, a, anomalies) == ManyOrigins(a.candidates)
  {
    assert a.candidates[0] in a.candidates;
    hide QualityUnmeasured, FlawedSources, LoopIsNamed, LoopBlamed, NoCandidateRow, SingleRow;
    if anomalies != [] {
      var k := ChosenIs(c, a, anomalies);
    }
  }

  // A near-miss: every scored step after the lone origin came out well, and so did the deliverable.
  predicate IsNearMiss(inp: Input, c: Condensation, x: Candidate)
    requires x.superId < |c.supers|
  {
    x.recovered && DeliverableOk(inp) && (|c.supers[x.superId].members| <= 1 || x.sccMember.Some?)
  }

  // The content of the deliverable is bad, and the lone origin's own is not.
  predicate IsUnplaced(inp: Input, c: Condensation, x: Candidate)
    requires x.superId < |c.supers|
  {
    x.recovered && DeliverableBad(inp) && x.via == Deterministic && |c.supers[x.superId].members| <= 1
  }

  // Main result: then a lone origin, as a near-miss, as a fault apart from the bad deliverable, or as the cut point.
  lemma LoneRung(inp: Input, c: Condensation, a: Analysis, anomalies: seq<Anomaly>, extra: seq<Finding>, r: Report)
    requires Publishes(inp, c, a, anomalies, extra, r) && |a.candidates| == 1 && NoLoopBlamed(c, a, anomalies)
    ensures a.candidates[0].superId < |c.supers|
    ensures var x := a.candidates[0];
      IsNearMiss(inp, c, x) ==>
        Says(extra, r, DegradedRecovered, [if x.sccMember.Some? then x.sccMember.value else x.run])
    ensures var x := a.candidates[0];
      !IsNearMiss(inp, c, x) && IsUnplaced(inp, c, x) ==>
        if Broke(inp, x.run) then Says(extra, r, TerminalDefectUnlocalized, [x.run])
        else Concludes(r, CompositionFailure, [x.run])
    ensures var x := a.candidates[0];
      !IsNearMiss(inp, c, x) && !IsUnplaced(inp, c, x) ==> exists m ::
        DrillsTo(inp, c, x, m) &&
        Says(extra, r,
          if Broke(inp, m) && m == x.run && x.via == Deterministic && !DeliverableBad(inp) && !NothingScored(inp, c)
          then DegradedRecovered else CutPointVerdict, [m])
  {
    hide *;
    PublishedParts(inp, c, a, anomalies, extra, r);
    RowConcludes(inp, c, a, anomalies, extra, r);
    PastTheLoop(inp, c, a, anomalies);
    var x := a.candidates[0];
    SingleSays(inp, c, x);
    DrillsToIs(inp, c, x, Drill(inp, c, x).culprit);
  }

  lemma SingleSays(inp: Input, c: Condensation, x: Candidate)
    requires x.superId < |c.supers|
    ensures RowReady(c, SingleRow(inp, c, x))
    ensures var row := SingleRow(inp, c, x);
      IsNearMiss(inp, c, x) ==>
        && RowVerdict(inp, c, row) == DegradedRecovered
        && RowCulprits(inp, c, row) == [if x.sccMember.Some? then x.sccMember.value else x.run]
    ensures var row := SingleRow(inp, c, x);
      !IsNearMiss(inp, c, x) && IsUnplaced(inp, c, x) ==>
        && RowVerdict(inp, c, row) == (if Broke(inp, x.run) then TerminalDefectUnlocalized else CompositionFailure)
        && RowCulprits(inp, c, row) == [x.run]
    ensures var row, m := SingleRow(inp, c, x), Drill(inp, c, x).culprit;
      !IsNearMiss(inp, c, x) && !IsUnplaced(inp, c, x) ==>
        && RowCulprits(inp, c, row) == [m]
        && RowVerdict(inp, c, row) ==
           if Broke(inp, m) && m == x.run && x.via == Deterministic && !DeliverableBad(inp) && !NothingScored(inp, c)
           then DegradedRecovered else CutPointVerdict
  {
    TerminalIs(inp);
    UnmeasuredIs(inp, c);
    FieldsAre(inp, x.run);
    FieldsAre(inp, Drill(inp, c, x).culprit);
    hide Drill, QualityUnmeasured, NothingScored, TerminalBad, TerminalOk, DeliverableBad, DeliverableOk, Broke,
      Violations, HasScore;
  }

  ghost predicate Apart(xs: seq<Candidate>) {
    exists i, j :: 0 <= i < |xs| && 0 <= j < |xs| && xs[i].superId != xs[j].superId
  }

  lemma ApartIs(xs: seq<Candidate>)
    ensures Apart(xs) <==> TwoPlaces(xs)
  {
    if x, y :| x in xs && y in xs && x.superId != y.superId {
      var i :| 0 <= i < |xs| && xs[i] == x;
      var j :| 0 <= j < |xs| && xs[j] == y;
      assert xs[i].superId != xs[j].superId;
    }
    if i, j :| 0 <= i < |xs| && 0 <= j < |xs| && xs[i].superId != xs[j].superId {
      assert xs[i] in xs && xs[j] in xs;
    }
  }

  // Main result: then several origins, each resolved on its own.
  lemma SeveralRung(inp: Input, c: Condensation, a: Analysis, anomalies: seq<Anomaly>, extra: seq<Finding>, r: Report)
    requires Publishes(inp, c, a, anomalies, extra, r) && |a.candidates| > 1 && NoLoopBlamed(c, a, anomalies)
    ensures AllNamed(inp, c, a.candidates, r.culprits)
    ensures r.verdict == if Apart(a.candidates) then MultiCulprit else CutPointVerdict
  {
    hide *;
    PublishedParts(inp, c, a, anomalies, extra, r);
    RowConcludes(inp, c, a, anomalies, extra, r);
    PastTheLoop(inp, c, a, anomalies);
    AnalyzedIsReady(inp, c, a, anomalies);
    ManyFits(c, a.candidates);
    ToldAtExit(inp, c, a.candidates);
    AllNamedIs(inp, c, a.candidates);
    ApartIs(a.candidates);
    ManySays(inp, c, a.candidates);
    var v := if Apart(a.candidates) then MultiCulprit else CutPointVerdict;
    SaysPlain(extra, r, v, AllResolved(inp, c, a.candidates));
  }

  lemma ManySays(inp: Input, c: Condensation, xs: seq<Candidate>)
    requires RowReady(c, ManyOrigins(xs)) && Placed(c, xs)
    ensures RowVerdict(inp, c, ManyOrigins(xs)) == if TwoPlaces(xs) then MultiCulprit else CutPointVerdict
    ensures RowCulprits(inp, c, ManyOrigins(xs)) == AllResolved(inp, c, xs)
  {
  }

  lemma SaysPlain(extra: seq<Finding>, r: Report, v: Verdict, culprits: seq<RunId>)
    requires v != DegradedRecovered
    ensures Says(extra, r, v, culprits) <==> r.verdict == v && r.culprits == culprits
  {
  }

  // ---------- The rungs without an origin ----------

  // Nothing localized, nothing runs away, no source excuses itself, and something was scored.
  ghost predicate NothingLocalized(inp: Input, c: Condensation, a: Analysis, anomalies: seq<Anomaly>) {
    a.candidates == [] && anomalies == [] && !SomeAdmits(inp, c) && !NothingScored(inp, c)
  }

  lemma PastOrigins(inp: Input, c: Condensation, a: Analysis, anomalies: seq<Anomaly>)
    requires WellFormed(inp, c) && CascadeReady(c, a, anomalies) && NothingLocalized(inp, c, a, anomalies)
    ensures InRange(c, c.topo) && InRange(c, c.sources)
    ensures RowOf(inp, c, a, anomalies) == NoCandidateRow(inp, c, a)
  {
    SourcesReady(c, a, anomalies);
    FlawedIs(inp, c);
    UnmeasuredIs(inp, c);
    hide WellFormed, QualityUnmeasured, FlawedSources, SomeAdmits, NothingScored, NoCandidateRow;
  }

  // The first run in the listing that owns up.
  ghost predicate FirstToOwnUp(inp: Input, listing: seq<RunId>, r: RunId) {
    exists k: nat :: k < |listing| && r == listing[k] && OwnsUp(inp, r) &&
      forall j: nat :: j < k ==> !OwnsUp(inp, listing[j])
  }

  ghost predicate SomeOwnsUp(inp: Input, c: Condensation) {
    exists n :: n in c.graph.nodes && OwnsUp(inp, n)
  }

  lemma ConfessedIs(inp: Input, listing: seq<RunId>)
    ensures var confessed := Filter(listing, (n: RunId) => Confesses(inp, n));
      && (confessed == [] <==> forall n :: n in listing ==> !OwnsUp(inp, n))
      && (confessed != [] ==> FirstToOwnUp(inp, listing, confessed[0]))
  {
    var keep := (n: RunId) => Confesses(inp, n);
    var confessed := Filter(listing, (n: RunId) => Confesses(inp, n));
    forall n ensures OwnsUp(inp, n) <==> Confesses(inp, n) {
      OwnsUpIs(inp, n);
    }
    hide OwnsUp, Confesses;
    FilterAgrees(listing, keep, (n: RunId) => Confesses(inp, n));
    FirstKept(listing, keep);
    if confessed != [] {
      var k: nat :| k < |listing| && listing[k] == Filter(listing, keep)[0] && keep(listing[k]) &&
        forall j: nat :: j < k ==> !keep(listing[j]);
      assert confessed[0] == listing[k] && forall j: nat :: j < k ==> !OwnsUp(inp, listing[j]);
    }
  }

  lemma OwningUp(inp: Input, c: Condensation)
    requires WellFormed(inp, c) && InRange(c, c.topo)
    ensures SomeOwnsUp(inp, c) <==> exists n :: n in Expand(c, c.topo) && OwnsUp(inp, n)
  {
    NodesCovered(inp, c);
    NodesOf(inp, c);
    ExpandContents(inp, c, c.topo);
    hide WellFormed, Expand, OwnsUp;
  }

  // Main result: under a bad deliverable, with nothing localized, the first run in the listing that owns up is the cut
  // point.
  lemma ConfessionRung(inp: Input, c: Condensation, a: Analysis, anomalies: seq<Anomaly>, extra: seq<Finding>,
                       r: Report)
    requires Publishes(inp, c, a, anomalies, extra, r) && NothingLocalized(inp, c, a, anomalies)
    requires DeliverableBad(inp) && SomeOwnsUp(inp, c)
    ensures InRange(c, c.topo) && r.verdict == CutPointVerdict
    ensures |r.culprits| == 1 && FirstToOwnUp(inp, Expand(c, c.topo), r.culprits[0])
  {
    hide *;
    PublishedParts(inp, c, a, anomalies, extra, r);
    RowConcludes(inp, c, a, anomalies, extra, r);
    PastOrigins(inp, c, a, anomalies);
    TerminalIs(inp);
    OwningUp(inp, c);
    ConfessedIs(inp, Expand(c, c.topo));
    ConfessionRow(inp, c, a);
    var first := Filter(Expand(c, c.topo), (n: RunId) => Confesses(inp, n))[0];
    SaysPlain(extra, r, CutPointVerdict, [first]);
  }

  lemma ConfessionRow(inp: Input, c: Condensation, a: Analysis)
    requires InRange(c, c.topo) && InRange(c, c.sources) && TerminalBad(inp)
    requires Filter(Expand(c, c.topo), (n: RunId) => Confesses(inp, n)) != []
    ensures var row, confessed := NoCandidateRow(inp, c, a), Filter(Expand(c, c.topo), (n: RunId) => Confesses(inp, n));
      row.Fabrication? && RowVerdict(inp, c, row) == CutPointVerdict && RowCulprits(inp, c, row) == [confessed[0]]
  {
    hide TerminalBad, Confesses, Expand;
  }

  // Every run is above the bar or unscored for a reason, and no step fell by much.
  ghost predicate NothingAmiss(inp: Input, c: Condensation, a: Analysis) {
    && !a.hadSignificantDrop
    && forall n :: n in c.graph.nodes ==>
         !MayHide(inp, c, n) && (HasScore(inp, n) ==> ScoreIn(inp, n) >= inp.config.threshold)
  }

  // The exit of the entry that finished first.
  ghost predicate FirstEntry(inp: Input, c: Condensation, r: RunId) {
    && (exists s: nat :: Entry(c, s) && c.supers[s].exit == r)
    && forall s: nat :: Entry(c, s) && c.supers[s].exit != r ==> Sooner(inp, r, c.supers[s].exit)
  }

  lemma HidesIs(inp: Input, c: Condensation, n: RunId)
    requires WellFormed(inp, c) && InRange(c, c.sources)
    ensures HidesSomething(inp, c, n) <==> MayHide(inp, c, n)
  {
    FieldsAre(inp, n);
    EntryExits(inp, c, n);
    hide WellFormed, SourceExits, Entry;
  }

  lemma EntryExits(inp: Input, c: Condensation, n: RunId)
    requires WellFormed(inp, c) && InRange(c, c.sources)
    ensures n in SourceExits(c) <==> exists s: nat :: Entry(c, s) && c.supers[s].exit == n
  {
    SameCount(c);
    hide WellFormed, Entry;
    if s: nat :| Entry(c, s) && c.supers[s].exit == n {
      EntryIs(inp, c, s);
      var k: nat :| k < |c.sources| && c.sources[k] == s;
      assert SourceExits(c)[k] == n;
    }
    if n in SourceExits(c) {
      var k: nat :| k < |SourceExits(c)| && SourceExits(c)[k] == n;
      assert c.sources[k] in c.sources;
      EntryIs(inp, c, c.sources[k]);
    }
  }

  lemma HealthyIs(inp: Input, c: Condensation, a: Analysis)
    requires WellFormed(inp, c) && InRange(c, c.sources) && !NothingScored(inp, c)
    ensures LooksHealthy(inp, c, a) <==> NothingAmiss(inp, c, a)
  {
    forall n ensures HidesSomething(inp, c, n) <==> MayHide(inp, c, n) {
      HidesIs(inp, c, n);
    }
    forall n ensures Low(inp, n) <==> HasScore(inp, n) && ScoreIn(inp, n) < inp.config.threshold {
      FieldsAre(inp, n);
    }
    SomeSource(inp, c);
    hide WellFormed, HidesSomething, MayHide, Low, HasScore, ScoreIn;
  }

  lemma SomeSource(inp: Input, c: Condensation)
    requires WellFormed(inp, c) && !NothingScored(inp, c)
    ensures c.sources != []
  {
    var n :| n in c.graph.nodes && HasScore(inp, n);
    NodesOf(inp, c);
    WellFormedDag(inp, c);
    NodeSuper(inp, c, n);
    var s := Minimal(c.dag, c.dag.nodes, c.superOf[n]);
    InDag(inp, c, s);
    EntryIs(inp, c, s);
    hide WellFormed;
    assert Entry(c, s);
  }

  lemma NodeSuper(inp: Input, c: Condensation, n: RunId)
    requires WellFormed(inp, c) && n in c.graph.nodes
    ensures n in c.superOf && c.superOf[n] in c.dag.nodes
  {
    hide Reaches, ProperTopo, ProperSuper, Acyclic, ProperEnds;
  }

  lemma InDag(inp: Input, c: Condensation, s: nat)
    requires WellFormed(inp, c) && s in c.dag.nodes && forall p :: p in c.dag.nodes ==> (p, s) !in c.dag.edges
    ensures s < |c.supers| && forall p: nat :: (p, s) !in c.dag.edges
  {
    WellFormedDag(inp, c);
    hide Reaches, ProperTopo, ProperSuper, Acyclic, ProperEnds;
  }

  lemma FirstEntryIs(inp: Input, c: Condensation, r: RunId)
    requires WellFormed(inp, c) && InRange(c, c.sources)
    requires IsLeast((n: nat) => KeyOf(inp.endTimes, n), Elements(SourceExits(c)), r)
    ensures FirstEntry(inp, c, r)
  {
    EntryExits(inp, c, r);
    forall s: nat | Entry(c, s) && c.supers[s].exit != r ensures Sooner(inp, r, c.supers[s].exit) {
      EntryExits(inp, c, c.supers[s].exit);
      SoonerIs(inp, r, c.supers[s].exit);
      assert c.supers[s].exit in Elements(SourceExits(c));
    }
    hide WellFormed, Entry, Sooner, SourceExits;
  }

  // Main result: with nobody owning up and nothing amiss in any run, the bad deliverable is put down to the whole, at
  // the entry that finished first; verifiers may still take its place.
  lemma WholeRung(inp: Input, c: Condensation, a: Analysis, anomalies: seq<Anomaly>, extra: seq<Finding>, r: Report)
    requires Publishes(inp, c, a, anomalies, extra, r) && NothingLocalized(inp, c, a, anomalies)
    requires DeliverableBad(inp) && !SomeOwnsUp(inp, c) && NothingAmiss(inp, c, a)
    ensures exists e :: FirstEntry(inp, c, e) && Concludes(r, CompositionFailure, [e])
  {
    hide *;
    PublishedParts(inp, c, a, anomalies, extra, r);
    RowConcludes(inp, c, a, anomalies, extra, r);
    PastOrigins(inp, c, a, anomalies);
    TerminalIs(inp);
    OwningUp(inp, c);
    ConfessedIs(inp, Expand(c, c.topo));
    SomethingScored(inp, c, a, anomalies);
    HealthyIs(inp, c, a);
    WholeRow(inp, c, a);
    FirstEntryIs(inp, c, NoCandidateRow(inp, c, a).root);
  }

  lemma SomethingScored(inp: Input, c: Condensation, a: Analysis, anomalies: seq<Anomaly>)
    requires NothingLocalized(inp, c, a, anomalies)
    ensures !NothingScored(inp, c)
  {
  }

  lemma WholeRow(inp: Input, c: Condensation, a: Analysis)
    requires InRange(c, c.topo) && InRange(c, c.sources)
    requires TerminalBad(inp) && LooksHealthy(inp, c, a)
    requires Filter(Expand(c, c.topo), (n: RunId) => Confesses(inp, n)) == []
    ensures var row := NoCandidateRow(inp, c, a);
      && row.WholeOnly? && RowVerdict(inp, c, row) == CompositionFailure && RowCulprits(inp, c, row) == [row.root]
      && IsLeast((n: nat) => KeyOf(inp.endTimes, n), Elements(SourceExits(c)), row.root)
  {
    hide TerminalBad, Confesses, Expand;
  }

  // Main result: in every other case nothing is classified, unless a verifier was refuted.
  lemma NothingRung(inp: Input, c: Condensation, a: Analysis, anomalies: seq<Anomaly>, extra: seq<Finding>, r: Report)
    requires Publishes(inp, c, a, anomalies, extra, r) && NothingLocalized(inp, c, a, anomalies)
    requires !DeliverableBad(inp) || (!SomeOwnsUp(inp, c) && !NothingAmiss(inp, c, a))
    ensures Concludes(r, Unclassified, [])
  {
    hide *;
    PublishedParts(inp, c, a, anomalies, extra, r);
    RowConcludes(inp, c, a, anomalies, extra, r);
    PastOrigins(inp, c, a, anomalies);
    TerminalIs(inp);
    OwningUp(inp, c);
    ConfessedIs(inp, Expand(c, c.topo));
    SomethingScored(inp, c, a, anomalies);
    HealthyIs(inp, c, a);
    NothingRow(inp, c, a);
  }

  lemma NothingRow(inp: Input, c: Condensation, a: Analysis)
    requires InRange(c, c.topo) && InRange(c, c.sources)
    requires !TerminalBad(inp) ||
      (!LooksHealthy(inp, c, a) && Filter(Expand(c, c.topo), (n: RunId) => Confesses(inp, n)) == [])
    ensures var row := NoCandidateRow(inp, c, a);
      row.NothingFound? && RowVerdict(inp, c, row) == Unclassified && RowCulprits(inp, c, row) == []
  {
    hide TerminalBad, Confesses, Expand;
  }
}
