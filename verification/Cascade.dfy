// The first-match-wins cascade: which row decides, whom it names, and the defects it emits.

module Cascade {
  import opened Prelude
  import opened Graphs
  import opened BlameInput
  import opened Condense
  import opened Propagation
  import opened CutPoint
  import opened Origins
  import opened Evidence
  import opened FindingIndex
  import Assemble
  import opened Emit
  import opened Support
  import opened CandidateFacts

  predicate TerminalBad(inp: Input) {
    inp.terminal.Some? && inp.terminal.value.bad && inp.terminal.value.checkable
  }

  predicate TerminalOk(inp: Input) {
    inp.terminal.Some? && !inp.terminal.value.bad && inp.terminal.value.checkable
  }

  // ---------- Drilling into a cycle ----------

  datatype Drilled = Drilled(culprit: RunId, fall: Option<real>)

  // How far a run fell from the best of its own scored predecessors.
  function MeasuredFall(inp: Input, g: Graph, m: RunId): Option<real> {
    if ScoreOf(inp, m).None? then None else DropFrom(Highest(inp, RunPreds(g, m)), ScoreOf(inp, m).value)
  }

  // The member where quality broke: the one the localizer qualified, else the worst scored one.
  function Drill(inp: Input, c: Condensation, x: Candidate): Drilled
    requires x.superId < |c.supers|
  {
    var members := c.supers[x.superId].members;
    var scored := KnownScores(inp, Elements(members));
    if |members| <= 1 || scored == {} then Drilled(x.run, None) else
      var m := if x.sccMember.Some? && x.sccMember.value in scored then x.sccMember.value else Worst(inp, scored);
      Drilled(m, MeasuredFall(inp, c.graph, m))
  }

  function LoopRuns(c: Condensation): set<RunId> {
    set s, m | s in c.supers && |s.members| > 1 && m in s.members :: m
  }

  function DrilledDrop(inp: Input, ix: Index, m: RunId, fall: real): Index {
    var s := ScoreOf(inp, m);
    Assemble.EnsuredDrop(ix, m, s, if s.Some? then Some(s.value + fall) else None, Some(fall))
  }

  function ExitDrop(ix: Index, x: Candidate): Index {
    Assemble.EnsuredDrop(ix, x.run, x.score, x.base, x.drop)
  }

  // With several origins only a content origin moves, and only onto a member with evidence of its own.
  predicate Moves(inp: Input, c: Condensation, x: Candidate)
    requires x.superId < |c.supers|
  {
    InCycle(c, x) && x.via == Content && (Drill(inp, c, x).fall.Some? || x.sccMember.Some?)
  }

  function Resolved(inp: Input, c: Condensation, x: Candidate): RunId
    requires x.superId < |c.supers|
  {
    if Moves(inp, c, x) then Drill(inp, c, x).culprit else x.run
  }

  function AfterResolve(inp: Input, c: Condensation, ix: Index, x: Candidate): Index
    requires x.superId < |c.supers|
  {
    var d := Drill(inp, c, x);
    if Moves(inp, c, x) then if d.fall.Some? then DrilledDrop(inp, ix, d.culprit, d.fall.value) else ix
    else if x.run in LoopRuns(c) && Assemble.Falls(x) then ExitDrop(ix, x)
    else ix
  }

  method RecordMember(inp: Input, idx: Assemble.Store, d: Drilled)
    modifies idx`findings, idx`drop
    ensures idx.View() ==
      if d.fall.Some? then DrilledDrop(inp, old(idx.View()), d.culprit, d.fall.value) else old(idx.View())
  {
    hide Assemble.EnsuredDrop, ScoreOf;
    if d.fall.Some? {
      var s := ScoreOf(inp, d.culprit);
      idx.EnsureDrop(d.culprit, s, if s.Some? then Some(s.value + d.fall.value) else None, d.fall);
    }
  }

  method ResolveCulprit(inp: Input, c: Condensation, idx: Assemble.Store, x: Candidate) returns (culprit: RunId)
    requires x.superId < |c.supers|
    modifies idx`findings, idx`drop
    ensures culprit == Resolved(inp, c, x)
    ensures idx.View() == AfterResolve(inp, c, old(idx.View()), x)
  {
    hide Drill, LoopRuns, DrilledDrop, Assemble.EnsuredDrop;
    var d := Drill(inp, c, x);
    if |c.supers[x.superId].members| > 1 && x.via == Content && (d.fall.Some? || x.sccMember.Some?) {
      RecordMember(inp, idx, d);
      return d.culprit;
    }
    if x.run in LoopRuns(c) && (x.via == Content || x.via == Both || x.cumulativePath != []) {
      idx.EnsureDrop(x.run, x.score, x.base, x.drop);
    }
    return x.run;
  }

  ghost predicate Placed(c: Condensation, xs: seq<Candidate>) {
    forall x :: x in xs ==> x.superId < |c.supers|
  }

  ghost function AllResolved(inp: Input, c: Condensation, xs: seq<Candidate>): (r: seq<RunId>)
    requires Placed(c, xs)
    ensures |r| == |xs| && forall i :: 0 <= i < |xs| ==> xs[i] in xs && r[i] == Resolved(inp, c, xs[i])
  {
    seq(|xs|, i requires 0 <= i < |xs| => assert xs[i] in xs; Resolved(inp, c, xs[i]))
  }

  ghost function AfterAll(inp: Input, c: Condensation, ix: Index, xs: seq<Candidate>): Index
    requires Placed(c, xs)
  {
    if xs == [] then ix else
      var n := |xs| - 1;
      assert xs[n] in xs && forall x :: x in xs[..n] ==> x in xs;
      AfterResolve(inp, c, AfterAll(inp, c, ix, xs[..n]), xs[n])
  }

  method ResolveAll(inp: Input, c: Condensation, idx: Assemble.Store, xs: seq<Candidate>) returns (culprits: seq<RunId>)
    requires Placed(c, xs)
    modifies idx`findings, idx`drop
    ensures culprits == AllResolved(inp, c, xs)
    ensures idx.View() == AfterAll(inp, c, old(idx.View()), xs)
  {
    culprits := [];
    for k := 0 to |xs|
      invariant |culprits| == k && Placed(c, xs[..k])
      invariant culprits == AllResolved(inp, c, xs)[..k]
      invariant idx.View() == AfterAll(inp, c, old(idx.View()), xs[..k])
    {
      hide Resolved, AfterResolve;
      assert xs[k] in xs && xs[..k + 1][..k] == xs[..k];
      var culprit := ResolveCulprit(inp, c, idx, xs[k]);
      culprits := culprits + [culprit];
    }
    assert xs[..|xs|] == xs;
  }

  // A lone origin drills whatever its channel, and whether or not the member's fall was measured.
  function AfterSingle(inp: Input, c: Condensation, ix: Index, x: Candidate): Index
    requires x.superId < |c.supers|
  {
    var d := Drill(inp, c, x);
    var ix1 := if d.fall.Some? then DrilledDrop(inp, ix, d.culprit, d.fall.value) else ix;
    if d.culprit == x.run && x.run in LoopRuns(c) && Assemble.Falls(x) then ExitDrop(ix1, x) else ix1
  }

  function NearMissRun(x: Candidate): RunId {
    if x.sccMember.Some? then x.sccMember.value else x.run
  }

  function AfterNearMiss(inp: Input, c: Condensation, ix: Index, x: Candidate): Index {
    if x.sccMember.None? then ix else
      var m := x.sccMember.value;
      Assemble.EnsuredDrop(ix, m, ScoreOf(inp, m), Highest(inp, RunPreds(c.graph, m)), MeasuredFall(inp, c.graph, m))
  }

  // ---------- The rows ----------

  datatype Row =
    | NothingMeasured
    | ExternalFault(source: RunId)
    | Runaway(anomaly: Anomaly, others: seq<Candidate>)
    | NearMiss(origin: Candidate)
    | ContentUnplaced(origin: Candidate)
    | OneOrigin(origin: Candidate)
    | ManyOrigins(origins: seq<Candidate>)
    | Fabrication(admitted: RunId)
    | WholeOnly(root: RunId)
    | NothingFound

  predicate QualityUnmeasured(inp: Input, c: Condensation) {
    forall n :: n in c.graph.nodes ==> ScoreOf(inp, n).None?
  }

  function SourceExits(c: Condensation): seq<RunId>
    requires InRange(c, c.sources)
  {
    seq<RunId>(|c.sources|,
      i requires 0 <= i < |c.sources| => assert c.sources[i] in c.sources; c.supers[c.sources[i]].exit)
  }

  function FlawedSources(inp: Input, c: Condensation): seq<RunId>
    requires InRange(c, c.sources)
  {
    Filter(SourceExits(c), (r: RunId) => InputFlawed(inp, r))
  }

  // An unscored run that may hide the culprit: not a request root, not an observed absence of output.
  predicate HidesSomething(inp: Input, c: Condensation, n: RunId)
    requires InRange(c, c.sources)
  {
    && ScoreOf(inp, n).None?
    && !(n in SourceExits(c) && Unscored(inp, n, "payload_missing"))
    && !Unscored(inp, n, "empty_output") && !Unscored(inp, n, "zero_result_set")
  }

  // A producer whose own judge admitted a content defect.
  predicate Confesses(inp: Input, n: RunId) {
    ScoreOf(inp, n).Some? && !InputFlawed(inp, n) && !IsVerifier(inp, n) && HasContentFlag(inp, n)
  }

  predicate LooksHealthy(inp: Input, c: Condensation, a: Analysis)
    requires InRange(c, c.sources)
  {
    && (forall n :: n in c.graph.nodes ==> !HidesSomething(inp, c, n) && !Low(inp, n))
    && !a.hadSignificantDrop && c.sources != []
  }

  ghost predicate CascadeReady(c: Condensation, a: Analysis, anomalies: seq<Anomaly>) {
    && InRange(c, c.topo) && InRange(c, c.sources) && Placed(c, a.candidates)
    && forall x :: x in anomalies ==> x.members != [] && x.members[0] in c.superOf
  }

  // The origins that do not lie in super-node `sid`.
  function Outside(cs: seq<Candidate>, sid: nat): (r: seq<Candidate>)
    ensures forall x :: x in r <==> x in cs && x.superId != sid
  {
    if cs == [] then [] else (if cs[0].superId != sid then [cs[0]] else []) + Outside(cs[1..], sid)
  }

  // The anomalous cycle that is also a candidate, else the first.
  function ChosenAnomaly(c: Condensation, ids: set<nat>, anomalies: seq<Anomaly>): (r: Anomaly)
    requires anomalies != [] && forall x :: x in anomalies ==> x.members != [] && x.members[0] in c.superOf
    ensures r in anomalies
  {
    var named :=
      Filter(anomalies, (x: Anomaly) => x.members != [] && x.members[0] in c.superOf && c.superOf[x.members[0]] in ids);
    if named != [] then assert named[0] in named; named[0] else anomalies[0]
  }

  predicate LoopIsNamed(c: Condensation, ids: set<nat>, anomalies: seq<Anomaly>)
    requires forall x :: x in anomalies ==> x.members != [] && x.members[0] in c.superOf
  {
    exists x :: x in anomalies && c.superOf[x.members[0]] in ids
  }

  function SingleRow(inp: Input, c: Condensation, x: Candidate): Row
    requires x.superId < |c.supers|
  {
    if x.recovered && TerminalOk(inp) && (!InCycle(c, x) || x.sccMember.Some?) then NearMiss(x)
    else if x.recovered && TerminalBad(inp) && x.via == Deterministic && !InCycle(c, x) then ContentUnplaced(x)
    else OneOrigin(x)
  }

  function NoCandidateRow(inp: Input, c: Condensation, a: Analysis): Row
    requires InRange(c, c.topo) && InRange(c, c.sources)
  {
    var confessed := Filter(Expand(c, c.topo), (n: RunId) => Confesses(inp, n));
    if TerminalBad(inp) && confessed != [] then Fabrication(confessed[0])
    else if TerminalBad(inp) && LooksHealthy(inp, c, a) then
      assert SourceExits(c)[0] in Elements(SourceExits(c));
      WholeOnly(Least((r: nat) => KeyOf(inp.endTimes, r), Elements(SourceExits(c))))
    else NothingFound
  }

  function RowOf(inp: Input, c: Condensation, a: Analysis, anomalies: seq<Anomaly>): Row
    requires CascadeReady(c, a, anomalies)
  {
    var ids := SuperIds(a.candidates);
    if QualityUnmeasured(inp, c) && a.candidates == [] && anomalies == [] then NothingMeasured
    else if a.candidates == [] && FlawedSources(inp, c) != [] then ExternalFault(FlawedSources(inp, c)[0])
    else if anomalies != [] && (a.candidates == [] || LoopIsNamed(c, ids, anomalies)) then
      var chosen := ChosenAnomaly(c, ids, anomalies);
      Runaway(chosen, Outside(a.candidates, c.superOf[chosen.members[0]]))
    else if |a.candidates| == 1 then assert a.candidates[0] in a.candidates; SingleRow(inp, c, a.candidates[0])
    else if |a.candidates| > 1 then ManyOrigins(a.candidates)
    else NoCandidateRow(inp, c, a)
  }

  // ---------- What a row does ----------

  ghost predicate RowReady(c: Condensation, row: Row) {
    match row
    case Runaway(an, others) => an.members != [] && Placed(c, others)
    case NearMiss(x) => x.superId < |c.supers|
    case ContentUnplaced(x) => x.superId < |c.supers|
    case OneOrigin(x) => x.superId < |c.supers|
    case ManyOrigins(xs) => Placed(c, xs)
    case _ => true
  }

  function LoopCulprits(an: Anomaly): seq<RunId> {
    if an.repeating != [] then an.repeating else an.members
  }

  ghost function RowCulprits(inp: Input, c: Condensation, row: Row): seq<RunId>
    requires RowReady(c, row)
  {
    match row
    case ExternalFault(r) => [r]
    case Runaway(an, others) =>
      LoopCulprits(an) + Filter(AllResolved(inp, c, others), (r: RunId) => r !in LoopCulprits(an))
    case NearMiss(x) => [NearMissRun(x)]
    case ContentUnplaced(x) => [x.run]
    case OneOrigin(x) => [Drill(inp, c, x).culprit]
    case ManyOrigins(xs) => AllResolved(inp, c, xs)
    case Fabrication(r) => [r]
    case WholeOnly(r) => [r]
    case _ => []
  }

  ghost function RowIndex(inp: Input, c: Condensation, ix: Index, row: Row): Index
    requires RowReady(c, row)
  {
    match row
    case Runaway(an, others) => AfterAll(inp, c, ix, others)
    case NearMiss(x) => AfterNearMiss(inp, c, ix, x)
    case OneOrigin(x) => AfterSingle(inp, c, ix, x)
    case ManyOrigins(xs) => AfterAll(inp, c, ix, xs)
    case _ => ix
  }

  ghost function RowDefects(inp: Input, c: Condensation, ix: Index, row: Row, vias: map<RunId, Via>, assumed: map<RunId,
                            bool>): seq<Defect>
    requires RowReady(c, row) && Bounded(ix)
  {
    var bad := TerminalBad(inp);
    match row
    case ExternalFault(r) => EmitExternal(inp, ix, r)
    case Runaway(an, others) =>
      EmitLoop(ix, LoopCulprits(an)[0]) + MultiDefects(inp, ix, AllResolved(inp, c, others), vias, assumed, bad)
    case NearMiss(x) => EmitRecovered(inp, ix, NearMissRun(x), AssumedAt(assumed, NearMissRun(x)))
    case ContentUnplaced(x) => EmitTerminalUnlocalized(inp, ix, x.run)
    case OneOrigin(x) =>
      var m := Drill(inp, c, x).culprit;
      EmitCutPoint(inp, ix, m, ViaOf(vias, m), AssumedAt(assumed, m), bad)
    case ManyOrigins(xs) => MultiDefects(inp, ix, AllResolved(inp, c, xs), vias, assumed, bad)
    case Fabrication(r) => EmitCutPoint(inp, ix, r, ViaOf(vias, r), AssumedAt(assumed, r), bad)
    case WholeOnly(r) => EmitComposition(ix)
    case _ => []
  }

  // ---------- Recording a fall keeps the index ----------

  lemma EnsuredKeeps(inp: Input, lane: set<RunId>, nodes: seq<RunId>, ix: Index, run: RunId, score: Option<real>,
                     base: Option<real>, fall: Option<real>)
    requires Indexes(inp, lane, nodes, ix)
    ensures Indexes(inp, lane, nodes, Assemble.EnsuredDrop(ix, run, score, base, fall))
    ensures Assemble.EnsuredDrop(ix, run, score, base, fall).drop.Keys ==
      ix.drop.Keys + if fall.Some? then {run} else {}
    ensures ix.findings <= Assemble.EnsuredDrop(ix, run, score, base, fall).findings
    ensures Assemble.EnsuredDrop(ix, run, score, base, fall) ==
      ix.(findings := Assemble.EnsuredDrop(ix, run, score, base, fall).findings,
          drop := Assemble.EnsuredDrop(ix, run, score, base, fall).drop)
    ensures OnlyFalls(ix, Assemble.EnsuredDrop(ix, run, score, base, fall))
  {
    hide Indexes;
    var f := DropFinding(run, score, base, fall);
    if run !in ix.drop && fall.Some? {
      IndexesGrow(inp, lane, nodes, ix, [f]);
      DropIndexed(inp, lane, nodes, ix.(findings := ix.findings + [f]), run, |ix.findings|);
    }
  }

  lemma DropIndexed(inp: Input, lane: set<RunId>, nodes: seq<RunId>, ix: Index, run: RunId, i: nat)
    requires Indexes(inp, lane, nodes, ix) && IsKind(ix.findings, i, ContentDrop)
    requires ix.findings[i].subject == OfRun(run)
    ensures Indexes(inp, lane, nodes, ix.(drop := ix.drop[run := i]))
  {
    hide NodesIndexed, ListEach, TerminalIndexed, RunsIndexed, KeysIndexed;
  }

  // Which run's fall resolving `x` records.
  function Recorded(inp: Input, c: Condensation, x: Candidate): set<RunId>
    requires x.superId < |c.supers|
  {
    var d := Drill(inp, c, x);
    if Moves(inp, c, x) then if d.fall.Some? then {d.culprit} else {}
    else if x.run in LoopRuns(c) && Assemble.Falls(x) && x.drop.Some? then {x.run} else {}
  }

  ghost predicate OnlyFalls(ix: Index, out: Index) {
    && ix.findings <= out.findings && out == ix.(findings := out.findings, drop := out.drop)
    && ix.drop.Keys <= out.drop.Keys
    && forall i :: |ix.findings| <= i < |out.findings| ==> out.findings[i].kind == ContentDrop
  }

  lemma ResolveKeeps(inp: Input, c: Condensation, lane: set<RunId>, nodes: seq<RunId>, ix: Index, x: Candidate)
    requires Indexes(inp, lane, nodes, ix) && x.superId < |c.supers|
    ensures Indexes(inp, lane, nodes, AfterResolve(inp, c, ix, x)) && OnlyFalls(ix, AfterResolve(inp, c, ix, x))
    ensures AfterResolve(inp, c, ix, x).drop.Keys == ix.drop.Keys + Recorded(inp, c, x)
  {
    hide Indexes, Drill, Assemble.EnsuredDrop, LoopRuns;
    var d := Drill(inp, c, x);
    if Moves(inp, c, x) {
      if d.fall.Some? {
        var s := ScoreOf(inp, d.culprit);
        EnsuredKeeps(inp, lane, nodes, ix, d.culprit, s,
                     if s.Some? then Some(s.value + d.fall.value) else None, d.fall);
      }
    } else {
      EnsuredKeeps(inp, lane, nodes, ix, x.run, x.score, x.base, x.drop);
    }
  }

  ghost function AllRecorded(inp: Input, c: Condensation, xs: seq<Candidate>): set<RunId>
    requires Placed(c, xs)
  {
    set x, r | x in xs && r in Recorded(inp, c, x) :: r
  }

  lemma {:induction false} AfterAllKeeps(inp: Input, c: Condensation, lane: set<RunId>, nodes: seq<RunId>, ix: Index,
                                         xs: seq<Candidate>)
    requires Indexes(inp, lane, nodes, ix) && Placed(c, xs)
    ensures Indexes(inp, lane, nodes, AfterAll(inp, c, ix, xs)) && OnlyFalls(ix, AfterAll(inp, c, ix, xs))
    ensures AfterAll(inp, c, ix, xs).drop.Keys == ix.drop.Keys + AllRecorded(inp, c, xs)
  {
    hide Indexes, AfterResolve, Recorded;
    if xs != [] {
      var n := |xs| - 1;
      assert xs == xs[..n] + [xs[n]];
      AfterAllKeeps(inp, c, lane, nodes, ix, xs[..n]);
      ResolveKeeps(inp, c, lane, nodes, AfterAll(inp, c, ix, xs[..n]), xs[n]);
      assert AllRecorded(inp, c, xs) == AllRecorded(inp, c, xs[..n]) + Recorded(inp, c, xs[n]);
    }
  }

  lemma SingleKeeps(inp: Input, c: Condensation, lane: set<RunId>, nodes: seq<RunId>, ix: Index, x: Candidate)
    requires Indexes(inp, lane, nodes, ix) && x.superId < |c.supers|
    ensures Indexes(inp, lane, nodes, AfterSingle(inp, c, ix, x)) && OnlyFalls(ix, AfterSingle(inp, c, ix, x))
    ensures AfterSingle(inp, c, ix, x).drop.Keys == ix.drop.Keys +
      (if Drill(inp, c, x).fall.Some? then {Drill(inp, c, x).culprit} else {}) +
      (if Drill(inp, c, x).culprit == x.run && x.run in LoopRuns(c) && Assemble.Falls(x) && x.drop.Some? then {x.run}
        else {})
  {
    hide Indexes, Drill, LoopRuns, DrilledDrop, ExitDrop, OnlyFalls, Assemble.Falls;
    var d := Drill(inp, c, x);
    var ix1 := if d.fall.Some? then DrilledDrop(inp, ix, d.culprit, d.fall.value) else ix;
    DrilledKeeps(inp, lane, nodes, ix, d);
    if d.culprit == x.run && x.run in LoopRuns(c) && Assemble.Falls(x) {
      ExitKeeps(inp, lane, nodes, ix1, x);
      FallsAdd(ix, ix1, ExitDrop(ix1, x));
    }
  }

  lemma FallsAdd(a: Index, b: Index, d: Index)
    requires OnlyFalls(a, b) && OnlyFalls(b, d)
    ensures OnlyFalls(a, d)
  {
  }

  lemma DrilledKeeps(inp: Input, lane: set<RunId>, nodes: seq<RunId>, ix: Index, d: Drilled)
    requires Indexes(inp, lane, nodes, ix)
    ensures var out := if d.fall.Some? then DrilledDrop(inp, ix, d.culprit, d.fall.value) else ix;
      Indexes(inp, lane, nodes, out) && OnlyFalls(ix, out) &&
        out.drop.Keys == ix.drop.Keys + if d.fall.Some? then {d.culprit} else {}
  {
    hide Indexes, Assemble.EnsuredDrop;
    if d.fall.Some? {
      var s := ScoreOf(inp, d.culprit);
      EnsuredKeeps(inp, lane, nodes, ix, d.culprit, s, if s.Some? then Some(s.value + d.fall.value) else None, d.fall);
    }
  }

  lemma ExitKeeps(inp: Input, lane: set<RunId>, nodes: seq<RunId>, ix: Index, x: Candidate)
    requires Indexes(inp, lane, nodes, ix)
    ensures Indexes(inp, lane, nodes, ExitDrop(ix, x)) && OnlyFalls(ix, ExitDrop(ix, x))
    ensures ExitDrop(ix, x).drop.Keys == ix.drop.Keys + if x.drop.Some? then {x.run} else {}
  {
    hide Indexes, Assemble.EnsuredDrop;
    EnsuredKeeps(inp, lane, nodes, ix, x.run, x.score, x.base, x.drop);
  }

  lemma RowKeeps(inp: Input, c: Condensation, lane: set<RunId>, nodes: seq<RunId>, ix: Index, row: Row)
    requires Indexes(inp, lane, nodes, ix) && RowReady(c, row)
    ensures Indexes(inp, lane, nodes, RowIndex(inp, c, ix, row)) && OnlyFalls(ix, RowIndex(inp, c, ix, row))
    ensures Bounded(RowIndex(inp, c, ix, row))
  {
    hide Indexes, AfterAll, AfterSingle, Drill, Assemble.EnsuredDrop, Highest, MeasuredFall, Bounded;
    match row {
      case Runaway(an, others) => AfterAllKeeps(inp, c, lane, nodes, ix, others);
      case NearMiss(x) =>
        if x.sccMember.Some? {
          var m := x.sccMember.value;
          EnsuredKeeps(inp, lane, nodes, ix, m, ScoreOf(inp, m), Highest(inp, RunPreds(c.graph, m)),
            MeasuredFall(inp, c.graph, m));
        }
      case OneOrigin(x) => SingleKeeps(inp, c, lane, nodes, ix, x);
      case ManyOrigins(xs) => AfterAllKeeps(inp, c, lane, nodes, ix, xs);
      case _ =>
    }
    IndexesBounded(inp, lane, nodes, RowIndex(inp, c, ix, row));
  }

  // ---------- Carrying a row out ----------

  method DrillSingle(inp: Input, c: Condensation, idx: Assemble.Store, x: Candidate) returns (culprit: RunId)
    requires x.superId < |c.supers|
    modifies idx`findings, idx`drop
    ensures culprit == Drill(inp, c, x).culprit
    ensures idx.View() == AfterSingle(inp, c, old(idx.View()), x)
  {
    hide Drill, LoopRuns, DrilledDrop, Assemble.EnsuredDrop;
    var d := Drill(inp, c, x);
    culprit := d.culprit;
    RecordMember(inp, idx, d);
    if culprit == x.run && x.run in LoopRuns(c) && (x.via == Content || x.via == Both || x.cumulativePath != []) {
      idx.EnsureDrop(x.run, x.score, x.base, x.drop);
    }
  }

  method EnactRow(inp: Input, c: Condensation, ghost lane: set<RunId>, ghost nodes: seq<RunId>, idx: Assemble.Store,
                  row: Row,
                  vias: map<RunId, Via>, assumed: map<RunId, bool>) returns (culprits: seq<RunId>, defects: seq<Defect>)
    requires Indexes(inp, lane, nodes, idx.View()) && RowReady(c, row)
    modifies idx`findings, idx`drop
    ensures idx.View() == RowIndex(inp, c, old(idx.View()), row)
    ensures culprits == RowCulprits(inp, c, row)
    ensures Bounded(idx.View()) && defects == RowDefects(inp, c, idx.View(), row, vias, assumed)
  {
    hide Indexes, AllResolved, AfterAll, AfterSingle, Drill, EmitExternal, EmitLoop, EmitRecovered, EmitCutPoint,
      EmitComposition,
      EmitTerminalUnlocalized, MultiDefects, Highest, MeasuredFall, Bounded, ViaOf, AssumedAt, TerminalBad,
        LoopCulprits, Filter;
    RowKeeps(inp, c, lane, nodes, idx.View(), row);
    culprits, defects := [], [];
    match row {
      case NothingMeasured =>
      case ExternalFault(r) =>
        culprits, defects := [r], EmitExternal(inp, idx.View(), r);
      case Runaway(an, others) =>
        LoopHasCulprit(an);
        culprits := LoopCulprits(an);
        var named := ResolveAll(inp, c, idx, others);
        defects := EmitMulti(inp, idx.View(), named, vias, assumed, TerminalBad(inp));
        defects := EmitLoop(idx.View(), culprits[0]) + defects;
        culprits := culprits + Filter(named, (r: RunId) => r !in LoopCulprits(an));
      case NearMiss(x) =>
        var m := NearMissRun(x);
        if x.sccMember.Some? {
          idx.EnsureDrop(m, ScoreOf(inp, m), Highest(inp, RunPreds(c.graph, m)), MeasuredFall(inp, c.graph, m));
        }
        culprits, defects := [m], EmitRecovered(inp, idx.View(), m, AssumedAt(assumed, m));
      case ContentUnplaced(x) =>
        culprits, defects := [x.run], EmitTerminalUnlocalized(inp, idx.View(), x.run);
      case OneOrigin(x) =>
        var m := DrillSingle(inp, c, idx, x);
        culprits, defects :=
          [m], EmitCutPoint(inp, idx.View(), m, ViaOf(vias, m), AssumedAt(assumed, m), TerminalBad(inp));
      case ManyOrigins(xs) =>
        culprits := ResolveAll(inp, c, idx, xs);
        defects := EmitMulti(inp, idx.View(), culprits, vias, assumed, TerminalBad(inp));
      case Fabrication(r) =>
        culprits, defects :=
          [r], EmitCutPoint(inp, idx.View(), r, ViaOf(vias, r), AssumedAt(assumed, r), TerminalBad(inp));
      case WholeOnly(r) =>
        culprits, defects := [r], EmitComposition(idx.View());
      case NothingFound =>
    }
  }

  lemma LoopHasCulprit(an: Anomaly)
    requires an.members != []
    ensures LoopCulprits(an) != []
  {
  }
}
