// The growing list of findings, with look-ups from a run to the findings that concern it.

module FindingIndex {
  import opened Prelude
  import opened BlameInput
  import opened CutPoint
  import opened Evidence

  // The value of an index at one moment.
  datatype Index = Index(
    findings: seq<Finding>,
    contract: map<RunId, seq<nat>>,
    contractOrder: seq<RunId>,
    score: map<RunId, nat>,
    flags: map<RunId, seq<nat>>,
    signals: map<RunId, seq<nat>>,
    drop: map<RunId, nat>,
    flawed: map<RunId, nat>,
    loop: map<RunId, seq<nat>>,
    verifier: map<RunId, seq<nat>>,
    terminalContent: Option<nat>,
    terminalForm: Option<nat>,
    detectionGap: Option<nat>,
    propagated: map<string, nat>,
    corrected: map<string, nat>)

  function At(m: map<RunId, seq<nat>>, r: RunId): seq<nat> {
    if r in m then m[r] else []
  }

  // ---------- What each look-up says ----------

  ghost predicate Holds(fs: seq<Finding>, i: nat, f: Finding) {
    i < |fs| && fs[i] == f
  }

  ghost predicate OneEach(fs: seq<Finding>, m: map<RunId, nat>, runs: set<RunId>, make: RunId -> Finding) {
    m.Keys == runs && forall r :: r in m ==> Holds(fs, m[r], make(r))
  }

  ghost predicate Lists(fs: seq<Finding>, at: seq<nat>, items: seq<Finding>) {
    |at| == |items| && forall k :: 0 <= k < |at| ==> Holds(fs, at[k], items[k])
  }

  ghost predicate ListEach(fs: seq<Finding>, m: map<RunId, seq<nat>>, runs: set<RunId>, make: RunId -> seq<Finding>) {
    && (forall r :: r in m ==> r in runs && m[r] != [])
    && forall r :: r in runs ==> Lists(fs, At(m, r), make(r))
  }

  function ScoreMaker(inp: Input): RunId -> Finding {
    (r: RunId) => ScoreFinding(inp, r)
  }

  function FlawedMaker(lane: set<RunId>): RunId -> Finding {
    (r: RunId) => FlawedFinding(lane, r)
  }

  function FlagFindings(r: RunId, flags: seq<string>): seq<Finding> {
    if flags == [] then []
    else (if flags[0] in CONTENT_FLAGS then [FlagFinding(r, flags[0])] else []) + FlagFindings(r, flags[1..])
  }

  function FlagMaker(inp: Input): RunId -> seq<Finding> {
    (r: RunId) => FlagFindings(r, Flags(inp, r))
  }

  function BreachMaker(inp: Input): RunId -> seq<Finding> {
    (r: RunId) => MapSeq(Violations(inp, r), (v: Violation) => BreachFinding(r, v))
  }

  function SignalMaker(inp: Input): RunId -> seq<Finding> {
    (r: RunId) => MapSeq(Signals(inp, r), (s: Signal) => SignalFinding(r, s))
  }

  // What is recorded about one run's content: its score, its content flags, its flawed-input claim.
  function NodeMaker(inp: Input, lane: set<RunId>): RunId -> seq<Finding> {
    (r: RunId) =>
      (if ScoreOf(inp, r).Some? then [ScoreFinding(inp, r)] else []) +
      FlagFindings(r, Flags(inp, r)) +
      (if InputFlawed(inp, r) then [FlawedFinding(lane, r)] else [])
  }

  // The findings made for `nodes`, run after run.
  function Concat(nodes: seq<RunId>, make: RunId -> seq<Finding>): seq<Finding> {
    if nodes == [] then [] else Concat(nodes[..|nodes| - 1], make) + make(nodes[|nodes| - 1])
  }

  lemma ConcatNext(nodes: seq<RunId>, k: nat, make: RunId -> seq<Finding>)
    requires k < |nodes|
    ensures Concat(nodes[..k + 1], make) == Concat(nodes[..k], make) + make(nodes[k])
    ensures Concat(nodes[..0], make) == []
  {
    assert nodes[..k + 1][..k] == nodes[..k];
  }

  function TerminalItems(inp: Input): seq<Finding> {
    match inp.terminal
    case None => []
    case Some(tv) =>
      [TerminalFinding(tv)] +
      (if tv.formBad || tv.formRequirement.Some? then [FormFinding(inp, tv)] else []) +
      (if tv.checkable && tv.formBad then [GapFinding()] else [])
  }

  function ScoredRuns(inp: Input, nodes: seq<RunId>): set<RunId> {
    set r | r in nodes && ScoreOf(inp, r).Some?
  }

  function FlawedRuns(inp: Input, nodes: seq<RunId>): set<RunId> {
    set r | r in nodes && InputFlawed(inp, r)
  }

  ghost predicate NodesIndexed(inp: Input, lane: set<RunId>, nodes: seq<RunId>, fs: seq<Finding>,
                               score: map<RunId, nat>, flags: map<RunId, seq<nat>>, flawed: map<RunId, nat>) {
    && OneEach(fs, score, ScoredRuns(inp, nodes), ScoreMaker(inp))
    && ListEach(fs, flags, Elements(nodes), FlagMaker(inp))
    && OneEach(fs, flawed, FlawedRuns(inp, nodes), FlawedMaker(lane))
  }

  ghost predicate TerminalIndexed(inp: Input, fs: seq<Finding>, content: Option<nat>, form: Option<nat>,
                                  gap: Option<nat>) {
    match inp.terminal
    case None => content.None? && form.None? && gap.None?
    case Some(tv) =>
      && content.Some? && Holds(fs, content.value, TerminalFinding(tv))
      && (form.Some? <==> tv.formBad || tv.formRequirement.Some?)
      && (form.Some? ==> Holds(fs, form.value, FormFinding(inp, tv)))
      && (gap.Some? <==> tv.checkable && tv.formBad)
      && (gap.Some? ==> Holds(fs, gap.value, GapFinding()))
  }

  ghost predicate IsKind(fs: seq<Finding>, i: nat, kind: FindingKind) {
    i < |fs| && fs[i].kind == kind
  }

  ghost predicate RunsIndexed(fs: seq<Finding>, m: map<RunId, seq<nat>>, kind: FindingKind) {
    forall r :: r in m ==> m[r] != [] && forall i :: i in m[r] ==> IsKind(fs, i, kind)
  }

  ghost predicate KeysIndexed(fs: seq<Finding>, m: map<string, nat>, kind: FindingKind) {
    forall k :: k in m ==> IsKind(fs, m[k], kind) && fs[m[k]].data.key == Some(k)
  }

  // A measured or assumed fall at this very run.
  ghost predicate DropsIndexed(fs: seq<Finding>, m: map<RunId, nat>) {
    forall r :: r in m ==> IsKind(fs, m[r], ContentDrop) && fs[m[r]].subject == OfRun(r)
  }

  // Everything the emitters rely on.
  ghost predicate Indexes(inp: Input, lane: set<RunId>, nodes: seq<RunId>, ix: Index) {
    && NodesIndexed(inp, lane, nodes, ix.findings, ix.score, ix.flags, ix.flawed)
    && ListEach(ix.findings, ix.contract, Elements(nodes), BreachMaker(inp))
    && Elements(ix.contractOrder) == ix.contract.Keys
    && ListEach(ix.findings, ix.signals, Elements(nodes), SignalMaker(inp))
    && TerminalIndexed(inp, ix.findings, ix.terminalContent, ix.terminalForm, ix.detectionGap)
    && DropsIndexed(ix.findings, ix.drop)
    && RunsIndexed(ix.findings, ix.loop, LoopAnomaly)
    && RunsIndexed(ix.findings, ix.verifier, VerifierVerdict)
    && KeysIndexed(ix.findings, ix.propagated, BreachPropagated)
    && KeysIndexed(ix.findings, ix.corrected, BreachCorrected)
  }

  // ---------- Findings are only ever appended ----------

  lemma OneEachGrows(fs: seq<Finding>, gs: seq<Finding>, m: map<RunId, nat>, runs: set<RunId>, make: RunId -> Finding)
    requires OneEach(fs, m, runs, make) && fs <= gs
    ensures OneEach(gs, m, runs, make)
  {
  }

  lemma ListsGrows(fs: seq<Finding>, gs: seq<Finding>, at: seq<nat>, items: seq<Finding>)
    requires Lists(fs, at, items) && fs <= gs
    ensures Lists(gs, at, items)
  {
  }

  lemma ListEachGrows(fs: seq<Finding>, gs: seq<Finding>, m: map<RunId, seq<nat>>, runs: set<RunId>,
                      make: RunId -> seq<Finding>)
    requires ListEach(fs, m, runs, make) && fs <= gs
    ensures ListEach(gs, m, runs, make)
  {
    hide Lists;
    forall r | r in runs ensures Lists(gs, At(m, r), make(r)) {
      ListsGrows(fs, gs, At(m, r), make(r));
    }
  }

  lemma NodesGrow(inp: Input, lane: set<RunId>, nodes: seq<RunId>, fs: seq<Finding>, gs: seq<Finding>,
                  score: map<RunId, nat>, flags: map<RunId, seq<nat>>, flawed: map<RunId, nat>)
    requires NodesIndexed(inp, lane, nodes, fs, score, flags, flawed) && fs <= gs
    ensures NodesIndexed(inp, lane, nodes, gs, score, flags, flawed)
  {
    hide OneEach, ListEach;
    OneEachGrows(fs, gs, score, ScoredRuns(inp, nodes), ScoreMaker(inp));
    ListEachGrows(fs, gs, flags, Elements(nodes), FlagMaker(inp));
    OneEachGrows(fs, gs, flawed, FlawedRuns(inp, nodes), FlawedMaker(lane));
  }

  lemma RestGrows(inp: Input, fs: seq<Finding>, gs: seq<Finding>, content: Option<nat>, form: Option<nat>,
                  gap: Option<nat>,
                  drop: map<RunId, nat>, loop: map<RunId, seq<nat>>, verifier: map<RunId, seq<nat>>,
                  propagated: map<string, nat>, corrected: map<string, nat>)
    requires fs <= gs
    ensures TerminalIndexed(inp, fs, content, form, gap) ==> TerminalIndexed(inp, gs, content, form, gap)
    ensures DropsIndexed(fs, drop) ==> DropsIndexed(gs, drop)
    ensures RunsIndexed(fs, loop, LoopAnomaly) ==> RunsIndexed(gs, loop, LoopAnomaly)
    ensures RunsIndexed(fs, verifier, VerifierVerdict) ==> RunsIndexed(gs, verifier, VerifierVerdict)
    ensures KeysIndexed(fs, propagated, BreachPropagated) ==> KeysIndexed(gs, propagated, BreachPropagated)
    ensures KeysIndexed(fs, corrected, BreachCorrected) ==> KeysIndexed(gs, corrected, BreachCorrected)
  {
  }

  lemma IndexesGrow(inp: Input, lane: set<RunId>, nodes: seq<RunId>, ix: Index, more: seq<Finding>)
    requires Indexes(inp, lane, nodes, ix)
    ensures Indexes(inp, lane, nodes, ix.(findings := ix.findings + more))
  {
    hide NodesIndexed, ListEach, TerminalIndexed, DropsIndexed, RunsIndexed, KeysIndexed, Elements;
    var fs, gs := ix.findings, ix.findings + more;
    assert fs <= gs;
    NodesGrow(inp, lane, nodes, fs, gs, ix.score, ix.flags, ix.flawed);
    ListEachGrows(fs, gs, ix.contract, Elements(nodes), BreachMaker(inp));
    ListEachGrows(fs, gs, ix.signals, Elements(nodes), SignalMaker(inp));
    RestGrows(inp, fs, gs, ix.terminalContent, ix.terminalForm, ix.detectionGap, ix.drop, ix.loop, ix.verifier,
      ix.propagated, ix.corrected);
  }

  lemma OneEachInsert(fs: seq<Finding>, m: map<RunId, nat>, runs: set<RunId>, make: RunId -> Finding, r: RunId, i: nat)
    requires OneEach(fs, m, runs, make) && Holds(fs, i, make(r))
    ensures OneEach(fs, m[r := i], runs + {r}, make)
  {
  }

  lemma ListEachInsert(fs: seq<Finding>, m: map<RunId, seq<nat>>, runs: set<RunId>, make: RunId -> seq<Finding>,
                       r: RunId, at: seq<nat>)
    requires ListEach(fs, m, runs, make) && r !in runs && Lists(fs, at, make(r))
    ensures ListEach(fs, if at == [] then m else m[r := at], runs + {r}, make)
  {
    hide Lists;
    var n := if at == [] then m else m[r := at];
    forall q | q in runs + {r} ensures Lists(fs, At(n, q), make(q)) {
      assert At(n, q) == if q == r then at else At(m, q);
    }
  }

  lemma NodesNext(inp: Input, nodes: seq<RunId>, k: nat)
    requires k < |nodes|
    ensures Elements(nodes[..k + 1]) == Elements(nodes[..k]) + {nodes[k]}
    ensures ScoredRuns(inp, nodes[..k + 1]) ==
      if ScoreOf(inp, nodes[k]).Some? then ScoredRuns(inp, nodes[..k]) + {nodes[k]} else ScoredRuns(inp, nodes[..k])
    ensures FlawedRuns(inp, nodes[..k + 1]) ==
      if InputFlawed(inp, nodes[k]) then FlawedRuns(inp, nodes[..k]) + {nodes[k]} else FlawedRuns(inp, nodes[..k])
  {
    hide ScoreOf, InputFlawed;
    assert nodes[..k + 1] == nodes[..k] + [nodes[k]];
  }
}
