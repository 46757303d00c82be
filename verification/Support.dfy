// No defect without support: for every emitter, exactly when what it emits passes validation.

module Support {
  import opened Prelude
  import opened BlameInput
  import opened CutPoint
  import opened Evidence
  import opened FindingIndex
  import opened Emit

  lemma ListsInside(fs: seq<Finding>, at: seq<nat>, items: seq<Finding>)
    requires Lists(fs, at, items)
    ensures forall i :: i in at ==> i < |fs| && fs[i] in items
    ensures forall k :: 0 <= k < |items| ==> at[k] in at && at[k] < |fs| && fs[at[k]] == items[k]
  {
    forall i | i in at ensures i < |fs| && fs[i] in items {
      var k :| 0 <= k < |at| && at[k] == i;
      assert Holds(fs, at[k], items[k]);
    }
    forall k | 0 <= k < |items| ensures at[k] in at && at[k] < |fs| && fs[at[k]] == items[k] {
      assert Holds(fs, at[k], items[k]);
    }
  }

  lemma ListEachInside(fs: seq<Finding>, m: map<RunId, seq<nat>>, runs: set<RunId>, make: RunId -> seq<Finding>)
    requires ListEach(fs, m, runs, make)
    ensures ListsBounded(|fs|, m)
  {
    hide Lists;
    forall r, i | r in m && i in m[r] ensures i < |fs| {
      assert Lists(fs, At(m, r), make(r));
      ListsInside(fs, At(m, r), make(r));
    }
  }

  lemma IndexesBounded(inp: Input, lane: set<RunId>, nodes: seq<RunId>, ix: Index)
    requires Indexes(inp, lane, nodes, ix)
    ensures Bounded(ix)
  {
    hide ListEach, Elements, ScoreMaker, FlawedMaker;
    ListEachInside(ix.findings, ix.contract, Elements(nodes), BreachMaker(inp));
    ListEachInside(ix.findings, ix.flags, Elements(nodes), FlagMaker(inp));
    ListEachInside(ix.findings, ix.signals, Elements(nodes), SignalMaker(inp));
  }

  // ---------- The content channel ----------

  // The terminal judge saw the deliverable, its verdict still reproduces, and it is bad.
  predicate LiveBad(inp: Input) {
    inp.terminal.Some? && inp.terminal.value.checkable && !inp.terminal.value.stale && inp.terminal.value.bad
  }

  // What a run's own record says against its content.
  predicate OwnEvidence(inp: Input, run: RunId) {
    || (ScoreOf(inp, run).Some? && ScoreOf(inp, run).value < inp.config.threshold)
    || HasContentFlag(inp, run) || HasFailSignal(inp, run)
  }

  lemma {:induction false} FlagItems(r: RunId, flags: seq<string>)
    ensures forall f :: f in FlagFindings(r, flags) ==> f.kind == ContentFlag
    ensures FlagFindings(r, flags) != [] <==> exists f :: f in flags && f in CONTENT_FLAGS
  {
    if flags != [] {
      FlagItems(r, flags[1..]);
      assert flags == [flags[0]] + flags[1..];
    }
  }

  lemma FlagsAt(inp: Input, nodes: seq<RunId>, ix: Index, run: RunId)
    requires ListEach(ix.findings, ix.flags, Elements(nodes), FlagMaker(inp)) && run in nodes
    ensures forall i :: i in At(ix.flags, run) ==> i < |ix.findings| && ix.findings[i].kind == ContentFlag
    ensures At(ix.flags, run) != [] <==> HasContentFlag(inp, run)
  {
    hide Lists;
    assert run in Elements(nodes);
    assert Lists(ix.findings, At(ix.flags, run), FlagMaker(inp)(run));
    ListsInside(ix.findings, At(ix.flags, run), FlagMaker(inp)(run));
    FlagItems(run, Flags(inp, run));
    ListsLength(ix.findings, At(ix.flags, run), FlagMaker(inp)(run));
  }

  lemma ListsLength(fs: seq<Finding>, at: seq<nat>, items: seq<Finding>)
    requires Lists(fs, at, items)
    ensures |at| == |items|
  {
  }

  lemma SignalItems(run: RunId, signals: seq<Signal>)
    ensures var items := MapSeq(signals, (s: Signal) => SignalFinding(run, s));
      (forall f :: f in items ==> f.kind == HardSignal) &&
      forall k :: 0 <= k < |signals| ==> items[k].data.fail == signals[k].fail
  {
  }

  lemma SignalsListed(fs: seq<Finding>, at: seq<nat>, run: RunId, signals: seq<Signal>)
    requires Lists(fs, at, MapSeq(signals, (s: Signal) => SignalFinding(run, s)))
    ensures forall i :: i in at ==> i < |fs| && fs[i].kind == HardSignal
    ensures (exists i :: i in at && i < |fs| && fs[i].data.fail) <==> exists s :: s in signals && s.fail
  {
    hide Lists, SignalFinding;
    var items := MapSeq(signals, (s: Signal) => SignalFinding(run, s));
    ListsInside(fs, at, items);
    ListsLength(fs, at, items);
    SignalItems(run, signals);
    hide MapSeq;
    if s :| s in signals && s.fail {
      var k :| 0 <= k < |signals| && signals[k] == s;
      assert at[k] in at && fs[at[k]] == items[k];
    }
    if i :| i in at && i < |fs| && fs[i].data.fail {
      var k :| 0 <= k < |at| && at[k] == i;
      assert fs[at[k]] == items[k] && signals[k] in signals;
    }
  }

  lemma SignalsAt(inp: Input, nodes: seq<RunId>, ix: Index, run: RunId)
    requires ListEach(ix.findings, ix.signals, Elements(nodes), SignalMaker(inp)) && run in nodes
    ensures forall i :: i in At(ix.signals, run) ==> i < |ix.findings| && ix.findings[i].kind == HardSignal
    ensures (exists i :: i in At(ix.signals, run) && i < |ix.findings| && ix.findings[i].data.fail) <==>
      HasFailSignal(inp, run)
  {
    hide Lists;
    assert run in Elements(nodes);
    assert Lists(ix.findings, At(ix.signals, run), SignalMaker(inp)(run));
    SignalsListed(ix.findings, At(ix.signals, run), run, Signals(inp, run));
  }

  lemma BreachesAt(inp: Input, nodes: seq<RunId>, ix: Index, run: RunId)
    requires ListEach(ix.findings, ix.contract, Elements(nodes), BreachMaker(inp)) && run in nodes
    ensures forall i :: i in At(ix.contract, run) ==>
      i < |ix.findings| && ix.findings[i].kind == ContractBreach && ix.findings[i].channel == Hard
    ensures HasContract(ix, run) <==> Violations(inp, run) != []
  {
    hide Lists;
    assert run in Elements(nodes);
    assert Lists(ix.findings, At(ix.contract, run), BreachMaker(inp)(run));
    ListsInside(ix.findings, At(ix.contract, run), BreachMaker(inp)(run));
    ListsLength(ix.findings, At(ix.contract, run), BreachMaker(inp)(run));
  }

  lemma BreachesListed(inp: Input, lane: set<RunId>, nodes: seq<RunId>, ix: Index)
    requires Indexes(inp, lane, nodes, ix)
    ensures ListEach(ix.findings, ix.contract, Elements(nodes), BreachMaker(inp))
  {
    hide ListEach, NodesIndexed, TerminalIndexed, DropsIndexed, RunsIndexed, KeysIndexed;
  }

  // The role an index plays in a content claim at `run` is a function of the finding there.
  ghost predicate PlaysRole(ix: Index, threshold: real, run: RunId, recovered: bool, r: Ref)
    requires Bounded(ix)
  {
    r.index < |ix.findings| &&
    var f := ix.findings[r.index];
    match f.kind
    case ContentDrop => r.role == Supporting
    case ContentScore => run in ix.score && r == Ref(ix.score[run], ScoreRole(ix, threshold, run))
    case ContentFlag => r.role == Supporting
    case HardSignal => r.role == if f.data.fail then Supporting else Context
    case TerminalContent => [r] == TerminalRefs(ix, recovered)
    case FlawedInput => r.role == Supporting
    case _ => false
  }

  lemma TerminalAt(inp: Input, lane: set<RunId>, nodes: seq<RunId>, ix: Index, recovered: bool)
    requires Indexes(inp, lane, nodes, ix) && Bounded(ix)
    ensures forall r :: r in TerminalRefs(ix, recovered) ==>
      [r] == TerminalRefs(ix, recovered) && r.index < |ix.findings| && ix.findings[r.index].kind == TerminalContent
    ensures Supported(TerminalRefs(ix, recovered)) <==> LiveBad(inp)
  {
    hide NodesIndexed, ListEach, RunsIndexed, KeysIndexed, DropsIndexed, Bounded;
    if inp.terminal.Some? {
      var t := TerminalRefs(ix, recovered);
      assert t[0] in t;
    }
  }

  lemma ContentRoles(inp: Input, lane: set<RunId>, nodes: seq<RunId>, ix: Index, run: RunId, recovered: bool)
    requires Indexes(inp, lane, nodes, ix) && Bounded(ix) && run in nodes
    ensures forall r :: r in ContentRefs(ix, inp.config.threshold, run, recovered) ==>
      PlaysRole(ix, inp.config.threshold, run, recovered, r)
  {
    hide ListEach, RunsIndexed, KeysIndexed, TerminalIndexed, Bounded;
    FlagsAt(inp, nodes, ix, run);
    SignalsAt(inp, nodes, ix, run);
    TerminalAt(inp, lane, nodes, ix, recovered);
  }

  lemma RolesConsistent(ix: Index, threshold: real, run: RunId, recovered: bool, refs: seq<Ref>)
    requires Bounded(ix) && forall r :: r in refs ==> PlaysRole(ix, threshold, run, recovered, r)
    ensures Consistent(refs) && InBounds(ix.findings, refs)
    ensures forall r :: r in Ordered(refs) <==> r in refs
  {
    hide Bounded;
    forall i, j | 0 <= i < |refs| && 0 <= j < |refs| && refs[i].index == refs[j].index ensures refs[i] == refs[j] {
      assert refs[i] in refs && refs[j] in refs;
      assert PlaysRole(ix, threshold, run, recovered, refs[i]) && PlaysRole(ix, threshold, run, recovered, refs[j]);
    }
    ConsistentOrdered(refs);
  }

  lemma ContentSupported(inp: Input, lane: set<RunId>, nodes: seq<RunId>, ix: Index, run: RunId, recovered: bool)
    requires Indexes(inp, lane, nodes, ix) && Bounded(ix) && run in nodes
    ensures Supported(ContentRefs(ix, inp.config.threshold, run, recovered)) <==>
      run in ix.drop || OwnEvidence(inp, run) || LiveBad(inp)
  {
    hide *;
    if run in ix.drop || OwnEvidence(inp, run) || LiveBad(inp) {
      EvidenceIsCited(inp, lane, nodes, ix, run, recovered);
    }
    if Supported(ContentRefs(ix, inp.config.threshold, run, recovered)) {
      CitedIsEvidence(inp, lane, nodes, ix, run, recovered);
    }
  }

  lemma EvidenceIsCited(inp: Input, lane: set<RunId>, nodes: seq<RunId>, ix: Index, run: RunId, recovered: bool)
    requires Indexes(inp, lane, nodes, ix) && Bounded(ix) && run in nodes
    requires run in ix.drop || OwnEvidence(inp, run) || LiveBad(inp)
    ensures Supported(ContentRefs(ix, inp.config.threshold, run, recovered))
  {
    hide ListEach, RunsIndexed, KeysIndexed, TerminalIndexed, Bounded, LiveBad, HasContentFlag, HasFailSignal,
      TerminalRefs;
    FlagsAt(inp, nodes, ix, run);
    SignalsAt(inp, nodes, ix, run);
    TerminalAt(inp, lane, nodes, ix, recovered);
    ScoreAt(inp, lane, nodes, ix, run);
    var refs := ContentRefs(ix, inp.config.threshold, run, recovered);
    if run in ix.drop {
      assert Ref(ix.drop[run], Supporting) in refs;
    } else if HasContentFlag(inp, run) {
      var i := At(ix.flags, run)[0];
      assert i in At(ix.flags, run) && Ref(i, Supporting) in Cite(At(ix.flags, run), Supporting);
      assert Ref(i, Supporting) in refs;
    } else if HasFailSignal(inp, run) {
      var i :| i in At(ix.signals, run) && i < |ix.findings| && ix.findings[i].data.fail;
      assert Ref(i, Supporting) in SignalRefs(ix.findings, At(ix.signals, run));
      assert Ref(i, Supporting) in refs;
    } else if LiveBad(inp) {
      var r :| r in TerminalRefs(ix, recovered) && r.role == Supporting;
      assert r in refs;
    } else {
      assert Ref(ix.score[run], ScoreRole(ix, inp.config.threshold, run)) in refs;
    }
  }

  lemma CitedIsEvidence(inp: Input, lane: set<RunId>, nodes: seq<RunId>, ix: Index, run: RunId, recovered: bool)
    requires Indexes(inp, lane, nodes, ix) && Bounded(ix) && run in nodes
    requires Supported(ContentRefs(ix, inp.config.threshold, run, recovered))
    ensures run in ix.drop || OwnEvidence(inp, run) || LiveBad(inp)
  {
    hide ListEach, RunsIndexed, KeysIndexed, TerminalIndexed, Bounded, LiveBad, HasContentFlag, HasFailSignal,
      TerminalRefs;
    FlagsAt(inp, nodes, ix, run);
    SignalsAt(inp, nodes, ix, run);
    TerminalAt(inp, lane, nodes, ix, recovered);
    ScoreAt(inp, lane, nodes, ix, run);
  }

  lemma ScoreAt(inp: Input, lane: set<RunId>, nodes: seq<RunId>, ix: Index, run: RunId)
    requires Indexes(inp, lane, nodes, ix) && Bounded(ix) && run in nodes
    ensures run in ix.score <==> ScoreOf(inp, run).Some?
    ensures run in ix.score ==> ix.findings[ix.score[run]] == ScoreFinding(inp, run)
    ensures run in ix.flawed <==> InputFlawed(inp, run)
    ensures run in ix.flawed ==> ix.findings[ix.flawed[run]].kind == FlawedInput
  {
    hide ListEach, RunsIndexed, KeysIndexed, TerminalIndexed, DropsIndexed, Bounded;
    if run in ix.score {
      assert Holds(ix.findings, ix.score[run], ScoreMaker(inp)(run));
    }
    if run in ix.flawed {
      assert Holds(ix.findings, ix.flawed[run], FlawedMaker(lane)(run));
    }
  }

  // ---------- Which defects pass validation ----------

  ghost predicate AllValid(fs: seq<Finding>, ds: seq<Defect>) {
    forall d :: d in ds ==> ValidDefect(fs, d)
  }

  ghost predicate AllInBounds(fs: seq<Finding>, ds: seq<Defect>) {
    forall d :: d in ds ==> InBounds(fs, d.refs)
  }

  // A content claim at `run` has something to stand on.
  ghost predicate Backed(inp: Input, ix: Index, run: RunId) {
    run in ix.drop || OwnEvidence(inp, run) || LiveBad(inp)
  }

  lemma ContentDefectValid(inp: Input, lane: set<RunId>, nodes: seq<RunId>, ix: Index, run: RunId, assumed: bool,
                           recovered: bool)
    requires Indexes(inp, lane, nodes, ix) && Bounded(ix) && run in nodes
    ensures ValidDefect(ix.findings, ContentDefect(inp, ix, run, assumed, recovered)) <==> Backed(inp, ix, run)
    ensures InBounds(ix.findings, ContentDefect(inp, ix, run, assumed, recovered).refs)
  {
    hide Indexes, Bounded, ContentRefs, PlaysRole, OwnEvidence, LiveBad, HardlySupported, Ordered, Consistent;
    var refs := ContentRefs(ix, inp.config.threshold, run, recovered);
    ContentRoles(inp, lane, nodes, ix, run, recovered);
    RolesConsistent(ix, inp.config.threshold, run, recovered, refs);
    ContentSupported(inp, lane, nodes, ix, run, recovered);
  }

  lemma ExternalValid(inp: Input, lane: set<RunId>, nodes: seq<RunId>, ix: Index, run: RunId)
    requires Indexes(inp, lane, nodes, ix) && Bounded(ix) && run in nodes && InputFlawed(inp, run)
    ensures AllValid(ix.findings, EmitExternal(inp, ix, run))
  {
    hide Indexes, ContentRefs, HardlySupported, Ordered, Consistent, Bounded, InputFlawed;
    var content := ContentRefs(ix, inp.config.threshold, run, false);
    ScoreAt(inp, lane, nodes, ix, run);
    ContentRoles(inp, lane, nodes, ix, run, false);
    FlawedInBounds(ix, run);
    var own := Ref(ix.flawed[run], Supporting);
    var refs := [own] + content;
    assert PlaysRole(ix, inp.config.threshold, run, false, own);
    RolesConsistent(ix, inp.config.threshold, run, false, refs);
    assert own in refs;
  }

  lemma FlawedInBounds(ix: Index, run: RunId)
    requires Bounded(ix) && run in ix.flawed
    ensures ix.flawed[run] < |ix.findings|
  {
  }

  // The role an index plays in a contract or form claim.
  ghost predicate PlaysBreach(ix: Index, gap: Role, form: Role, r: Ref) {
    r.index < |ix.findings| &&
    match ix.findings[r.index].kind
    case ContractBreach => r.role == Supporting
    case BreachPropagated => r.role == Supporting
    case BreachCorrected => r.role == Context
    case TerminalForm => r.role == form
    case DetectionGap => r.role == gap
    case _ => false
  }

  lemma BreachesConsistent(ix: Index, gap: Role, form: Role, refs: seq<Ref>)
    requires forall r :: r in refs ==> PlaysBreach(ix, gap, form, r)
    ensures Consistent(refs) && InBounds(ix.findings, refs)
    ensures forall r :: r in Ordered(refs) <==> r in refs
  {
    forall i, j | 0 <= i < |refs| && 0 <= j < |refs| && refs[i].index == refs[j].index ensures refs[i] == refs[j] {
      assert refs[i] in refs && refs[j] in refs;
      assert PlaysBreach(ix, gap, form, refs[i]) && PlaysBreach(ix, gap, form, refs[j]);
    }
    ConsistentOrdered(refs);
  }

  lemma FateRoles(inp: Input, lane: set<RunId>, nodes: seq<RunId>, ix: Index, at: seq<nat>)
    requires Indexes(inp, lane, nodes, ix) && Bounded(ix) && forall i :: i in at ==> i < |ix.findings|
    ensures forall r :: r in FateRefs(ix, at).0 ==> PlaysBreach(ix, Context, Context, r)
    ensures FateRefs(ix, at).1 != [] ==> CitesShipment(ix.findings, FateRefs(ix, at).0)
  {
    hide Indexes, Bounded, KeysIndexed;
    KeyedAt(inp, lane, nodes, ix);
    var fate := FateRefs(ix, at);
    hide FateRefs;
    forall r | r in fate.0 ensures PlaysBreach(ix, Context, Context, r) {
      if k :| k in ix.propagated && ix.propagated[k] == r.index {
        assert IsKind(ix.findings, ix.propagated[k], BreachPropagated);
      }
      if k :| k in ix.corrected && ix.corrected[k] == r.index {
        assert IsKind(ix.findings, ix.corrected[k], BreachCorrected);
      }
    }
    if fate.1 != [] {
      var r :| r in fate.0 && r.role == Supporting && exists k :: k in ix.propagated && ix.propagated[k] == r.index;
      var k :| k in ix.propagated && ix.propagated[k] == r.index;
      assert IsKind(ix.findings, ix.propagated[k], BreachPropagated);
    }
  }

  lemma KeyedAt(inp: Input, lane: set<RunId>, nodes: seq<RunId>, ix: Index)
    requires Indexes(inp, lane, nodes, ix)
    ensures forall k :: k in ix.propagated ==> IsKind(ix.findings, ix.propagated[k], BreachPropagated)
    ensures forall k :: k in ix.corrected ==> IsKind(ix.findings, ix.corrected[k], BreachCorrected)
  {
    hide NodesIndexed, ListEach, RunsIndexed, DropsIndexed, TerminalIndexed;
  }

  lemma FormAt(inp: Input, lane: set<RunId>, nodes: seq<RunId>, ix: Index)
    requires Indexes(inp, lane, nodes, ix)
    ensures ix.terminalForm.Some? ==>
      ix.terminalForm.value < |ix.findings| && ix.findings[ix.terminalForm.value].kind == TerminalForm
    ensures ix.detectionGap.Some? ==>
      ix.detectionGap.value < |ix.findings| && ix.findings[ix.detectionGap.value].kind == DetectionGap
    ensures FormMissed(inp) ==> ix.terminalForm.Some? && ix.detectionGap.Some?
  {
    hide NodesIndexed, ListEach, RunsIndexed, DropsIndexed, KeysIndexed;
  }

  lemma ContractDefectValid(inp: Input, lane: set<RunId>, nodes: seq<RunId>, ix: Index, run: RunId, marker: bool)
    requires Indexes(inp, lane, nodes, ix) && Bounded(ix) && run in nodes && HasContract(ix, run)
    ensures ValidDefect(ix.findings, ContractDefect(inp, ix, run, marker))
    ensures InBounds(ix.findings, ContractDefect(inp, ix, run, marker).refs)
    ensures ContractDefect(inp, ix, run, marker).channel == Hard
  {
    hide Indexes, ListEach, Bounded, Ordered, Consistent, FateRefs, ExplainsForm;
    BreachesListed(inp, lane, nodes, ix);
    BreachesAt(inp, nodes, ix, run);
    FormAt(inp, lane, nodes, ix);
    var at := At(ix.contract, run);
    FateRoles(inp, lane, nodes, ix, at);
    var (refs, where, verified) := ContractRefs(inp, ix, run);
    forall r | r in refs ensures PlaysBreach(ix, Context, Context, r) {
    }
    BreachesConsistent(ix, Context, Context, refs);
    var first := Ref(at[0], Supporting);
    assert first in Cite(at, Supporting) && first in refs;
  }

  lemma LoopValid(inp: Input, lane: set<RunId>, nodes: seq<RunId>, ix: Index, run: RunId)
    requires Indexes(inp, lane, nodes, ix) && Bounded(ix) && run in ix.loop
    ensures AllValid(ix.findings, EmitLoop(ix, run))
  {
    hide NodesIndexed, ListEach, KeysIndexed, DropsIndexed, TerminalIndexed, Ordered, Bounded;
    CitedValid(ix.findings, At(ix.loop, run));
    assert forall i :: i in ix.loop[run] ==> IsKind(ix.findings, i, LoopAnomaly);
  }

  lemma CitedValid(fs: seq<Finding>, at: seq<nat>)
    requires at != []
    ensures (forall i :: i in at ==> i < |fs|) ==> InBounds(fs, Ordered(Cite(at, Supporting)))
    ensures Supported(Ordered(Cite(at, Supporting)))
  {
    var refs := Cite(at, Supporting);
    assert Ref(at[0], Supporting) in refs;
    ConsistentOrdered(refs) by {
      forall i, j | 0 <= i < |refs| && 0 <= j < |refs| && refs[i].index == refs[j].index ensures refs[i] == refs[j] {
        assert refs[i] in refs && refs[j] in refs;
      }
    }
  }

  lemma VerificationValid(inp: Input, lane: set<RunId>, nodes: seq<RunId>, ix: Index, runs: seq<RunId>)
    requires Indexes(inp, lane, nodes, ix) && forall r :: r in runs ==> r in ix.verifier
    ensures AllValid(ix.findings, EmitVerification(ix, runs))
  {
    hide NodesIndexed, ListEach, KeysIndexed, DropsIndexed, TerminalIndexed, Ordered;
    forall d | d in EmitVerification(ix, runs) ensures ValidDefect(ix.findings, d) {
      var k :| 0 <= k < |runs| && d == VerificationDefect(ix, runs[k]);
      assert runs[k] in runs;
      CitedValid(ix.findings, At(ix.verifier, runs[k]));
      assert forall i :: i in ix.verifier[runs[k]] ==> IsKind(ix.findings, i, VerifierVerdict);
    }
  }

  lemma TerminalSupport(inp: Input, lane: set<RunId>, nodes: seq<RunId>, ix: Index)
    requires Indexes(inp, lane, nodes, ix) && Bounded(ix)
    ensures InBounds(ix.findings, Ordered(TerminalRefs(ix, false)))
    ensures Supported(Ordered(TerminalRefs(ix, false))) <==> LiveBad(inp)
  {
    hide Indexes, Bounded, LiveBad;
    TerminalAt(inp, lane, nodes, ix, false);
    var refs := TerminalRefs(ix, false);
    assert Consistent(refs) by {
      hide Supported;
    }
    ConsistentOrdered(refs);
  }

  // An unlocalized content defect stands on the terminal verdict alone.
  lemma CompositionValid(inp: Input, lane: set<RunId>, nodes: seq<RunId>, ix: Index)
    requires Indexes(inp, lane, nodes, ix) && Bounded(ix)
    ensures AllValid(ix.findings, EmitComposition(ix)) <==> LiveBad(inp)
    ensures AllInBounds(ix.findings, EmitComposition(ix))
  {
    hide Indexes, Bounded, LiveBad, Ordered, TerminalRefs;
    TerminalSupport(inp, lane, nodes, ix);
    var d := EmitComposition(ix)[0];
    assert d in EmitComposition(ix);
  }

  lemma UnlocalizedValid(inp: Input, lane: set<RunId>, nodes: seq<RunId>, ix: Index, run: RunId)
    requires Indexes(inp, lane, nodes, ix) && Bounded(ix) && run in nodes
    ensures AllValid(ix.findings, EmitTerminalUnlocalized(inp, ix, run)) <==> LiveBad(inp)
    ensures AllInBounds(ix.findings, EmitTerminalUnlocalized(inp, ix, run))
  {
    hide Indexes, Bounded, LiveBad, Ordered, TerminalRefs, ContractDefect, HasContract;
    TerminalSupport(inp, lane, nodes, ix);
    if HasContract(ix, run) {
      ContractDefectValid(inp, lane, nodes, ix, run, true);
    }
    var ds := EmitTerminalUnlocalized(inp, ix, run);
    assert ds[|ds| - 1] in ds;
  }

  lemma OriginValid(inp: Input, lane: set<RunId>, nodes: seq<RunId>, ix: Index, run: RunId, via: Via, assumed: bool,
                    terminalBad: bool)
    requires Indexes(inp, lane, nodes, ix) && Bounded(ix) && run in nodes
    ensures AllValid(ix.findings, EmitOrigin(inp, ix, run, via, assumed, terminalBad)) <==>
      (EmitsContent(ix, run, via, terminalBad) ==> Backed(inp, ix, run))
    ensures AllValid(ix.findings, EmitCutPoint(inp, ix, run, via, assumed, terminalBad)) <==>
      (EmitsContent(ix, run, via, terminalBad) ==> Backed(inp, ix, run))
    ensures AllInBounds(ix.findings, EmitOrigin(inp, ix, run, via, assumed, terminalBad))
    ensures AllInBounds(ix.findings, EmitCutPoint(inp, ix, run, via, assumed, terminalBad))
  {
    hide Indexes, Bounded, ContentDefect, ContractDefect, ValidDefect, Backed, HasContract, EmitsContent;
    ContentDefectValid(inp, lane, nodes, ix, run, assumed, false);
    if HasContract(ix, run) {
      ContractDefectValid(inp, lane, nodes, ix, run, !terminalBad);
      ContractDefectValid(inp, lane, nodes, ix, run, !EmitsContent(ix, run, via, terminalBad));
    }
    var content := ContentDefect(inp, ix, run, assumed, false);
    if EmitsContent(ix, run, via, terminalBad) {
      var ds := EmitOrigin(inp, ix, run, via, assumed, terminalBad);
      assert ds[|ds| - 1] == content && ds[|ds| - 1] in ds;
      var es := EmitCutPoint(inp, ix, run, via, assumed, terminalBad);
      assert es[|es| - 1] == content && es[|es| - 1] in es;
    }
  }

  lemma {:induction false} MultiValid(inp: Input, lane: set<RunId>, nodes: seq<RunId>, ix: Index, runs: seq<RunId>,
                                      vias: map<RunId, Via>, assumed: map<RunId, bool>, terminalBad: bool)
    requires Indexes(inp, lane, nodes, ix) && Bounded(ix) && forall r :: r in runs ==> r in nodes
    ensures AllValid(ix.findings, MultiDefects(inp, ix, runs, vias, assumed, terminalBad)) <==>
      forall r :: r in runs && EmitsContent(ix, r, ViaOf(vias, r), terminalBad) ==> Backed(inp, ix, r)
    ensures AllInBounds(ix.findings, MultiDefects(inp, ix, runs, vias, assumed, terminalBad))
  {
    hide Indexes, Bounded, ValidDefect, Backed, EmitsContent, EmitOrigin, ViaOf, AssumedAt;
    if runs != [] {
      var n := |runs| - 1;
      assert runs == runs[..n] + [runs[n]];
      MultiValid(inp, lane, nodes, ix, runs[..n], vias, assumed, terminalBad);
      OriginValid(inp, lane, nodes, ix, runs[n], ViaOf(vias, runs[n]), AssumedAt(assumed, runs[n]), terminalBad);
    }
  }

  lemma RecoveredValid(inp: Input, lane: set<RunId>, nodes: seq<RunId>, ix: Index, run: RunId, assumed: bool)
    requires Indexes(inp, lane, nodes, ix) && Bounded(ix) && run in nodes
    ensures AllValid(ix.findings, EmitRecovered(inp, ix, run, assumed)) <==>
      HasContract(ix, run) || Backed(inp, ix, run)
    ensures AllInBounds(ix.findings, EmitRecovered(inp, ix, run, assumed))
  {
    hide Indexes, Bounded, ContentDefect, ContractDefect, ValidDefect, Backed, HasContract;
    ContentDefectValid(inp, lane, nodes, ix, run, assumed, true);
    if HasContract(ix, run) {
      ContractDefectValid(inp, lane, nodes, ix, run, true);
    }
    var ds := EmitRecovered(inp, ix, run, assumed);
    assert ds[0] in ds;
  }

  lemma FormValid(inp: Input, lane: set<RunId>, nodes: seq<RunId>, ix: Index, a: Anchor)
    requires Indexes(inp, lane, nodes, ix) && Bounded(ix) && FormMissed(inp)
    requires (a.Anchored? ==> a.breach < |ix.findings|) && ix.terminalForm.Some? && FoundAnchor(inp, ix, a)
    ensures ValidDefect(ix.findings, FormDefect(inp, ix, a))
  {
    hide NodesIndexed, ListEach, RunsIndexed, DropsIndexed, TerminalIndexed, KeysIndexed, Bounded, Ordered, Consistent,
      ExplainsForm, FormMissed;
    FormAt(inp, lane, nodes, ix);
    var gap := if a.NoAnchor? then Supporting else Context;
    var own := Ref(ix.terminalForm.value, Supporting);
    var refs := FormRefs(inp, ix, a);
    forall r | r in refs ensures PlaysBreach(ix, gap, Supporting, r) {
      AnchorRoles(inp, lane, nodes, ix, a, r);
    }
    BreachesConsistent(ix, gap, Supporting, refs);
    assert own in refs;
  }

  lemma AnchorRoles(inp: Input, lane: set<RunId>, nodes: seq<RunId>, ix: Index, a: Anchor, r: Ref)
    requires Indexes(inp, lane, nodes, ix) && Bounded(ix) && (a.Anchored? ==> a.breach < |ix.findings|)
    requires ix.terminalForm.Some? && FoundAnchor(inp, ix, a) && r in FormRefs(inp, ix, a)
    ensures PlaysBreach(ix, if a.NoAnchor? then Supporting else Context, Supporting, r)
  {
    hide Indexes, ListEach, Bounded, ExplainsForm, Elements;
    FormAt(inp, lane, nodes, ix);
    KeyedAt(inp, lane, nodes, ix);
    BreachesListed(inp, lane, nodes, ix);
    if a.Anchored? {
      var p: nat, k: nat :| IsAnchor(inp, ix, p, k) && a.run == ix.contractOrder[p] &&
        a.breach == At(ix.contract, a.run)[k];
      OrderedRun(inp, lane, nodes, ix, p);
      ListedRun(inp, nodes, ix, a.run);
      BreachesAt(inp, nodes, ix, a.run);
      assert a.breach in At(ix.contract, a.run);
    }
  }

  lemma OrderedRun(inp: Input, lane: set<RunId>, nodes: seq<RunId>, ix: Index, p: nat)
    requires Indexes(inp, lane, nodes, ix) && p < |ix.contractOrder|
    ensures ix.contractOrder[p] in ix.contract
  {
    hide NodesIndexed, ListEach, RunsIndexed, DropsIndexed, TerminalIndexed, KeysIndexed;
    assert ix.contractOrder[p] in Elements(ix.contractOrder);
  }

  lemma ListedRun(inp: Input, nodes: seq<RunId>, ix: Index, run: RunId)
    requires ListEach(ix.findings, ix.contract, Elements(nodes), BreachMaker(inp)) && run in ix.contract
    ensures run in nodes
  {
    hide Lists;
  }
}
