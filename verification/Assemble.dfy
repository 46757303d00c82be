// The index as the engine fills it, in place.

module Assemble {
  import opened Prelude
  import opened BlameInput
  import opened CutPoint
  import opened Evidence
  import opened FindingIndex

  // A candidate whose fall is a localization fact.
  predicate Falls(x: Candidate) {
    x.via != Deterministic || x.cumulativePath != []
  }

  function FallenRuns(candidates: seq<Candidate>, loopRuns: set<RunId>): set<RunId> {
    set x | x in candidates && Falls(x) && x.run !in loopRuns :: x.run
  }

  function CandidateDrop(x: Candidate): Finding {
    DropFinding(x.run, x.score, x.base, x.drop)
  }

  // Each recorded fall is the one of some candidate at that run.
  ghost predicate DropFacts(candidates: seq<Candidate>, fs: seq<Finding>, drop: map<RunId, nat>) {
    forall r :: r in drop ==>
      exists x :: x in candidates && Falls(x) && x.run == r && Holds(fs, drop[r], CandidateDrop(x))
  }

  // One fact for each fallen run outside the cycles: the first candidate's.
  function DropItems(candidates: seq<Candidate>, loopRuns: set<RunId>): seq<Finding> {
    if candidates == [] then [] else
      var n := |candidates| - 1;
      var x := candidates[n];
      DropItems(candidates[..n], loopRuns) +
      if Falls(x) && x.run !in loopRuns && x.run !in FallenRuns(candidates[..n], loopRuns)
      then [CandidateDrop(x)]
      else []
  }

  function AnomalyItems(anomalies: seq<Anomaly>): seq<Finding>
    requires forall a :: a in anomalies ==> a.members != []
  {
    seq(|anomalies|, i requires 0 <= i < |anomalies| => assert anomalies[i] in anomalies; AnomalyFinding(anomalies[i]))
  }

  // Every anomaly cited at `r` is one whose cycle holds `r`.
  ghost predicate CitesOwn(anomalies: seq<Anomaly>, fs: seq<Finding>, m: map<RunId, seq<nat>>) {
    forall r, i :: r in m && i in m[r] ==> CitesAnomaly(anomalies, fs, r, i)
  }

  ghost predicate CitesAnomaly(anomalies: seq<Anomaly>, fs: seq<Finding>, r: RunId, i: nat) {
    exists a :: a in anomalies && a.members != [] && r in a.members && Holds(fs, i, AnomalyFinding(a))
  }

  lemma CitesGrow(anomalies: seq<Anomaly>, more: seq<Anomaly>, fs: seq<Finding>, gs: seq<Finding>, m: map<RunId,
                  seq<nat>>)
    requires CitesOwn(anomalies, fs, m) && fs <= gs && forall a :: a in anomalies ==> a in more
    ensures CitesOwn(more, gs, m)
  {
    forall r, i | r in m && i in m[r] ensures CitesAnomaly(more, gs, r, i) {
      assert CitesAnomaly(anomalies, fs, r, i);
      var a :| a in anomalies && a.members != [] && r in a.members && Holds(fs, i, AnomalyFinding(a));
      assert a in more && Holds(gs, i, AnomalyFinding(a));
    }
  }

  // Everything the engine records before the caller's own facts, in order.
  function BuiltItems(inp: Input, nodes: seq<RunId>, lane: set<RunId>, candidates: seq<Candidate>, loopRuns: set<RunId>,
                      anomalies: seq<Anomaly>): seq<Finding>
    requires forall a :: a in anomalies ==> a.members != []
  {
    Concat(nodes, NodeMaker(inp, lane)) + DropItems(candidates, loopRuns) + Concat(nodes, BreachMaker(inp)) +
    Concat(nodes, SignalMaker(inp)) + TerminalItems(inp) + AnomalyItems(anomalies)
  }

  lemma DropFactsKept(candidates: seq<Candidate>, fs: seq<Finding>, gs: seq<Finding>, drop: map<RunId, nat>)
    requires DropFacts(candidates, fs, drop) && fs <= gs
    ensures DropFacts(candidates, gs, drop)
  {
    hide Falls, CandidateDrop;
    forall r | r in drop
      ensures exists x :: x in candidates && Falls(x) && x.run == r && Holds(gs, drop[r], CandidateDrop(x))
    {
      var x :| x in candidates && Falls(x) && x.run == r && Holds(fs, drop[r], CandidateDrop(x));
      assert Holds(gs, drop[r], CandidateDrop(x));
    }
  }

  lemma DropFactsGrow(candidates: seq<Candidate>, fs: seq<Finding>, gs: seq<Finding>, drop: map<RunId, nat>)
    requires DropFacts(candidates, fs, drop) && fs <= gs
    ensures DropFacts(candidates, gs, drop) && DropsIndexed(gs, drop)
  {
    forall r | r in drop
      ensures exists x :: x in candidates && Falls(x) && x.run == r && Holds(gs, drop[r], CandidateDrop(x))
    {
      var x :| x in candidates && Falls(x) && x.run == r && Holds(fs, drop[r], CandidateDrop(x));
      assert Holds(gs, drop[r], CandidateDrop(x));
    }
  }

  function MemberRuns(anomalies: seq<Anomaly>): set<RunId> {
    set a, m | a in anomalies && m in a.members :: m
  }

  // A look-up after one more fact at position `at`: the first of a key stays.
  function FirstCited(m: map<string, nat>, f: Finding, kind: FindingKind, at: nat): map<string, nat> {
    if f.kind == kind && f.data.key.Some? && f.data.key.value !in m then m[f.data.key.value := at] else m
  }

  function AllCited(m: map<string, nat>, extra: seq<Finding>, kind: FindingKind, at: nat): map<string, nat> {
    if extra == [] then m else
      var n := |extra| - 1;
      FirstCited(AllCited(m, extra[..n], kind, at), extra[n], kind, at + n)
  }

  lemma FactKeeps(fs: seq<Finding>, m: map<string, nat>, f: Finding, kind: FindingKind)
    requires KeysIndexed(fs, m, kind)
    ensures KeysIndexed(fs + [f], m, kind) && KeysIndexed(fs + [f], FirstCited(m, f, kind, |fs|), kind)
  {
    var gs := fs + [f];
    assert fs <= gs && gs[|fs|] == f;
  }

  // Every key verified among the facts is cited, at its first verification.
  lemma {:induction false} AllCitedContents(m: map<string, nat>, extra: seq<Finding>, kind: FindingKind, at: nat)
    ensures forall k :: k in AllCited(m, extra, kind, at) <==>
      k in m || exists f :: f in extra && f.kind == kind && f.data.key == Some(k)
    ensures forall k :: k in m ==> AllCited(m, extra, kind, at)[k] == m[k]
  {
    if extra != [] {
      var n := |extra| - 1;
      AllCitedContents(m, extra[..n], kind, at);
      assert extra == extra[..n] + [extra[n]];
    }
  }

  class Store {
    var findings: seq<Finding>
    var contract: map<RunId, seq<nat>>
    var contractOrder: seq<RunId>
    var score: map<RunId, nat>
    var flags: map<RunId, seq<nat>>
    var signals: map<RunId, seq<nat>>
    var drop: map<RunId, nat>
    var flawed: map<RunId, nat>
    var loop: map<RunId, seq<nat>>
    var verifier: map<RunId, seq<nat>>
    var terminalContent: Option<nat>
    var terminalForm: Option<nat>
    var detectionGap: Option<nat>
    var propagated: map<string, nat>
    var corrected: map<string, nat>

    function View(): Index
      reads this
    {
      Index(findings, contract, contractOrder, score, flags, signals, drop, flawed, loop, verifier,
            terminalContent, terminalForm, detectionGap, propagated, corrected)
    }

    constructor ()
      ensures View() ==
        Index([], map[], [], map[], map[], map[], map[], map[], map[], map[], None, None, None, map[], map[])
    {
      findings, contract, contractOrder, score, flags, signals := [], map[], [], map[], map[], map[];
      drop, flawed, loop, verifier := map[], map[], map[], map[];
      terminalContent, terminalForm, detectionGap := None, None, None;
      propagated, corrected := map[], map[];
    }

    method Add(f: Finding) returns (i: nat)
      modifies this`findings
      ensures findings == old(findings) + [f] && i == |old(findings)|
    {
      findings := findings + [f];
      i := |findings| - 1;
    }

    method AddAll(items: seq<Finding>) returns (at: seq<nat>)
      modifies this`findings
      ensures findings == old(findings) + items && Lists(findings, at, items)
    {
      at := [];
      for k := 0 to |items|
        invariant findings == old(findings) + items[..k]
        invariant |at| == k && forall j :: 0 <= j < k ==> at[j] == |old(findings)| + j
      {
        var i := Add(items[k]);
        at := at + [i];
      }
    }

    // Scores, content flags and flawed-input claims, node by node.
    method AddNodes(inp: Input, lane: set<RunId>, nodes: seq<RunId>)
      requires Distinct(nodes) && score == map[] && flags == map[] && flawed == map[]
      modifies this`findings, this`score, this`flags, this`flawed
      ensures findings == old(findings) + Concat(nodes, NodeMaker(inp, lane))
      ensures NodesIndexed(inp, lane, nodes, findings, score, flags, flawed)
    {
      hide NodeMaker, NodesIndexed;
      NoNodes(inp, lane, findings);
      for k := 0 to |nodes|
        invariant findings == old(findings) + Concat(nodes[..k], NodeMaker(inp, lane))
        invariant NodesIndexed(inp, lane, nodes[..k], findings, score, flags, flawed)
      {
        ConcatNext(nodes, k, NodeMaker(inp, lane));
        AddNode(inp, lane, nodes, k);
      }
      assert nodes[..|nodes|] == nodes;
    }

    method AddScore(inp: Input, n: RunId)
      modifies this`findings, this`score
      ensures findings == old(findings) + if ScoreOf(inp, n).Some? then [ScoreFinding(inp, n)] else []
      ensures score == if ScoreOf(inp, n).Some? then old(score)[n := |old(findings)|] else old(score)
    {
      hide *;
      if ScoreOf(inp, n).Some? {
        var i := Add(ScoreFinding(inp, n));
        score := score[n := i];
      }
    }

    method AddClaim(inp: Input, lane: set<RunId>, n: RunId)
      modifies this`findings, this`flawed
      ensures findings == old(findings) + if InputFlawed(inp, n) then [FlawedFinding(lane, n)] else []
      ensures flawed == if InputFlawed(inp, n) then old(flawed)[n := |old(findings)|] else old(flawed)
    {
      hide *;
      if InputFlawed(inp, n) {
        var i := Add(FlawedFinding(lane, n));
        flawed := flawed[n := i];
      }
    }

    method AddNode(inp: Input, lane: set<RunId>, nodes: seq<RunId>, k: nat)
      requires Distinct(nodes) && k < |nodes| && NodesIndexed(inp, lane, nodes[..k], findings, score, flags, flawed)
      modifies this`findings, this`score, this`flags, this`flawed
      ensures findings == old(findings) + NodeMaker(inp, lane)(nodes[k])
      ensures NodesIndexed(inp, lane, nodes[..k + 1], findings, score, flags, flawed)
    {
      hide *;
      var n := nodes[k];
      NodeMade(inp, lane, n);
      NodesNext(inp, nodes, k);
      NotAmong(nodes, k);
      AddScore(inp, n);
      var at := AddAll(FlagFindings(n, Flags(inp, n)));
      ghost var flagged := findings;
      if at != [] {
        flags := flags[n := at];
      }
      AddClaim(inp, lane, n);
      AppendHolds(old(findings), ScoreFinding(inp, n), findings);
      AppendHolds(flagged, FlawedFinding(lane, n), findings);
      assert nodes[..k + 1] == nodes[..k] + [n];
      NodeAdded(inp, lane, nodes[..k], n, old(findings), flagged, findings, old(score), score, old(flags), flags,
        old(flawed), flawed, at);
    }

    // One fact per run: the fall that localized it, unless it lies inside a cycle.
    method AddDrops(candidates: seq<Candidate>, loopRuns: set<RunId>)
      requires drop == map[]
      modifies this`findings, this`drop
      ensures findings == old(findings) + DropItems(candidates, loopRuns)
      ensures drop.Keys == FallenRuns(candidates, loopRuns)
      ensures DropFacts(candidates, findings, drop)
    {
      hide *;
      NothingFallen(candidates, loopRuns, findings);
      for k := 0 to |candidates|
        invariant findings == old(findings) + DropItems(candidates[..k], loopRuns)
        invariant drop.Keys == FallenRuns(candidates[..k], loopRuns)
        invariant DropFacts(candidates, findings, drop)
      {
        var x := candidates[k];
        FallenNext(candidates, k, loopRuns);
        if Falls(x) && x.run !in drop && x.run !in loopRuns {
          FallRecorded(candidates, findings, drop, x);
          var i := Add(CandidateDrop(x));
          drop := drop[x.run := i];
        }
      }
      assert candidates[..|candidates|] == candidates;
    }

    method AddBreaches(inp: Input, nodes: seq<RunId>)
      requires Distinct(nodes) && contract == map[] && contractOrder == []
      modifies this`findings, this`contract, this`contractOrder
      ensures findings == old(findings) + Concat(nodes, BreachMaker(inp))
      ensures ListEach(findings, contract, Elements(nodes), BreachMaker(inp))
      ensures Elements(contractOrder) == contract.Keys
    {
      hide *;
      NothingListed(findings, BreachMaker(inp));
      NoneYet(nodes, BreachMaker(inp));
      for k := 0 to |nodes|
        invariant findings == old(findings) + Concat(nodes[..k], BreachMaker(inp))
        invariant ListEach(findings, contract, Elements(nodes[..k]), BreachMaker(inp))
        invariant Elements(contractOrder) == contract.Keys
      {
        NodesNext(inp, nodes, k);
        NotAmong(nodes, k);
        ConcatNext(nodes, k, BreachMaker(inp));
        ghost var fs := findings;
        var at := AddAll(BreachMaker(inp)(nodes[k]));
        ListEachGrows(fs, findings, contract, Elements(nodes[..k]), BreachMaker(inp));
        ListEachInsert(findings, contract, Elements(nodes[..k]), BreachMaker(inp), nodes[k], at);
        if at != [] {
          OrderNext(contractOrder, contract, nodes[k], at);
          contract := contract[nodes[k] := at];
          contractOrder := contractOrder + [nodes[k]];
        }
      }
      assert nodes[..|nodes|] == nodes;
    }

    method AddSignals(inp: Input, nodes: seq<RunId>)
      requires Distinct(nodes) && signals == map[]
      modifies this`findings, this`signals
      ensures findings == old(findings) + Concat(nodes, SignalMaker(inp))
      ensures ListEach(findings, signals, Elements(nodes), SignalMaker(inp))
    {
      hide *;
      NothingListed(findings, SignalMaker(inp));
      NoneYet(nodes, SignalMaker(inp));
      for k := 0 to |nodes|
        invariant findings == old(findings) + Concat(nodes[..k], SignalMaker(inp))
        invariant ListEach(findings, signals, Elements(nodes[..k]), SignalMaker(inp))
      {
        NodesNext(inp, nodes, k);
        NotAmong(nodes, k);
        ConcatNext(nodes, k, SignalMaker(inp));
        ghost var fs := findings;
        var at := AddAll(SignalMaker(inp)(nodes[k]));
        ListEachGrows(fs, findings, signals, Elements(nodes[..k]), SignalMaker(inp));
        ListEachInsert(findings, signals, Elements(nodes[..k]), SignalMaker(inp), nodes[k], at);
        if at != [] {
          signals := signals[nodes[k] := at];
        }
      }
      assert nodes[..|nodes|] == nodes;
    }

    method AddTerminal(inp: Input)
      requires terminalContent == terminalForm == detectionGap == None
      modifies this`findings, this`terminalContent, this`terminalForm, this`detectionGap
      ensures findings == old(findings) + TerminalItems(inp)
      ensures TerminalIndexed(inp, findings, terminalContent, terminalForm, detectionGap)
    {
      match inp.terminal {
        case None =>
        case Some(tv) =>
          var i := Add(TerminalFinding(tv));
          terminalContent := Some(i);
          if tv.formBad || tv.formRequirement.Some? {
            i := Add(FormFinding(inp, tv));
            terminalForm := Some(i);
          }
          if tv.checkable && tv.formBad {
            i := Add(GapFinding());
            detectionGap := Some(i);
          }
      }
    }

    // Every member of an anomalous cycle cites its anomaly.
    method AddAnomalies(anomalies: seq<Anomaly>)
      requires loop == map[] && forall a :: a in anomalies ==> a.members != []
      modifies this`findings, this`loop
      ensures findings == old(findings) + AnomalyItems(anomalies)
      ensures loop.Keys == MemberRuns(anomalies) && RunsIndexed(findings, loop, LoopAnomaly)
      ensures CitesOwn(anomalies, findings, loop)
    {
      for k := 0 to |anomalies|
        invariant findings == old(findings) + AnomalyItems(anomalies)[..k]
        invariant loop.Keys == MemberRuns(anomalies[..k]) && RunsIndexed(findings, loop, LoopAnomaly)
        invariant CitesOwn(anomalies, findings, loop)
      {
        hide CitesOwn, CitesAnomaly, RunsIndexed, Elements;
        var a := anomalies[k];
        assert a in anomalies;
        ghost var fs := findings;
        var i := Add(AnomalyFinding(a));
        assert fs <= findings && Holds(findings, i, AnomalyFinding(a));
        CitesGrow(anomalies, anomalies, fs, findings, loop);
        KindsGrow(fs, findings, loop);
        Cite(anomalies, a, i);
        assert anomalies[..k + 1] == anomalies[..k] + [a];
        assert MemberRuns(anomalies[..k + 1]) == MemberRuns(anomalies[..k]) + Elements(a.members);
      }
      assert anomalies[..|anomalies|] == anomalies;
    }

    method Cite(ghost anomalies: seq<Anomaly>, a: Anomaly, i: nat)
      requires a in anomalies && a.members != [] && Holds(findings, i, AnomalyFinding(a))
      requires RunsIndexed(findings, loop, LoopAnomaly) && CitesOwn(anomalies, findings, loop)
      modifies this`loop
      ensures loop.Keys == old(loop).Keys + Elements(a.members)
      ensures RunsIndexed(findings, loop, LoopAnomaly) && CitesOwn(anomalies, findings, loop)
    {
      var members := a.members;
      for k := 0 to |members|
        invariant loop.Keys == old(loop).Keys + Elements(members[..k])
        invariant RunsIndexed(findings, loop, LoopAnomaly) && CitesOwn(anomalies, findings, loop)
      {
        assert members[..k + 1] == members[..k] + [members[k]];
        CiteNext(anomalies, findings, loop, a, members[k], i);
        loop := loop[members[k] := At(loop, members[k]) + [i]];
      }
      assert members[..|members|] == members;
    }

    // The drilled member's own fall, once, and only when one was measured.
    method EnsureDrop(run: RunId, score: Option<real>, base: Option<real>, fall: Option<real>)
      modifies this`findings, this`drop
      ensures View() == EnsuredDrop(old(View()), run, score, base, fall)
    {
      if run in drop || fall.None? {
        return;
      }
      drop := drop[run := |findings|];
      findings := findings + [DropFinding(run, score, base, fall)];
    }

    // A fact supplied by the caller; the first verification of a key is the one cited.
    method AddFact(f: Finding)
      requires KeysIndexed(findings, propagated, BreachPropagated) && KeysIndexed(findings, corrected, BreachCorrected)
      modifies this`findings, this`propagated, this`corrected
      ensures findings == old(findings) + [f]
      ensures KeysIndexed(findings, propagated, BreachPropagated) && KeysIndexed(findings, corrected, BreachCorrected)
      ensures propagated == FirstCited(old(propagated), f, BreachPropagated, |old(findings)|)
      ensures corrected == FirstCited(old(corrected), f, BreachCorrected, |old(findings)|)
    {
      FactKeeps(findings, propagated, f, BreachPropagated);
      FactKeeps(findings, corrected, f, BreachCorrected);
      hide KeysIndexed;
      var at := Add(f);
      var key := f.data.key;
      if f.kind == BreachPropagated && key.Some? {
        if key.value !in propagated {
          propagated := propagated[key.value := at];
        }
      } else if f.kind == BreachCorrected && key.Some? {
        if key.value !in corrected {
          corrected := corrected[key.value := at];
        }
      }
    }

    method AddExtra(extra: seq<Finding>)
      requires KeysIndexed(findings, propagated, BreachPropagated) && KeysIndexed(findings, corrected, BreachCorrected)
      modifies this`findings, this`propagated, this`corrected
      ensures findings == old(findings) + extra
      ensures KeysIndexed(findings, propagated, BreachPropagated) && KeysIndexed(findings, corrected, BreachCorrected)
      ensures propagated == AllCited(old(propagated), extra, BreachPropagated, |old(findings)|)
      ensures corrected == AllCited(old(corrected), extra, BreachCorrected, |old(findings)|)
    {
      hide *;
      NothingCited(extra, |findings|, propagated, corrected);
      for i := 0 to |extra|
        invariant findings == old(findings) + extra[..i]
        invariant KeysIndexed(findings, propagated, BreachPropagated)
        invariant KeysIndexed(findings, corrected, BreachCorrected)
        invariant propagated == AllCited(old(propagated), extra[..i], BreachPropagated, |old(findings)|)
        invariant corrected == AllCited(old(corrected), extra[..i], BreachCorrected, |old(findings)|)
      {
        CitedNext(old(propagated), extra, i, BreachPropagated, |old(findings)|);
        CitedNext(old(corrected), extra, i, BreachCorrected, |old(findings)|);
        AddFact(extra[i]);
      }
      assert extra[..|extra|] == extra;
    }

    method AddVerdicts(gaps: seq<Gap>)
      requires RunsIndexed(findings, verifier, VerifierVerdict) && OwnVerdicts(findings, verifier)
      modifies this`findings, this`verifier
      ensures findings == old(findings) + MapSeq(gaps, (g: Gap) => VerdictFinding(g))
      ensures verifier.Keys == old(verifier).Keys + GapRuns(gaps)
      ensures RunsIndexed(findings, verifier, VerifierVerdict) && OwnVerdicts(findings, verifier)
    {
      assert GapRuns(gaps[..0]) == {} && MapSeq(gaps[..0], (g: Gap) => VerdictFinding(g)) == [];
      hide *;
      for k := 0 to |gaps|
        invariant findings == old(findings) + MapSeq(gaps[..k], (g: Gap) => VerdictFinding(g))
        invariant verifier.Keys == old(verifier).Keys + GapRuns(gaps[..k])
        invariant RunsIndexed(findings, verifier, VerifierVerdict) && OwnVerdicts(findings, verifier)
      {
        VerdictNext(findings, verifier, gaps[k]);
        GapsNext(gaps, k);
        var i := Add(VerdictFinding(gaps[k]));
        verifier := verifier[gaps[k].run := At(verifier, gaps[k].run) + [i]];
      }
      assert gaps[..|gaps|] == gaps;
    }
  }

  lemma NothingCited(extra: seq<Finding>, at: nat, propagated: map<string, nat>, corrected: map<string, nat>)
    ensures AllCited(propagated, extra[..0], BreachPropagated, at) == propagated
    ensures AllCited(corrected, extra[..0], BreachCorrected, at) == corrected
  {
  }

  lemma CitedNext(m: map<string, nat>, extra: seq<Finding>, k: nat, kind: FindingKind, at: nat)
    requires k < |extra|
    ensures AllCited(m, extra[..k + 1], kind, at) ==
      FirstCited(AllCited(m, extra[..k], kind, at), extra[k], kind, at + k)
  {
    hide FirstCited;
    assert extra[..k + 1][..k] == extra[..k];
  }

  lemma NothingFallen(candidates: seq<Candidate>, loopRuns: set<RunId>, fs: seq<Finding>)
    ensures DropItems(candidates[..0], loopRuns) == [] && FallenRuns(candidates[..0], loopRuns) == {}
    ensures DropFacts(candidates, fs, map[])
  {
  }

  lemma FallenNext(candidates: seq<Candidate>, k: nat, loopRuns: set<RunId>)
    requires k < |candidates|
    ensures var x, before := candidates[k], FallenRuns(candidates[..k], loopRuns);
      DropItems(candidates[..k + 1], loopRuns) == DropItems(candidates[..k], loopRuns) +
        (if Falls(x) && x.run !in loopRuns && x.run !in before then [CandidateDrop(x)] else []) &&
      FallenRuns(candidates[..k + 1], loopRuns) == before + if Falls(x) && x.run !in loopRuns then {x.run} else {}
  {
    hide Falls, CandidateDrop;
    assert candidates[..k + 1] == candidates[..k] + [candidates[k]] && candidates[..k + 1][..k] == candidates[..k];
  }

  lemma FallRecorded(candidates: seq<Candidate>, fs: seq<Finding>, drop: map<RunId, nat>, x: Candidate)
    requires x in candidates && Falls(x) && DropFacts(candidates, fs, drop)
    ensures DropFacts(candidates, fs + [CandidateDrop(x)], drop[x.run := |fs|])
  {
    hide Falls, CandidateDrop;
    DropFactsKept(candidates, fs, fs + [CandidateDrop(x)], drop);
    assert Holds(fs + [CandidateDrop(x)], |fs|, CandidateDrop(x));
  }

  // A verdict cited at a verifier is about that verifier.
  ghost predicate OwnVerdicts(fs: seq<Finding>, m: map<RunId, seq<nat>>) {
    forall r, i :: r in m && i in m[r] && i < |fs| ==> fs[i].subject == OfRun(r)
  }

  function EnsuredDrop(ix: Index, run: RunId, score: Option<real>, base: Option<real>, fall: Option<real>): Index {
    if run in ix.drop || fall.None? then ix
    else ix.(drop := ix.drop[run := |ix.findings|], findings := ix.findings + [DropFinding(run, score, base, fall)])
  }

  lemma CiteNext(anomalies: seq<Anomaly>, fs: seq<Finding>, m: map<RunId, seq<nat>>, a: Anomaly, r: RunId, i: nat)
    requires a in anomalies && r in a.members && Holds(fs, i, AnomalyFinding(a)) && RunsIndexed(fs, m, LoopAnomaly)
    requires CitesOwn(anomalies, fs, m)
    ensures RunsIndexed(fs, m[r := At(m, r) + [i]], LoopAnomaly) && CitesOwn(anomalies, fs, m[r := At(m, r) + [i]])
  {
    assert CitesAnomaly(anomalies, fs, r, i);
    hide CitesAnomaly;
  }

  lemma KindsGrow(fs: seq<Finding>, gs: seq<Finding>, m: map<RunId, seq<nat>>)
    requires RunsIndexed(fs, m, LoopAnomaly) && fs <= gs
    ensures RunsIndexed(gs, m, LoopAnomaly)
  {
  }

  lemma NodeMade(inp: Input, lane: set<RunId>, n: RunId)
    ensures NodeMaker(inp, lane)(n) ==
      (if ScoreOf(inp, n).Some? then [ScoreFinding(inp, n)] else []) + FlagFindings(n, Flags(inp, n)) +
      (if InputFlawed(inp, n) then [FlawedFinding(lane, n)] else [])
  {
  }

  lemma VerdictNext(fs: seq<Finding>, m: map<RunId, seq<nat>>, g: Gap)
    requires RunsIndexed(fs, m, VerifierVerdict) && OwnVerdicts(fs, m)
    ensures var gs, n := fs + [VerdictFinding(g)], m[g.run := At(m, g.run) + [|fs|]];
      RunsIndexed(gs, n, VerifierVerdict) && OwnVerdicts(gs, n) && n.Keys == m.Keys + {g.run}
  {
    var gs := fs + [VerdictFinding(g)];
    assert gs[|fs|] == VerdictFinding(g) && fs <= gs;
    forall r, i | r in m && i in m[r] ensures IsKind(gs, i, VerifierVerdict) && gs[i].subject == OfRun(r) {
      assert IsKind(fs, i, VerifierVerdict);
    }
  }

  lemma GapsNext(gaps: seq<Gap>, k: nat)
    requires k < |gaps|
    ensures MapSeq(gaps[..k + 1], (g: Gap) => VerdictFinding(g)) ==
      MapSeq(gaps[..k], (g: Gap) => VerdictFinding(g)) + [VerdictFinding(gaps[k])]
    ensures GapRuns(gaps[..k + 1]) == GapRuns(gaps[..k]) + {gaps[k].run}
  {
    assert gaps[..k + 1] == gaps[..k] + [gaps[k]];
  }

  function GapRuns(gaps: seq<Gap>): set<RunId> {
    set g | g in gaps :: g.run
  }

  lemma BuiltAre(inp: Input, nodes: seq<RunId>, lane: set<RunId>, candidates: seq<Candidate>, loopRuns: set<RunId>,
                 anomalies: seq<Anomaly>)
    requires forall a :: a in anomalies ==> a.members != []
    ensures BuiltItems(inp, nodes, lane, candidates, loopRuns, anomalies) ==
      Concat(nodes, NodeMaker(inp, lane)) + DropItems(candidates, loopRuns) + Concat(nodes, BreachMaker(inp)) +
      Concat(nodes, SignalMaker(inp)) + TerminalItems(inp) + AnomalyItems(anomalies)
  {
    hide Concat, DropItems, TerminalItems, AnomalyItems, NodeMaker, BreachMaker, SignalMaker;
  }

  lemma AppendHolds(fs: seq<Finding>, f: Finding, gs: seq<Finding>)
    ensures fs + [f] <= gs ==> Holds(gs, |fs|, f)
  {
  }

  lemma NoNodes(inp: Input, lane: set<RunId>, fs: seq<Finding>)
    ensures NodesIndexed(inp, lane, [], fs, map[], map[], map[])
  {
  }

  lemma NothingListed(fs: seq<Finding>, make: RunId -> seq<Finding>)
    ensures ListEach(fs, map[], {}, make)
  {
  }

  lemma NoneYet(nodes: seq<RunId>, make: RunId -> seq<Finding>)
    ensures Elements(nodes[..0]) == {} && Concat(nodes[..0], make) == []
    ensures forall m: map<RunId, seq<nat>> :: |m| == 0 ==> Elements([]) == m.Keys
  {
  }

  lemma NotAmong(nodes: seq<RunId>, k: nat)
    requires Distinct(nodes) && k < |nodes|
    ensures nodes[k] !in Elements(nodes[..k])
  {
  }

  lemma OrderNext(order: seq<RunId>, m: map<RunId, seq<nat>>, r: RunId, at: seq<nat>)
    requires Elements(order) == m.Keys
    ensures Elements(order + [r]) == m[r := at].Keys
  {
  }

  lemma NodeAdded(inp: Input, lane: set<RunId>, done: seq<RunId>, n: RunId, fs0: seq<Finding>, fs1: seq<Finding>,
                  fs: seq<Finding>,
                  score0: map<RunId, nat>, score: map<RunId, nat>, flags0: map<RunId, seq<nat>>,
                  flags: map<RunId, seq<nat>>,
                  flawed0: map<RunId, nat>, flawed: map<RunId, nat>, at: seq<nat>)
    requires NodesIndexed(inp, lane, done, fs0, score0, flags0, flawed0) && fs0 <= fs1 <= fs && n !in Elements(done)
    requires Lists(fs1, at, FlagFindings(n, Flags(inp, n))) && flags == if at == [] then flags0 else flags0[n := at]
    requires if ScoreOf(inp, n).Some? then Holds(fs, |fs0|, ScoreFinding(inp, n)) && score == score0[n := |fs0|]
      else score == score0
    requires if InputFlawed(inp, n) then Holds(fs, |fs1|, FlawedFinding(lane, n)) && flawed == flawed0[n := |fs1|]
      else flawed == flawed0
    requires Elements(done + [n]) == Elements(done) + {n}
    requires ScoredRuns(inp, done + [n]) ==
      if ScoreOf(inp, n).Some? then ScoredRuns(inp, done) + {n} else ScoredRuns(inp, done)
    requires FlawedRuns(inp, done + [n]) ==
      if InputFlawed(inp, n) then FlawedRuns(inp, done) + {n} else FlawedRuns(inp, done)
    ensures NodesIndexed(inp, lane, done + [n], fs, score, flags, flawed)
  {
    hide OneEach, ListEach, Lists, ScoredRuns, FlawedRuns, Elements, FlagFindings;
    NodesGrow(inp, lane, done, fs0, fs, score0, flags0, flawed0);
    ListsGrows(fs1, fs, at, FlagFindings(n, Flags(inp, n)));
    ListEachInsert(fs, flags0, Elements(done), FlagMaker(inp), n, at);
    if ScoreOf(inp, n).Some? {
      OneEachInsert(fs, score0, ScoredRuns(inp, done), ScoreMaker(inp), n, |fs0|);
    }
    if InputFlawed(inp, n) {
      OneEachInsert(fs, flawed0, FlawedRuns(inp, done), FlawedMaker(lane), n, |fs1|);
    }
  }

  // The facts about content: scores, flags, flawed inputs, falls.
  method BuildContent(inp: Input, nodes: seq<RunId>, lane: set<RunId>, candidates: seq<Candidate>,
                      loopRuns: set<RunId>) returns (idx: Store)
    requires Distinct(nodes)
    ensures fresh(idx) && NodesIndexed(inp, lane, nodes, idx.findings, idx.score, idx.flags, idx.flawed)
    ensures idx.findings == Concat(nodes, NodeMaker(inp, lane)) + DropItems(candidates, loopRuns)
    ensures idx.drop.Keys == FallenRuns(candidates, loopRuns) && DropFacts(candidates, idx.findings, idx.drop)
    ensures idx.contract == map[] && idx.contractOrder == [] && idx.signals == map[] && idx.loop == map[]
    ensures idx.terminalContent == idx.terminalForm == idx.detectionGap == None
    ensures idx.verifier == map[] && idx.propagated == map[] && idx.corrected == map[]
  {
    hide *;
    idx := new Store();
    StoreFields(idx);
    idx.AddNodes(inp, lane, nodes);
    ghost var fs := idx.findings;
    idx.AddDrops(candidates, loopRuns);
    NodesGrow(inp, lane, nodes, fs, idx.findings, idx.score, idx.flags, idx.flawed);
  }

  // The facts from hard checks, the terminal verdict and the cycles.
  method BuildFindings(inp: Input, nodes: seq<RunId>, lane: set<RunId>, candidates: seq<Candidate>,
                       loopRuns: set<RunId>,
                       anomalies: seq<Anomaly>) returns (idx: Store)
    requires Distinct(nodes) && forall a :: a in anomalies ==> a.members != []
    ensures fresh(idx) && Indexes(inp, lane, nodes, idx.View())
    ensures idx.findings == BuiltItems(inp, nodes, lane, candidates, loopRuns, anomalies)
    ensures idx.drop.Keys == FallenRuns(candidates, loopRuns)
    ensures DropFacts(candidates, idx.findings, idx.drop)
    ensures idx.loop.Keys == MemberRuns(anomalies) && CitesOwn(anomalies, idx.findings, idx.loop)
    ensures idx.verifier == map[] && idx.propagated == map[] && idx.corrected == map[]
  {
    hide *;
    idx := BuildContent(inp, nodes, lane, candidates, loopRuns);
    ghost var f2 := idx.findings;
    idx.AddBreaches(inp, nodes);
    ghost var f3 := idx.findings;
    idx.AddSignals(inp, nodes);
    ghost var f4 := idx.findings;
    idx.AddTerminal(inp);
    ghost var f5 := idx.findings;
    idx.AddAnomalies(anomalies);
    ghost var fs := idx.findings;
    NodesGrow(inp, lane, nodes, f2, fs, idx.score, idx.flags, idx.flawed);
    ListEachGrows(f3, fs, idx.contract, Elements(nodes), BreachMaker(inp));
    ListEachGrows(f4, fs, idx.signals, Elements(nodes), SignalMaker(inp));
    RestGrows(inp, f5, fs, idx.terminalContent, idx.terminalForm, idx.detectionGap, idx.drop, idx.loop, idx.verifier,
      idx.propagated, idx.corrected);
    DropFactsGrow(candidates, f2, fs, idx.drop);
    BuiltAre(inp, nodes, lane, candidates, loopRuns, anomalies);
    NothingKeyed(fs);
    StoreFields(idx);
    AllIndexed(inp, lane, nodes, idx.View());
  }

  lemma StoreFields(idx: Store)
    ensures idx.View() ==
      Index(idx.findings, idx.contract, idx.contractOrder, idx.score, idx.flags, idx.signals, idx.drop, idx.flawed,
      idx.loop, idx.verifier, idx.terminalContent, idx.terminalForm, idx.detectionGap, idx.propagated, idx.corrected)
  {
  }

  lemma AllIndexed(inp: Input, lane: set<RunId>, nodes: seq<RunId>, ix: Index)
    requires NodesIndexed(inp, lane, nodes, ix.findings, ix.score, ix.flags, ix.flawed)
    requires ListEach(ix.findings, ix.contract, Elements(nodes), BreachMaker(inp))
    requires Elements(ix.contractOrder) == ix.contract.Keys
    requires ListEach(ix.findings, ix.signals, Elements(nodes), SignalMaker(inp))
    requires TerminalIndexed(inp, ix.findings, ix.terminalContent, ix.terminalForm, ix.detectionGap)
    requires DropsIndexed(ix.findings, ix.drop)
    requires RunsIndexed(ix.findings, ix.loop, LoopAnomaly) && RunsIndexed(ix.findings, ix.verifier, VerifierVerdict)
    requires KeysIndexed(ix.findings, ix.propagated, BreachPropagated)
    requires KeysIndexed(ix.findings, ix.corrected, BreachCorrected)
    ensures Indexes(inp, lane, nodes, ix)
  {
    hide NodesIndexed, ListEach, TerminalIndexed, RunsIndexed, KeysIndexed, DropsIndexed, Elements;
  }

  lemma NothingKeyed(fs: seq<Finding>)
    ensures KeysIndexed(fs, map[], BreachPropagated) && KeysIndexed(fs, map[], BreachCorrected)
    ensures RunsIndexed(fs, map[], VerifierVerdict)
  {
  }
}
