// Typed facts (findings), interpreted faults (defects), and references between them with polarity.

module Evidence {
  import opened Prelude
  import opened BlameInput
  import opened CutPoint

  datatype FindingKind =
    | ContentScore | ContentFlag | ContentDrop | FlawedInput | ContractBreach | HardSignal
    | TerminalContent | TerminalForm | DetectionGap | LoopAnomaly | VerifierVerdict
    | BreachPropagated | BreachCorrected | RequiredSection | ArtifactIntegrity
    | RepresentationDivergence | RequirementProvenance | AssessmentConflict

  datatype Evidential = Hard | Judged

  datatype Subject = OfRun(run: RunId) | OfTerminal | OfGraph

  // The payload fields that some decision reads; `value` is absent when the finding asserts none.
  datatype Data = Data(
    score: Option<real>, base: Option<real>, drop: Option<real>,
    bad: bool, checkable: bool, stale: bool, fail: bool,
    name: string, key: Option<string>, from: Option<string>, to: Option<string>, observed: Option<string>,
    value: Option<string>, deliverable: Option<RunId>, values: set<string>, refs: seq<nat>)

  const NO_DATA := Data(None, None, None, false, false, false, false, "", None, None, None, None, None, None, {}, [])

  datatype Finding = Finding(kind: FindingKind, channel: Evidential, subject: Subject, data: Data,
    factKey: Option<string>)

  datatype Role = Supporting | Refuting | Context

  datatype Ref = Ref(index: nat, role: Role)

  datatype Reason = OrchestrationLayer | NoContentCandidate | NoFormVerifier

  // Where a fault originated: one of four resolutions, never a string.
  datatype Origin =
    | Localized(run: RunId)
    | Unlocalized(reason: Reason)
    | External(source: RunId)
    | Design(gap: Reason)

  datatype DefectKind = ContractFault | ContentFault | FormFault | LoopFault | VerificationFault

  datatype Defect = Defect(
    kind: DefectKind,
    channel: Evidential,
    origin: Origin,
    refs: seq<Ref>,
    propagation: seq<RunId>,
    baseAssumed: bool,
    boundary: bool,
    unverifiedContent: bool,
    recovered: bool,
    qualityUnmeasured: bool)

  function NewDefect(kind: DefectKind, channel: Evidential, origin: Origin, refs: seq<Ref>): Defect {
    Defect(kind, channel, origin, refs, [], false, false, false, false, false)
  }

  datatype Anomaly = Anomaly(members: seq<RunId>, iterations: int, statistical: bool, repeating: seq<RunId>)

  datatype Gap = Gap(run: RunId, basis: GapBasis)

  datatype GapBasis = FlagConflict | ScoredIncorrect | PassedBadTerminal

  // ---------- The findings the engine emits ----------

  function ScoreFinding(inp: Input, r: RunId): Finding {
    Finding(ContentScore, Judged, OfRun(r), NO_DATA.(score := ScoreOf(inp, r)), None)
  }

  function FlagFinding(r: RunId, flag: string): Finding {
    Finding(ContentFlag, Judged, OfRun(r), NO_DATA.(name := flag), None)
  }

  // A terminal-review verifier's claim measures what the terminal verdict measures.
  function FlawedFinding(lane: set<RunId>, r: RunId): Finding {
    if r in lane
    then Finding(FlawedInput, Judged, OfRun(r), NO_DATA.(value := Some("bad")), Some("assessment:deliverable"))
    else Finding(FlawedInput, Judged, OfRun(r), NO_DATA, None)
  }

  function DropFinding(r: RunId, score: Option<real>, base: Option<real>, drop: Option<real>): Finding {
    Finding(ContentDrop, Judged, OfRun(r), NO_DATA.(score := score, base := base, drop := drop), None)
  }

  function BreachFinding(r: RunId, v: Violation): Finding {
    Finding(ContractBreach, Hard, OfRun(r),
            NO_DATA.(key := Some(v.key), from := Some(v.from), to := Some(v.to), value := Some(v.from)),
            Some("contract:" + v.key))
  }

  function SignalFinding(r: RunId, s: Signal): Finding {
    if s.missingSection.Some?
    then Finding(HardSignal, Hard, OfRun(r), NO_DATA.(name := s.name, fail := s.fail, value := Some("absent")),
                 Some("required_section:" + s.missingSection.value))
    else Finding(HardSignal, Hard, OfRun(r), NO_DATA.(name := s.name, fail := s.fail), None)
  }

  // Only a checkable verdict that is not stale claims anything about the deliverable.
  function TerminalFinding(tv: TerminalVerdict): Finding {
    var data := NO_DATA.(score := tv.score, bad := tv.bad, checkable := tv.checkable, stale := tv.stale);
    if tv.checkable && !tv.stale
    then Finding(TerminalContent, Judged, OfTerminal, data.(value := Some(if tv.bad then "bad" else "ok")),
                 Some("assessment:deliverable"))
    else Finding(TerminalContent, Judged, OfTerminal, data, None)
  }

  function FormFinding(inp: Input, tv: TerminalVerdict): Finding {
    var token := FileType(inp, tv.formRequirement);
    Finding(TerminalForm, Judged, OfTerminal, NO_DATA.(bad := tv.formBad, observed := tv.formObserved, value := token),
            if token.Some? then Some("contract:file_type") else None)
  }

  function GapFinding(): Finding {
    Finding(DetectionGap, Judged, OfGraph, NO_DATA, None)
  }

  function AnomalyFinding(a: Anomaly): Finding
    requires a.members != []
  {
    Finding(LoopAnomaly, Hard, OfRun(a.members[0]), NO_DATA, None)
  }

  function VerdictFinding(g: Gap): Finding {
    Finding(VerifierVerdict, Judged, OfRun(g.run), NO_DATA, None)
  }

  // ---------- References ----------

  // Insert by index; an index already cited keeps its first classification.
  function InsertRef(sorted: seq<Ref>, r: Ref): seq<Ref> {
    if sorted == [] then [r]
    else if r.index < sorted[0].index then [r] + sorted
    else if r.index == sorted[0].index then sorted
    else [sorted[0]] + InsertRef(sorted[1..], r)
  }

  function Ordered(refs: seq<Ref>): seq<Ref> {
    if refs == [] then [] else InsertRef(Ordered(refs[..|refs| - 1]), refs[|refs| - 1])
  }

  ghost predicate Ascending(refs: seq<Ref>) {
    forall i, j :: 0 <= i < j < |refs| ==> refs[i].index < refs[j].index
  }

  lemma AscendingPrepend(first: Ref, rest: seq<Ref>)
    requires Ascending(rest) && forall x :: x in rest ==> first.index < x.index
    ensures Ascending([first] + rest)
  {
    assert forall i :: 0 <= i < |rest| ==> rest[i] in rest;
  }

  lemma {:induction false} InsertKeeps(sorted: seq<Ref>, r: Ref)
    requires Ascending(sorted)
    ensures Ascending(InsertRef(sorted, r))
    ensures forall x :: x in sorted ==> x in InsertRef(sorted, r)
    ensures forall x :: x in InsertRef(sorted, r) ==> x in sorted || x == r
    ensures r in InsertRef(sorted, r) || exists x :: x in sorted && x.index == r.index
  {
    if sorted != [] {
      assert sorted == [sorted[0]] + sorted[1..];
      if sorted[0].index < r.index {
        InsertKeeps(sorted[1..], r);
        var rest := InsertRef(sorted[1..], r);
        AscendingPrepend(sorted[0], rest);
      }
    }
  }

  // One index is cited once; nothing is invented; a role is lost only to an earlier one for its index.
  lemma {:induction false} OrderedKeeps(refs: seq<Ref>)
    ensures Ascending(Ordered(refs))
    ensures forall x :: x in Ordered(refs) ==> x in refs
    ensures forall i :: 0 <= i < |refs| ==>
      refs[i] in Ordered(refs) || exists j :: 0 <= j < i && refs[j].index == refs[i].index && refs[j] in Ordered(refs)
  {
    if refs != [] {
      var n := |refs| - 1;
      var front := refs[..n];
      OrderedKeeps(front);
      InsertKeeps(Ordered(front), refs[n]);
      assert refs == front + [refs[n]];
      if refs[n] !in Ordered(refs) {
        var x :| x in Ordered(front) && x.index == refs[n].index;
        var j :| 0 <= j < n && front[j] == x;
        assert refs[j] == x && x in Ordered(refs);
      }
      forall i | 0 <= i < n
        ensures refs[i] in Ordered(refs) || exists j ::
          0 <= j < i && refs[j].index == refs[i].index && refs[j] in Ordered(refs)
      {
        assert front[i] == refs[i];
        if front[i] !in Ordered(front) {
          var j :| 0 <= j < i && front[j].index == front[i].index && front[j] in Ordered(front);
          assert refs[j] in Ordered(refs);
        }
      }
    }
  }

  // References that never classify one index twice in different ways all survive.
  ghost predicate Consistent(refs: seq<Ref>) {
    forall i, j :: 0 <= i < |refs| && 0 <= j < |refs| && refs[i].index == refs[j].index ==> refs[i] == refs[j]
  }

  lemma ConsistentOrdered(refs: seq<Ref>)
    requires Consistent(refs)
    ensures forall x :: x in Ordered(refs) <==> x in refs
  {
    OrderedKeeps(refs);
    forall x | x in refs ensures x in Ordered(refs) {
      var i :| 0 <= i < |refs| && refs[i] == x;
    }
  }

  predicate InBounds(findings: seq<Finding>, refs: seq<Ref>) {
    forall r :: r in refs ==> r.index < |findings|
  }

  predicate Supported(refs: seq<Ref>) {
    exists r :: r in refs && r.role == Supporting
  }

  predicate CitesShipment(findings: seq<Finding>, refs: seq<Ref>) {
    exists r :: r in refs && r.role == Supporting && r.index < |findings| && findings[r.index].kind == BreachPropagated
  }

  // What the final validation accepts.
  predicate ValidDefect(findings: seq<Finding>, d: Defect) {
    && InBounds(findings, d.refs) && Supported(d.refs)
    && (d.propagation != [] ==> CitesShipment(findings, d.refs))
  }

  // A defect is deterministic exactly when deterministic evidence asserts it.
  predicate HardlySupported(findings: seq<Finding>, refs: seq<Ref>) {
    exists r :: r in refs && r.role == Supporting && r.index < |findings| && findings[r.index].channel == Hard
  }

  function ChannelOf(findings: seq<Finding>, refs: seq<Ref>): Evidential {
    if HardlySupported(findings, refs) then Hard else Judged
  }
}
