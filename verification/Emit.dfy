// From a localization outcome to typed defects, and exactly when those defects have support.

module Emit {
  import opened Prelude
  import opened BlameInput
  import opened CutPoint
  import opened Evidence
  import opened FindingIndex

  ghost predicate ListsBounded(n: nat, m: map<RunId, seq<nat>>) {
    forall r, i :: r in m && i in m[r] ==> i < n
  }

  ghost predicate RunsBounded(n: nat, m: map<RunId, nat>) {
    forall r :: r in m ==> m[r] < n
  }

  ghost predicate KeysBounded(n: nat, m: map<string, nat>) {
    forall k :: k in m ==> m[k] < n
  }

  // No look-up points outside the findings.
  ghost predicate Bounded(ix: Index) {
    var n := |ix.findings|;
    && ListsBounded(n, ix.contract) && ListsBounded(n, ix.flags) && ListsBounded(n, ix.signals)
    && ListsBounded(n, ix.loop) && ListsBounded(n, ix.verifier)
    && RunsBounded(n, ix.score) && RunsBounded(n, ix.drop) && RunsBounded(n, ix.flawed)
    && KeysBounded(n, ix.propagated) && KeysBounded(n, ix.corrected)
    && (ix.terminalContent.Some? ==> ix.terminalContent.value < n)
    && (ix.terminalForm.Some? ==> ix.terminalForm.value < n)
    && (ix.detectionGap.Some? ==> ix.detectionGap.value < n)
  }

  function Cite(at: seq<nat>, role: Role): (r: seq<Ref>)
    ensures forall x :: x in r <==> x.role == role && x.index in at
  {
    if at == [] then [] else [Ref(at[0], role)] + Cite(at[1..], role)
  }

  // ---------- Classifying evidence ----------

  function TerminalRefs(ix: Index, recovered: bool): seq<Ref>
    requires Bounded(ix)
  {
    if ix.terminalContent.None? then [] else
      var d := ix.findings[ix.terminalContent.value].data;
      var role := if d.stale || !d.checkable then Context
                  else if d.bad then Supporting
                  else if recovered then Context else Refuting;
      [Ref(ix.terminalContent.value, role)]
  }

  function SignalRefs(fs: seq<Finding>, at: seq<nat>): (r: seq<Ref>)
    requires forall i :: i in at ==> i < |fs|
    ensures forall x :: x in r <==> x.index in at && x.role == if fs[x.index].data.fail then Supporting else Context
  {
    if at == [] then [] else
      assert at[0] in at && forall i :: i in at[1..] ==> i in at;
      [Ref(at[0], if fs[at[0]].data.fail then Supporting else Context)] + SignalRefs(fs, at[1..])
  }

  function ScoreRole(ix: Index, threshold: real, run: RunId): Role
    requires Bounded(ix) && run in ix.score
  {
    var s := ix.findings[ix.score[run]].data.score;
    if run in ix.drop then Context
    else if s.Some? && s.value < threshold then Supporting
    else Refuting
  }

  // Every content-channel finding at `run`, relative to the claim that its content is defective.
  function ContentRefs(ix: Index, threshold: real, run: RunId, recovered: bool): seq<Ref>
    requires Bounded(ix)
  {
    assert forall i :: i in At(ix.signals, run) ==> i < |ix.findings|;
    (if run in ix.drop then [Ref(ix.drop[run], Supporting)] else []) +
    (if run in ix.score then [Ref(ix.score[run], ScoreRole(ix, threshold, run))] else []) +
    Cite(At(ix.flags, run), Supporting) +
    SignalRefs(ix.findings, At(ix.signals, run)) +
    TerminalRefs(ix, recovered)
  }

  function KeyOfFinding(f: Finding): string {
    if f.data.key.Some? then f.data.key.value else "None"
  }

  // What became of the breaches of `at` downstream, as the caller verified it.
  function FateRefs(ix: Index, at: seq<nat>): (r: (seq<Ref>, seq<RunId>, bool))
    requires Bounded(ix) && forall i :: i in at ==> i < |ix.findings|
    ensures forall x :: x in r.0 ==>
      (x.role == Supporting && exists k :: k in ix.propagated && ix.propagated[k] == x.index) ||
      (x.role == Context && exists k :: k in ix.corrected && ix.corrected[k] == x.index)
    ensures r.1 != [] ==>
      exists x :: x in r.0 && x.role == Supporting && exists k :: k in ix.propagated && ix.propagated[k] == x.index
  {
    if at == [] then ([], [], false) else
      assert at[0] in at && forall i :: i in at[1..] ==> i in at;
      var key := KeyOfFinding(ix.findings[at[0]]);
      var rest := FateRefs(ix, at[1..]);
      var shipped := if key in ix.propagated then [Ref(ix.propagated[key], Supporting)] else [];
      var fixed := if key in ix.corrected then [Ref(ix.corrected[key], Context)] else [];
      var where := if key in ix.propagated && ix.findings[ix.propagated[key]].data.deliverable.Some?
                   then [ix.findings[ix.propagated[key]].data.deliverable.value] else [];
      assert where != [] ==> Ref(ix.propagated[key], Supporting) in shipped;
      (shipped + fixed + rest.0, where + rest.1, rest.2 || key in ix.propagated || key in ix.corrected)
  }

  // A breach of a file-format key whose rewritten value is the form observed at the terminal.
  predicate ExplainsForm(inp: Input, ix: Index, i: nat)
    requires Bounded(ix) && i < |ix.findings| && ix.terminalForm.Some?
  {
    var d, seen := ix.findings[i].data, FileType(inp, ix.findings[ix.terminalForm.value].data.observed);
    seen.Some? && d.key.Some? && d.key.value in FILE_FORMAT_KEYS && FileType(inp, d.to) == seen
  }

  function ContractRefs(inp: Input, ix: Index, run: RunId): (seq<Ref>, seq<RunId>, bool)
    requires Bounded(ix)
  {
    var at := At(ix.contract, run);
    assert forall i :: i in at ==> i < |ix.findings|;
    var fate := FateRefs(ix, at);
    var form := if ix.terminalForm.Some? && exists i :: i in at && ExplainsForm(inp, ix, i)
                then [Ref(ix.terminalForm.value, Context)] else [];
    (Cite(at, Supporting) + fate.0 + form, fate.1, fate.2)
  }

  // ---------- One defect ----------

  function ContractDefect(inp: Input, ix: Index, run: RunId, marker: bool): Defect
    requires Bounded(ix)
  {
    var (refs, where, verified) := ContractRefs(inp, ix, run);
    NewDefect(ContractFault, ChannelOf(ix.findings, refs), Localized(run), Ordered(refs)).(
      propagation := where, unverifiedContent := marker && !verified)
  }

  function ContentDefect(inp: Input, ix: Index, run: RunId, baseAssumed: bool, recovered: bool): Defect
    requires Bounded(ix)
  {
    var refs := Ordered(ContentRefs(ix, inp.config.threshold, run, recovered));
    NewDefect(ContentFault, ChannelOf(ix.findings, refs), Localized(run), refs).(
      baseAssumed := baseAssumed, boundary := baseAssumed, recovered := recovered)
  }

  // ---------- The emitters, one per localization outcome ----------

  function EmitExternal(inp: Input, ix: Index, culprit: RunId): seq<Defect>
    requires Bounded(ix)
  {
    var refs := (if culprit in ix.flawed then [Ref(ix.flawed[culprit], Supporting)] else []) +
                ContentRefs(ix, inp.config.threshold, culprit, false);
    [NewDefect(ContentFault, ChannelOf(ix.findings, refs), External(culprit), Ordered(refs))]
  }

  function EmitLoop(ix: Index, culprit: RunId): seq<Defect>
    requires Bounded(ix)
  {
    var refs := Ordered(Cite(At(ix.loop, culprit), Supporting));
    [NewDefect(LoopFault, ChannelOf(ix.findings, refs), Localized(culprit), refs)]
  }

  predicate HasContract(ix: Index, run: RunId) {
    At(ix.contract, run) != []
  }

  // Does an origin carry a content defect of its own?
  predicate EmitsContent(ix: Index, run: RunId, via: Via, terminalBad: bool) {
    terminalBad || !HasContract(ix, run) || via != Deterministic
  }

  function ViaOf(vias: map<RunId, Via>, run: RunId): Via {
    if run in vias then vias[run] else Content
  }

  function AssumedAt(assumed: map<RunId, bool>, run: RunId): bool {
    run in assumed && assumed[run]
  }

  function EmitCutPoint(inp: Input, ix: Index, run: RunId, via: Via, baseAssumed: bool, terminalBad: bool): seq<Defect>
    requires Bounded(ix)
  {
    var content := EmitsContent(ix, run, via, terminalBad);
    (if HasContract(ix, run) then [ContractDefect(inp, ix, run, !content)] else []) +
    (if content then [ContentDefect(inp, ix, run, baseAssumed, false)] else [])
  }

  // One of several origins: the contract caveat stands unless the terminal is bad.
  function EmitOrigin(inp: Input, ix: Index, run: RunId, via: Via, baseAssumed: bool, terminalBad: bool): seq<Defect>
    requires Bounded(ix)
  {
    (if HasContract(ix, run) then [ContractDefect(inp, ix, run, !terminalBad)] else []) +
    (if EmitsContent(ix, run, via, terminalBad) then [ContentDefect(inp, ix, run, baseAssumed, false)] else [])
  }

  ghost function MultiDefects(inp: Input, ix: Index, runs: seq<RunId>, vias: map<RunId, Via>, assumed: map<RunId, bool>,
                              terminalBad: bool): seq<Defect>
    requires Bounded(ix)
  {
    if runs == [] then [] else
      var r := runs[|runs| - 1];
      MultiDefects(inp, ix, runs[..|runs| - 1], vias, assumed, terminalBad) +
      EmitOrigin(inp, ix, r, ViaOf(vias, r), AssumedAt(assumed, r), terminalBad)
  }

  method EmitMulti(inp: Input, ix: Index, runs: seq<RunId>, vias: map<RunId, Via>, assumed: map<RunId, bool>,
                   terminalBad: bool)
    returns (defects: seq<Defect>)
    requires Bounded(ix)
    ensures defects == MultiDefects(inp, ix, runs, vias, assumed, terminalBad)
  {
    hide EmitOrigin, Bounded;
    defects := [];
    for k := 0 to |runs|
      invariant defects == MultiDefects(inp, ix, runs[..k], vias, assumed, terminalBad)
    {
      assert runs[..k + 1][..k] == runs[..k];
      defects := defects + EmitOrigin(inp, ix, runs[k], ViaOf(vias, runs[k]), AssumedAt(assumed, runs[k]), terminalBad);
    }
    assert runs[..|runs|] == runs;
  }

  function VerificationDefect(ix: Index, run: RunId): Defect {
    NewDefect(VerificationFault, Judged, Localized(run), Ordered(Cite(At(ix.verifier, run), Supporting)))
  }

  function EmitVerification(ix: Index, runs: seq<RunId>): seq<Defect> {
    MapSeq(runs, (r: RunId) => VerificationDefect(ix, r))
  }

  function EmitComposition(ix: Index): seq<Defect>
    requires Bounded(ix)
  {
    [NewDefect(ContentFault, Judged, Unlocalized(OrchestrationLayer), Ordered(TerminalRefs(ix, false)))]
  }

  function EmitTerminalUnlocalized(inp: Input, ix: Index, run: RunId): seq<Defect>
    requires Bounded(ix)
  {
    (if HasContract(ix, run) then [ContractDefect(inp, ix, run, true)] else []) +
    var d := NewDefect(ContentFault, Judged, Unlocalized(NoContentCandidate), Ordered(TerminalRefs(ix, false)));
    [d.(boundary := true)]
  }

  function EmitRecovered(inp: Input, ix: Index, run: RunId, baseAssumed: bool): seq<Defect>
    requires Bounded(ix)
  {
    if HasContract(ix, run) then [ContractDefect(inp, ix, run, true)]
    else [ContentDefect(inp, ix, run, baseAssumed, true)]
  }

  // ---------- The form defect ----------

  // The first breach, in the order breaches were recorded, that explains the shipped form.
  ghost predicate IsAnchor(inp: Input, ix: Index, p: nat, k: nat)
    requires Bounded(ix) && ix.terminalForm.Some?
  {
    && p < |ix.contractOrder| && k < |At(ix.contract, ix.contractOrder[p])|
    && Explains(inp, ix, p, k)
    && (forall q: nat, l: nat :: q < p && l < |At(ix.contract, ix.contractOrder[q])| ==> !Explains(inp, ix, q, l))
    && (forall l: nat :: l < k ==> !Explains(inp, ix, p, l))
  }

  ghost predicate Explains(inp: Input, ix: Index, p: nat, k: nat)
    requires Bounded(ix) && ix.terminalForm.Some?
  {
    && p < |ix.contractOrder| && k < |At(ix.contract, ix.contractOrder[p])|
    && At(ix.contract, ix.contractOrder[p])[k] < |ix.findings|
    && ExplainsForm(inp, ix, At(ix.contract, ix.contractOrder[p])[k])
  }

  datatype Anchor = NoAnchor | Anchored(run: RunId, breach: nat)

  ghost predicate FoundAnchor(inp: Input, ix: Index, a: Anchor)
    requires Bounded(ix) && ix.terminalForm.Some?
  {
    match a
    case NoAnchor => forall p: nat, k: nat :: !Explains(inp, ix, p, k)
    case Anchored(run, i) =>
      exists p: nat, k: nat ::
        IsAnchor(inp, ix, p, k) && run == ix.contractOrder[p] && i == At(ix.contract, run)[k] && i < |ix.findings|
  }

  method FindAnchor(inp: Input, ix: Index) returns (a: Anchor)
    requires Bounded(ix) && ix.terminalForm.Some?
    ensures FoundAnchor(inp, ix, a)
  {
    for p := 0 to |ix.contractOrder|
      invariant forall q: nat, l: nat :: q < p ==> !Explains(inp, ix, q, l)
    {
      var run := ix.contractOrder[p];
      var at := At(ix.contract, run);
      for k := 0 to |at|
        invariant forall l: nat :: l < k ==> !Explains(inp, ix, p, l)
      {
        assert at[k] in at && at[k] < |ix.findings|;
        if ExplainsForm(inp, ix, at[k]) {
          assert IsAnchor(inp, ix, p, k);
          return Anchored(run, at[k]);
        }
      }
    }
    a := NoAnchor;
  }

  function FormRefs(inp: Input, ix: Index, a: Anchor): seq<Ref>
    requires Bounded(ix) && (a.Anchored? ==> a.breach < |ix.findings|)
  {
    var form := if ix.terminalForm.Some? then [Ref(ix.terminalForm.value, Supporting)] else [];
    var cause := if a.NoAnchor? then [] else
      var key := KeyOfFinding(ix.findings[a.breach]);
      [Ref(a.breach, Supporting)] + if key in ix.propagated then [Ref(ix.propagated[key], Supporting)] else [];
    var gap := if ix.detectionGap.None? then []
               else [Ref(ix.detectionGap.value, if a.NoAnchor? then Supporting else Context)];
    form + cause + gap
  }

  function FormDefect(inp: Input, ix: Index, a: Anchor): Defect
    requires Bounded(ix) && (a.Anchored? ==> a.breach < |ix.findings|)
  {
    var refs := FormRefs(inp, ix, a);
    NewDefect(FormFault, ChannelOf(ix.findings, refs),
              if a.NoAnchor? then Design(NoFormVerifier) else Localized(a.run), Ordered(refs))
  }

  predicate FormMissed(inp: Input) {
    inp.terminal.Some? && inp.terminal.value.checkable && inp.terminal.value.formBad
  }

  method EmitForm(inp: Input, ix: Index) returns (defects: seq<Defect>)
    requires Bounded(ix)
    ensures !FormMissed(inp) ==> defects == []
    ensures FormMissed(inp) ==> exists a: Anchor ::
      (a.Anchored? ==> a.breach < |ix.findings|) && defects == [FormDefect(inp, ix, a)] &&
      (if ix.terminalForm.Some? then FoundAnchor(inp, ix, a) else a.NoAnchor?)
  {
    if !FormMissed(inp) {
      return [];
    }
    var a := NoAnchor;
    if ix.terminalForm.Some? {
      a := FindAnchor(inp, ix);
    }
    defects := [FormDefect(inp, ix, a)];
  }
}
