// What a defect cites, and how each citation bears on the claim, told by the facts recorded of the run.

module Claims {
  import opened Prelude
  import opened BlameInput
  import opened RunRecord
  import opened CutPoint
  import opened Evidence
  import opened FindingIndex
  import opened Emit
  import opened Support
  import opened Facts

  // ---------- A content claim ----------

  // How a finding bears on the claim that `run` shipped defective content.
  ghost predicate Bears(inp: Input, run: RunId, fallen: bool, recovered: bool, f: Finding, role: Role) {
    match f.kind
    case ContentDrop => f.subject == OfRun(run) && role == Supporting
    case ContentScore => ScoreFact(inp, run, f) &&
      role == if fallen then Context else if ScoreIn(inp, run) < inp.config.threshold then Supporting else Refuting
    case ContentFlag => FlagFact(inp, run, f) && role == Supporting
    case HardSignal => SignalFact(inp, run, f) && role == if f.data.fail then Supporting else Context
    case TerminalContent => ContentVerdictFact(inp, f) && inp.terminal.Some? && var t := inp.terminal.value;
      role == if t.stale || !t.checkable then Context
              else if t.bad then Supporting
              else if recovered then Context else Refuting
    case _ => false
  }

  ghost predicate CitesFinding(fs: seq<Finding>, refs: seq<Ref>, f: Finding) {
    exists r :: r in refs && r.index < |fs| && fs[r.index] == f
  }

  ghost predicate ContentStory(inp: Input, f: Finding, run: RunId) {
    ScoreFact(inp, run, f) || FlagFact(inp, run, f) || SignalFact(inp, run, f) || ContentVerdictFact(inp, f)
  }

  // The positions listed for a run hold exactly the findings made for it.
  lemma AllKept(fs: seq<Finding>, at: seq<nat>, items: seq<Finding>)
    requires Lists(fs, at, items)
    ensures forall i :: i in at ==> i < |fs| && fs[i] in items
    ensures forall f :: f in items ==> exists i :: i in at && i < |fs| && fs[i] == f
  {
    ListsInside(fs, at, items);
    ListsLength(fs, at, items);
    hide Lists;
    forall f | f in items ensures exists i :: i in at && i < |fs| && fs[i] == f {
      var k :| 0 <= k < |items| && items[k] == f;
      assert at[k] in at;
    }
  }

  lemma FlagsListed(inp: Input, nodes: seq<RunId>, ix: Index, run: RunId)
    requires ListEach(ix.findings, ix.flags, Elements(nodes), FlagMaker(inp)) && run in nodes
    ensures forall i :: i in At(ix.flags, run) ==> i < |ix.findings| && FlagFact(inp, run, ix.findings[i])
    ensures forall f :: FlagFact(inp, run, f) ==>
      exists i :: i in At(ix.flags, run) && i < |ix.findings| && ix.findings[i] == f
  {
    assert run in Elements(nodes);
    var at, items := At(ix.flags, run), FlagMaker(inp)(run);
    assert Lists(ix.findings, at, items);
    assert items == FlagFindings(run, Flags(inp, run));
    hide Lists, ListEach, FlagFindings;
    AllKept(ix.findings, at, items);
    FlagsMade(run, Flags(inp, run));
  }

  lemma SignalsKept(inp: Input, nodes: seq<RunId>, ix: Index, run: RunId)
    requires ListEach(ix.findings, ix.signals, Elements(nodes), SignalMaker(inp)) && run in nodes
    ensures forall i :: i in At(ix.signals, run) ==> i < |ix.findings| && SignalFact(inp, run, ix.findings[i])
    ensures forall f :: SignalFact(inp, run, f) ==>
      exists i :: i in At(ix.signals, run) && i < |ix.findings| && ix.findings[i] == f
  {
    assert run in Elements(nodes);
    var at, items := At(ix.signals, run), SignalMaker(inp)(run);
    assert Lists(ix.findings, at, items);
    hide *;
    AllKept(ix.findings, at, items);
    SignalMade(inp, run);
  }

  lemma BreachesKept(inp: Input, nodes: seq<RunId>, ix: Index, run: RunId)
    requires ListEach(ix.findings, ix.contract, Elements(nodes), BreachMaker(inp)) && run in nodes
    ensures forall i :: i in At(ix.contract, run) ==> i < |ix.findings| && BreachFact(inp, run, ix.findings[i])
    ensures forall f :: BreachFact(inp, run, f) ==>
      exists i :: i in At(ix.contract, run) && i < |ix.findings| && ix.findings[i] == f
  {
    assert run in Elements(nodes);
    var at, items := At(ix.contract, run), BreachMaker(inp)(run);
    assert Lists(ix.findings, at, items);
    hide *;
    AllKept(ix.findings, at, items);
    BreachMade(inp, run);
  }

  lemma ScoreKept(inp: Input, lane: set<RunId>, nodes: seq<RunId>, ix: Index, run: RunId)
    requires Indexes(inp, lane, nodes, ix) && Bounded(ix) && run in nodes
    ensures run in ix.score <==> HasScore(inp, run)
    ensures run in ix.score ==> ScoreFact(inp, run, ix.findings[ix.score[run]])
  {
    Support.ScoreAt(inp, lane, nodes, ix, run);
    FieldsAre(inp, run);
    hide Indexes, Bounded, HasScore, ScoreIn;
  }

  lemma TerminalBears(inp: Input, lane: set<RunId>, nodes: seq<RunId>, ix: Index, run: RunId, fallen: bool,
                      recovered: bool)
    requires Indexes(inp, lane, nodes, ix) && Bounded(ix)
    ensures forall r :: r in TerminalRefs(ix, recovered) ==>
      r.index < |ix.findings| && Bears(inp, run, fallen, recovered, ix.findings[r.index], r.role)
    ensures forall f :: ContentVerdictFact(inp, f) ==> CitesFinding(ix.findings, TerminalRefs(ix, recovered), f)
  {
    hide NodesIndexed, ListEach, RunsIndexed, KeysIndexed, DropsIndexed, Bounded;
    if inp.terminal.Some? {
      var t := TerminalRefs(ix, recovered);
      assert t[0] in t;
      forall f | ContentVerdictFact(inp, f) ensures CitesFinding(ix.findings, t, f) {
        assert f == ix.findings[t[0].index];
      }
    }
  }

  lemma ListsOf(inp: Input, lane: set<RunId>, nodes: seq<RunId>, ix: Index)
    requires Indexes(inp, lane, nodes, ix)
    ensures ListEach(ix.findings, ix.flags, Elements(nodes), FlagMaker(inp))
    ensures ListEach(ix.findings, ix.signals, Elements(nodes), SignalMaker(inp))
    ensures ListEach(ix.findings, ix.contract, Elements(nodes), BreachMaker(inp))
    ensures DropsIndexed(ix.findings, ix.drop)
  {
    hide ListEach, DropsIndexed, TerminalIndexed, RunsIndexed, KeysIndexed, OneEach;
  }

  lemma FactsBear(inp: Input, run: RunId, fallen: bool, recovered: bool, f: Finding)
    ensures f.kind == ContentDrop && f.subject == OfRun(run) ==> Bears(inp, run, fallen, recovered, f, Supporting)
    ensures FlagFact(inp, run, f) ==> Bears(inp, run, fallen, recovered, f, Supporting)
    ensures SignalFact(inp, run, f) ==>
      Bears(inp, run, fallen, recovered, f, if f.data.fail then Supporting else Context)
  {
  }

  lemma ScoreBears(inp: Input, lane: set<RunId>, nodes: seq<RunId>, ix: Index, run: RunId, recovered: bool)
    requires Indexes(inp, lane, nodes, ix) && Bounded(ix) && run in nodes && run in ix.score
    ensures ix.score[run] < |ix.findings| && Bears(inp, run, run in ix.drop, recovered, ix.findings[ix.score[run]],
      ScoreRole(ix, inp.config.threshold, run))
  {
    ScoreKept(inp, lane, nodes, ix, run);
    assert ix.score[run] < |ix.findings|;
    hide Indexes, Bounded, HasScore, ScoreIn;
  }

  lemma DropBears(inp: Input, lane: set<RunId>, nodes: seq<RunId>, ix: Index, run: RunId, recovered: bool)
    requires Indexes(inp, lane, nodes, ix) && Bounded(ix) && run in ix.drop
    ensures ix.drop[run] < |ix.findings|
    ensures Bears(inp, run, true, recovered, ix.findings[ix.drop[run]], Supporting)
  {
    ListsOf(inp, lane, nodes, ix);
    FactsBear(inp, run, true, recovered, ix.findings[ix.drop[run]]);
    hide Indexes, ListEach, Bounded, Bears;
  }

  lemma RefsBear(inp: Input, lane: set<RunId>, nodes: seq<RunId>, ix: Index, run: RunId, recovered: bool)
    requires Indexes(inp, lane, nodes, ix) && Bounded(ix) && run in nodes
    ensures forall r :: r in ContentRefs(ix, inp.config.threshold, run, recovered) ==>
      r.index < |ix.findings| && Bears(inp, run, run in ix.drop, recovered, ix.findings[r.index], r.role)
  {
    hide *;
    ListsOf(inp, lane, nodes, ix);
    FlagsListed(inp, nodes, ix, run);
    SignalsKept(inp, nodes, ix, run);
    TerminalBears(inp, lane, nodes, ix, run, run in ix.drop, recovered);
    if run in ix.score {
      ScoreBears(inp, lane, nodes, ix, run, recovered);
    }
    if run in ix.drop {
      DropBears(inp, lane, nodes, ix, run, recovered);
    }
    forall r | r in ContentRefs(ix, inp.config.threshold, run, recovered)
      ensures r.index < |ix.findings| && Bears(inp, run, run in ix.drop, recovered, ix.findings[r.index], r.role)
    {
      RefFrom(ix, inp.config.threshold, run, recovered, r);
      if r.index < |ix.findings| {
        FactsBear(inp, run, run in ix.drop, recovered, ix.findings[r.index]);
      }
    }
  }

  lemma RefFrom(ix: Index, threshold: real, run: RunId, recovered: bool, r: Ref)
    requires Bounded(ix)
    ensures forall i :: i in At(ix.signals, run) ==> i < |ix.findings|
    ensures r in ContentRefs(ix, threshold, run, recovered) <==>
      || (run in ix.drop && r == Ref(ix.drop[run], Supporting))
      || (run in ix.score && r == Ref(ix.score[run], ScoreRole(ix, threshold, run)))
      || (r.role == Supporting && r.index in At(ix.flags, run))
      || r in SignalRefs(ix.findings, At(ix.signals, run)) || r in TerminalRefs(ix, recovered)
    ensures r in SignalRefs(ix.findings, At(ix.signals, run)) ==>
      && r.index in At(ix.signals, run) && r.index < |ix.findings|
      && r.role == if ix.findings[r.index].data.fail then Supporting else Context
  {
    hide TerminalRefs, ScoreRole, SignalRefs, Cite;
  }

  lemma RefsCite(inp: Input, lane: set<RunId>, nodes: seq<RunId>, ix: Index, run: RunId, recovered: bool, f: Finding)
    requires Indexes(inp, lane, nodes, ix) && Bounded(ix) && run in nodes && ContentStory(inp, f, run)
    ensures CitesFinding(ix.findings, ContentRefs(ix, inp.config.threshold, run, recovered), f)
  {
    hide *;
    ListsOf(inp, lane, nodes, ix);
    FlagsListed(inp, nodes, ix, run);
    SignalsKept(inp, nodes, ix, run);
    ScoreKept(inp, lane, nodes, ix, run);
    TerminalBears(inp, lane, nodes, ix, run, run in ix.drop, recovered);
    var refs := ContentRefs(ix, inp.config.threshold, run, recovered);
    StoryIs(inp, f, run);
    if ScoreFact(inp, run, f) {
      ScoreBears(inp, lane, nodes, ix, run, recovered) by {
        ScoreFactHas(inp, run, f);
      }
      ScoreFactHas(inp, run, f);
      var r := Ref(ix.score[run], ScoreRole(ix, inp.config.threshold, run));
      RefFrom(ix, inp.config.threshold, run, recovered, r);
      ScoreFactOne(inp, run, f, ix.findings[r.index]);
      CitedBy(ix.findings, refs, r, f);
    } else if FlagFact(inp, run, f) {
      var i :| i in At(ix.flags, run) && i < |ix.findings| && ix.findings[i] == f;
      RefFrom(ix, inp.config.threshold, run, recovered, Ref(i, Supporting));
      CitedBy(ix.findings, refs, Ref(i, Supporting), f);
    } else if SignalFact(inp, run, f) {
      var i :| i in At(ix.signals, run) && i < |ix.findings| && ix.findings[i] == f;
      RefFrom(ix, inp.config.threshold, run, recovered, Ref(i, Supporting));
      SignalCited(ix.findings, At(ix.signals, run), i);
      var r :| r in SignalRefs(ix.findings, At(ix.signals, run)) && r.index == i;
      RefFrom(ix, inp.config.threshold, run, recovered, r);
      CitedBy(ix.findings, refs, r, f);
    } else {
      var r := CitedAt(ix.findings, TerminalRefs(ix, recovered), f);
      RefFrom(ix, inp.config.threshold, run, recovered, r);
      CitedBy(ix.findings, refs, r, f);
    }
  }

  lemma StoryIs(inp: Input, f: Finding, run: RunId)
    ensures ContentStory(inp, f, run) <==>
      ScoreFact(inp, run, f) || FlagFact(inp, run, f) || SignalFact(inp, run, f) || ContentVerdictFact(inp, f)
  {
    hide ScoreFact, FlagFact, SignalFact, ContentVerdictFact;
  }

  lemma ScoreFactHas(inp: Input, run: RunId, f: Finding)
    requires ScoreFact(inp, run, f)
    ensures HasScore(inp, run)
  {
  }

  lemma ScoreFactOne(inp: Input, run: RunId, f: Finding, g: Finding)
    requires ScoreFact(inp, run, f) && ScoreFact(inp, run, g)
    ensures f == g
  {
  }

  lemma CitedBy(fs: seq<Finding>, refs: seq<Ref>, r: Ref, f: Finding)
    requires r in refs && r.index < |fs| && fs[r.index] == f
    ensures CitesFinding(fs, refs, f)
  {
  }

  lemma CitedAt(fs: seq<Finding>, refs: seq<Ref>, f: Finding) returns (r: Ref)
    requires CitesFinding(fs, refs, f)
    ensures r in refs && r.index < |fs| && fs[r.index] == f
  {
    r :| r in refs && r.index < |fs| && fs[r.index] == f;
  }

  lemma {:induction false} SignalCited(fs: seq<Finding>, at: seq<nat>, i: nat)
    requires i in at && forall j :: j in at ==> j < |fs|
    ensures exists r :: r in SignalRefs(fs, at) && r.index == i
  {
    assert forall j :: j in at[1..] ==> j in at;
    if at[0] != i {
      assert at == [at[0]] + at[1..];
      SignalCited(fs, at[1..], i);
      var r :| r in SignalRefs(fs, at[1..]) && r.index == i;
      assert r in SignalRefs(fs, at);
    } else {
      assert SignalRefs(fs, at)[0].index == i;
    }
  }

  predicate HardAt(ix: Index, run: RunId) {
    run in ix.drop && ix.drop[run] < |ix.findings| && ix.findings[ix.drop[run]].channel == Hard
  }

  // Main result: a content claim cites the fall, the score, the flags and the failed checks recorded of its run and the
  // terminal verdict, each as it bears on the claim, all of them and nothing else; it is deterministic exactly when a
  // check on the run failed, or its fall was recorded as a hard fact.
  lemma ContentClaim(inp: Input, lane: set<RunId>, nodes: seq<RunId>, ix: Index, run: RunId, assumed: bool,
                     recovered: bool)
    requires Indexes(inp, lane, nodes, ix) && Bounded(ix) && run in nodes
    ensures var d := ContentDefect(inp, ix, run, assumed, recovered);
      && d.kind == ContentFault && d.origin == Localized(run) && d.recovered == recovered && d.propagation == []
      && d.baseAssumed == assumed && d.boundary == assumed && Ascending(d.refs)
      && (forall r :: r in d.refs ==>
         r.index < |ix.findings| && Bears(inp, run, run in ix.drop, recovered, ix.findings[r.index], r.role))
      && (forall f :: ContentStory(inp, f, run) ==> CitesFinding(ix.findings, d.refs, f))
      && (run in ix.drop ==> Ref(ix.drop[run], Supporting) in d.refs)
      && (d.channel == Hard <==> HardAt(ix, run) || FailsCheck(inp, run))
  {
    hide *;
    var refs := ContentRefs(ix, inp.config.threshold, run, recovered);
    ContentRoles(inp, lane, nodes, ix, run, recovered);
    RolesConsistent(ix, inp.config.threshold, run, recovered, refs);
    RefsBear(inp, lane, nodes, ix, run, recovered);
    OrderedKeeps(refs);
    ContentFields(inp, ix, run, assumed, recovered);
    SameCited(ix.findings, refs, Ordered(refs));
    forall f ensures ContentStory(inp, f, run) ==> CitesFinding(ix.findings, Ordered(refs), f) {
      StoryIs(inp, f, run);
      if ContentStory(inp, f, run) {
        RefsCite(inp, lane, nodes, ix, run, recovered, f);
      }
    }
    ContentChannel(inp, lane, nodes, ix, run, recovered, Ordered(refs)) by {
      forall f | SignalFact(inp, run, f) ensures CitesFinding(ix.findings, Ordered(refs), f) {
        StoryIs(inp, f, run);
      }
    }
  }

  lemma SameCited(fs: seq<Finding>, refs: seq<Ref>, sorted: seq<Ref>)
    requires forall r :: r in sorted <==> r in refs
    ensures forall f :: CitesFinding(fs, refs, f) ==> CitesFinding(fs, sorted, f)
  {
  }

  lemma ContentFields(inp: Input, ix: Index, run: RunId, assumed: bool, recovered: bool)
    requires Bounded(ix)
    ensures var d, refs :=
        ContentDefect(inp, ix, run, assumed, recovered), Ordered(ContentRefs(ix, inp.config.threshold, run, recovered));
      && d.kind == ContentFault && d.origin == Localized(run) && d.recovered == recovered && d.propagation == []
      && d.baseAssumed == assumed && d.boundary == assumed && d.refs == refs
      && d.channel == ChannelOf(ix.findings, refs)
    ensures run in ix.drop ==>
      Ref(ix.drop[run], Supporting) in ContentRefs(ix, inp.config.threshold, run, recovered)
  {
    hide Ordered, ChannelOf, TerminalRefs, Cite, SignalRefs;
  }

  // A supporting reference of the claim to a hard finding is a failed check, or the fall.
  lemma HardIsSignal(inp: Input, lane: set<RunId>, nodes: seq<RunId>, ix: Index, run: RunId, recovered: bool, r: Ref)
    requires Indexes(inp, lane, nodes, ix) && Bounded(ix) && run in nodes
    requires r in ContentRefs(ix, inp.config.threshold, run, recovered) && r.index < |ix.findings|
    requires r.role == Supporting && ix.findings[r.index].channel == Hard
    ensures HardAt(ix, run) || SignalFact(inp, run, ix.findings[r.index])
  {
    hide *;
    ListsOf(inp, lane, nodes, ix);
    FlagsListed(inp, nodes, ix, run);
    SignalsKept(inp, nodes, ix, run);
    RefFrom(ix, inp.config.threshold, run, recovered, r);
    if run in ix.score {
      ScoreKept(inp, lane, nodes, ix, run);
    }
    TerminalBears(inp, lane, nodes, ix, run, run in ix.drop, recovered);
    TerminalAt(inp, lane, nodes, ix, recovered);
    TerminalJudged(ix, inp, run, run in ix.drop, recovered, r);
    JudgedFacts(inp, run, ix.findings[r.index]);
    HardDrop(ix, run);
  }

  lemma HardDrop(ix: Index, run: RunId)
    ensures run in ix.drop && ix.drop[run] < |ix.findings| && ix.findings[ix.drop[run]].channel == Hard ==>
      HardAt(ix, run)
  {
  }

  lemma TerminalJudged(ix: Index, inp: Input, run: RunId, fallen: bool, recovered: bool, r: Ref)
    requires Bounded(ix) && r.index < |ix.findings|
    requires r in TerminalRefs(ix, recovered) ==>
      Bears(inp, run, fallen, recovered, ix.findings[r.index], r.role) && ix.findings[r.index].kind == TerminalContent
    ensures r in TerminalRefs(ix, recovered) ==> ix.findings[r.index].channel == Judged
  {
    hide Bounded, TerminalRefs;
  }

  lemma JudgedFacts(inp: Input, run: RunId, f: Finding)
    ensures ScoreFact(inp, run, f) || FlagFact(inp, run, f) ==> f.channel == Judged
  {
  }

  lemma ContentChannel(inp: Input, lane: set<RunId>, nodes: seq<RunId>, ix: Index, run: RunId, recovered: bool,
                       refs: seq<Ref>)
    requires Indexes(inp, lane, nodes, ix) && Bounded(ix) && run in nodes
    requires forall r :: r in refs <==> r in ContentRefs(ix, inp.config.threshold, run, recovered)
    requires forall r :: r in refs ==>
      r.index < |ix.findings| && Bears(inp, run, run in ix.drop, recovered, ix.findings[r.index], r.role)
    requires forall f :: SignalFact(inp, run, f) ==> CitesFinding(ix.findings, refs, f)
    requires run in ix.drop ==> Ref(ix.drop[run], Supporting) in refs
    ensures ChannelOf(ix.findings, refs) == Hard <==>
      HardAt(ix, run) || FailsCheck(inp, run)
  {
    hide Indexes, Bounded, ContentRefs;
    if run in inp.scores {
      if s :| s in inp.scores[run].signals && s.fail {
        var f := SignalFinding(run, s);
        assert SaysSignal(run, s, f) && SignalFact(inp, run, f);
        var r :| r in refs && r.index < |ix.findings| && ix.findings[r.index] == f;
        assert r.role == Supporting && f.channel == Hard;
      }
    }
    if r :| r in refs && r.role == Supporting && r.index < |ix.findings| && ix.findings[r.index].channel == Hard {
      HardIsSignal(inp, lane, nodes, ix, run, recovered, r);
    }
  }

  // ---------- A contract claim ----------

  predicate Rewrote(inp: Input, run: RunId, v: Violation) {
    run in inp.scores && v in inp.scores[run].violations
  }

  ghost predicate RewroteKey(inp: Input, run: RunId, key: string) {
    exists v :: Rewrote(inp, run, v) && v.key == key
  }

  // The file type `v` rewrote to is the one observed at the terminal.
  predicate ExplainsShape(inp: Input, v: Violation) {
    && inp.terminal.Some? && inp.terminal.value.formObserved.Some?
    && (inp.terminal.value.formBad || inp.terminal.value.formRequirement.Some?)
    && var seen := inp.terminal.value.formObserved.value;
    && (v.key == "file_type" || v.key == "filetype" || v.key == "format" || v.key == "target_format")
    && seen in inp.fileTypes && v.to in inp.fileTypes && inp.fileTypes[v.to] == inp.fileTypes[seen]
  }

  // How a finding bears on the claim that `run` broke its contract.
  ghost predicate BearsBreach(inp: Input, run: RunId, f: Finding, role: Role) {
    match f.kind
    case ContractBreach => BreachFact(inp, run, f) && role == Supporting
    case BreachPropagated => f.data.key.Some? && RewroteKey(inp, run, f.data.key.value) && role == Supporting
    case BreachCorrected => f.data.key.Some? && RewroteKey(inp, run, f.data.key.value) && role == Context
    case TerminalForm =>
      FormVerdictFact(inp, f) && (exists v :: Rewrote(inp, run, v) && ExplainsShape(inp, v)) && role == Context
    case _ => false
  }

  // What is known of the fate of a rewritten key downstream.
  predicate Verified(ix: Index, key: string) {
    key in ix.propagated || key in ix.corrected
  }

  // Where the breach of `key` was found shipped.
  predicate ShippedIn(ix: Index, key: string, where: RunId) {
    && key in ix.propagated && ix.propagated[key] < |ix.findings|
    && ix.findings[ix.propagated[key]].data.deliverable == Some(where)
  }

  ghost predicate KeyAt(ix: Index, at: seq<nat>, key: string) {
    exists i :: i in at && i < |ix.findings| && KeyOfFinding(ix.findings[i]) == key
  }

  lemma {:induction false} FateIs(ix: Index, at: seq<nat>)
    requires Bounded(ix) && forall i :: i in at ==> i < |ix.findings|
    ensures forall r :: r in FateRefs(ix, at).0 <==> exists key :: KeyAt(ix, at, key) && FateRef(ix, key, r)
    ensures forall w :: w in FateRefs(ix, at).1 <==> exists key :: KeyAt(ix, at, key) && ShippedIn(ix, key, w)
    ensures FateRefs(ix, at).2 <==> exists key :: KeyAt(ix, at, key) && Verified(ix, key)
  {
    hide Bounded, KeyOfFinding;
    if at != [] {
      assert forall i :: i in at[1..] ==> i in at;
      assert at == [at[0]] + at[1..] && at[0] in at;
      var first := KeyOfFinding(ix.findings[at[0]]);
      FateIs(ix, at[1..]);
      forall key ensures KeyAt(ix, at, key) <==> key == first || KeyAt(ix, at[1..], key) {
      }
      FateNext(ix, at);
      hide KeyAt, FateRef, ShippedIn, Verified, FateRefs;
    }
  }

  predicate FateRef(ix: Index, key: string, r: Ref) {
    (key in ix.propagated && r == Ref(ix.propagated[key], Supporting)) ||
    (key in ix.corrected && r == Ref(ix.corrected[key], Context))
  }

  lemma FateNext(ix: Index, at: seq<nat>)
    requires Bounded(ix) && at != [] && at[0] < |ix.findings| && forall i :: i in at ==> i < |ix.findings|
    ensures forall i :: i in at[1..] ==> i in at
    ensures var first, rest := KeyOfFinding(ix.findings[at[0]]), FateRefs(ix, at[1..]);
      && (forall r :: r in FateRefs(ix, at).0 <==> FateRef(ix, first, r) || r in rest.0)
      && (forall w :: w in FateRefs(ix, at).1 <==> ShippedIn(ix, first, w) || w in rest.1)
      && (FateRefs(ix, at).2 <==> Verified(ix, first) || rest.2)
  {
    assert forall i :: i in at[1..] ==> i in at;
    hide KeyOfFinding;
    var key := KeyOfFinding(ix.findings[at[0]]);
    assert key in ix.propagated ==> ix.propagated[key] < |ix.findings|;
    hide Bounded;
  }

  lemma BreachesAreRewrites(inp: Input, nodes: seq<RunId>, ix: Index, run: RunId)
    requires ListEach(ix.findings, ix.contract, Elements(nodes), BreachMaker(inp)) && run in nodes
    ensures forall i :: i in At(ix.contract, run) ==>
      i < |ix.findings| && exists v :: Rewrote(inp, run, v) && ix.findings[i] == BreachFinding(run, v)
    ensures forall v :: Rewrote(inp, run, v) ==>
      exists i :: i in At(ix.contract, run) && i < |ix.findings| && ix.findings[i] == BreachFinding(run, v)
  {
    BreachesKept(inp, nodes, ix, run);
    hide ListEach;
    forall f ensures BreachFact(inp, run, f) <==> exists v :: Rewrote(inp, run, v) && f == BreachFinding(run, v) {
      if BreachFact(inp, run, f) {
        var v :| v in inp.scores[run].violations && f == BreachFinding(run, v);
        assert Rewrote(inp, run, v);
      }
    }
    hide BreachFinding, BreachFact, Rewrote;
  }

  lemma BreachKey(run: RunId, v: Violation)
    ensures KeyOfFinding(BreachFinding(run, v)) == v.key
  {
  }

  // The keys broken at a run are those of its recorded breaches.
  lemma KeysBroken(inp: Input, nodes: seq<RunId>, ix: Index, run: RunId)
    requires ListEach(ix.findings, ix.contract, Elements(nodes), BreachMaker(inp)) && run in nodes
    ensures forall key :: KeyAt(ix, At(ix.contract, run), key) <==> RewroteKey(inp, run, key)
  {
    BreachesAreRewrites(inp, nodes, ix, run);
    hide ListEach, BreachFinding, Rewrote, KeyOfFinding;
    var at := At(ix.contract, run);
    forall key ensures KeyAt(ix, at, key) <==> RewroteKey(inp, run, key) {
      if RewroteKey(inp, run, key) {
        var v :| Rewrote(inp, run, v) && v.key == key;
        var i :| i in at && i < |ix.findings| && ix.findings[i] == BreachFinding(run, v);
        BreachKey(run, v);
      }
      if KeyAt(ix, at, key) {
        var i :| i in at && i < |ix.findings| && KeyOfFinding(ix.findings[i]) == key;
        var v :| Rewrote(inp, run, v) && ix.findings[i] == BreachFinding(run, v);
        BreachKey(run, v);
      }
    }
  }

  // The form is cited exactly when some breach of the run explains it.
  lemma ShapeExplained(inp: Input, lane: set<RunId>, nodes: seq<RunId>, ix: Index, run: RunId)
    requires Indexes(inp, lane, nodes, ix) && Bounded(ix) && run in nodes
    ensures forall i :: i in At(ix.contract, run) ==> i < |ix.findings|
    ensures
      (ix.terminalForm.Some? && exists i :: i in At(ix.contract, run) && ExplainsForm(inp, ix, i)) <==>
      exists v :: Rewrote(inp, run, v) && ExplainsShape(inp, v)
    ensures ix.terminalForm.Some? ==>
      ix.terminalForm.value < |ix.findings| && FormVerdictFact(inp, ix.findings[ix.terminalForm.value])
  {
    hide *;
    ListsOf(inp, lane, nodes, ix);
    FormKept(inp, lane, nodes, ix);
    BreachesKept(inp, nodes, ix, run);
    if v :| Rewrote(inp, run, v) && ExplainsShape(inp, v) {
      var i := BreachOf(inp, nodes, ix, run, v);
      Explained(inp, lane, nodes, ix, run, i, v);
    }
    if ix.terminalForm.Some? && exists i :: i in At(ix.contract, run) && ExplainsForm(inp, ix, i) {
      var i :| i in At(ix.contract, run) && ExplainsForm(inp, ix, i);
      var v := RewriteOf(inp, nodes, ix, run, i);
      Explained(inp, lane, nodes, ix, run, i, v);
    }
  }

  lemma BreachOf(inp: Input, nodes: seq<RunId>, ix: Index, run: RunId, v: Violation) returns (i: nat)
    requires ListEach(ix.findings, ix.contract, Elements(nodes), BreachMaker(inp)) && run in nodes
    requires Rewrote(inp, run, v)
    ensures i in At(ix.contract, run) && i < |ix.findings| && ix.findings[i] == BreachFinding(run, v)
  {
    BreachesAreRewrites(inp, nodes, ix, run);
    hide ListEach, BreachFinding, Rewrote;
    i :| i in At(ix.contract, run) && i < |ix.findings| && ix.findings[i] == BreachFinding(run, v);
  }

  lemma RewriteOf(inp: Input, nodes: seq<RunId>, ix: Index, run: RunId, i: nat) returns (v: Violation)
    requires ListEach(ix.findings, ix.contract, Elements(nodes), BreachMaker(inp)) && run in nodes
    requires i in At(ix.contract, run)
    ensures i < |ix.findings| && Rewrote(inp, run, v) && ix.findings[i] == BreachFinding(run, v)
  {
    BreachesAreRewrites(inp, nodes, ix, run);
    hide ListEach, BreachFinding, Rewrote;
    v :| Rewrote(inp, run, v) && ix.findings[i] == BreachFinding(run, v);
  }

  lemma Explained(inp: Input, lane: set<RunId>, nodes: seq<RunId>, ix: Index, run: RunId, i: nat, v: Violation)
    requires Indexes(inp, lane, nodes, ix) && Bounded(ix) && i < |ix.findings|
    requires ix.findings[i] == BreachFinding(run, v)
    ensures ix.terminalForm.Some? && ExplainsForm(inp, ix, i) <==> ExplainsShape(inp, v)
  {
    FormKept(inp, lane, nodes, ix);
    hide Indexes, Bounded, FormVerdictFact;
  }

  lemma FormKept(inp: Input, lane: set<RunId>, nodes: seq<RunId>, ix: Index)
    requires Indexes(inp, lane, nodes, ix)
    ensures ix.terminalForm.Some? ==>
      ix.terminalForm.value < |ix.findings| && FormVerdictFact(inp, ix.findings[ix.terminalForm.value]) &&
      inp.terminal.Some? && (inp.terminal.value.formBad || inp.terminal.value.formRequirement.Some?) &&
      ix.findings[ix.terminalForm.value].data.observed == inp.terminal.value.formObserved
    ensures inp.terminal.Some? && (inp.terminal.value.formBad || inp.terminal.value.formRequirement.Some?) ==>
      ix.terminalForm.Some?
  {
    hide NodesIndexed, ListEach, RunsIndexed, DropsIndexed, KeysIndexed;
  }

  lemma ContractFields(inp: Input, ix: Index, run: RunId, marker: bool)
    requires Bounded(ix)
    ensures forall i :: i in At(ix.contract, run) ==> i < |ix.findings|
    ensures var d, parts := ContractDefect(inp, ix, run, marker), ContractRefs(inp, ix, run);
      var fate := FateRefs(ix, At(ix.contract, run));
      && d.kind == ContractFault && d.origin == Localized(run) && d.refs == Ordered(parts.0) && !d.recovered
      && d.propagation == fate.1 && (d.unverifiedContent <==> marker && !fate.2)
      && forall r :: r in parts.0 <==>
        (r.role == Supporting && r.index in At(ix.contract, run)) || r in fate.0 ||
        (ix.terminalForm.Some? && r == Ref(ix.terminalForm.value, Context) &&
         exists i :: i in At(ix.contract, run) && ExplainsForm(inp, ix, i))
  {
    assert forall i :: i in At(ix.contract, run) ==> i < |ix.findings|;
    hide Ordered, ChannelOf, FateRefs, Bounded, ExplainsForm;
  }

  lemma BreachRefs(inp: Input, lane: set<RunId>, nodes: seq<RunId>, ix: Index, run: RunId, r: Ref)
    requires Indexes(inp, lane, nodes, ix) && Bounded(ix) && run in nodes && r in ContractRefs(inp, ix, run).0
    ensures r.index < |ix.findings| && BearsBreach(inp, run, ix.findings[r.index], r.role)
  {
    hide *;
    ContractFields(inp, ix, run, false);
    ListsOf(inp, lane, nodes, ix);
    BreachesKept(inp, nodes, ix, run);
    KeysBroken(inp, nodes, ix, run);
    ShapeExplained(inp, lane, nodes, ix, run);
    FateIs(ix, At(ix.contract, run));
    if r in FateRefs(ix, At(ix.contract, run)).0 {
      var key :| KeyAt(ix, At(ix.contract, run), key) && FateRef(ix, key, r);
      FateBears(inp, lane, nodes, ix, run, key, r);
    } else if r.index < |ix.findings| {
      BreachBears(inp, run, ix.findings[r.index]);
    }
  }

  lemma BreachBears(inp: Input, run: RunId, f: Finding)
    ensures BreachFact(inp, run, f) ==> BearsBreach(inp, run, f, Supporting)
    ensures FormVerdictFact(inp, f) && (exists v :: Rewrote(inp, run, v) && ExplainsShape(inp, v)) ==>
      BearsBreach(inp, run, f, Context)
  {
    hide ExplainsShape, Rewrote;
  }

  lemma FateBears(inp: Input, lane: set<RunId>, nodes: seq<RunId>, ix: Index, run: RunId, key: string, r: Ref)
    requires Indexes(inp, lane, nodes, ix) && FateRef(ix, key, r) && RewroteKey(inp, run, key)
    ensures r.index < |ix.findings| && BearsBreach(inp, run, ix.findings[r.index], r.role)
  {
    hide NodesIndexed, ListEach, RunsIndexed, DropsIndexed, TerminalIndexed, RewroteKey;
  }

  // Main result: a contract claim cites every breach of its run, what became of each rewritten key downstream and the
  // shipped form when a breach explains it, and nothing else. It says where the rewrites shipped, and leaves the
  // content unverified exactly when it stands alone and the fate of no key was verified.
  lemma ContractClaim(inp: Input, lane: set<RunId>, nodes: seq<RunId>, ix: Index, run: RunId, marker: bool)
    requires Indexes(inp, lane, nodes, ix) && Bounded(ix) && run in nodes
    ensures var d := ContractDefect(inp, ix, run, marker);
      && d.kind == ContractFault && d.origin == Localized(run) && !d.recovered && Ascending(d.refs)
      && (forall r :: r in d.refs ==>
         r.index < |ix.findings| && BearsBreach(inp, run, ix.findings[r.index], r.role))
      && (forall f :: BreachFact(inp, run, f) ==> CitesFinding(ix.findings, d.refs, f))
      && (forall key, r :: RewroteKey(inp, run, key) && FateRef(ix, key, r) ==> r in d.refs)
      && ((exists v :: Rewrote(inp, run, v) && ExplainsShape(inp, v)) <==>
          ix.terminalForm.Some? && Ref(ix.terminalForm.value, Context) in d.refs)
      && (forall w :: w in d.propagation <==> exists key :: RewroteKey(inp, run, key) && ShippedIn(ix, key, w))
      && (d.unverifiedContent <==> marker && forall key :: RewroteKey(inp, run, key) ==> !Verified(ix, key))
  {
    hide *;
    ContractFields(inp, ix, run, marker);
    ListsOf(inp, lane, nodes, ix);
    BreachesKept(inp, nodes, ix, run);
    KeysBroken(inp, nodes, ix, run);
    ShapeExplained(inp, lane, nodes, ix, run);
    FateIs(ix, At(ix.contract, run));
    var refs, at := ContractRefs(inp, ix, run).0, At(ix.contract, run);
    forall r | r in refs ensures PlaysBreach(ix, Context, Context, r) {
      BreachRefs(inp, lane, nodes, ix, run, r);
      BearsPlays(inp, ix, run, r);
    }
    forall r | r in refs
      ensures r.index < |ix.findings| && BearsBreach(inp, run, ix.findings[r.index], r.role)
    {
      BreachRefs(inp, lane, nodes, ix, run, r);
    }
    BreachesConsistent(ix, Context, Context, refs);
    OrderedKeeps(refs);
    forall f | BreachFact(inp, run, f) ensures CitesFinding(ix.findings, Ordered(refs), f) {
      var i :| i in at && i < |ix.findings| && ix.findings[i] == f;
      CitedBy(ix.findings, Ordered(refs), Ref(i, Supporting), f);
    }
    if ix.terminalForm.Some? && Ref(ix.terminalForm.value, Context) in refs {
      FormIsOnly(inp, lane, nodes, ix, run, Ref(ix.terminalForm.value, Context));
    }
  }

  lemma BearsPlays(inp: Input, ix: Index, run: RunId, r: Ref)
    requires r.index < |ix.findings| && BearsBreach(inp, run, ix.findings[r.index], r.role)
    ensures PlaysBreach(ix, Context, Context, r)
  {
    hide BreachFact, FormVerdictFact, RewroteKey, ExplainsShape, Rewrote;
  }

  // A reference to the form is there for what it explains.
  lemma FormIsOnly(inp: Input, lane: set<RunId>, nodes: seq<RunId>, ix: Index, run: RunId, r: Ref)
    requires Indexes(inp, lane, nodes, ix) && Bounded(ix) && run in nodes && r in ContractRefs(inp, ix, run).0
    requires ix.terminalForm.Some? && r.index == ix.terminalForm.value
    ensures exists v :: Rewrote(inp, run, v) && ExplainsShape(inp, v)
  {
    BreachRefs(inp, lane, nodes, ix, run, r);
    FormAt(inp, lane, nodes, ix);
    hide Indexes, Bounded, ContractRefs, BreachFact, FormVerdictFact, RewroteKey, ExplainsShape, Rewrote;
  }

  // ---------- A form claim ----------

  // How a finding bears on the claim that the deliverable shipped in the wrong form, with or without a cause.
  ghost predicate BearsForm(inp: Input, a: Anchor, f: Finding, role: Role) {
    match f.kind
    case TerminalForm => FormVerdictFact(inp, f) && role == Supporting
    case ContractBreach => a.Anchored? && role == Supporting &&
      exists v :: Rewrote(inp, a.run, v) && ExplainsShape(inp, v) && f == BreachFinding(a.run, v)
    case BreachPropagated =>
      a.Anchored? && role == Supporting && f.data.key.Some? && RewroteKey(inp, a.run, f.data.key.value)
    case DetectionGap => MissedFormFact(inp, f) && role == if a.Anchored? then Context else Supporting
    case _ => false
  }

  lemma AnchorIs(inp: Input, lane: set<RunId>, nodes: seq<RunId>, ix: Index, a: Anchor) returns (v: Violation)
    requires Indexes(inp, lane, nodes, ix) && Bounded(ix) && ix.terminalForm.Some? && FoundAnchor(inp, ix, a)
    requires a.Anchored?
    ensures a.run in nodes && a.breach < |ix.findings| && ix.findings[a.breach] == BreachFinding(a.run, v)
    ensures Rewrote(inp, a.run, v) && ExplainsShape(inp, v)
  {
    var p: nat, k: nat :| IsAnchor(inp, ix, p, k) && a.run == ix.contractOrder[p] &&
      a.breach == At(ix.contract, a.run)[k] && a.breach < |ix.findings|;
    var at := At(ix.contract, a.run);
    assert at[k] in at && ExplainsForm(inp, ix, a.breach);
    hide *;
    ListsOf(inp, lane, nodes, ix);
    OrderedRun(inp, lane, nodes, ix, p);
    ListedRun(inp, nodes, ix, a.run);
    BreachesAreRewrites(inp, nodes, ix, a.run);
    v :| Rewrote(inp, a.run, v) && ix.findings[a.breach] == BreachFinding(a.run, v);
    Explained(inp, lane, nodes, ix, a.run, a.breach, v);
  }

  // A breach that explains the form is found.
  lemma AnchorWhen(inp: Input, lane: set<RunId>, nodes: seq<RunId>, ix: Index, a: Anchor, run: RunId, v: Violation)
    requires Indexes(inp, lane, nodes, ix) && Bounded(ix) && ix.terminalForm.Some? && FoundAnchor(inp, ix, a)
    requires run in nodes && Rewrote(inp, run, v) && ExplainsShape(inp, v)
    ensures a.Anchored?
  {
    hide *;
    ListsOf(inp, lane, nodes, ix);
    BreachesAreRewrites(inp, nodes, ix, run);
    var at := At(ix.contract, run);
    var i :| i in at && i < |ix.findings| && ix.findings[i] == BreachFinding(run, v);
    Explained(inp, lane, nodes, ix, run, i, v);
    AnchorAt(inp, lane, nodes, ix, a, run, i);
  }

  lemma AnchorAt(inp: Input, lane: set<RunId>, nodes: seq<RunId>, ix: Index, a: Anchor, run: RunId, i: nat)
    requires Indexes(inp, lane, nodes, ix) && Bounded(ix) && ix.terminalForm.Some? && FoundAnchor(inp, ix, a)
    requires i in At(ix.contract, run) && i < |ix.findings| && ExplainsForm(inp, ix, i)
    ensures a.Anchored?
  {
    hide *;
    OrderHas(inp, lane, nodes, ix, run);
    var at := At(ix.contract, run);
    var k: nat :| k < |at| && at[k] == i;
    var p: nat :| p < |ix.contractOrder| && ix.contractOrder[p] == run;
    ExplainedFound(inp, ix, a, p, k);
  }

  lemma ExplainedFound(inp: Input, ix: Index, a: Anchor, p: nat, k: nat)
    requires Bounded(ix) && ix.terminalForm.Some? && FoundAnchor(inp, ix, a) && p < |ix.contractOrder|
    requires k < |At(ix.contract, ix.contractOrder[p])| && At(ix.contract, ix.contractOrder[p])[k] < |ix.findings|
    requires ExplainsForm(inp, ix, At(ix.contract, ix.contractOrder[p])[k])
    ensures a.Anchored?
  {
    hide ExplainsForm, Bounded;
    assert Explains(inp, ix, p, k);
  }

  lemma OrderHas(inp: Input, lane: set<RunId>, nodes: seq<RunId>, ix: Index, run: RunId)
    requires Indexes(inp, lane, nodes, ix) && At(ix.contract, run) != []
    ensures exists p: nat :: p < |ix.contractOrder| && ix.contractOrder[p] == run
  {
    hide NodesIndexed, ListEach, RunsIndexed, DropsIndexed, TerminalIndexed, KeysIndexed;
    assert run in Elements(ix.contractOrder);
  }

  lemma FormBears(inp: Input, lane: set<RunId>, nodes: seq<RunId>, ix: Index, a: Anchor, r: Ref)
    requires Indexes(inp, lane, nodes, ix) && Bounded(ix) && ix.terminalForm.Some? && FoundAnchor(inp, ix, a)
    requires (a.Anchored? ==> a.breach < |ix.findings|) && r in FormRefs(inp, ix, a)
    ensures r.index < |ix.findings| && BearsForm(inp, a, ix.findings[r.index], r.role)
  {
    hide *;
    FormKept(inp, lane, nodes, ix);
    GapKept(inp, lane, nodes, ix);
    FormParts(ix, inp, a, r);
    if ix.terminalForm.Some? && r.index == ix.terminalForm.value {
      SoleForms(inp, a, ix.findings[r.index]);
    }
    if ix.detectionGap.Some? && r.index == ix.detectionGap.value {
      SoleForms(inp, a, ix.findings[r.index]);
    }
    if a.Anchored? {
      var v := AnchorIs(inp, lane, nodes, ix, a);
      BreachForms(inp, a, v);
      BreachKey(a.run, v);
      if v.key in ix.propagated {
        KeyedForms(inp, lane, nodes, ix, a, v);
      }
    }
  }

  lemma FormParts(ix: Index, inp: Input, a: Anchor, r: Ref)
    requires Bounded(ix) && (a.Anchored? ==> a.breach < |ix.findings|) && r in FormRefs(inp, ix, a)
    ensures
      || (ix.terminalForm.Some? && r == Ref(ix.terminalForm.value, Supporting))
      || (a.Anchored? && r == Ref(a.breach, Supporting))
      || (a.Anchored? && var key := KeyOfFinding(ix.findings[a.breach]);
          key in ix.propagated && r == Ref(ix.propagated[key], Supporting))
      || (ix.detectionGap.Some? && r == Ref(ix.detectionGap.value, if a.NoAnchor? then Supporting else Context))
  {
    hide KeyOfFinding, Bounded;
  }

  lemma SoleForms(inp: Input, a: Anchor, f: Finding)
    ensures FormVerdictFact(inp, f) ==> BearsForm(inp, a, f, Supporting)
    ensures MissedFormFact(inp, f) ==> BearsForm(inp, a, f, if a.Anchored? then Context else Supporting)
  {
  }

  lemma KeyedForms(inp: Input, lane: set<RunId>, nodes: seq<RunId>, ix: Index, a: Anchor, v: Violation)
    requires Indexes(inp, lane, nodes, ix) && a.Anchored? && Rewrote(inp, a.run, v) && v.key in ix.propagated
    ensures ix.propagated[v.key] < |ix.findings|
    ensures BearsForm(inp, a, ix.findings[ix.propagated[v.key]], Supporting)
  {
    KeyedKept(inp, lane, nodes, ix);
    hide Indexes, Rewrote, ExplainsShape, FormVerdictFact;
    assert RewroteKey(inp, a.run, v.key);
  }

  lemma BreachForms(inp: Input, a: Anchor, v: Violation)
    requires a.Anchored? && Rewrote(inp, a.run, v) && ExplainsShape(inp, v)
    ensures BearsForm(inp, a, BreachFinding(a.run, v), Supporting)
  {
  }

  lemma GapKept(inp: Input, lane: set<RunId>, nodes: seq<RunId>, ix: Index)
    requires Indexes(inp, lane, nodes, ix)
    ensures ix.detectionGap.Some? ==>
      ix.detectionGap.value < |ix.findings| && MissedFormFact(inp, ix.findings[ix.detectionGap.value])
    ensures forall f :: MissedFormFact(inp, f) ==>
      ix.detectionGap.Some? && ix.detectionGap.value < |ix.findings| && ix.findings[ix.detectionGap.value] == f
  {
    hide NodesIndexed, ListEach, RunsIndexed, DropsIndexed, KeysIndexed;
  }

  lemma KeyedKept(inp: Input, lane: set<RunId>, nodes: seq<RunId>, ix: Index)
    requires Indexes(inp, lane, nodes, ix)
    ensures forall k :: k in ix.propagated ==>
      IsKind(ix.findings, ix.propagated[k], BreachPropagated) && ix.findings[ix.propagated[k]].data.key == Some(k)
  {
    hide NodesIndexed, ListEach, RunsIndexed, DropsIndexed, TerminalIndexed;
  }

  ghost predicate CitesCause(inp: Input, fs: seq<Finding>, refs: seq<Ref>, run: RunId) {
    exists v :: Rewrote(inp, run, v) && ExplainsShape(inp, v) && CitesFinding(fs, refs, BreachFinding(run, v))
  }

  lemma CauseCited(inp: Input, fs: seq<Finding>, refs: seq<Ref>, run: RunId, v: Violation)
    requires Rewrote(inp, run, v) && ExplainsShape(inp, v) && CitesFinding(fs, refs, BreachFinding(run, v))
    ensures CitesCause(inp, fs, refs, run)
  {
    hide Rewrote, ExplainsShape, CitesFinding;
  }

  // Main result: a form defect is pinned on a run exactly when some recorded breach explains the shipped form, and is
  // left to the design otherwise. It cites the form and its cause; the missing gate supports it only without a cause.
  lemma FormClaim(inp: Input, lane: set<RunId>, nodes: seq<RunId>, ix: Index, a: Anchor)
    requires Indexes(inp, lane, nodes, ix) && Bounded(ix) && ix.terminalForm.Some? && FoundAnchor(inp, ix, a)
    requires a.Anchored? ==> a.breach < |ix.findings|
    ensures var d := FormDefect(inp, ix, a);
      && d.kind == FormFault && Ascending(d.refs) && d.propagation == []
      && (d.origin == Design(NoFormVerifier) || d.origin.Localized?)
      && (d.origin.Localized? <==> exists run, v :: run in nodes && Rewrote(inp, run, v) && ExplainsShape(inp, v))
      && (d.origin.Localized? ==> d.origin.run in nodes && CitesCause(inp, ix.findings, d.refs, d.origin.run))
      && (forall r :: r in d.refs ==> r.index < |ix.findings| && BearsForm(inp, a, ix.findings[r.index], r.role))
      && (forall f :: FormVerdictFact(inp, f) || MissedFormFact(inp, f) ==> CitesFinding(ix.findings, d.refs, f))
  {
    hide *;
    FormFields(inp, ix, a);
    var refs := FormRefs(inp, ix, a);
    var gap := if a.NoAnchor? then Supporting else Context;
    forall r | r in refs ensures r.index < |ix.findings| && BearsForm(inp, a, ix.findings[r.index], r.role) {
      FormBears(inp, lane, nodes, ix, a, r);
    }
    forall r | r in refs ensures PlaysBreach(ix, gap, Supporting, r) {
      AnchorRoles(inp, lane, nodes, ix, a, r);
    }
    BreachesConsistent(ix, gap, Supporting, refs);
    OrderedKeeps(refs);
    if a.Anchored? {
      var v := AnchorIs(inp, lane, nodes, ix, a);
      CitedBy(ix.findings, Ordered(refs), Ref(a.breach, Supporting), BreachFinding(a.run, v));
      CauseCited(inp, ix.findings, Ordered(refs), a.run, v);
    }
    if run, v :| run in nodes && Rewrote(inp, run, v) && ExplainsShape(inp, v) {
      AnchorWhen(inp, lane, nodes, ix, a, run, v);
    }
    FormKept(inp, lane, nodes, ix);
    GapKept(inp, lane, nodes, ix);
    forall f | FormVerdictFact(inp, f) || MissedFormFact(inp, f) ensures CitesFinding(ix.findings, Ordered(refs), f) {
      if FormVerdictFact(inp, f) {
        OneForm(inp, f, ix.findings[ix.terminalForm.value]);
        CitedBy(ix.findings, Ordered(refs), Ref(ix.terminalForm.value, Supporting), f);
      } else {
        CitedBy(ix.findings, Ordered(refs), Ref(ix.detectionGap.value, gap), f);
      }
    }
  }

  lemma OneForm(inp: Input, f: Finding, g: Finding)
    requires FormVerdictFact(inp, f) && FormVerdictFact(inp, g)
    ensures f == g
  {
  }

  lemma FormFields(inp: Input, ix: Index, a: Anchor)
    requires Bounded(ix) && (a.Anchored? ==> a.breach < |ix.findings|) && ix.terminalForm.Some?
    ensures var d, refs := FormDefect(inp, ix, a), FormRefs(inp, ix, a);
      && d.kind == FormFault && d.refs == Ordered(refs) && d.propagation == []
      && d.origin == (if a.NoAnchor? then Design(NoFormVerifier) else Localized(a.run))
      && Ref(ix.terminalForm.value, Supporting) in refs
      && (a.Anchored? ==> Ref(a.breach, Supporting) in refs)
      && (ix.detectionGap.Some? ==> Ref(ix.detectionGap.value, if a.NoAnchor? then Supporting else Context) in refs)
  {
    hide Ordered, ChannelOf, KeyOfFinding;
  }

  // ---------- What each outcome claims ----------

  lemma BrokenHasContract(inp: Input, lane: set<RunId>, nodes: seq<RunId>, ix: Index, run: RunId)
    requires Indexes(inp, lane, nodes, ix) && run in nodes
    ensures HasContract(ix, run) <==> Broke(inp, run)
  {
    ListsOf(inp, lane, nodes, ix);
    BreachesAt(inp, nodes, ix, run);
    FieldsAre(inp, run);
  }

  // A content claim is owed under a bad deliverable, without a breach, or where judged content had a say.
  predicate Owes(inp: Input, run: RunId, via: Via, bad: bool) {
    bad || !Broke(inp, run) || via == Content || via == Both
  }

  // The contract claim first, if the run broke one, then the content claim, if it owes one.
  ghost predicate PairOf(inp: Input, ix: Index, run: RunId, owed: bool, marker: bool, assumed: bool, ds: seq<Defect>)
    requires Bounded(ix)
  {
    if Broke(inp, run) && owed
    then ds == [ContractDefect(inp, ix, run, marker), ContentDefect(inp, ix, run, assumed, false)]
    else if Broke(inp, run) then ds == [ContractDefect(inp, ix, run, marker)]
    else owed && ds == [ContentDefect(inp, ix, run, assumed, false)]
  }

  // Main result: an origin claims its breach and the content it owes. Alone, the breach leaves content unverified
  // exactly when no content is claimed beside it; among several, whenever the deliverable was not found bad.
  lemma OriginClaims(inp: Input, lane: set<RunId>, nodes: seq<RunId>, ix: Index, run: RunId, via: Via, assumed: bool,
                     bad: bool)
    requires Indexes(inp, lane, nodes, ix) && Bounded(ix) && run in nodes
    ensures var owed := Owes(inp, run, via, bad);
      && PairOf(inp, ix, run, owed, !owed, assumed, EmitCutPoint(inp, ix, run, via, assumed, bad))
      && PairOf(inp, ix, run, owed, !bad, assumed, EmitOrigin(inp, ix, run, via, assumed, bad))
  {
    hide *;
    BrokenHasContract(inp, lane, nodes, ix, run);
    PairsEmitted(inp, ix, run, via, assumed, bad);
  }

  lemma PairsEmitted(inp: Input, ix: Index, run: RunId, via: Via, assumed: bool, bad: bool)
    requires Bounded(ix) && (HasContract(ix, run) <==> Broke(inp, run))
    ensures var owed := Owes(inp, run, via, bad);
      && PairOf(inp, ix, run, owed, !owed, assumed, EmitCutPoint(inp, ix, run, via, assumed, bad))
      && PairOf(inp, ix, run, owed, !bad, assumed, EmitOrigin(inp, ix, run, via, assumed, bad))
  {
    hide Bounded, Broke, HasContract, ContractDefect, ContentDefect;
  }

  // The terminal verdict as it bears on an unlocalized claim, and nothing else.
  ghost predicate RestsOnTerminal(inp: Input, ix: Index, refs: seq<Ref>) {
    && (forall r :: r in refs ==> IsTerminalRef(inp, ix, r))
    && (forall f :: ContentVerdictFact(inp, f) ==> CitesFinding(ix.findings, refs, f))
  }

  ghost predicate IsTerminalRef(inp: Input, ix: Index, r: Ref) {
    && r.index < |ix.findings| && ContentVerdictFact(inp, ix.findings[r.index])
    && inp.terminal.Some? && r.role == TerminalRole(inp.terminal.value)
  }

  function TerminalRole(t: TerminalVerdict): Role {
    if t.stale || !t.checkable then Context else if t.bad then Supporting else Refuting
  }

  lemma TerminalOnly(inp: Input, lane: set<RunId>, nodes: seq<RunId>, ix: Index)
    requires Indexes(inp, lane, nodes, ix) && Bounded(ix)
    ensures RestsOnTerminal(inp, ix, Ordered(TerminalRefs(ix, false)))
  {
    TerminalBears(inp, lane, nodes, ix, 0, false, false);
    TerminalAt(inp, lane, nodes, ix, false);
    var refs := TerminalRefs(ix, false);
    ConsistentOrdered(refs) by {
      hide Indexes, Bounded, Bears, Supported, LiveBad;
    }
    SameCited(ix.findings, refs, Ordered(refs));
    hide Indexes, Bounded, TerminalRefs, ContentVerdictFact, Ordered;
  }

  // Main result: the outcomes without an origin of their own: the whole, the deliverable alone, a near-miss, a loop.
  lemma OtherClaims(inp: Input, lane: set<RunId>, nodes: seq<RunId>, ix: Index, run: RunId, assumed: bool)
    requires Indexes(inp, lane, nodes, ix) && Bounded(ix) && run in nodes
    ensures var ds := EmitComposition(ix);
      |ds| == 1 && ds[0].kind == ContentFault && ds[0].origin == Unlocalized(OrchestrationLayer) && !ds[0].boundary &&
      RestsOnTerminal(inp, ix, ds[0].refs)
    ensures var ds, b := EmitTerminalUnlocalized(inp, ix, run), Broke(inp, run);
      |ds| == (if b then 2 else 1) && (b ==> ds[0] == ContractDefect(inp, ix, run, true)) &&
      var d := ds[|ds| - 1];
      d.kind == ContentFault && d.origin == Unlocalized(NoContentCandidate) && d.boundary && !d.baseAssumed &&
      RestsOnTerminal(inp, ix, d.refs)
    ensures EmitRecovered(inp, ix, run, assumed) ==
      if Broke(inp, run) then [ContractDefect(inp, ix, run, true)] else [ContentDefect(inp, ix, run, assumed, true)]
    ensures var ds := EmitLoop(ix, run);
      |ds| == 1 && ds[0].kind == LoopFault && ds[0].origin == Localized(run) &&
      forall r :: r in ds[0].refs ==> r.role == Supporting && r.index in At(ix.loop, run)
  {
    hide *;
    BrokenHasContract(inp, lane, nodes, ix, run);
    TerminalOnly(inp, lane, nodes, ix);
    WholeEmits(ix);
    UnplacedEmits(inp, ix, run);
    RecoveredEmits(inp, ix, run, assumed);
    LoopEmits(ix, run);
  }

  lemma WholeEmits(ix: Index)
    requires Bounded(ix)
    ensures var ds := EmitComposition(ix);
      |ds| == 1 && ds[0].kind == ContentFault && ds[0].origin == Unlocalized(OrchestrationLayer) && !ds[0].boundary &&
      ds[0].refs == Ordered(TerminalRefs(ix, false))
  {
    hide Bounded, TerminalRefs, Ordered;
  }

  lemma UnplacedEmits(inp: Input, ix: Index, run: RunId)
    requires Bounded(ix)
    ensures var ds, b := EmitTerminalUnlocalized(inp, ix, run), HasContract(ix, run);
      |ds| == (if b then 2 else 1) && (b ==> ds[0] == ContractDefect(inp, ix, run, true)) &&
      var d := ds[|ds| - 1];
      d.kind == ContentFault && d.origin == Unlocalized(NoContentCandidate) && d.boundary && !d.baseAssumed &&
      d.refs == Ordered(TerminalRefs(ix, false))
  {
    hide Bounded, TerminalRefs, Ordered, ContractDefect, HasContract;
  }

  lemma RecoveredEmits(inp: Input, ix: Index, run: RunId, assumed: bool)
    requires Bounded(ix)
    ensures EmitRecovered(inp, ix, run, assumed) ==
      if HasContract(ix, run) then [ContractDefect(inp, ix, run, true)]
      else [ContentDefect(inp, ix, run, assumed, true)]
  {
    hide Bounded, ContractDefect, ContentDefect, HasContract;
  }

  lemma LoopEmits(ix: Index, run: RunId)
    requires Bounded(ix)
    ensures var ds := EmitLoop(ix, run);
      |ds| == 1 && ds[0].kind == LoopFault && ds[0].origin == Localized(run) &&
      forall r :: r in ds[0].refs ==> r.role == Supporting && r.index in At(ix.loop, run)
  {
    OrderedKeeps(Cite(At(ix.loop, run), Supporting));
    hide Ordered, ChannelOf, Bounded;
  }

  // An external fault adds the claim of a flawed input to the content claim of its run.
  lemma ExternalClaims(inp: Input, lane: set<RunId>, nodes: seq<RunId>, ix: Index, run: RunId)
    requires Indexes(inp, lane, nodes, ix) && Bounded(ix) && run in nodes && Admits(inp, run)
    ensures var ds := EmitExternal(inp, ix, run);
      |ds| == 1 && ds[0].kind == ContentFault && ds[0].origin == External(run) &&
      (exists r :: r in ds[0].refs && AdmitsFlaw(ix, run, r)) &&
      forall r :: r in ds[0].refs ==> AdmitsFlaw(ix, run, r) || BearsAt(inp, ix, run, r)
  {
    hide *;
    FieldsAre(inp, run);
    var content := ContentRefs(ix, inp.config.threshold, run, false);
    FlawedKept(inp, lane, nodes, ix, run);
    RefsBear(inp, lane, nodes, ix, run, false);
    ContentRoles(inp, lane, nodes, ix, run, false);
    var own := Ref(ix.flawed[run], Supporting);
    OwnPlays(inp, ix, run, own);
    RolesConsistent(ix, inp.config.threshold, run, false, [own] + content);
    ExternalParts(inp, ix, run);
    assert own in [own] + content;
    ExternalBears(inp, ix, run, own, content, Ordered([own] + content));
  }

  lemma ExternalBears(inp: Input, ix: Index, run: RunId, own: Ref, content: seq<Ref>, refs: seq<Ref>)
    requires own.role == Supporting && own.index < |ix.findings| && FlawedFactOf(run, ix.findings[own.index])
    requires forall r :: r in content ==>
      r.index < |ix.findings| && Bears(inp, run, run in ix.drop, false, ix.findings[r.index], r.role)
    requires forall r :: r in refs <==> r in [own] + content
    ensures own in refs && AdmitsFlaw(ix, run, own)
    ensures forall r :: r in refs ==> AdmitsFlaw(ix, run, r) || BearsAt(inp, ix, run, r)
  {
    hide Bears, FlawedFactOf;
    assert own in [own] + content;
  }

  predicate AdmitsFlaw(ix: Index, run: RunId, r: Ref) {
    r.role == Supporting && r.index < |ix.findings| && FlawedFactOf(run, ix.findings[r.index])
  }

  ghost predicate BearsAt(inp: Input, ix: Index, run: RunId, r: Ref) {
    r.index < |ix.findings| && Bears(inp, run, run in ix.drop, false, ix.findings[r.index], r.role)
  }

  predicate FlawedFactOf(run: RunId, f: Finding) {
    f.kind == FlawedInput && f.subject == OfRun(run)
  }

  lemma FlawedKept(inp: Input, lane: set<RunId>, nodes: seq<RunId>, ix: Index, run: RunId)
    requires Indexes(inp, lane, nodes, ix) && Bounded(ix) && run in nodes && InputFlawed(inp, run)
    ensures run in ix.flawed && ix.flawed[run] < |ix.findings| && FlawedFactOf(run, ix.findings[ix.flawed[run]])
  {
    hide ListEach, RunsIndexed, KeysIndexed, TerminalIndexed, DropsIndexed;
    assert run in FlawedRuns(inp, nodes);
    assert Holds(ix.findings, ix.flawed[run], FlawedMaker(lane)(run));
  }

  lemma OwnPlays(inp: Input, ix: Index, run: RunId, own: Ref)
    requires Bounded(ix) && own.index < |ix.findings| && FlawedFactOf(run, ix.findings[own.index])
    requires own.role == Supporting
    ensures PlaysRole(ix, inp.config.threshold, run, false, own)
  {
    hide Bounded;
  }

  lemma ExternalParts(inp: Input, ix: Index, run: RunId)
    requires Bounded(ix) && run in ix.flawed
    ensures var ds := EmitExternal(inp, ix, run);
      |ds| == 1 && ds[0].kind == ContentFault && ds[0].origin == External(run) &&
      ds[0].refs == Ordered([Ref(ix.flawed[run], Supporting)] + ContentRefs(ix, inp.config.threshold, run, false))
  {
    hide Ordered, ContentRefs, ChannelOf;
  }
}
