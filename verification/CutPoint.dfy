// Origins of the fault, judged per super-node: score drops, degraded boundaries, breaks inside a cycle,
// slow erosion along a chain, and hard checks. This module holds the specification; Localize the loops.

module CutPoint {
  import opened Prelude
  import opened Graphs
  import opened BlameInput
  import opened Condense
  import opened Propagation

  datatype Via = Content | Deterministic | Both

  datatype Candidate = Candidate(
    superId: nat,
    run: RunId,
    score: Option<real>,
    base: Option<real>,
    drop: Option<real>,
    unknownUpstream: bool,
    isSource: bool,
    iterations: nat,
    endTime: Option<real>,
    observedDrop: bool,
    recovered: bool,
    baseAssumed: bool,
    cumulativePath: seq<RunId>,
    via: Via,
    unmeasuredInputs: set<RunId>,
    sccMember: Option<RunId>,
    channels: Option<set<string>>,
    channelsAll: Option<set<string>>,
    tied: seq<RunId>)

  datatype Chain = Chain(superIds: seq<nat>, runIds: seq<RunId>, scores: seq<real>, drop: real)

  datatype Analysis = Analysis(
    candidates: seq<Candidate>,
    unscored: seq<nat>,
    hadSignificantDrop: bool,
    chains: seq<Chain>)

  // ---------- Scores of a set of runs ----------

  function KnownScores(inp: Input, s: set<RunId>): set<RunId> {
    set r | r in s && ScoreOf(inp, r).Some?
  }

  // The runs of `s` with the least and with the greatest known score.
  function LowestRun(inp: Input, s: set<RunId>): (r: RunId)
    requires KnownScores(inp, s) != {}
    ensures r in s && ScoreOf(inp, r).Some?
    ensures forall x :: x in s && ScoreOf(inp, x).Some? ==> ScoreOf(inp, r).value <= ScoreOf(inp, x).value
  {
    var r := Worst(inp, KnownScores(inp, s));
    assert forall x :: x in s && ScoreOf(inp, x).Some? ==> x in KnownScores(inp, s);
    r
  }

  predicate HigherFirst(inp: Input, x: RunId, y: RunId) {
    var a, b := RunStep(inp, x), RunStep(inp, y);
    a.score.Some? && b.score.Some? && (b.score.value < a.score.value || (a.score == b.score && Before(a.at, b.at)))
  }

  function HighestRun(inp: Input, s: set<RunId>): (r: RunId)
    requires KnownScores(inp, s) != {}
    ensures r in s && ScoreOf(inp, r).Some?
    ensures forall x :: x in s && ScoreOf(inp, x).Some? ==> ScoreOf(inp, x).value <= ScoreOf(inp, r).value
  {
    var r := First((x: nat, y: nat) => HigherFirst(inp, x, y), KnownScores(inp, s));
    assert forall x :: x in s && ScoreOf(inp, x).Some? ==> x in KnownScores(inp, s);
    r
  }

  function Lowest(inp: Input, s: set<RunId>): Option<real> {
    if KnownScores(inp, s) == {} then None else ScoreOf(inp, LowestRun(inp, s))
  }

  function Highest(inp: Input, s: set<RunId>): Option<real> {
    if KnownScores(inp, s) == {} then None else ScoreOf(inp, HighestRun(inp, s))
  }

  function DropFrom(base: Option<real>, score: real): Option<real> {
    if base.Some? then Some(Max(0.0, base.value - score)) else None
  }

  // Every input that was scored came in healthy, and the fall from the best of them is significant.
  predicate BrokeHere(inp: Input, preds: set<RunId>, score: real) {
    && Healthy(inp, Lowest(inp, preds))
    && DropFrom(Highest(inp, preds), score).value >= inp.config.gapThreshold
    && DropFrom(Highest(inp, preds), score).value >= inp.config.minDrop
  }

  // ---------- The condensation around one super-node ----------

  function PredExits(c: Condensation, sid: nat): set<RunId> {
    set e | e in c.dag.edges && e.1 == sid && e.0 < |c.supers| :: c.supers[e.0].exit
  }

  function SuccExits(c: Condensation, sid: nat): set<RunId> {
    set e | e in c.dag.edges && e.0 == sid && e.1 < |c.supers| :: c.supers[e.1].exit
  }

  predicate AllHealthy(inp: Input, s: set<RunId>) {
    s != {} && forall r :: r in s ==> Healthy(inp, ScoreOf(inp, r))
  }

  predicate StructuralRoot(inp: Input, c: Condensation, sid: nat)
    requires sid < |c.supers|
  {
    IsSource(c.dag, sid) && Unscored(inp, c.supers[sid].exit, "payload_missing")
  }

  // A source, or a node fed by structural roots only: it received the raw request.
  predicate SourceLike(inp: Input, c: Condensation, sid: nat) {
    IsSource(c.dag, sid) ||
    forall p :: p in c.dag.nodes && (p, sid) in c.dag.edges && p < |c.supers| ==> StructuralRoot(inp, c, p)
  }

  predicate HidesCulprit(inp: Input, c: Condensation, a: nat)
    requires a < |c.supers|
  {
    && c.supers[a].score.None?
    && !StructuralRoot(inp, c, a)
    && !Unscored(inp, c.supers[a].exit, "zero_result_set")
  }

  ghost predicate UnknownUpstream(inp: Input, c: Condensation, sid: nat) {
    exists a: nat :: IsAncestor(c.dag, a, sid) && a < |c.supers| && HidesCulprit(inp, c, a)
  }

  function Base(inp: Input, c: Condensation, sid: nat): Option<real> {
    if Highest(inp, PredExits(c, sid)).Some? then Highest(inp, PredExits(c, sid))
    else if SourceLike(inp, c, sid) then Some(1.0)
    else None
  }

  // A verdict "my input was flawed" clears a node unless the measured inputs refute it.
  predicate Excused(inp: Input, c: Condensation, sid: nat)
    requires sid < |c.supers|
  {
    && InputFlawed(inp, c.supers[sid].exit)
    && !(Healthy(inp, Lowest(inp, PredExits(c, sid))) && !IsVerifier(inp, c.supers[sid].exit))
  }

  datatype Bucket = DropOrigin | Propagating | RecoveredBoundary | NoOrigin

  predicate ObservedDrop(inp: Input, c: Condensation, sid: nat)
    requires sid < |c.supers|
  {
    c.supers[sid].score.Some? && BrokeHere(inp, PredExits(c, sid), c.supers[sid].score.value)
  }

  function BucketOf(inp: Input, c: Condensation, sid: nat): Bucket
    requires sid < |c.supers|
  {
    if c.supers[sid].score.None? || Excused(inp, c, sid) then NoOrigin
    else if ObservedDrop(inp, c, sid) then DropOrigin
    else if Lowest(inp, PredExits(c, sid)).Some? || c.supers[sid].score.value >= inp.config.threshold then NoOrigin
    else if AllHealthy(inp, SuccExits(c, sid)) then RecoveredBoundary
    else Propagating
  }

  function Channels(inp: Input, run: RunId): (Option<set<string>>, Option<set<string>>) {
    if run in inp.scores && inp.scores[run].weighed.Some?
    then (inp.scores[run].weighed, Some(inp.scores[run].components))
    else (None, None)
  }

  function NewCandidate(inp: Input, c: Condensation, sid: nat, via: Via, unknownUpstream: bool): Candidate
    requires sid < |c.supers|
  {
    var sn := c.supers[sid];
    var ch := Channels(inp, sn.exit);
    Candidate(sid, sn.exit, sn.score, None, None, unknownUpstream, IsSource(c.dag, sid), |sn.members|,
              KeyOf(inp.endTimes, sn.exit).end, false, false, false, [], via, {}, None, ch.0, ch.1, [])
  }

  ghost function EdgeCandidate(inp: Input, c: Condensation, sid: nat): Candidate
    requires sid < |c.supers| && c.supers[sid].score.Some?
  {
    var preds := PredExits(c, sid);
    NewCandidate(inp, c, sid, Content, UnknownUpstream(inp, c, sid)).(
      base := Base(inp, c, sid),
      drop := DropFrom(Base(inp, c, sid), c.supers[sid].score.value),
      observedDrop := ObservedDrop(inp, c, sid),
      recovered := AllHealthy(inp, SuccExits(c, sid)),
      baseAssumed := Lowest(inp, preds).None? && SourceLike(inp, c, sid),
      unmeasuredInputs := preds - KnownScores(inp, preds))
  }

  // The candidates of one bucket among the first k super-nodes of the topological order.
  ghost function Bucketed(inp: Input, c: Condensation, k: nat, b: Bucket): seq<Candidate>
    requires k <= |c.topo| && b != NoOrigin && forall i :: 0 <= i < |c.topo| ==> c.topo[i] < |c.supers|
  {
    if k == 0 then [] else
      Bucketed(inp, c, k - 1, b) +
      if BucketOf(inp, c, c.topo[k - 1]) == b then [EdgeCandidate(inp, c, c.topo[k - 1])] else []
  }

  ghost predicate AnyObservedDrop(inp: Input, c: Condensation)
    requires forall i :: 0 <= i < |c.topo| ==> c.topo[i] < |c.supers|
  {
    exists i :: 0 <= i < |c.topo| && ObservedDrop(inp, c, c.topo[i])
  }

  lemma BucketedNext(inp: Input, c: Condensation, k: nat, b: Bucket)
    requires k < |c.topo| && b != NoOrigin && forall i :: 0 <= i < |c.topo| ==> c.topo[i] < |c.supers|
    ensures BucketOf(inp, c, c.topo[k]) == b ==> c.supers[c.topo[k]].score.Some?
    ensures Bucketed(inp, c, k + 1, b) ==
      Bucketed(inp, c, k, b) + if BucketOf(inp, c, c.topo[k]) == b then [EdgeCandidate(inp, c, c.topo[k])] else []
  {
    hide EdgeCandidate, ObservedDrop, Excused, Lowest, AllHealthy;
  }

  // ---------- Slow erosion ----------

  // Successors that fell far enough below `score` to continue a decline.
  function Eroding(inp: Input, succs: set<RunId>, score: real): set<RunId> {
    set e | e in succs && ScoreOf(inp, e).Some? && score - ScoreOf(inp, e).value >= inp.config.cumStepMin
  }

  // The greedy step: the most degraded eroding successor, the earliest among equals.
  function NextRun(inp: Input, c: Condensation, sid: nat): (r: Option<RunId>)
    requires sid < |c.supers|
    ensures r.Some? ==> r.value in SuccExits(c, sid)
  {
    if c.supers[sid].score.None? then None else
      var fit := Eroding(inp, SuccExits(c, sid), c.supers[sid].score.value);
      if fit == {} then None else Some(Worst(inp, fit))
  }

  lemma NextIsSuccessor(inp: Input, c: Condensation, sid: nat, r: RunId)
    requires WellFormed(inp, c) && sid < |c.supers| && NextRun(inp, c, sid) == Some(r)
    ensures r in c.superOf && c.superOf[r] < |c.supers| && c.supers[c.superOf[r]].exit == r
    ensures (sid, c.superOf[r]) in c.dag.edges
    ensures |Downstream(c.dag, c.superOf[r])| < |Downstream(c.dag, sid)|
  {
    WellFormedDag(inp, c);
    var e :| e in c.dag.edges && e.0 == sid && e.1 < |c.supers| && c.supers[e.1].exit == r;
    ExitsLocated(inp, c, e.1);
    assert e == (sid, e.1);
    hide WellFormed;
    DownstreamShrinks(c.dag, sid, e.1);
  }

  lemma DownstreamShrinks(g: Graph, a: nat, b: nat)
    requires g.Valid() && Acyclic(g) && (a, b) in g.edges
    ensures |Downstream(g, b)| < |Downstream(g, a)|
  {
    NoBackEdge(g, a, b);
    EdgeReaches(g, a, b);
    forall x | x in Downstream(g, b) ensures x in Downstream(g, a) {
      ReachesTrans(g, a, b, x);
    }
    ReachesSelf(g, a);
    assert a in Downstream(g, a) && a !in Downstream(g, b);
    SubsetSize(Downstream(g, b), Downstream(g, a));
  }

  ghost function Erode(inp: Input, c: Condensation, sid: nat): (p: seq<nat>)
    requires WellFormed(inp, c) && sid < |c.supers|
    ensures p != [] && p[0] == sid && InRange(c, p)
    decreases |Downstream(c.dag, sid)|
  {
    match NextRun(inp, c, sid)
    case None => [sid]
    case Some(r) =>
      NextIsSuccessor(inp, c, sid, r);
      [sid] + Erode(inp, c, c.superOf[r])
  }

  function ScoreAt(c: Condensation, sid: nat): real
    requires sid < |c.supers|
  {
    if c.supers[sid].score.Some? then c.supers[sid].score.value else 0.0
  }

  function ChainOf(c: Condensation, p: seq<nat>): Chain
    requires p != [] && InRange(c, p)
  {
    Chain(p,
          seq<RunId>(|p|, k requires 0 <= k < |p| => assert p[k] in p; c.supers[p[k]].exit),
          seq(|p|, k requires 0 <= k < |p| => assert p[k] in p; ScoreAt(c, p[k])),
          assert p[0] in p && p[|p| - 1] in p; ScoreAt(c, p[0]) - ScoreAt(c, p[|p| - 1]))
  }

  predicate IsErosion(inp: Input, ch: Chain) {
    |ch.superIds| - 1 >= inp.config.cumMinEdges && ch.drop >= inp.config.cumDropThreshold
  }

  // The chains recorded from position k on, given the super-nodes already inside recorded ones.
  ghost function ChainsFrom(inp: Input, c: Condensation, k: nat, consumed: set<nat>): seq<Chain>
    requires WellFormed(inp, c) && k <= |c.topo| && forall i :: 0 <= i < |c.topo| ==> c.topo[i] < |c.supers|
    decreases |c.topo| - k
  {
    if k == |c.topo| then []
    else if c.topo[k] in consumed || !Healthy(inp, c.supers[c.topo[k]].score) then ChainsFrom(inp, c, k + 1, consumed)
    else
      var ch := ChainOf(c, Erode(inp, c, c.topo[k]));
      if IsErosion(inp, ch) then [ch] + ChainsFrom(inp, c, k + 1, consumed + Elements(ch.superIds))
      else ChainsFrom(inp, c, k + 1, consumed)
  }

  // One turn of the scan for heads.
  ghost predicate Skipped(inp: Input, c: Condensation, sid: nat, consumed: set<nat>) {
    sid < |c.supers| && (sid in consumed || !Healthy(inp, c.supers[sid].score))
  }

  ghost function ChainAt(inp: Input, c: Condensation, sid: nat): Chain
    requires WellFormed(inp, c) && sid < |c.supers|
  {
    ChainOf(c, Erode(inp, c, sid))
  }

  lemma ChainsNext(inp: Input, c: Condensation, k: nat, consumed: set<nat>)
    requires WellFormed(inp, c) && k < |c.topo| && forall i :: 0 <= i < |c.topo| ==> c.topo[i] < |c.supers|
    ensures ChainsFrom(inp, c, k, consumed) ==
      if Skipped(inp, c, c.topo[k], consumed) || !IsErosion(inp, ChainAt(inp, c, c.topo[k]))
      then ChainsFrom(inp, c, k + 1, consumed)
      else
        [ChainAt(inp, c, c.topo[k])] +
        ChainsFrom(inp, c, k + 1, consumed + Elements(ChainAt(inp, c, c.topo[k]).superIds))
  {
    hide WellFormed, Erode, ChainOf, IsErosion, Healthy;
  }

  lemma ChainsEnd(inp: Input, c: Condensation, consumed: set<nat>)
    requires WellFormed(inp, c) && forall i :: 0 <= i < |c.topo| ==> c.topo[i] < |c.supers|
    ensures ChainsFrom(inp, c, |c.topo|, consumed) == []
  {
    hide WellFormed;
  }

  lemma ChainsAre(inp: Input, c: Condensation)
    requires WellFormed(inp, c)
    ensures forall i :: 0 <= i < |c.topo| ==> c.topo[i] < |c.supers|
    ensures Chains(inp, c) == ChainsFrom(inp, c, 0, {})
  {
    TopoInRange(inp, c);
    hide WellFormed, ChainsFrom;
  }

  ghost function Chains(inp: Input, c: Condensation): seq<Chain>
    requires WellFormed(inp, c)
  {
    TopoInRange(inp, c);
    ChainsFrom(inp, c, 0, {})
  }

  // Settings under which a one-node chain never qualifies.
  predicate ErosionHasSteps(inp: Input) {
    inp.config.cumMinEdges >= 1 || inp.config.cumDropThreshold > 0.0
  }

  // The first eroding node, blamed for the whole decline against the healthy head.
  ghost function ErosionCandidate(inp: Input, c: Condensation, ch: Chain): Candidate
    requires ChainReady(c, ch)
  {
    NewCandidate(inp, c, ch.superIds[1], Content, UnknownUpstream(inp, c, ch.superIds[1])).(
      score := Some(ch.scores[1]),
      base := Some(ch.scores[0]),
      drop := Some(ch.drop),
      cumulativePath := ch.runIds)
  }

  ghost predicate ChainReady(c: Condensation, ch: Chain) {
    |ch.superIds| >= 2 && ch.superIds[1] < |c.supers| && |ch.scores| == |ch.superIds|
  }

  ghost function Eroded(inp: Input, c: Condensation, chains: seq<Chain>): seq<Candidate>
    requires forall ch :: ch in chains ==> ChainReady(c, ch)
  {
    if chains == [] then [] else
      var n := |chains| - 1;
      assert chains[n] in chains && ChainReady(c, chains[n]) && forall ch :: ch in chains[..n] ==> ch in chains;
      Eroded(inp, c, chains[..n]) +
      if InputFlawed(inp, c.supers[chains[n].superIds[1]].exit) then [] else [ErosionCandidate(inp, c, chains[n])]
  }

  // ---------- Breaks inside a cycle ----------

  function RunPreds(g: Graph, m: RunId): set<RunId> {
    set e | e in g.edges && e.1 == m :: e.0
  }

  function RunSuccs(g: Graph, m: RunId): set<RunId> {
    set e | e in g.edges && e.0 == m :: e.1
  }

  predicate MemberRecovered(inp: Input, g: Graph, m: RunId) {
    AllHealthy(inp, set s | s in RunSuccs(g, m) && s in inp.scores)
  }

  predicate MemberQualifies(inp: Input, g: Graph, m: RunId) {
    && ScoreOf(inp, m).Some? && !InputFlawed(inp, m)
    && if Lowest(inp, RunPreds(g, m)).Some? then BrokeHere(inp, RunPreds(g, m), ScoreOf(inp, m).value)
       else ScoreOf(inp, m).value < inp.config.threshold && !MemberRecovered(inp, g, m)
  }

  function Qualified(inp: Input, g: Graph, members: seq<RunId>): set<RunId> {
    set m | m in members && MemberQualifies(inp, g, m)
  }

  // The chosen member first in time among those with the least score, and all of those in order.
  function TiedMembers(inp: Input, g: Graph, members: seq<RunId>, best: RunId): seq<RunId> {
    Filter(members, m => MemberQualifies(inp, g, m) && ScoreOf(inp, m) == ScoreOf(inp, best))
  }

  ghost function InternalCandidate(inp: Input, c: Condensation, sid: nat): Option<Candidate>
    requires sid < |c.supers|
  {
    var sn := c.supers[sid];
    var fit := Qualified(inp, c.graph, sn.members);
    if |sn.members| < 2 || fit == {} then None else
      var m := Worst(inp, fit);
      var tied := TiedMembers(inp, c.graph, sn.members, m);
      Some(NewCandidate(inp, c, sid, Content, UnknownUpstream(inp, c, sid)).(
        score := if sn.score.Some? then sn.score else ScoreOf(inp, m),
        observedDrop := Lowest(inp, RunPreds(c.graph, m)).Some?,
        recovered := MemberRecovered(inp, c.graph, m),
        sccMember := Some(m),
        tied := if |tied| > 1 then tied else []))
  }

  ghost function Internal(inp: Input, c: Condensation, k: nat, already: set<nat>): seq<Candidate>
    requires k <= |c.topo| && forall i :: 0 <= i < |c.topo| ==> c.topo[i] < |c.supers|
  {
    if k == 0 then [] else
      var sid := c.topo[k - 1];
      var found := InternalCandidate(inp, c, sid);
      Internal(inp, c, k - 1, already) + if sid !in already && found.Some? then [found.value] else []
  }

  lemma InternalNext(inp: Input, c: Condensation, k: nat, already: set<nat>)
    requires k < |c.topo| && forall i :: 0 <= i < |c.topo| ==> c.topo[i] < |c.supers|
    ensures var found := InternalCandidate(inp, c, c.topo[k]);
      Internal(inp, c, k + 1, already) ==
      Internal(inp, c, k, already) + if c.topo[k] !in already && found.Some? then [found.value] else []
    ensures Internal(inp, c, 0, already) == []
  {
    hide InternalCandidate;
  }

  // ---------- The deterministic channel ----------

  // An ancestor already rewrote `key` to `value`.
  ghost predicate Circulates(inp: Input, c: Condensation, sid: nat, key: string, value: string) {
    exists a: nat, m: RunId, v: Violation ::
      IsAncestor(c.dag, a, sid) && a < |c.supers| && m in c.supers[a].members && v in Violations(inp, m) &&
      v.key == key && v.to == value
  }

  ghost predicate FreshContract(inp: Input, c: Condensation, sid: nat)
    requires sid < |c.supers|
  {
    exists v :: v in Violations(inp, c.supers[sid].exit) &&
      !Circulates(inp, c, sid, v.key, v.from) && !Circulates(inp, c, sid, v.key, v.to)
  }

  predicate HardFault(inp: Input, c: Condensation, sid: nat)
    requires sid < |c.supers|
  {
    DeterministicDefect(inp, c.supers[sid].exit) && !InputFlawed(inp, c.supers[sid].exit)
  }

  ghost predicate PrimaryActor(inp: Input, c: Condensation, sid: nat)
    requires sid < |c.supers|
  {
    HardFault(inp, c, sid) && (HasFailSignal(inp, c.supers[sid].exit) || FreshContract(inp, c, sid))
  }

  ghost predicate SecondaryActor(inp: Input, c: Condensation, sid: nat)
    requires sid < |c.supers|
  {
    HardFault(inp, c, sid) && !PrimaryActor(inp, c, sid)
  }

  function HardCandidate(inp: Input, c: Condensation, sid: nat): Candidate
    requires sid < |c.supers|
  {
    NewCandidate(inp, c, sid, Deterministic, false).(recovered := AllHealthy(inp, SuccExits(c, sid)))
  }

  ghost function Primaries(inp: Input, c: Condensation, k: nat): seq<Candidate>
    requires k <= |c.topo| && forall i :: 0 <= i < |c.topo| ==> c.topo[i] < |c.supers|
  {
    if k == 0 then [] else
      Primaries(inp, c, k - 1) +
      if PrimaryActor(inp, c, c.topo[k - 1]) then [HardCandidate(inp, c, c.topo[k - 1])] else []
  }

  ghost function Secondaries(inp: Input, c: Condensation, k: nat): (r: seq<nat>)
    requires k <= |c.topo| && forall i :: 0 <= i < |c.topo| ==> c.topo[i] < |c.supers|
    ensures forall x :: x in r ==> x < |c.supers| && x in c.topo[..k] && SecondaryActor(inp, c, x)
  {
    if k == 0 then [] else
      assert c.topo[..k] == c.topo[..k - 1] + [c.topo[k - 1]];
      Secondaries(inp, c, k - 1) +
      if SecondaryActor(inp, c, c.topo[k - 1]) then [c.topo[k - 1]] else []
  }

  // Everything suppressed: name the earliest reachable breach and say that its origin is not in sight.
  ghost function HardOrigins(inp: Input, c: Condensation): seq<Candidate>
    requires forall i :: 0 <= i < |c.topo| ==> c.topo[i] < |c.supers|
  {
    var out, secondary := Primaries(inp, c, |c.topo|), Secondaries(inp, c, |c.topo|);
    if out != [] || secondary == [] then out else
      assert secondary[0] in secondary;
      [NewCandidate(inp, c, secondary[0], Deterministic, true)]
  }

  // ---------- Shadowing, merging, the whole analysis ----------

  function SuperIds(cs: seq<Candidate>): set<nat> {
    set x | x in cs :: x.superId
  }

  function RunsOf(cs: seq<Candidate>): set<RunId> {
    set x | x in cs :: x.run
  }

  ghost predicate Shadowed(c: Condensation, ids: set<nat>, sid: nat) {
    exists a :: a in ids && IsAncestor(c.dag, a, sid)
  }

  ghost function Unshadowed(c: Condensation, ids: set<nat>, cs: seq<Candidate>): seq<Candidate> {
    if cs == [] then [] else
      Unshadowed(c, ids, cs[..|cs| - 1]) + if Shadowed(c, ids, cs[|cs| - 1].superId) then [] else [cs[|cs| - 1]]
  }

  // A node in both lattices is one origin; the hard evidence sits on the exit, so the drill hint goes.
  function MergeOne(det: set<RunId>, x: Candidate): Candidate {
    if x.run in det then x.(via := Both, sccMember := None) else x
  }

  function Merge(content: seq<Candidate>, det: seq<Candidate>): seq<Candidate> {
    seq(|content|, i requires 0 <= i < |content| => MergeOne(RunsOf(det), content[i])) +
    Filter(det, (x: Candidate) => x.run !in RunsOf(content))
  }

  ghost function SharpOrigins(inp: Input, c: Condensation): seq<Candidate>
    requires forall i :: 0 <= i < |c.topo| ==> c.topo[i] < |c.supers|
  {
    Bucketed(inp, c, |c.topo|, DropOrigin) + Bucketed(inp, c, |c.topo|, Propagating)
  }

  // What broke at one step: the sharp origins, then the breaks inside cycles they do not cover.
  ghost function Broken(inp: Input, c: Condensation): seq<Candidate>
    requires forall i :: 0 <= i < |c.topo| ==> c.topo[i] < |c.supers|
  {
    var sharp := SharpOrigins(inp, c);
    sharp + Internal(inp, c, |c.topo|, SuperIds(sharp))
  }

  // Erosion is consulted only when nothing broke, and then every chain needs the second node it is blamed on.
  ghost predicate Steady(inp: Input, c: Condensation)
    requires WellFormed(inp, c)
  {
    TopoInRange(inp, c);
    Broken(inp, c) == [] ==> forall ch :: ch in Chains(inp, c) ==> ChainReady(c, ch)
  }

  // The origins of the content channel before shadowing: sharp breaks, breaks inside cycles, else
  // erosion, else boundaries that recovered.
  ghost function ContentOrigins(inp: Input, c: Condensation): seq<Candidate>
    requires WellFormed(inp, c) && Steady(inp, c)
  {
    TopoInRange(inp, c);
    var found := Broken(inp, c);
    var eroded := if found == [] then Eroded(inp, c, Chains(inp, c)) else found;
    if eroded == [] then Bucketed(inp, c, |c.topo|, RecoveredBoundary) else eroded
  }

  ghost function ContentFinal(inp: Input, c: Condensation): seq<Candidate>
    requires WellFormed(inp, c) && Steady(inp, c)
  {
    Unshadowed(c, SuperIds(ContentOrigins(inp, c)), ContentOrigins(inp, c))
  }

  ghost function Candidates(inp: Input, c: Condensation): seq<Candidate>
    requires WellFormed(inp, c) && Steady(inp, c)
  {
    TopoInRange(inp, c);
    Merge(ContentFinal(inp, c), HardOrigins(inp, c))
  }
}
