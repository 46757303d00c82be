// What a recorded run says: which way its edges point, when it holds a cycle, whom its flows name.

module TraceShape {
  import opened Prelude
  import opened Graphs
  import opened Tracing

  // ---------- Edges between tracked spans ----------

  // What a recording declares by its objects: a parent, or a source handed over as a span. What a bare name points
  // at is only known of the finished run, see the graph that ships.

  ghost predicate ByParent(tracked: seq<Span>, i: nat, j: nat) {
    i < |tracked| && j < |tracked| && tracked[j].parent == Some(tracked[i])
  }

  ghost predicate ByFlow(tracked: seq<Span>, records: seq<Record>, i: nat, j: nat) {
    i < |tracked| && j < |tracked| &&
    exists x :: x in records && x.Edge? && x.flow.reader == tracked[j] && x.flow.target == Some(tracked[i])
  }

  ghost predicate Feeds(tracked: seq<Span>, records: seq<Record>, i: nat, j: nat) {
    ByParent(tracked, i, j) || ByFlow(tracked, records, i, j)
  }

  function Positions(n: nat): (s: set<nat>)
    ensures forall k: nat :: k in s <==> k < n
  {
    if n == 0 then {} else Positions(n - 1) + {n - 1}
  }

  // Spans by their position; an edge leads from a parent to its child and from a source span to its reader.
  ghost function FlowGraph(tracked: seq<Span>, records: seq<Record>): (g: Graph)
    ensures g.Valid()
  {
    var all := Positions(|tracked|);
    Graph(all, set i, j | i in all && j in all && Feeds(tracked, records, i, j) :: (i, j))
  }

  ghost predicate Positioned(tracked: seq<Span>) {
    && (forall k :: 0 <= k < |tracked| ==> tracked[k].order == k)
    && forall s :: s in tracked && s.parent.Some? && s.parent.value in tracked ==> s.parent.value.order < s.order
  }

  // Every declared flow leads from an earlier span to a later one.
  ghost predicate Forward(tracked: seq<Span>, records: seq<Record>) {
    forall x ::
      x in records && x.Edge? && x.flow.target.Some? && x.flow.target.value in tracked && x.flow.reader in tracked ==>
      x.flow.target.value.order < x.flow.reader.order
  }

  lemma ForwardEdges(tracked: seq<Span>, records: seq<Record>)
    requires Positioned(tracked) && Forward(tracked, records)
    ensures forall i: nat, j: nat :: (i, j) in FlowGraph(tracked, records).edges ==> i < j
  {
    forall i: nat, j: nat | (i, j) in FlowGraph(tracked, records).edges ensures i < j {
      assert Feeds(tracked, records, i, j);
      assert tracked[i] in tracked && tracked[j] in tracked;
    }
  }

  lemma {:induction false} WalkClimbs(g: Graph, p: seq<nat>, k: nat)
    requires IsWalk(g, p) && k < |p| && forall i: nat, j: nat :: (i, j) in g.edges ==> i < j
    ensures p[0] <= p[k] && (k > 0 ==> p[0] < p[k])
  {
    if k > 0 {
      WalkClimbs(g, p, k - 1);
      assert (p[k - 1], p[k]) in g.edges;
    }
  }

  lemma ClimbingIsAcyclic(g: Graph)
    requires forall i: nat, j: nat :: (i, j) in g.edges ==> i < j
    ensures Acyclic(g)
  {
    forall a: nat, b: nat | a != b && Reaches(g, a, b) ensures !Reaches(g, b, a) {
      Climbs(g, a, b);
      if Reaches(g, b, a) {
        Climbs(g, b, a);
      }
    }
  }

  lemma Climbs(g: Graph, a: nat, b: nat)
    requires Reaches(g, a, b) && forall i: nat, j: nat :: (i, j) in g.edges ==> i < j
    ensures a <= b
  {
    var p :| WalkFromTo(g, a, b, p);
    WalkClimbs(g, p, |p| - 1);
  }

  // ---------- Whole runs without loops ----------

  datatype State = State(tracked: seq<Span>, records: seq<Record>)

  // A step, nested span or arm; or a fan-in over the given sources.
  datatype Opening = Opened(span: Span) | Joined(span: Span, sources: seq<Source>, now: nat)

  function RecordsOf(op: Opening): seq<Record> {
    match op
    case Opened(s) => [Agent(s)]
    case Joined(s, sources, now) => [Agent(s)] + Flows(s, sources, "collect", now)
  }

  // A span just created: nothing recorded so far mentions it.
  ghost predicate IsNew(a: State, s: Span) {
    && s !in a.tracked && (forall t :: t in a.tracked ==> t.parent != Some(s))
    && forall x :: x in a.records && x.Edge? ==> x.flow.target != Some(s)
  }

  // One opening: a parent and span sources within the run were there before.
  ghost predicate Follows(a: State, op: Opening, b: State) {
    && b == State(a.tracked + [op.span], a.records + RecordsOf(op)) && op.span.order == |a.tracked| && IsNew(a, op.span)
    && (op.span.parent.Some? && op.span.parent.value in b.tracked ==> op.span.parent.value in a.tracked)
    && (op.Joined? ==> forall x :: x in op.sources && x.OfSpan? && x.span in b.tracked ==> x.span in a.tracked)
  }

  ghost predicate IsHistory(states: seq<State>, ops: seq<Opening>) {
    && |states| == |ops| + 1 && states[0] == State([], [])
    && forall i, j :: 0 <= i < |ops| && j == i + 1 ==> Follows(states[i], ops[i], states[j])
  }

  // What the recorder's own step, nested step, arm and fan-in promise of their new span is one such opening: a
  // span created by the call was known to nothing before it, and none of the sources handed in can be it.
  twostate lemma OpeningFollows(run: Run, new op: Opening)
    requires old(run.Valid()) && run.Valid() && run.enabled && fresh(op.span)
    requires run.tracked == old(run.tracked) + [op.span] && run.records == old(run.records) + RecordsOf(op)
    requires op.Joined? ==> OfSpan(op.span) !in op.sources
    ensures Follows(State(old(run.tracked), old(run.records)), op, State(run.tracked, run.records))
  {
    hide RecordsOf;
    var a := State(old(run.tracked), old(run.records));
    assert run.tracked[|a.tracked|] == op.span;
    forall t | t in a.tracked ensures t.parent != Some(op.span) {
      assert t.parent.Some? && t.parent.value.run == run ==> t.parent.value in a.tracked;
    }
  }

  ghost predicate Sound(a: State) {
    Positioned(a.tracked) && Forward(a.tracked, a.records) && forall x :: x in a.records && x.Edge? ==>
      x.flow.reader in a.tracked
  }

  lemma OpeningEdges(op: Opening, x: Record)
    requires x in RecordsOf(op) && x.Edge?
    ensures x.flow.reader == op.span && op.Joined?
    ensures (x.flow.target.Some? ==> OfSpan(x.flow.target.value) in op.sources)
  {
    if op.Joined? {
      FlowsAreEdges(op.span, op.sources, "collect", op.now);
      assert x in Flows(op.span, op.sources, "collect", op.now);
      assert IsFlowInto(op.span, "collect", x.flow);
    }
  }

  lemma OpeningIsSound(a: State, op: Opening, b: State)
    requires Sound(a) && Follows(a, op, b)
    ensures Sound(b)
  {
    hide RecordsOf;
    assert forall t :: t in a.tracked ==> t.order < |a.tracked|;
    forall x | x in b.records && x.Edge? && x !in a.records
      ensures x.flow.reader == op.span
      ensures (x.flow.target.Some? && x.flow.target.value in b.tracked ==> x.flow.target.value in a.tracked)
    {
      OpeningEdges(op, x);
    }
  }

  lemma {:induction false} HistoryIsSound(states: seq<State>, ops: seq<Opening>)
    requires IsHistory(states, ops)
    ensures Sound(states[|ops|])
  {
    if |ops| > 0 {
      var n: nat := |ops| - 1;
      HistoryIsSound(states[..|ops|], ops[..n]);
      hide Sound, Follows;
      var m := |ops|;
      assert Follows(states[n], ops[n], states[m]);
      OpeningIsSound(states[n], ops[n], states[m]);
    }
  }

  // The parents and span sources of steps, nested spans, arms and joins alone never close a cycle, in any order and
  // number.
  lemma NoLoopNoCycle(states: seq<State>, ops: seq<Opening>)
    requires IsHistory(states, ops)
    ensures Acyclic(FlowGraph(states[|ops|].tracked, states[|ops|].records))
    ensures forall i: nat, j: nat :: (i, j) in FlowGraph(states[|ops|].tracked, states[|ops|].records).edges ==> i < j
  {
    HistoryIsSound(states, ops);
    var end := states[|ops|];
    ForwardEdges(end.tracked, end.records);
    ClimbingIsAcyclic(FlowGraph(end.tracked, end.records));
    hide IsHistory;
  }

  // ---------- Arms ----------

  // `p` is the parent of `s` within the run, or the parent of its parent, and so on.
  ghost predicate Above(tracked: seq<Span>, p: Span, s: Span)
    decreases s.order
  {
    s.parent.Some? && s.parent.value in tracked && s.parent.value.order < s.order &&
    (p == s.parent.value || Above(tracked, p, s.parent.value))
  }

  ghost predicate UnderArm(tracked: seq<Span>, s: Span) {
    exists p :: p in tracked && p.parallel && Above(tracked, p, s)
  }

  // A nested span, an attempt or a stage opened directly inside an arm.
  ghost predicate InsideArm(tracked: seq<Span>, q: Span) {
    q in tracked && !q.parallel && q.parent.Some? && q.parent.value in tracked && q.parent.value.parallel
  }

  ghost predicate HangsInside(tracked: seq<Span>, s: Span) {
    exists q :: q in tracked && InsideArm(tracked, q) && (q == s || Above(tracked, q, s))
  }

  lemma {:induction false} ArmAbove(tracked: seq<Span>, p: Span, s: Span)
    requires Positioned(tracked) && s in tracked && !s.parallel && p in tracked && p.parallel && Above(tracked, p, s)
    ensures HangsInside(tracked, s)
    decreases s.order
  {
    var t := s.parent.value;
    if t.parallel {
      assert InsideArm(tracked, s);
    } else {
      ArmAbove(tracked, p, t);
      var q :| q in tracked && InsideArm(tracked, q) && (q == t || Above(tracked, q, t));
      assert Above(tracked, q, s);
    }
  }

  lemma {:induction false} AboveTrans(tracked: seq<Span>, p: Span, q: Span, s: Span)
    requires Above(tracked, p, q) && Above(tracked, q, s)
    ensures Above(tracked, p, s)
    decreases s.order
  {
    if q != s.parent.value {
      AboveTrans(tracked, p, q, s.parent.value);
    }
  }

  // Main result: an arm that hangs off a serial span, as every arm opened without a given step does, lies under
  // another arm exactly when that span was opened directly inside an arm or descends from one that was.
  lemma ArmUnderArm(tracked: seq<Span>, arm: Span)
    requires Positioned(tracked) && arm in tracked && arm.parent.Some? && arm.parent.value in tracked
    requires !arm.parent.value.parallel
    ensures UnderArm(tracked, arm) <==> HangsInside(tracked, arm.parent.value)
  {
    var t := arm.parent.value;
    if UnderArm(tracked, arm) {
      var p :| p in tracked && p.parallel && Above(tracked, p, arm);
      ArmAbove(tracked, p, t);
    }
    if HangsInside(tracked, t) {
      var q :| q in tracked && InsideArm(tracked, q) && (q == t || Above(tracked, q, t));
      assert Above(tracked, q.parent.value, q);
      if q != t {
        AboveTrans(tracked, q.parent.value, q, t);
      }
      assert Above(tracked, q.parent.value, arm);
    }
  }

  // ---------- Closing a loop ----------

  ghost predicate IsLoop(tracked: seq<Span>, controller: Span, attempts: seq<Span>) {
    && Positioned(tracked) && controller in tracked && attempts != []
    && (forall k :: 0 <= k < |attempts| ==> attempts[k] in tracked && attempts[k].order > controller.order)
    && forall k :: 0 <= k < |attempts| ==> attempts[k].parent == Some(if k == 0 then controller else attempts[k - 1])
  }

  lemma RetryIsLoop(loop: Retry)
    requires loop.run.Valid() && loop.Valid() && loop.attempts != []
    ensures IsLoop(loop.run.tracked, loop.span, loop.attempts)
  {
    hide CountAttempts, AttemptName, CountOf;
    forall k | 0 <= k < |loop.attempts|
      ensures loop.attempts[k].parent == Some(if k == 0 then loop.span else loop.attempts[k - 1])
    {
      assert IsAttempt(loop.span, loop.attempts, k);
    }
    RunIsPositioned(loop.run);
  }

  lemma RunIsPositioned(run: Run)
    requires run.Valid()
    ensures Positioned(run.tracked)
  {
    forall s | s in run.tracked && s.parent.Some? && s.parent.value in run.tracked
      ensures s.parent.value.order < s.order
    {
      assert s.parent.value.run == run;
    }
  }

  lemma At(tracked: seq<Span>, s: Span)
    requires Positioned(tracked) && s in tracked
    ensures s.order < |tracked| && tracked[s.order] == s
  {
    var k :| 0 <= k < |tracked| && tracked[k] == s;
  }

  // The returning flow is one edge, from the last attempt back to the controller, and nothing else changes.
  lemma ReturnIsOneEdge(tracked: seq<Span>, records: seq<Record>, controller: Span, attempts: seq<Span>, now: nat)
    requires IsLoop(tracked, controller, attempts)
    ensures var last := attempts[|attempts| - 1];
      FlowGraph(tracked, records + ReturningFlow(controller, attempts, now)).edges ==
      FlowGraph(tracked, records).edges + if last.name == controller.name then {} else {(last.order, controller.order)}
  {
    var last := attempts[|attempts| - 1];
    var more := records + ReturningFlow(controller, attempts, now);
    At(tracked, last);
    At(tracked, controller);
    forall i: nat, j: nat | i < |tracked| && j < |tracked|
      ensures ByFlow(tracked, more, i, j) <==>
        ByFlow(tracked, records, i, j) || (last.name != controller.name && i == last.order && j == controller.order)
    {
      if ByFlow(tracked, more, i, j) && !ByFlow(tracked, records, i, j) {
        var x :| x in more && x.Edge? && x.flow.reader == tracked[j] && x.flow.target == Some(tracked[i]);
        assert x in ReturningFlow(controller, attempts, now);
      }
      if ByFlow(tracked, records, i, j) {
        var x :| x in records && x.Edge? && x.flow.reader == tracked[j] && x.flow.target == Some(tracked[i]);
        assert x in more;
      }
      if last.name != controller.name {
        assert ReturningFlow(controller, attempts, now)[0] in more;
      }
    }
    hide ByFlow, ByParent;
  }

  lemma {:induction false} ChainReaches(tracked: seq<Span>, records: seq<Record>, controller: Span, attempts: seq<Span>,
                                        k: nat, m: nat)
    requires IsLoop(tracked, controller, attempts) && k <= m < |attempts|
    ensures Reaches(FlowGraph(tracked, records), attempts[k].order, attempts[m].order)
    ensures k == 0 ==> Reaches(FlowGraph(tracked, records), controller.order, attempts[m].order)
    decreases m
  {
    var g := FlowGraph(tracked, records);
    HangsBehind(tracked, records, controller, attempts, m);
    hide FlowGraph, Positioned;
    if m == 0 {
      EdgeReaches(g, controller.order, attempts[0].order);
      ReachesSelf(g, attempts[0].order);
    } else {
      EdgeReaches(g, attempts[m - 1].order, attempts[m].order);
      if k == m {
        ReachesSelf(g, attempts[m].order);
      } else {
        ChainReaches(tracked, records, controller, attempts, k, m - 1);
        ReachesTrans(g, attempts[k].order, attempts[m - 1].order, attempts[m].order);
      }
      if k == 0 {
        ChainReaches(tracked, records, controller, attempts, 0, m - 1);
        ReachesTrans(g, controller.order, attempts[m - 1].order, attempts[m].order);
      }
    }
  }

  // Each attempt hangs behind the one before it, the first behind the controller.
  lemma HangsBehind(tracked: seq<Span>, records: seq<Record>, controller: Span, attempts: seq<Span>, m: nat)
    requires IsLoop(tracked, controller, attempts) && m < |attempts|
    ensures var before := if m == 0 then controller else attempts[m - 1];
      FlowGraph(tracked, records).Valid() && (before.order, attempts[m].order) in FlowGraph(tracked, records).edges
  {
    var before := if m == 0 then controller else attempts[m - 1];
    assert before in tracked;
    At(tracked, attempts[m]);
    At(tracked, before);
    assert attempts[m].parent == Some(before);
    assert ByParent(tracked, before.order, attempts[m].order);
    hide IsLoop, Positioned, ByFlow;
  }

  // Main result: after the returning flow the controller and all its attempts lie on one cycle.
  lemma LoopIsOneCycle(tracked: seq<Span>, records: seq<Record>, controller: Span, attempts: seq<Span>, now: nat,
                       k: nat)
    requires IsLoop(tracked, controller, attempts) && k < |attempts| && attempts[|attempts| - 1].name != controller.name
    ensures var g := FlowGraph(tracked, records + ReturningFlow(controller, attempts, now));
      Mutual(g, controller.order, attempts[k].order)
  {
    var more := records + ReturningFlow(controller, attempts, now);
    var g := FlowGraph(tracked, more);
    var n := |attempts| - 1;
    ReturnIsOneEdge(tracked, records, controller, attempts, now);
    ChainReaches(tracked, more, controller, attempts, 0, k);
    ChainReaches(tracked, more, controller, attempts, k, n);
    assert (attempts[n].order, controller.order) in g.edges;
    hide FlowGraph;
    EdgeReaches(g, attempts[n].order, controller.order);
    ReachesTrans(g, attempts[k].order, attempts[n].order, controller.order);
  }

  ghost function BackEdges(g: Graph): set<(nat, nat)> {
    set e | e in g.edges && e.0 >= e.1
  }

  ghost predicate RanTwice(attempts: seq<Span>) {
    exists agent :: Twice(attempts, agent)
  }

  lemma RepeatedIs(loop: Retry)
    requires loop.Valid()
    ensures loop.Repeated() <==> RanTwice(loop.attempts)
  {
    hide Retry.Valid, Twice, CountAttempts;
    forall a ensures CountOf(loop.counts, a) >= 2 <==> Twice(loop.attempts, a) {
      CountsAgree(loop, a);
      RepeatedMeansTwice(loop.attempts, a);
    }
    if loop.Repeated() {
      var a :| a in loop.counts && loop.counts[a] >= 2;
      assert CountOf(loop.counts, a) >= 2;
    }
    if RanTwice(loop.attempts) {
      var a :| Twice(loop.attempts, a);
      assert CountOf(loop.counts, a) >= 2;
    }
  }

  // The edge from the last attempt back to the controller.
  ghost function Return(loop: Retry): set<(nat, nat)>
    reads loop`attempts
  {
    if RanTwice(loop.attempts) && loop.attempts != [] && loop.attempts[|loop.attempts| - 1].name != loop.span.name
    then {(loop.attempts[|loop.attempts| - 1].order, loop.span.order)}
    else {}
  }

  // What closing the loop adds to the records.
  ghost function Returned(loop: Retry, now: nat): seq<Record>
    reads loop, loop.run
  {
    if loop.run.enabled && loop.Repeated() then ReturningFlow(loop.span, loop.attempts, now) else []
  }

  lemma ReturnedIs(loop: Retry, now: nat)
    requires loop.run.enabled && loop.attempts != [] && (loop.Repeated() <==> RanTwice(loop.attempts))
    ensures var last := loop.attempts[|loop.attempts| - 1];
      if RanTwice(loop.attempts) then
        && Returned(loop, now) == ReturningFlow(loop.span, loop.attempts, now)
        && Return(loop) == if last.name == loop.span.name then {} else {(last.order, loop.span.order)}
      else Returned(loop, now) == [] && Return(loop) == {}
  {
    hide RanTwice, Retry.Repeated, ReturningFlow;
  }

  lemma NothingReturned(loop: Retry, now: nat)
    requires loop.attempts == []
    ensures Returned(loop, now) == [] && Return(loop) == {}
  {
    hide RanTwice, Retry.Repeated;
  }

  lemma BackEdgesGrow(a: Graph, b: Graph, more: set<(nat, nat)>)
    requires b.edges == a.edges + more && forall e :: e in more ==> e.0 >= e.1
    ensures BackEdges(b) == BackEdges(a) + more
  {
  }

  lemma LoopClimbs(tracked: seq<Span>, controller: Span, attempts: seq<Span>)
    requires IsLoop(tracked, controller, attempts)
    ensures attempts[|attempts| - 1].order > controller.order
  {
    hide Positioned;
  }

  // Main result: in any run, whatever loops closed before or enclose this one, closing a loop adds the edge from its
  // last attempt back to its controller and no other edge. It is there exactly when some agent ran at least twice
  // and the last attempt bears another name than the controller.
  lemma CloseAddsOneBackEdge(loop: Retry, now: nat)
    requires loop.run.Valid() && loop.Valid() && loop.run.enabled
    ensures var before := FlowGraph(loop.run.tracked, loop.run.records);
      var after := FlowGraph(loop.run.tracked, loop.run.records + Returned(loop, now));
      after.edges == before.edges + Return(loop) && BackEdges(after) == BackEdges(before) + Return(loop)
  {
    hide *;
    var tracked, records := loop.run.tracked, loop.run.records;
    RepeatedIs(loop);
    assert records + [] == records;
    if loop.attempts != [] {
      RetryIsLoop(loop);
      ReturnedIs(loop, now);
      ReturnIsOneEdge(tracked, records, loop.span, loop.attempts, now);
      LoopClimbs(tracked, loop.span, loop.attempts);
    } else {
      NothingReturned(loop, now);
    }
    BackEdgesGrow(FlowGraph(tracked, records), FlowGraph(tracked, records + Returned(loop, now)), Return(loop));
  }

  // ---------- Final names ----------

  predicate Earlier(s: Span, t: Span) {
    s.start < t.start || (s.start == t.start && s.id < t.id)
  }

  function Peers(all: seq<Span>, name: string): set<Span> {
    set s | s in all && s.name == name
  }

  // Same-named spans are numbered by start time.
  function Number(all: seq<Span>, s: Span): nat {
    |set t | t in all && t.name == s.name && Earlier(t, s)| + 1
  }

  function FinalName(all: seq<Span>, s: Span): string {
    if |Peers(all, s.name)| <= 1 then s.name else AttemptName(s.name, Number(all, s))
  }

  ghost predicate DistinctIds(all: seq<Span>) {
    forall s, t :: s in all && t in all && s.id == t.id ==> s == t
  }

  lemma NumbersDiffer(all: seq<Span>, s: Span, t: Span)
    requires DistinctIds(all) && s in all && t in all && s != t && s.name == t.name
    ensures Number(all, s) != Number(all, t)
  {
    var (a, b) := if Earlier(s, t) then (s, t) else (t, s);
    var before := set x | x in all && x.name == a.name && Earlier(x, a);
    var then' := set x | x in all && x.name == b.name && Earlier(x, b);
    assert a in then' && a !in before;
    SubsetSize(before, then');
  }

  lemma {:induction false} DigitsInjective(m: nat, n: nat)
    requires Digits(m) == Digits(n)
    ensures m == n
  {
    var d := Digits(m);
    var last := d[|d| - 1];
    DigitsPlain(m / 10);
    DigitsPlain(n / 10);
    assert Digits(m) == (if m < 10 then "" else Digits(m / 10)) + [('0' as int + m % 10) as char];
    assert Digits(n) == (if n < 10 then "" else Digits(n / 10)) + [('0' as int + n % 10) as char];
    assert last == ('0' as int + m % 10) as char == ('0' as int + n % 10) as char;
    assert last as int == '0' as int + m % 10 == '0' as int + n % 10;
    if m >= 10 && n >= 10 {
      assert Digits(m / 10) == d[..|d| - 1] == Digits(n / 10);
      DigitsInjective(m / 10, n / 10);
    }
  }

  lemma NumberedApart(a: string, m: nat, b: string, n: nat)
    requires AttemptName(a, m) == AttemptName(b, n)
    ensures a == b && m == n
  {
    DigitsPlain(m);
    DigitsPlain(n);
    var s := AttemptName(a, m);
    HashAt(a, m);
    HashAt(b, n);
    assert s[..|a|] == a && s[..|b|] == b;
    assert s[|a| + 1..] == Digits(m) && s[|b| + 1..] == Digits(n);
    DigitsInjective(m, n);
  }

  // The last hash of a numbered name stands right before the number.
  lemma HashAt(a: string, m: nat)
    ensures var s := AttemptName(a, m);
      |s| > |a| && s[|a|] == '#' && forall i :: |a| < i < |s| ==> s[i] != '#'
  {
    DigitsPlain(m);
    var s := AttemptName(a, m);
    forall i | |a| < i < |s| ensures s[i] != '#' {
      assert s[i] == Digits(m)[i - |a| - 1];
    }
  }

  lemma AloneIsOne(all: seq<Span>, s: Span, t: Span)
    requires s in all && t in all && s.name == t.name && |Peers(all, s.name)| <= 1
    ensures s == t
  {
    SubsetSize({s, t}, Peers(all, s.name));
  }

  // Main result: numbering separates every group; two spans can still ship one name only when an agent that
  // is alone under its name is called like the number another one was given.
  lemma CollisionIsSpelledOut(all: seq<Span>, s: Span, t: Span)
    requires DistinctIds(all) && s in all && t in all && s != t
    ensures FinalName(all, s) == FinalName(all, t) <==> TakesNumberOf(all, s, t) || TakesNumberOf(all, t, s)
  {
    hide AttemptName;
    if s.name == t.name {
      NumbersDiffer(all, s, t);
      if |Peers(all, s.name)| <= 1 {
        AloneIsOne(all, s, t);
      }
      if AttemptName(s.name, Number(all, s)) == AttemptName(t.name, Number(all, t)) {
        NumberedApart(s.name, Number(all, s), t.name, Number(all, t));
      }
    } else if |Peers(all, s.name)| > 1 && |Peers(all, t.name)| > 1 && FinalName(all, s) == FinalName(all, t) {
      NumberedApart(s.name, Number(all, s), t.name, Number(all, t));
    }
  }

  predicate TakesNumberOf(all: seq<Span>, s: Span, t: Span) {
    |Peers(all, s.name)| <= 1 && |Peers(all, t.name)| > 1 && s.name == AttemptName(t.name, Number(all, t))
  }

  // ---------- Whom a flow names ----------

  predicate Ambiguous(all: seq<Span>, name: string) {
    exists s, t :: s in all && t in all && s != t && FinalName(all, s) == name && FinalName(all, t) == name
  }

  function ResolvedName(all: seq<Span>, f: Flow): string {
    if f.target.Some? && f.target.value in all then FinalName(all, f.target.value) else f.name
  }

  // The name an emitted delegation carries; none when it cannot be pinned to one run.
  function Addressed(all: seq<Span>, f: Flow): Option<string> {
    var name := ResolvedName(all, f);
    if name == "" || Ambiguous(all, name) then None else Some(name)
  }

  // Main result: what ships names at most one agent span, and a flow addressed by object names exactly it.
  lemma AddressedIsExact(all: seq<Span>, f: Flow, name: string)
    requires Addressed(all, f) == Some(name)
    ensures forall s, t :: s in all && t in all && FinalName(all, s) == name && FinalName(all, t) == name ==> s == t
    ensures f.target.Some? && f.target.value in all ==>
      forall s :: s in all ==> (FinalName(all, s) == name <==> s == f.target.value)
  {
    hide FinalName;
  }

  // Main result: a flow addressed to a named span of the run is dropped exactly when some other span took
  // that span's shipped name.
  lemma DroppedWhenTaken(all: seq<Span>, f: Flow)
    requires DistinctIds(all) && f.target.Some? && f.target.value in all && f.target.value.name != ""
    ensures Addressed(all, f) == None <==>
      exists s :: s in all && s != f.target.value &&
        (TakesNumberOf(all, s, f.target.value) || TakesNumberOf(all, f.target.value, s))
  {
    var t := f.target.value;
    NamedStays(all, t);
    hide FinalName, TakesNumberOf;
    if Ambiguous(all, FinalName(all, t)) {
      var x, y :| x in all && y in all && x != y && FinalName(all, x) == FinalName(all, t) &&
        FinalName(all, y) == FinalName(all, t);
      var s := if x == t then y else x;
      CollisionIsSpelledOut(all, s, t);
    }
    if s :| s in all && s != t && (TakesNumberOf(all, s, t) || TakesNumberOf(all, t, s)) {
      CollisionIsSpelledOut(all, s, t);
    }
  }

  lemma NamedStays(all: seq<Span>, s: Span)
    requires s.name != ""
    ensures FinalName(all, s) != ""
  {
    assert |AttemptName(s.name, Number(all, s))| > 0;
  }

  // ---------- The export ----------

  datatype Arc = Arc(flow: Flow, target: string, stamp: nat)

  // The flows that ship, in the order they were recorded.
  function ShippedFlows(all: seq<Span>, records: seq<Record>): seq<Flow> {
    if records == [] then [] else
      var n := |records| - 1;
      ShippedFlows(all, records[..n]) +
      if records[n].Edge? && Addressed(all, records[n].flow).Some? then [records[n].flow] else []
  }

  // Never before the run it names has ended.
  function StampOf(f: Flow): nat
    reads if f.target.Some? then {f.target.value} else {}
  {
    if f.target.Some? && f.target.value.endAt.Some? && f.target.value.endAt.value > f.created
    then f.target.value.endAt.value
    else f.created
  }

  // The stamp is the least moment that is before neither the declaration nor the recorded end of the named span.
  ghost predicate StampedAtLatest(arc: Arc)
    reads if arc.flow.target.Some? then {arc.flow.target.value} else {}
  {
    var ends := if arc.flow.target.Some? then arc.flow.target.value.endAt else None;
    && arc.flow.created <= arc.stamp && (ends.Some? ==> ends.value <= arc.stamp)
    && (arc.stamp == arc.flow.created || ends == Some(arc.stamp))
  }

  method FinalNames(all: seq<Span>) returns (names: map<Span, string>)
    ensures names.Keys == (set s | s in all) && forall s :: s in names ==> names[s] == FinalName(all, s)
  {
    names := map[];
    for k := 0 to |all|
      invariant names.Keys == (set s | s in all[..k]) && forall s :: s in names ==> names[s] == FinalName(all, s)
    {
      hide FinalName;
      assert all[..k + 1] == all[..k] + [all[k]];
      names := names[all[k] := FinalName(all, all[k])];
    }
    assert all[..|all|] == all;
  }

  lemma ShippedNext(all: seq<Span>, records: seq<Record>, k: nat)
    requires k < |records|
    ensures ShippedFlows(all, records[..k + 1]) == ShippedFlows(all, records[..k]) +
      if records[k].Edge? && Addressed(all, records[k].flow).Some? then [records[k].flow] else []
  {
    assert records[..k + 1][..k] == records[..k];
  }

  method BuildArcs(run: Run) returns (arcs: seq<Arc>)
    requires run.Valid()
    ensures |arcs| == |ShippedFlows(AgentsOf(run.records), run.records)|
    ensures forall i :: 0 <= i < |arcs| ==> arcs[i].flow == ShippedFlows(AgentsOf(run.records), run.records)[i]
    ensures forall i :: 0 <= i < |arcs| ==>
      Addressed(AgentsOf(run.records), arcs[i].flow) == Some(arcs[i].target) && arcs[i].stamp == StampOf(arcs[i].flow)
    ensures forall i :: 0 <= i < |arcs| ==> StampedAtLatest(arcs[i])
    ensures run.enabled ==> forall i: nat, j: nat :: i < |run.tracked| && j < |run.tracked| ==>
      (ByArc(run.tracked, run.records, i, j) <==> exists k :: 0 <= k < |arcs| && ArcJoins(run, arcs[k], i, j))
  {
    hide *;
    var all, records := AgentsOf(run.records), run.records;
    NothingShipped(all);
    arcs := [];
    for k := 0 to |records|
      invariant |arcs| == |ShippedFlows(all, records[..k])|
      invariant forall i :: 0 <= i < |arcs| ==> arcs[i].flow == ShippedFlows(all, records[..k])[i]
      invariant forall i :: 0 <= i < |arcs| ==>
        Addressed(all, arcs[i].flow) == Some(arcs[i].target) && arcs[i].stamp == StampOf(arcs[i].flow)
      invariant forall i :: 0 <= i < |arcs| ==> StampedAtLatest(arcs[i])
    {
      ShippedNext(all, records, k);
      if records[k].Edge? {
        var f := records[k].flow;
        var target := Addressed(all, f);
        if target.Some? {
          StampIsLate(f, target.value);
          arcs := arcs + [Arc(f, target.value, StampOf(f))];
        }
      }
    }
    assert records[..|records|] == records;
    if run.enabled {
      EnabledRecords(run);
      forall i: nat, j: nat | i < |run.tracked| && j < |run.tracked|
        ensures ByArc(run.tracked, run.records, i, j) <==>
          exists k :: 0 <= k < |arcs| && ArcJoins(run, arcs[k], i, j)
      {
        PayloadIsGraph(run, arcs, i, j);
      }
    }
  }

  lemma EnabledRecords(run: Run)
    requires run.Valid() && run.enabled
    ensures AgentsOf(run.records) == run.tracked
  {
    hide AgentsOf;
  }

  lemma StampIsLate(f: Flow, target: string)
    ensures StampedAtLatest(Arc(f, target, StampOf(f)))
  {
  }

  lemma NothingShipped(all: seq<Span>)
    ensures ShippedFlows(all, []) == []
  {
  }

  // ---------- The graph that ships ----------

  // A shipped flow leads from the span whose shipped name it carries to its reader.
  ghost predicate Leads(tracked: seq<Span>, f: Flow, i: nat, j: nat) {
    && i < |tracked| && j < |tracked|
    && f.reader == tracked[j] && Addressed(tracked, f) == Some(FinalName(tracked, tracked[i]))
  }

  ghost predicate ByArc(tracked: seq<Span>, records: seq<Record>, i: nat, j: nat) {
    exists f :: f in ShippedFlows(tracked, records) && Leads(tracked, f, i, j)
  }

  // What a reader of the payload reconstructs: parents, and sources found by the name that ships.
  ghost function ShippedGraph(tracked: seq<Span>, records: seq<Record>): (g: Graph)
    ensures g.Valid()
  {
    var all := Positions(|tracked|);
    Graph(all, set i, j | i in all && j in all && (ByParent(tracked, i, j) || ByArc(tracked, records, i, j)) :: (i, j))
  }

  lemma {:induction false} ShippedAre(all: seq<Span>, records: seq<Record>)
    ensures forall f :: f in ShippedFlows(all, records) <==> Edge(f) in records && Addressed(all, f).Some?
  {
    hide Addressed;
    if records != [] {
      var n := |records| - 1;
      ShippedAre(all, records[..n]);
      assert records == records[..n] + [records[n]];
    }
  }

  ghost predicate ArcJoins(run: Run, arc: Arc, i: nat, j: nat)
    requires i < |run.tracked| && j < |run.tracked|
    reads run`tracked
  {
    arc.flow.reader == run.tracked[j] && arc.target == FinalName(run.tracked, run.tracked[i])
  }

  // The arcs built for the payload of a run are the edges of that graph.
  lemma PayloadIsGraph(run: Run, arcs: seq<Arc>, i: nat, j: nat)
    requires run.Valid() && run.enabled && i < |run.tracked| && j < |run.tracked|
    requires |arcs| == |ShippedFlows(run.tracked, run.records)|
    requires forall k :: 0 <= k < |arcs| ==> arcs[k].flow == ShippedFlows(run.tracked, run.records)[k]
    requires forall k :: 0 <= k < |arcs| ==> Addressed(run.tracked, arcs[k].flow) == Some(arcs[k].target)
    ensures ByArc(run.tracked, run.records, i, j) <==> exists k :: 0 <= k < |arcs| && ArcJoins(run, arcs[k], i, j)
  {
    hide Run.Valid, FinalName, Addressed;
    var flows := ShippedFlows(run.tracked, run.records);
    if f :| f in flows && Leads(run.tracked, f, i, j) {
      var k :| 0 <= k < |flows| && flows[k] == f;
      assert arcs[k].flow == f;
    }
    if k :| 0 <= k < |arcs| && ArcJoins(run, arcs[k], i, j) {
      assert flows[k] in flows && Leads(run.tracked, flows[k], i, j);
    }
  }

  // A flow not addressed to a span object of this run ships under the very name it was declared with.
  ghost predicate Bare(tracked: seq<Span>, f: Flow) {
    f.target.None? || f.target.value !in tracked
  }

  // A bare name that ships as the name of a span tracked no earlier than its reader.
  ghost predicate NamesAhead(tracked: seq<Span>, records: seq<Record>, i: nat, j: nat) {
    j <= i && exists f :: f in ShippedFlows(tracked, records) && Leads(tracked, f, i, j) && Bare(tracked, f)
  }

  // A flow addressed by object ships as an edge from that object, whatever names are about.
  lemma ObjectArc(tracked: seq<Span>, f: Flow, i: nat, j: nat)
    requires Leads(tracked, f, i, j) && !Bare(tracked, f)
    ensures f.target.value == tracked[i]
  {
    AddressedIsExact(tracked, f, FinalName(tracked, tracked[i]));
    hide FinalName, Addressed;
    assert tracked[i] in tracked;
  }

  lemma AheadIsEdge(tracked: seq<Span>, records: seq<Record>, i: nat, j: nat)
    requires NamesAhead(tracked, records, i, j)
    ensures (i, j) in ShippedGraph(tracked, records).edges && j <= i
  {
    hide FinalName, Addressed, ByParent;
    var f :| f in ShippedFlows(tracked, records) && Leads(tracked, f, i, j) && Bare(tracked, f);
    assert ByArc(tracked, records, i, j);
  }

  lemma ParentClimbs(a: State, i: nat, j: nat)
    requires Sound(a) && ByParent(a.tracked, i, j)
    ensures i < j
  {
    assert a.tracked[i] in a.tracked && a.tracked[j] in a.tracked;
  }

  lemma ObjectClimbs(a: State, f: Flow, i: nat, j: nat)
    requires Sound(a) && Edge(f) in a.records && Leads(a.tracked, f, i, j) && !Bare(a.tracked, f)
    ensures i < j
  {
    ObjectArc(a.tracked, f, i, j);
    hide FinalName, Addressed;
    assert a.tracked[i] in a.tracked && a.tracked[j] in a.tracked;
  }

  // Only a bare name can lead back, or to its own reader.
  lemma BackIsAhead(a: State, i: nat, j: nat)
    requires Sound(a) && (i, j) in ShippedGraph(a.tracked, a.records).edges && j <= i
    ensures NamesAhead(a.tracked, a.records, i, j)
  {
    ShippedAre(a.tracked, a.records);
    hide Sound, FinalName, Addressed, ShippedFlows, Bare, Leads;
    if ByParent(a.tracked, i, j) {
      ParentClimbs(a, i, j);
    } else {
      var f :| f in ShippedFlows(a.tracked, a.records) && Leads(a.tracked, f, i, j);
      if !Bare(a.tracked, f) {
        ObjectClimbs(a, f, i, j);
      }
    }
  }

  // A walk that ends below its start takes a step that does not climb.
  lemma {:induction false} WalkFalls(g: Graph, p: seq<nat>) returns (k: nat)
    requires IsWalk(g, p) && p[|p| - 1] < p[0]
    ensures k + 1 < |p| && p[k + 1] <= p[k]
  {
    if p[|p| - 1] <= p[|p| - 2] {
      k := |p| - 2;
    } else {
      var q := p[..|p| - 1];
      assert forall x :: x in q ==> x in p;
      k := WalkFalls(g, q);
    }
  }

  // Of two spans that reach each other, an edge that does not climb lies on the way back.
  lemma CycleFalls(g: Graph, a: nat, b: nat) returns (i: nat, j: nat)
    requires Mutual(g, a, b) && b < a
    ensures (i, j) in g.edges && j <= i && Reaches(g, j, i)
  {
    var p :| WalkFromTo(g, a, b, p);
    var k := WalkFalls(g, p);
    i, j := p[k], p[k + 1];
    SubWalk(g, p, 0, k);
    SubWalk(g, p, k + 1, |p| - 1);
    ReachesTrans(g, j, b, a);
    ReachesTrans(g, j, a, i);
  }

  lemma ShippedCycle(a: State) returns (i: nat, j: nat)
    requires Sound(a) && !Acyclic(ShippedGraph(a.tracked, a.records))
    ensures NamesAhead(a.tracked, a.records, i, j) && Reaches(ShippedGraph(a.tracked, a.records), j, i)
  {
    hide Sound, NamesAhead, ShippedGraph, Reaches, IsWalk;
    var g := ShippedGraph(a.tracked, a.records);
    if x :| (x, x) in g.edges {
      i, j := x, x;
      ReachesSelf(g, x);
    } else {
      var x: nat, y: nat :| x != y && Reaches(g, x, y) && Reaches(g, y, x);
      i, j := CycleFalls(g, if x < y then y else x, if x < y then x else y);
    }
    BackIsAhead(a, i, j);
  }

  // Main result: what ships of a run without loops leads forward exactly when no shipped bare name is the final name
  // of a span tracked at or after its reader, and holds no cycle exactly when no such name belongs to a span its
  // reader leads to.
  lemma NoLoopShipsNoCycle(states: seq<State>, ops: seq<Opening>)
    requires IsHistory(states, ops)
    ensures var end := states[|ops|];
      var g := ShippedGraph(end.tracked, end.records);
      && ((forall i: nat, j: nat :: (i, j) in g.edges ==> i < j) <==>
          !exists i: nat, j: nat :: NamesAhead(end.tracked, end.records, i, j))
      && (Acyclic(g) <==> !exists i: nat, j: nat :: NamesAhead(end.tracked, end.records, i, j) && Reaches(g, j, i))
  {
    HistoryIsSound(states, ops);
    hide *;
    var end := states[|ops|];
    var g := ShippedGraph(end.tracked, end.records);
    forall i: nat, j: nat | (i, j) in g.edges && j <= i ensures NamesAhead(end.tracked, end.records, i, j) {
      BackIsAhead(end, i, j);
    }
    forall i: nat, j: nat | NamesAhead(end.tracked, end.records, i, j) ensures (i, j) in g.edges && j <= i {
      AheadIsEdge(end.tracked, end.records, i, j);
    }
    if !Acyclic(g) {
      var i, j := ShippedCycle(end);
    } else if i: nat, j: nat :| NamesAhead(end.tracked, end.records, i, j) && Reaches(g, j, i) {
      NoBackEdge(g, i, j);
    }
  }

  // Every source handed to a fan-in is a span this run had recorded by then.
  ghost predicate SpanSourcesOnly(states: seq<State>, ops: seq<Opening>)
    requires |states| == |ops| + 1
  {
    forall k :: 0 <= k < |ops| && ops[k].Joined? ==>
      forall x :: x in ops[k].sources ==> x.OfSpan? && x.span in states[k].tracked
  }

  ghost predicate ByObject(a: State) {
    forall x :: x in a.records && x.Edge? ==> !Bare(a.tracked, x.flow)
  }

  lemma OpeningByObject(a: State, op: Opening, b: State)
    requires Follows(a, op, b) && ByObject(a)
    requires op.Joined? ==> forall x :: x in op.sources ==> x.OfSpan? && x.span in a.tracked
    ensures ByObject(b)
  {
    hide RecordsOf, IsNew;
    forall x | x in b.records && x.Edge? ensures !Bare(b.tracked, x.flow) {
      if x in a.records {
        assert !Bare(a.tracked, x.flow);
      } else {
        OpeningTargets(op, x);
      }
    }
  }

  lemma OpeningTargets(op: Opening, x: Record)
    requires x in RecordsOf(op) && x.Edge? && (op.Joined? ==> forall y :: y in op.sources ==> y.OfSpan?)
    ensures op.Joined? && x.flow.target.Some? && OfSpan(x.flow.target.value) in op.sources
  {
    if op.Joined? {
      assert x in Flows(op.span, op.sources, "collect", op.now);
      FlowsOfSpans(op.span, op.sources, op.now);
      OpeningEdges(op, x);
    }
  }

  lemma {:induction false} FlowsOfSpans(reader: Span, sources: seq<Source>, now: nat)
    requires forall y :: y in sources ==> y.OfSpan?
    ensures forall x :: x in Flows(reader, sources, "collect", now) ==> x.Edge? && x.flow.target.Some?
  {
    if sources != [] {
      var n := |sources| - 1;
      FlowsOfSpans(reader, sources[..n], now);
      assert sources[n] in sources && sources[n].OfSpan?;
    }
  }

  lemma {:induction false} HistoryByObject(states: seq<State>, ops: seq<Opening>)
    requires IsHistory(states, ops) && SpanSourcesOnly(states, ops)
    ensures ByObject(states[|ops|])
  {
    if |ops| > 0 {
      var n: nat := |ops| - 1;
      HistoryByObject(states[..|ops|], ops[..n]);
      hide ByObject, Follows;
      var m := |ops|;
      assert Follows(states[n], ops[n], states[m]);
      OpeningByObject(states[n], ops[n], states[m]);
    }
  }

  lemma NotAhead(a: State, i: nat, j: nat)
    requires ByObject(a)
    ensures !NamesAhead(a.tracked, a.records, i, j)
  {
    ShippedAre(a.tracked, a.records);
    hide Bare, Leads, ShippedFlows, Addressed, ByObject;
    if NamesAhead(a.tracked, a.records, i, j) {
      var f :| f in ShippedFlows(a.tracked, a.records) && Leads(a.tracked, f, i, j) && Bare(a.tracked, f);
      RecordedByObject(a, Edge(f));
    }
  }

  lemma NoneBare(a: State)
    requires ByObject(a)
    ensures forall i: nat, j: nat :: !NamesAhead(a.tracked, a.records, i, j)
  {
    hide *;
    forall i: nat, j: nat ensures !NamesAhead(a.tracked, a.records, i, j) {
      NotAhead(a, i, j);
    }
  }

  lemma RecordedByObject(a: State, x: Record)
    requires ByObject(a) && x in a.records && x.Edge?
    ensures !Bare(a.tracked, x.flow)
  {
  }

  // Main result: with sources handed over as spans of the run, what ships of a run without loops leads forward only.
  lemma SpanSourcesShipForward(states: seq<State>, ops: seq<Opening>)
    requires IsHistory(states, ops) && SpanSourcesOnly(states, ops)
    ensures var end := states[|ops|];
      var g := ShippedGraph(end.tracked, end.records);
      Acyclic(g) && forall i: nat, j: nat :: (i, j) in g.edges ==> i < j
  {
    NoLoopShipsNoCycle(states, ops);
    HistoryByObject(states, ops);
    NoneBare(states[|ops|]);
    hide *;
  }

  // Some other span ships under the name of the loop's last attempt, or was given it as its number.
  ghost predicate LastIsTaken(loop: Retry)
    requires loop.attempts != []
    reads loop`attempts, loop.run`tracked
  {
    var last := loop.attempts[|loop.attempts| - 1];
    exists s :: s in loop.run.tracked && s != last &&
      (TakesNumberOf(loop.run.tracked, s, last) || TakesNumberOf(loop.run.tracked, last, s))
  }

  lemma ReturnAddressed(loop: Retry, f: Flow)
    requires loop.run.Valid() && loop.Valid() && loop.run.enabled && loop.attempts != []
    requires f.target == Some(loop.attempts[|loop.attempts| - 1])
    ensures AgentsOf(loop.run.records) == loop.run.tracked
    ensures Addressed(loop.run.tracked, f).Some? <==> !LastIsTaken(loop)
  {
    LastNamed(loop);
    AttemptsTracked(loop);
    DistinctRuns(loop.run);
    hide Retry.Valid, Addressed, TakesNumberOf;
    var last := loop.attempts[|loop.attempts| - 1];
    assert last in loop.attempts;
    DroppedWhenTaken(loop.run.tracked, f);
  }

  lemma DistinctRuns(run: Run)
    requires run.Valid()
    ensures DistinctIds(run.tracked)
  {
    forall s, t | s in run.tracked && t in run.tracked && s.id == t.id ensures s == t {
      var i :| 0 <= i < |run.tracked| && run.tracked[i] == s;
      var j :| 0 <= j < |run.tracked| && run.tracked[j] == t;
    }
  }

  lemma ArcsGrow(tracked: seq<Span>, records: seq<Record>, f: Flow, i: nat, j: nat)
    requires i < |tracked| && j < |tracked|
    ensures ByArc(tracked, records + [Edge(f)], i, j) <==>
      ByArc(tracked, records, i, j) ||
        (f.reader == tracked[j] && Addressed(tracked, f) == Some(FinalName(tracked, tracked[i])))
  {
    ShippedAre(tracked, records);
    ShippedAre(tracked, records + [Edge(f)]);
    hide Addressed, FinalName, ShippedFlows;
    var more := records + [Edge(f)];
    assert Edge(f) in more;
    if x :| x in ShippedFlows(tracked, more) && Leads(tracked, x, i, j) {
      assert x == f || x in ShippedFlows(tracked, records);
    }
    if x :| x in ShippedFlows(tracked, records) && Leads(tracked, x, i, j) {
      assert x in ShippedFlows(tracked, more);
    }
    if f.reader == tracked[j] && Addressed(tracked, f) == Some(FinalName(tracked, tracked[i])) {
      assert f in ShippedFlows(tracked, more) && Leads(tracked, f, i, j);
    }
  }

  lemma ShippedGrows(tracked: seq<Span>, records: seq<Record>, f: Flow, a: nat, b: nat)
    requires Positioned(tracked) && a < |tracked| && b < |tracked|
    requires f.reader == tracked[b] && f.target == Some(tracked[a])
    ensures ShippedGraph(tracked, records + [Edge(f)]).edges ==
      ShippedGraph(tracked, records).edges + if Addressed(tracked, f).Some? then {(a, b)} else {}
  {
    forall i: nat, j: nat | i < |tracked| && j < |tracked|
      ensures ByArc(tracked, records + [Edge(f)], i, j) <==>
        ByArc(tracked, records, i, j) || (Addressed(tracked, f).Some? && i == a && j == b)
    {
      ArcsGrow(tracked, records, f, i, j);
      OwnAddress(tracked, f, a, i);
      hide Addressed, FinalName, ByArc;
    }
    hide ByArc, ByParent, Addressed;
  }

  lemma OwnAddress(tracked: seq<Span>, f: Flow, a: nat, i: nat)
    requires Positioned(tracked) && a < |tracked| && i < |tracked| && f.target == Some(tracked[a])
    ensures Addressed(tracked, f) == Some(FinalName(tracked, tracked[i])) <==> Addressed(tracked, f).Some? && i == a
  {
    hide FinalName;
    assert tracked[a] in tracked && tracked[i] in tracked;
    if Addressed(tracked, f).Some? {
      AddressedIsExact(tracked, f, Addressed(tracked, f).value);
    }
  }

  // Main result: of a closed loop the returning edge ships exactly when no other span took the last attempt's name.
  lemma ReturnShips(loop: Retry, now: nat)
    requires loop.run.Valid() && loop.Valid() && loop.run.enabled
    ensures var before := ShippedGraph(loop.run.tracked, loop.run.records);
      var after := ShippedGraph(loop.run.tracked, loop.run.records + Returned(loop, now));
      after.edges == before.edges + if loop.attempts != [] && LastIsTaken(loop) then {} else Return(loop)
  {
    hide *;
    var tracked, records := loop.run.tracked, loop.run.records;
    RepeatedIs(loop);
    assert records + [] == records;
    if loop.attempts == [] {
      NothingReturned(loop, now);
    } else {
      var last := loop.attempts[|loop.attempts| - 1];
      ReturnedIs(loop, now);
      RunIsPositioned(loop.run);
      AttemptsTracked(loop);
      assert last in loop.attempts;
      At(tracked, last);
      At(tracked, loop.span);
      if RanTwice(loop.attempts) && last.name != loop.span.name {
        var f := Flow("loop_result", loop.span, last.name, Some(last), now);
        ReturningEdge(loop.span, loop.attempts, now);
        ReturnAddressed(loop, f);
        ShippedGrows(tracked, records, f, last.order, loop.span.order);
      } else if RanTwice(loop.attempts) {
        ReturningEdge(loop.span, loop.attempts, now);
      }
    }
  }

  lemma ReturningEdge(controller: Span, attempts: seq<Span>, now: nat)
    requires attempts != []
    ensures var last := attempts[|attempts| - 1];
      ReturningFlow(controller, attempts, now) ==
      if last.name == controller.name then [] else [Edge(Flow("loop_result", controller, last.name, Some(last), now))]
  {
  }

  lemma {:induction false} ChainShips(tracked: seq<Span>, records: seq<Record>, controller: Span, attempts: seq<Span>,
                                      k: nat, m: nat)
    requires IsLoop(tracked, controller, attempts) && k <= m < |attempts|
    ensures Reaches(ShippedGraph(tracked, records), attempts[k].order, attempts[m].order)
    ensures k == 0 ==> Reaches(ShippedGraph(tracked, records), controller.order, attempts[m].order)
    decreases m
  {
    var g := ShippedGraph(tracked, records);
    hide ByArc;
    At(tracked, attempts[m]);
    if m == 0 {
      At(tracked, controller);
      assert ByParent(tracked, controller.order, attempts[0].order);
      EdgeReaches(g, controller.order, attempts[0].order);
      ReachesSelf(g, attempts[0].order);
    } else {
      At(tracked, attempts[m - 1]);
      assert ByParent(tracked, attempts[m - 1].order, attempts[m].order);
      EdgeReaches(g, attempts[m - 1].order, attempts[m].order);
      if k == m {
        ReachesSelf(g, attempts[m].order);
      } else {
        ChainShips(tracked, records, controller, attempts, k, m - 1);
        ReachesTrans(g, attempts[k].order, attempts[m - 1].order, attempts[m].order);
      }
      if k == 0 {
        ChainShips(tracked, records, controller, attempts, 0, m - 1);
        ReachesTrans(g, controller.order, attempts[m - 1].order, attempts[m].order);
      }
    }
  }

  // Main result: so a loop in which some agent ran twice ships as one cycle unless that name was taken.
  lemma LoopShipsAsCycle(loop: Retry, now: nat, k: nat)
    requires loop.run.Valid() && loop.Valid() && loop.run.enabled && k < |loop.attempts|
    requires RanTwice(loop.attempts) && loop.attempts[|loop.attempts| - 1].name != loop.span.name && !LastIsTaken(loop)
    ensures Mutual(ShippedGraph(loop.run.tracked, loop.run.records + Returned(loop, now)), loop.span.order,
      loop.attempts[k].order)
  {
    hide *;
    var after := loop.run.records + Returned(loop, now);
    var g := ShippedGraph(loop.run.tracked, after);
    var n := |loop.attempts| - 1;
    RepeatedIs(loop);
    RetryIsLoop(loop);
    ReturnedIs(loop, now);
    ReturnShips(loop, now);
    ChainShips(loop.run.tracked, after, loop.span, loop.attempts, 0, k);
    ChainShips(loop.run.tracked, after, loop.span, loop.attempts, k, n);
    assert (loop.attempts[n].order, loop.span.order) in g.edges;
    EdgeReaches(g, loop.attempts[n].order, loop.span.order);
    ReachesTrans(g, loop.attempts[k].order, loop.attempts[n].order, loop.span.order);
    Both(g, loop.span.order, loop.attempts[k].order);
  }

  lemma Both(g: Graph, a: nat, b: nat)
    requires Reaches(g, a, b) && Reaches(g, b, a)
    ensures Mutual(g, a, b)
  {
  }
}
