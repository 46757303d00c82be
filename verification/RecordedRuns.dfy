// Concrete recordings on which a promise of the recorder fails.

module RecordedRuns {
  import opened Prelude
  import opened Graphs
  import opened Tracing
  import opened TraceShape

  lemma FirstAttempt(agent: string)
    ensures CountAttempts([], agent) == 0
  {
  }

  // Agents "a" and "a#b" in one loop: the finish reported for "a" ends the attempt of "a#b".
  method EndsAnotherAgent() returns (loop: Retry, other: Span, ended: Option<Span>)
    ensures other.attempt == Some(Attempt("a#b", 1)) && ended == Some(other) && other.endAt == Some(3)
    ensures !OfAgent(other, "a") && Extends(loop.attempts, "a")
  {
    hide Run.Valid, Retry.Valid, Digits;
    var run := new Run(true, None);
    loop := run.OpenRetry("loop", 1, None, None, false, 1);
    IdIsNew(run, 2);
    other := loop.NextAttempt("a#b", 2, None, 2);
    FirstAttempt("a#b");
    IsNumberedAs(loop, other);
    PrefixMeans("a", "a#b", 1);
    ghost var open := loop.OpenAttempts();
    assert loop.attempts[0] == other && other in open;
    assert Ending(loop.attempts, open, "a") == Some(other);
    ended := loop.EndAttempt("a", None, false, 3);
  }

  lemma IdIsNew(run: Run, id: nat)
    requires forall s :: s in run.tracked ==> s.id < id
    ensures run.FreshId(id)
  {
  }

  lemma IsNumberedAs(loop: Retry, s: Span)
    requires loop.Valid() && s in loop.attempts && s.attempt.Some?
    ensures s.name == AttemptName(s.attempt.value.agent, s.attempt.value.number)
  {
    LoopIsNumbered(loop);
    hide Retry.Valid, AttemptName;
    assert forall k :: 0 <= k < |loop.attempts| ==> IsNumbered(loop.attempts[k]);
  }

  ghost predicate Collides(all: seq<Span>, first: Span, second: Span, third: Span, reader: Span) {
    && all == [first, second, third, reader] && first.name == second.name == "a" && third.name == "a#2" &&
       reader.name == "m"
    && first.start < second.start && Distinct(all)
  }

  lemma NumberTwo(all: seq<Span>, first: Span, second: Span, third: Span, reader: Span)
    requires Collides(all, first, second, third, reader)
    ensures FinalName(all, second) == FinalName(all, third) == "a#2"
  {
    assert forall s :: s in all <==> s == first || s == second || s == third || s == reader;
    assert (set t | t in all && t.name == second.name && Earlier(t, second)) == {first};
    assert Peers(all, "a") == {first, second} && Peers(all, "a#2") == {third};
    assert Digits(2) == "2";
  }

  lemma Dropped(all: seq<Span>, first: Span, second: Span, third: Span, reader: Span, f: Flow)
    requires Collides(all, first, second, third, reader) && f.target == Some(second)
    ensures Addressed(all, f) == None
  {
    NumberTwo(all, first, second, third, reader);
    hide FinalName;
    assert second in all && third in all && second == all[1] && third == all[2];
    assert Ambiguous(all, "a#2");
  }

  lemma OneFlow(reader: Span, source: Span, now: nat)
    requires source.name == "a" && reader.name == "m"
    ensures Flows(reader, [OfSpan(source)], "collect", now) == [Edge(Flow("collect", reader, "a", Some(source), now))]
  {
    NoFlows(reader, "collect", now);
    FlowFromIs(reader, OfSpan(source), "collect", now);
    FlowsNext(reader, [OfSpan(source)], 0, "collect", now);
    assert [OfSpan(source)][..0] == [] && [OfSpan(source)][..1] == [OfSpan(source)];
  }

  // Steps "a", "a" and "a#2": the second step and the third ship under one name, and a flow from the second is
  // dropped.
  method SpelledOutNumber() returns (run: Run, second: Span, third: Span, reader: Span)
    ensures run.Valid() && run.tracked == AgentsOf(run.records) && second in run.tracked && third in run.tracked
    ensures second != third && FinalName(run.tracked, second) == FinalName(run.tracked, third) == "a#2"
    ensures |run.records| == 5 && run.records[4] == Edge(Flow("collect", reader, "a", Some(second), 4))
    ensures Addressed(run.tracked, run.records[4].flow) == None
  {
    hide *;
    run := new Run(true, None);
    IdIsNew(run, 1);
    var first := run.Step("a", 1, None, 1);
    IdIsNew(run, 2);
    second := run.Step("a", 2, None, 2);
    IdIsNew(run, 3);
    third := run.Step("a#2", 3, None, 3);
    IdIsNew(run, 4);
    reader := run.Join("m", 4, [OfSpan(second)], None, 4);
    OneFlow(reader, second, 4);
    EnabledRecords(run);
    InOrder(run.tracked, first, second, third, reader);
    NumberTwo(run.tracked, first, second, third, reader);
    Dropped(run.tracked, first, second, third, reader, run.records[4].flow);
  }

  lemma InOrder(all: seq<Span>, first: Span, second: Span, third: Span, reader: Span)
    requires all == [first, second, third, reader] && first.id == 1 && second.id == 2 && third.id == 3 && reader.id == 4
    requires first.name == second.name == "a" && third.name == "a#2" && reader.name == "m" && first.start < second.start
    ensures Collides(all, first, second, third, reader) && second in all && third in all
  {
    assert all[1] == second && all[2] == third;
  }

  // ---------- Bare names that lead back ----------

  lemma NamedFlow(reader: Span, name: string, now: nat)
    requires name != "" && name != reader.name
    ensures Flows(reader, [OfName(name)], "collect", now) == [Edge(Flow("collect", reader, name, None, now))]
  {
    NoFlows(reader, "collect", now);
    FlowFromIs(reader, OfName(name), "collect", now);
    FlowsNext(reader, [OfName(name)], 0, "collect", now);
    assert [OfName(name)][..0] == [] && [OfName(name)][..1] == [OfName(name)];
  }

  // A flow by bare name ships as an edge from the one span that ends up with that name.
  lemma NameLeads(tracked: seq<Span>, records: seq<Record>, f: Flow, i: nat, j: nat)
    requires Edge(f) in records && f.target.None? && f.name != "" && i < |tracked| && j < |tracked|
    requires f.reader == tracked[j] && FinalName(tracked, tracked[i]) == f.name
    requires forall s :: s in tracked && FinalName(tracked, s) == f.name ==> s == tracked[i]
    ensures (i, j) in ShippedGraph(tracked, records).edges
  {
    ShippedAre(tracked, records);
    hide FinalName, ShippedFlows;
    assert f in ShippedFlows(tracked, records) && Leads(tracked, f, i, j);
    assert ByArc(tracked, records, i, j);
  }

  lemma TwoNames(m: Span, later: Span)
    requires m.name == "m" && later.name == "later"
    ensures FinalName([m, later], m) == "m" && FinalName([m, later], later) == "later"
  {
    assert forall s :: s in [m, later] <==> s == m || s == later;
    assert Peers([m, later], "m") == {m} && Peers([m, later], "later") == {later};
  }

  lemma ChildEdge(tracked: seq<Span>, records: seq<Record>)
    requires |tracked| == 2 && tracked[1].parent == Some(tracked[0])
    ensures (0, 1) in ShippedGraph(tracked, records).edges
  {
    hide ByArc;
    assert ByParent(tracked, 0, 1);
  }

  // A fan-in that reads the name of a step not yet opened, then that step: with no loop at all a cycle ships.
  method NamesLaterStep() returns (run: Run)
    ensures run.Valid() && run.enabled && |run.tracked| == 2
    ensures (0, 1) in ShippedGraph(run.tracked, run.records).edges
    ensures (1, 0) in ShippedGraph(run.tracked, run.records).edges
    ensures !Acyclic(ShippedGraph(run.tracked, run.records))
  {
    hide *;
    run := new Run(true, None);
    IdIsNew(run, 1);
    var m := run.Join("m", 1, [OfName("later")], None, 1);
    IdIsNew(run, 2);
    var later := run.Step("later", 2, None, 2);
    NamedFlow(m, "later", 1);
    TwoNames(m, later);
    assert run.tracked == [m, later];
    NameLeads(run.tracked, run.records, run.records[1].flow, 1, 0);
    ChildEdge(run.tracked, run.records);
    TwoWay(ShippedGraph(run.tracked, run.records), 0, 1);
  }

  lemma TwoWay(g: Graph, a: nat, b: nat)
    requires g.Valid() && (a, b) in g.edges && (b, a) in g.edges
    ensures !Acyclic(g)
  {
    EdgeReaches(g, a, b);
    EdgeReaches(g, b, a);
  }

  lemma SecondIsNumbered(first: Span, second: Span)
    requires first.name == second.name == "a" && first != second && first.start < second.start
    ensures FinalName([first, second], first) == "a#1" && FinalName([first, second], second) == "a#2"
  {
    var all := [first, second];
    assert forall s :: s in all <==> s == first || s == second;
    assert (set t | t in all && t.name == second.name && Earlier(t, second)) == {first};
    assert (set t | t in all && t.name == first.name && Earlier(t, first)) == {};
    assert Peers(all, "a") == {first, second};
    assert Digits(1) == "1" && Digits(2) == "2";
  }

  // The second of two agents "a" reads the bare name "a#2", which is not its own then and is its own at the end: it
  // ships as reading from itself.
  method NamesItself() returns (run: Run)
    ensures run.Valid() && run.enabled && |run.tracked| == 2
    ensures (1, 1) in ShippedGraph(run.tracked, run.records).edges
  {
    hide *;
    run := new Run(true, None);
    IdIsNew(run, 1);
    var first := run.Step("a", 1, None, 1);
    IdIsNew(run, 2);
    var second := run.Join("a", 2, [OfName("a#2")], None, 2);
    NamedFlow(second, "a#2", 2);
    SecondIsNumbered(first, second);
    assert run.tracked == [first, second];
    NameLeads(run.tracked, run.records, run.records[2].flow, 1, 1);
  }

  // An arm, a span nested in it, and a second arm opened meanwhile: it hangs under the first.
  method ArmInsideArm() returns (run: Run, first: Span, nested: Span, second: Span)
    ensures run.Valid() && run.tracked == [first, nested, second] && first.parallel && second.parallel
    ensures second.parent == Some(nested) && nested.parent == Some(first) && UnderArm(run.tracked, second)
  {
    hide Run.Valid, AgentsOf, UnderArm;
    run := new Run(true, None);
    IdIsNew(run, 1);
    first := run.Branch("first", 1, None, None, 1);
    IdIsNew(run, 2);
    nested := run.Nest("nested", 2, None, 2);
    IdIsNew(run, 3);
    OpenPoint([first, nested]);
    second := run.Branch("second", 3, None, None, 3);
    RunIsPositioned(run);
    TwoAbove(run.tracked, first, nested, second);
  }

  lemma OpenPoint(open: seq<Span>)
    requires |open| == 2 && !open[1].parallel
    ensures LastSerial(open) == Some(open[1])
  {
  }

  lemma TwoAbove(tracked: seq<Span>, first: Span, nested: Span, second: Span)
    requires Positioned(tracked) && tracked == [first, nested, second] && first.parallel
    requires second.parent == Some(nested) && nested.parent == Some(first)
    ensures UnderArm(tracked, second)
  {
    assert first == tracked[0] && nested == tracked[1] && second == tracked[2];
    assert Above(tracked, first, nested);
    assert Above(tracked, first, second);
  }
}
