// The trace recorder: spans open and close under one run, arms run side by side, loops close on themselves.

module Tracing {
  import opened Prelude
  import opened FanIn

  datatype Attempt = Attempt(agent: string, number: nat)

  // One declared flow into `reader`: by span object, or by a bare agent name.
  datatype Flow = Flow(tool: string, reader: Span, name: string, target: Option<Span>, created: nat)

  datatype Record = Agent(span: Span) | Edge(flow: Flow)

  datatype Source = OfSpan(span: Span) | OfName(name: string)

  function NameOfSource(source: Source): string {
    match source
    case OfSpan(s) => s.name
    case OfName(n) => n
  }

  function TargetOfSource(source: Source): Option<Span> {
    match source
    case OfSpan(s) => Some(s)
    case OfName(_) => None
  }

  function AttemptName(agent: string, number: nat): string {
    agent + "#" + Digits(number)
  }

  // What `reader` declares it read; a nameless source, or one of its own name, records no flow.
  function FlowFrom(reader: Span, source: Source, tool: string, now: nat): seq<Record> {
    var name := NameOfSource(source);
    if name == "" || name == reader.name then [] else [Edge(Flow(tool, reader, name, TargetOfSource(source), now))]
  }

  function Flows(reader: Span, sources: seq<Source>, tool: string, now: nat): seq<Record> {
    if sources == [] then [] else
      var n := |sources| - 1;
      Flows(reader, sources[..n], tool, now) + FlowFrom(reader, sources[n], tool, now)
  }

  function AgentsOf(records: seq<Record>): seq<Span> {
    if records == [] then [] else
      var n := |records| - 1;
      AgentsOf(records[..n]) + if records[n].Agent? then [records[n].span] else []
  }

  lemma {:induction false} AgentsAppend(records: seq<Record>, more: seq<Record>)
    ensures AgentsOf(records + more) == AgentsOf(records) + AgentsOf(more)
  {
    if more == [] {
      assert records + more == records;
    } else {
      var n := |more| - 1;
      assert (records + more)[..|records| + n] == records + more[..n];
      AgentsAppend(records, more[..n]);
    }
  }

  lemma OneAgent(s: Span)
    ensures AgentsOf([Agent(s)]) == [s]
  {
    assert [Agent(s)][..0] == [];
  }

  lemma OneEdge(f: Flow)
    ensures AgentsOf([Edge(f)]) == []
  {
    assert [Edge(f)][..0] == [];
  }

  predicate IsFlowInto(reader: Span, tool: string, f: Flow) {
    f.reader == reader && f.tool == tool && f.name != reader.name && f.name != ""
  }

  lemma NoFlows(reader: Span, tool: string, now: nat)
    ensures Flows(reader, [], tool, now) == []
  {
  }

  lemma FlowsNext(reader: Span, sources: seq<Source>, k: nat, tool: string, now: nat)
    requires k < |sources|
    ensures Flows(reader, sources[..k + 1], tool, now) ==
      Flows(reader, sources[..k], tool, now) + FlowFrom(reader, sources[k], tool, now)
  {
    assert sources[..k + 1][..k] == sources[..k];
  }

  lemma FlowFromIs(reader: Span, source: Source, tool: string, now: nat)
    ensures var name := NameOfSource(source);
      FlowFrom(reader, source, tool, now) ==
      if name == "" || name == reader.name then [] else [Edge(Flow(tool, reader, name, TargetOfSource(source), now))]
  {
  }

  lemma FlowIsEdge(reader: Span, source: Source, tool: string, now: nat)
    ensures AgentsOf(FlowFrom(reader, source, tool, now)) == []
    ensures forall x :: x in FlowFrom(reader, source, tool, now) ==> x.Edge? && IsFlowInto(reader, tool, x.flow)
    ensures forall x :: x in FlowFrom(reader, source, tool, now) && x.Edge? && x.flow.target.Some? ==>
      OfSpan(x.flow.target.value) == source
  {
    var own := FlowFrom(reader, source, tool, now);
    assert own == [] || own[..0] == [];
  }

  lemma {:induction false} FlowsAreEdges(reader: Span, sources: seq<Source>, tool: string, now: nat)
    ensures AgentsOf(Flows(reader, sources, tool, now)) == []
    ensures forall x :: x in Flows(reader, sources, tool, now) ==> x.Edge? && IsFlowInto(reader, tool, x.flow)
    ensures forall x :: x in Flows(reader, sources, tool, now) && x.Edge? && x.flow.target.Some? ==>
      OfSpan(x.flow.target.value) in sources
  {
    NoFlows(reader, tool, now);
    NoAgents();
    hide FlowFrom, AgentsOf, IsFlowInto, Flows;
    if sources != [] {
      var n := |sources| - 1;
      FlowsAreEdges(reader, sources[..n], tool, now);
      FlowIsEdge(reader, sources[n], tool, now);
      FlowsNext(reader, sources, n, tool, now);
      assert sources[..n + 1] == sources;
      assert sources == sources[..n] + [sources[n]];
      AgentsAppend(Flows(reader, sources[..n], tool, now), FlowFrom(reader, sources[n], tool, now));
    }
  }

  lemma NoAgents()
    ensures AgentsOf([]) == []
  {
  }

  // What the step it hangs off had produced by then.
  function OutputOf(p: Option<Span>, otherwise: Option<Value>): Option<Value>
    reads if p.Some? then {p.value} else {}
  {
    if p.Some? then p.value.output else otherwise
  }

  // ---------- What a fan-in merges ----------

  lemma NothingObserved(spans: seq<Span>)
    ensures ObservedAll(spans, []) == []
    ensures AgentsOf([]) == [] && forall name :: OutputsNamed([], name) == []
  {
  }

  lemma ObservedIs(spans: seq<Span>, source: Source)
    ensures source.OfSpan? && source.span.output.Some? ==>
      Observed(spans, source) == [Observation(source.span.name, source.span.output.value)]
    ensures source.OfSpan? && source.span.output.None? ==> Observed(spans, source) == []
    ensures source.OfName? && source.name == "" ==> Observed(spans, source) == []
    ensures source.OfName? && source.name != "" ==> Observed(spans, source) == OutputsNamed(spans, source.name)
  {
  }

  function OutputsNamed(spans: seq<Span>, name: string): seq<Observation>
    reads spans
  {
    if spans == [] then [] else
      var n := |spans| - 1;
      OutputsNamed(spans[..n], name) +
      if spans[n].name == name && spans[n].output.Some? then [Observation(name, spans[n].output.value)] else []
  }

  // An output recorded on a span; a bare name stands for every span recorded under it.
  function Observed(spans: seq<Span>, source: Source): seq<Observation>
    reads spans, if source.OfSpan? then {source.span} else {}
  {
    match source
    case OfSpan(s) => if s.output.Some? then [Observation(s.name, s.output.value)] else []
    case OfName(n) => if n == "" then [] else OutputsNamed(spans, n)
  }

  function ObservedAll(spans: seq<Span>, sources: seq<Source>): seq<Observation>
    reads spans, set source | source in sources && source.OfSpan? :: source.span
  {
    if sources == [] then [] else
      var n := |sources| - 1;
      ObservedAll(spans, sources[..n]) + Observed(spans, sources[n])
  }

  function SpansNamed(spans: seq<Span>, name: string): seq<Source> {
    if spans == [] then [] else
      var n := |spans| - 1;
      SpansNamed(spans[..n], name) + if spans[n].name == name then [OfSpan(spans[n])] else []
  }

  // Main result: naming an agent merges exactly what handing over its recorded spans merges.
  lemma {:induction false} NameStandsForItsSpans(spans: seq<Span>, name: string)
    requires name != ""
    ensures Observed(spans, OfName(name)) == ObservedAll(spans, SpansNamed(spans, name))
  {
    SameObservations(spans, spans, name);
  }

  lemma {:induction false} SameObservations(spans: seq<Span>, part: seq<Span>, name: string)
    requires name != ""
    ensures OutputsNamed(part, name) == ObservedAll(spans, SpansNamed(part, name))
  {
    if part != [] {
      var n := |part| - 1;
      SameObservations(spans, part[..n], name);
      var named := SpansNamed(part[..n], name);
      if part[n].name == name {
        assert (named + [OfSpan(part[n])])[..|named|] == named;
      } else {
        assert named + [] == named && OutputsNamed(part[..n], name) + [] == OutputsNamed(part[..n], name);
      }
    }
  }

  lemma ObservedNext(spans: seq<Span>, sources: seq<Source>, k: nat)
    requires k < |sources|
    ensures ObservedAll(spans, sources[..k + 1]) == ObservedAll(spans, sources[..k]) + Observed(spans, sources[k])
  {
    assert sources[..k + 1][..k] == sources[..k];
  }

  lemma NamedNext(records: seq<Record>, k: nat, name: string)
    requires k < |records|
    ensures OutputsNamed(AgentsOf(records[..k + 1]), name) == OutputsNamed(AgentsOf(records[..k]), name) +
      if records[k].Agent? && records[k].span.name == name && records[k].span.output.Some?
      then [Observation(name, records[k].span.output.value)] else []
  {
    assert records[..k + 1][..k] == records[..k];
    var before := AgentsOf(records[..k]);
    if records[k].Agent? {
      assert (before + [records[k].span])[..|before|] == before;
    } else {
      assert before + [] == before;
    }
  }

  // The innermost of the open spans that is not a parallel arm.
  function LastSerial(open: seq<Span>): (r: Option<Span>)
    ensures r.Some? ==> r.value in open && !r.value.parallel
    ensures r.None? ==> forall s :: s in open ==> s.parallel
  {
    if open == [] then None
    else if !open[|open| - 1].parallel then Some(open[|open| - 1])
    else LastSerial(open[..|open| - 1])
  }

  // Where parallel work hangs: the innermost open span that is no arm, else the chain head.
  ghost predicate AtFanout(open: seq<Span>, head: Option<Span>, p: Option<Span>) {
    if forall s :: s in open ==> s.parallel then p == head
    else exists k ::
      0 <= k < |open| && !open[k].parallel && p == Some(open[k]) && forall j :: k < j < |open| ==> open[j].parallel
  }

  lemma {:induction false} LastSerialIs(open: seq<Span>, head: Option<Span>)
    ensures AtFanout(open, head, if LastSerial(open).Some? then LastSerial(open) else head)
  {
    if open != [] {
      var n := |open| - 1;
      var front := open[..n];
      assert open == front + [open[n]];
      if open[n].parallel {
        LastSerialIs(front, head);
        if s :| s in front && !s.parallel {
          var k :| 0 <= k < |front| && !front[k].parallel && LastSerial(front) == Some(front[k]) &&
            forall j :: k < j < |front| ==> front[j].parallel;
          assert open[k] == front[k] && forall j :: k < j < n ==> open[j] == front[j];
        }
      }
    }
  }

  // Where nested work hangs: the innermost open span, or else `otherwise`.
  predicate AtInnermost(open: seq<Span>, otherwise: Option<Span>, p: Option<Span>) {
    if open == [] then p == otherwise else p == Some(open[|open| - 1])
  }

  class Span {
    const run: Run
    const name: string
    const id: nat
    const parent: Option<Span>
    const input: Option<Value>
    const parallel: bool
    const attempt: Option<Attempt>
    const start: nat
    // The position in which the run tracked this span.
    ghost const order: nat
    var endAt: Option<nat>
    var output: Option<Value>
    var failed: bool

    constructor (run: Run, name: string, id: nat, parent: Option<Span>, input: Option<Value>, parallel: bool,
                 attempt: Option<Attempt>,
                 start: nat, ghost order: nat)
      ensures this.run == run && this.name == name && this.id == id && this.parent == parent && this.input == input
      ensures this.parallel == parallel && this.attempt == attempt && this.start == start && this.order == order
      ensures endAt.None? && output.None? && !failed
    {
      this.run, this.name, this.id, this.parent, this.input := run, name, id, parent, input;
      this.parallel, this.attempt, this.start, this.order := parallel, attempt, start, order;
      endAt, output, failed := None, None, false;
    }

    // Mark a degraded step; a reason stands in for an output not recorded yet.
    method Fail(reason: Option<Value>)
      modifies this`failed, this`output
      ensures failed && output == if old(output).None? then reason else old(output)
    {
      failed := true;
      if reason.Some? && output.None? {
        output := reason;
      }
    }

    // A repeated call changes nothing.
    method End(out: Option<Value>, now: nat)
      requires run.Valid() && this in run.tracked
      modifies this`endAt, this`output, run`open
      ensures run.Valid()
      ensures old(endAt).Some? ==> endAt == old(endAt) && output == old(output) && run.open == old(run.open)
      ensures old(endAt).None? ==> endAt == Some(now) && output == if out.Some? then out else old(output)
      ensures old(endAt).None? ==> run.open == Filter(old(run.open), (s: Span) => s != this)
    {
      if endAt.Some? {
        return;
      }
      if out.Some? {
        output := out;
      }
      endAt := Some(now);
      run.Drop(this);
    }

    // Declare that these sources flowed into this step.
    method ReadsFrom(sources: seq<Source>, tool: string, now: nat)
      requires run.Valid() && this in run.tracked
      modifies run`records
      ensures run.Valid()
      ensures run.records == old(run.records) + if run.enabled then Flows(this, sources, tool, now) else []
    {
      hide *;
      NoFlows(this, tool, now);
      for k := 0 to |sources|
        invariant run.Valid() && this in run.tracked && run.tracked == old(run.tracked)
        invariant run.records == old(run.records) + if run.enabled then Flows(this, sources[..k], tool, now) else []
      {
        FlowsNext(this, sources, k, tool, now);
        FlowFromIs(this, sources[k], tool, now);
        var name := NameOfSource(sources[k]);
        if name != "" && name != this.name {
          run.Delegate(this, name, tool, TargetOfSource(sources[k]), now);
        }
      }
      assert sources[..|sources|] == sources;
    }
  }

  class Run {
    const enabled: bool
    const task: Option<Value>
    var records: seq<Record>
    var open: seq<Span>
    var lastStep: Option<Span>
    // Every span of this run, in the order it was tracked.
    ghost var tracked: seq<Span>

    // ---------- The invariant ----------

    ghost predicate Tracks()
      reads this`tracked
    {
      && (forall k :: 0 <= k < |tracked| ==> tracked[k].order == k && tracked[k].run == this)
      && (forall j, k :: 0 <= j < k < |tracked| ==> tracked[j].id != tracked[k].id)
    }

    // The open list is exactly the tracked spans not yet ended, in tracking order.
    ghost predicate OpenExactly()
      reads this`open, this`tracked, tracked`endAt
    {
      && (forall s :: s in open ==> s in tracked && s.endAt.None?)
      && (forall s :: s in tracked && s.endAt.None? ==> s in open)
      && forall i, j :: 0 <= i < j < |open| ==> open[i].order < open[j].order
    }

    // A parent within this run was tracked earlier.
    ghost predicate ParentsEarlier()
      reads this`tracked
    {
      forall s :: s in tracked && s.parent.Some? && s.parent.value.run == this ==>
        s.parent.value in tracked && s.parent.value.order < s.order
    }

    ghost predicate HeadIsSerial()
      reads this`lastStep, this`tracked
    {
      lastStep.Some? ==> lastStep.value in tracked && !lastStep.value.parallel
    }

    ghost predicate Recorded()
      reads this`records, this`tracked
    {
      && (if enabled then AgentsOf(records) == tracked else records == [])
      && forall x :: x in records && x.Edge? ==> x.flow.reader in tracked
    }

    ghost predicate Valid()
      reads this, tracked`endAt
    {
      Tracks() && OpenExactly() && ParentsEarlier() && HeadIsSerial() && Recorded()
    }

    constructor (enabled: bool, task: Option<Value>)
      ensures Valid() && this.enabled == enabled && this.task == task
      ensures records == [] && open == [] && lastStep.None? && tracked == []
    {
      this.enabled, this.task := enabled, task;
      records, open, lastStep, tracked := [], [], None, [];
    }

    ghost predicate FreshId(id: nat)
      reads this`tracked
    {
      forall s :: s in tracked ==> s.id != id
    }

    // A parent handed in by the caller: a span of another run, or one this run tracked.
    ghost predicate Known(p: Option<Span>)
      reads this`tracked
    {
      p.Some? && p.value.run == this ==> p.value in tracked
    }

    // ---------- The shared steps ----------

    method Drop(span: Span)
      requires Tracks() && ParentsEarlier() && HeadIsSerial() && Recorded() && span in tracked && span.endAt.Some?
      requires forall s :: s in open ==> s in tracked && (s.endAt.None? || s == span)
      requires forall s :: s in tracked && (s.endAt.None? || s == span) ==> s in open
      requires forall i, j :: 0 <= i < j < |open| ==> open[i].order < open[j].order
      modifies this`open
      ensures Valid() && open == Filter(old(open), (s: Span) => s != span)
    {
      FilterKeepsOrder(open, (s: Span) => s != span);
      open := Filter(open, (s: Span) => s != span);
    }

    method Delegate(reader: Span, name: string, tool: string, target: Option<Span>, now: nat)
      requires Valid() && reader in tracked
      modifies this`records
      ensures Valid() && records == old(records) + if enabled then [Edge(Flow(tool, reader, name, target, now))] else []
    {
      hide AgentsOf;
      if enabled {
        var f := Flow(tool, reader, name, target, now);
        AgentsAppend(records, [Edge(f)]);
        OneEdge(f);
        records := records + [Edge(Flow(tool, reader, name, target, now))];
      }
    }

    method Track(name: string, id: nat, parent: Option<Span>, input: Option<Value>, parallel: bool,
                 attempt: Option<Attempt>, now: nat)
      returns (s: Span)
      requires Valid() && FreshId(id) && Known(parent)
      modifies this`records, this`open, this`tracked
      ensures Valid() && fresh(s) && s.endAt.None? && s.output.None? && !s.failed
      ensures s.run == this && s.name == name && s.id == id && s.parent == parent && s.input == input
      ensures s.parallel == parallel && s.attempt == attempt && s.start == now && s.order == |old(tracked)|
      ensures tracked == old(tracked) + [s] && open == old(open) + [s]
      ensures records == old(records) + if enabled then [Agent(s)] else []
    {
      hide AgentsOf;
      assert forall x :: x in tracked ==> x.order < |tracked|;
      s := new Span(this, name, id, parent, input, parallel, attempt, now, |tracked|);
      OneAgent(s);
      AgentsAppend(records, [Agent(s)]);
      if enabled {
        records := records + [Agent(s)];
      }
      open := open + [s];
      tracked := tracked + [s];
      assert Tracks() by {
        hide OpenExactly, ParentsEarlier, HeadIsSerial, Recorded;
      }
      assert OpenExactly() by {
        hide Tracks, ParentsEarlier, HeadIsSerial, Recorded;
      }
      assert ParentsEarlier() by {
        hide Tracks, OpenExactly, HeadIsSerial, Recorded;
      }
      hide Tracks, OpenExactly, ParentsEarlier;
    }

    // ---------- Opening steps ----------

    // A pipeline step: behind the previous one, reading what that one produced.
    method Step(name: string, id: nat, input: Option<Value>, now: nat) returns (s: Span)
      requires Valid() && FreshId(id)
      modifies this
      ensures Valid() && fresh(s) && s.run == this && s.name == name && s.id == id && !s.parallel && s.start == now
      ensures s.attempt.None?
      ensures s.parent == old(lastStep) && s.endAt.None? && s.output.None?
      ensures s.input == if input.Some? then input else old(OutputOf(lastStep, task))
      ensures tracked == old(tracked) + [s] && open == old(open) + [s] && lastStep == Some(s)
      ensures records == old(records) + if enabled then [Agent(s)] else []
    {
      hide Tracks, OpenExactly, ParentsEarlier, Recorded;
      var given := if input.Some? then input else OutputOf(lastStep, task);
      s := Track(name, id, lastStep, given, false, None, now);
      lastStep := Some(s);
    }

    function Innermost(): Option<Span>
      reads this
    {
      if open == [] then None else Some(open[|open| - 1])
    }

    // A nested step: inside the innermost span still open.
    method Nest(name: string, id: nat, input: Option<Value>, now: nat) returns (s: Span)
      requires Valid() && FreshId(id)
      modifies this`records, this`open, this`tracked
      ensures Valid() && fresh(s) && s.run == this && s.name == name && s.id == id && !s.parallel && s.start == now
      ensures s.attempt.None?
      ensures s.parent == old(Innermost()) && s.endAt.None? && s.output.None?
      ensures AtInnermost(old(open), None, s.parent)
      ensures s.input ==
        if input.Some? then input else if old(open) == [] then task else old(open)[|old(open)| - 1].input
      ensures tracked == old(tracked) + [s] && open == old(open) + [s]
      ensures records == old(records) + if enabled then [Agent(s)] else []
    {
      var given := if input.Some? then input else if open == [] then task else open[|open| - 1].input;
      s := Track(name, id, Innermost(), given, false, None, now);
    }

    // Where parallel work hangs: the innermost open span that is no arm, else the chain head, else the root.
    function FanoutPoint(): Option<Span>
      reads this
    {
      if LastSerial(open).Some? then LastSerial(open) else lastStep
    }

    method Branch(name: string, id: nat, input: Option<Value>, of: Option<Span>, now: nat) returns (s: Span)
      requires Valid() && FreshId(id) && Known(of)
      modifies this`records, this`open, this`tracked
      ensures Valid() && fresh(s) && s.run == this && s.name == name && s.id == id && s.parallel && s.start == now
      ensures s.attempt.None?
      ensures s.parent == (if of.Some? then of else old(FanoutPoint())) && s.endAt.None? && s.output.None?
      ensures of.None? ==> AtFanout(old(open), old(lastStep), s.parent)
      ensures of.None? && s.parent.Some? ==> !s.parent.value.parallel
      ensures s.input == if input.Some? then input else old(OutputOf(if of.Some? then of else FanoutPoint(), task))
      ensures tracked == old(tracked) + [s] && open == old(open) + [s]
      ensures records == old(records) + if enabled then [Agent(s)] else []
    {
      LastSerialIs(open, lastStep);
      var point := if of.Some? then of else FanoutPoint();
      var given := if input.Some? then input else OutputOf(point, task);
      s := Track(name, id, point, given, true, None, now);
    }

    // The default input of a fan-in: only the outputs actually observed.
    method JoinInput(sources: seq<Source>) returns (merged: Option<Value>)
      ensures IsMerge(old(ObservedAll(AgentsOf(records), sources)), merged)
    {
      hide *;
      var grouped: map<string, seq<Value>> := map[];
      ghost var agents := AgentsOf(records);
      ghost var seen: seq<Observation> := [];
      NothingGrouped();
      NothingObserved(agents);
      forall k | 0 <= k < |sources|
        ensures ObservedAll(agents, sources[..k + 1]) ==
          ObservedAll(agents, sources[..k]) + Observed(agents, sources[k])
      {
        ObservedNext(agents, sources, k);
      }
      for k := 0 to |sources|
        invariant seen == old(ObservedAll(agents, sources[..k])) && Groups(seen, grouped)
      {
        ghost var before := seen;
        ObservedIs(agents, sources[k]);
        assert before + [] == before;
        match sources[k] {
          case OfSpan(s) =>
            if s.output.Some? {
              var o := Observation(s.name, s.output.value);
              AddGroups(seen, grouped, o);
              grouped, seen := Add(grouped, o), seen + [o];
            }
          case OfName(name) =>
            if name != "" {
              assert records[..0] == [] && AgentsOf([]) == [] && OutputsNamed([], name) == [];
              for j := 0 to |records|
                invariant seen == before + OutputsNamed(AgentsOf(records[..j]), name) && Groups(seen, grouped)
              {
                NamedNext(records, j, name);
                if records[j].Agent? && records[j].span.name == name && records[j].span.output.Some? {
                  var o := Observation(name, records[j].span.output.value);
                  AddGroups(seen, grouped, o);
                  grouped, seen := Add(grouped, o), seen + [o];
                }
              }
              assert records[..|records|] == records;
            }
        }
        ObservedIs(agents, sources[k]);
        assert old(Observed(agents, sources[k])) == Observed(agents, sources[k]);
      }
      assert sources[..|sources|] == sources;
      GroupsMerge(seen, grouped);
      merged := MergeOf(grouped);
    }

    // The fan-in: every source contributes a flow, and the pipeline resumes here.
    method Join(name: string, id: nat, sources: seq<Source>, input: Option<Value>, now: nat) returns (s: Span)
      requires Valid() && FreshId(id)
      modifies this
      ensures Valid() && fresh(s) && s.run == this && s.name == name && s.id == id && !s.parallel && s.start == now
      ensures s.attempt.None?
      ensures s.parent == old(FanoutPoint()) && s.endAt.None? && s.output.None?
      ensures AtFanout(old(open), old(lastStep), s.parent)
      ensures input.Some? ==> s.input == input
      ensures input.None? ==> IsMerge(old(ObservedAll(AgentsOf(records), sources)), s.input)
      ensures s.parent.Some? ==> !s.parent.value.parallel
      ensures tracked == old(tracked) + [s] && open == old(open) + [s] && lastStep == Some(s)
      ensures records == old(records) + if enabled then [Agent(s)] + Flows(s, sources, "collect", now) else []
    {
      hide ObservedAll, IsMerge, AgentsOf;
      var given := input;
      if given.None? {
        given := JoinInput(sources);
      }
      LastSerialIs(open, lastStep);
      s := Track(name, id, FanoutPoint(), given, false, None, now);
      s.ReadsFrom(sources, "collect", now);
      lastStep := Some(s);
    }

    // Where a loop hangs: an arm on the fan-out point, a stage on whatever is innermost.
    function LoopPoint(of: Option<Span>, parallel: bool): Option<Span>
      reads this
    {
      if of.Some? then of else if parallel then FanoutPoint() else if open != [] then Innermost() else lastStep
    }

    // The controller of a loop; a parallel loop is an arm and never becomes the chain head.
    method OpenRetry(name: string, id: nat, input: Option<Value>, of: Option<Span>, parallel: bool,
                     now: nat) returns (loop: Retry)
      requires Valid() && FreshId(id) && Known(of)
      modifies this
      ensures Valid() && fresh(loop) && fresh(loop.span) && loop.run == this && loop.Valid() && loop.attempts == []
      ensures !loop.closed
      ensures loop.span.name == name && loop.span.id == id && loop.span.parallel == parallel && loop.span.start == now
      ensures loop.span.endAt.None? && loop.span.output.None?
      ensures loop.span.parent == old(LoopPoint(of, parallel)) && (of.Some? ==> loop.span.parent == of)
      ensures of.None? && parallel ==> AtFanout(old(open), old(lastStep), loop.span.parent)
      ensures of.None? && !parallel ==> AtInnermost(old(open), old(lastStep), loop.span.parent)
      ensures parallel && of.None? && loop.span.parent.Some? ==> !loop.span.parent.value.parallel
      ensures loop.span.input == if input.Some? then input else old(OutputOf(LoopPoint(of, parallel), task))
      ensures tracked == old(tracked) + [loop.span] && open == old(open) + [loop.span]
      ensures lastStep == if parallel then old(lastStep) else Some(loop.span)
      ensures records == old(records) + if enabled then [Agent(loop.span)] else []
    {
      hide Tracks, ParentsEarlier, Recorded;
      LastSerialIs(open, lastStep);
      var point := LoopPoint(of, parallel);
      var given := if input.Some? then input else OutputOf(point, task);
      var s := Track(name, id, point, given, parallel, None, now);
      if !parallel {
        lastStep := Some(s);
      }
      loop := new Retry(this, s);
    }

    // ---------- Closing ----------

    lemma OpenRises()
      requires Valid()
      ensures forall i, j :: 0 <= i < j < |open| ==> open[i].order < open[j].order
    {
      hide Tracks, ParentsEarlier, Recorded, HeadIsSerial;
    }

    // End the most recent span still open under this name; a stray finish invents nothing.
    method End(name: string, out: Option<Value>, failed: bool, now: nat) returns (r: Option<Span>)
      requires Valid()
      modifies this`open, open
      ensures Valid()
      ensures r.None? ==> open == old(open) && forall s :: s in open ==> s.name != name && unchanged(s)
      ensures r.Some? ==> r.value in old(open) && r.value.name == name && r.value.endAt == Some(now)
      ensures r.Some? ==> forall s :: s in old(open) && s.name == name ==> s.order <= r.value.order
      ensures r.Some? ==>
        r.value.output == (if out.Some? then out else old(r.value.output)) && (failed ==> r.value.failed)
      ensures r.Some? ==> forall s :: s in old(open) && s != r.value ==> unchanged(s)
      ensures r.Some? ==> open == Filter(old(open), (s: Span) => s != r.value)
    {
      var k := |open|;
      while k > 0
        invariant 0 <= k <= |open| && open == old(open) && Valid()
        invariant forall s :: s in open ==> unchanged(s)
        invariant forall i :: k <= i < |open| ==> open[i].name != name
      {
        k := k - 1;
        var s := open[k];
        if s.name == name {
          assert s in open;
          OpenRises();
          hide Tracks, OpenExactly, ParentsEarlier, Recorded, HeadIsSerial;
          if failed {
            s.Fail(None);
          }
          s.End(out, now);
          return Some(s);
        }
      }
      r := None;
    }
  }

  lemma {:induction false} FilterKeepsOrder(s: seq<Span>, keep: Span -> bool)
    requires forall i, j :: 0 <= i < j < |s| ==> s[i].order < s[j].order
    ensures forall i, j :: 0 <= i < j < |Filter(s, keep)| ==> Filter(s, keep)[i].order < Filter(s, keep)[j].order
  {
    if s != [] {
      var rest := Filter(s[1..], keep);
      FilterKeepsOrder(s[1..], keep);
      forall j | 0 <= j < |rest| ensures s[0].order < rest[j].order {
        assert rest[j] in s[1..];
      }
    }
  }

  // ---------- Loops ----------

  function CountAttempts(attempts: seq<Span>, agent: string): nat {
    if attempts == [] then 0 else
      var n := |attempts| - 1;
      CountAttempts(attempts[..n], agent) +
      if attempts[n].attempt.Some? && attempts[n].attempt.value.agent == agent then 1 else 0
  }

  // An attempt is numbered among those of its agent, and hangs behind the attempt before it.
  ghost predicate IsAttempt(controller: Span, attempts: seq<Span>, k: nat)
    requires k < |attempts|
  {
    var s := attempts[k];
    && s.attempt.Some? && s.attempt.value.number == CountAttempts(attempts[..k], s.attempt.value.agent) + 1
    && s.name == AttemptName(s.attempt.value.agent, s.attempt.value.number)
    && s.parent == Some(if k == 0 then controller else attempts[k - 1])
  }

  function CountOf(counts: map<string, nat>, agent: string): nat {
    if agent in counts then counts[agent] else 0
  }

  ghost predicate AreAttempts(controller: Span, attempts: seq<Span>, counts: map<string, nat>, tracked: seq<Span>) {
    && controller in tracked
    && (forall k :: 0 <= k < |attempts| ==>
       attempts[k] in tracked && attempts[k].order > controller.order && IsAttempt(controller, attempts, k))
    && forall a :: CountOf(counts, a) == CountAttempts(attempts, a)
  }

  // The controller read the last attempt's result, unless that attempt bears its own name.
  function ReturningFlow(controller: Span, attempts: seq<Span>, now: nat): seq<Record> {
    if attempts == [] || attempts[|attempts| - 1].name == controller.name then []
    else [Edge(Flow("loop_result", controller, attempts[|attempts| - 1].name, Some(attempts[|attempts| - 1]), now))]
  }

  // The latest of the attempts that is open and whose name starts with the agent's.
  ghost function Ending(attempts: seq<Span>, open: set<Span>, agent: string): Option<Span> {
    if attempts == [] then None else
      var n := |attempts| - 1;
      if attempts[n] in open && agent + "#" <= attempts[n].name then Some(attempts[n])
      else Ending(attempts[..n], open, agent)
  }

  class Retry {
    const run: Run
    const span: Span
    var counts: map<string, nat>
    var attempts: seq<Span>
    var closed: bool

    ghost predicate Valid()
      reads this`counts, this`attempts, run`tracked
    {
      AreAttempts(span, attempts, counts, run.tracked)
    }

    constructor (run: Run, span: Span)
      requires span in run.tracked
      ensures this.run == run && this.span == span && Valid() && attempts == [] && !closed
    {
      this.run, this.span := run, span;
      counts, attempts, closed := map[], [], false;
    }

    // The next pass at `agent`: numbered, and reading what the previous attempt produced.
    method NextAttempt(agent: string, id: nat, input: Option<Value>, now: nat) returns (s: Span)
      requires run.Valid() && Valid() && run.FreshId(id)
      modifies this`counts, this`attempts, run`records, run`open, run`tracked
      ensures run.Valid() && Valid() && fresh(s) && s.run == run && s.id == id && s.start == now && !s.parallel
      ensures s.endAt.None? && s.output.None? && attempts == old(attempts) + [s]
      ensures s.attempt == Some(Attempt(agent, CountAttempts(old(attempts), agent) + 1))
      ensures s.input ==
        if input.Some? then input else if old(attempts) == [] then span.input else old(attempts[|attempts| - 1].output)
      ensures run.tracked == old(run.tracked) + [s] && run.open == old(run.open) + [s]
      ensures run.records == old(run.records) + if run.enabled then [Agent(s)] else []
    {
      hide *;
      var number := CountOf(counts, agent) + 1;
      var parent := if attempts == [] then span else attempts[|attempts| - 1];
      var given := if input.Some? then input else if attempts == [] then span.input else parent.output;
      CountsAgree(this, agent);
      ParentKnown(this, parent);
      s := run.Track(AttemptName(agent, number), id, Some(parent), given, false, Some(Attempt(agent, number)), now);
      AttemptsGrow(span, attempts, counts, run.tracked[..|run.tracked| - 1], s, agent);
      assert run.tracked == run.tracked[..|run.tracked| - 1] + [s];
      counts := counts[agent := number];
      attempts := attempts + [s];
      ValidIs(this);
    }

    // Every attempt after position `k` has ended or bears another agent's name.
    ghost predicate NoneOpenAfter(k: int, agent: string)
      reads this`attempts, attempts`endAt
    {
      forall i :: 0 <= i < |attempts| && k < i ==> attempts[i].endAt.Some? || !(agent + "#" <= attempts[i].name)
    }

    ghost function OpenAttempts(): set<Span>
      reads this`attempts, attempts`endAt
    {
      set s | s in attempts && s.endAt.None?
    }

    // End the open attempt whose name starts with the agent's; the latest one wins.
    method EndAttempt(agent: string, out: Option<Value>, failed: bool, now: nat) returns (r: Option<Span>)
      requires run.Valid() && Valid()
      modifies run`open, attempts
      ensures run.Valid() && Valid() && r == old(Ending(attempts, OpenAttempts(), agent))
      ensures r.None? ==> run.open == old(run.open) && forall s :: s in attempts ==>
        unchanged(s) && (s.endAt.Some? || !(agent + "#" <= s.name))
      ensures attempts == old(attempts) && run.tracked == old(run.tracked)
      ensures r.Some? ==>
        r.value in attempts && old(r.value.endAt).None? && r.value.endAt == Some(now) && agent + "#" <= r.value.name
      ensures r.Some? ==> exists k :: 0 <= k < |attempts| && attempts[k] == r.value && old(NoneOpenAfter(k, agent))
      ensures r.Some? ==> forall s :: s in attempts && s != r.value ==> unchanged(s)
      ensures r.Some? ==>
        r.value.output == (if out.Some? then out else old(r.value.output)) && (failed ==> r.value.failed)
      ensures r.Some? ==> run.open == Filter(old(run.open), (s: Span) => s != r.value)
    {
      hide Run.Valid, Retry.Valid, Filter;
      AttemptsTracked(this);
      var prefix := agent + "#";
      var k := |attempts|;
      assert attempts[..k] == attempts;
      while k > 0
        invariant 0 <= k <= |attempts| && run.Valid() && Valid() && run.open == old(run.open)
        invariant forall s :: s in attempts ==> unchanged(s) && s in run.tracked && s.run == run
        invariant forall i :: k <= i < |attempts| ==> attempts[i].endAt.Some? || !(prefix <= attempts[i].name)
        invariant old(Ending(attempts, OpenAttempts(), agent)) == Ending(attempts[..k], old(OpenAttempts()), agent)
      {
        k := k - 1;
        var s := attempts[k];
        assert attempts[..k + 1][..k] == attempts[..k];
        if s.endAt.None? && prefix <= s.name {
          assert s in attempts;
          if failed {
            s.Fail(None);
          }
          s.End(out, now);
          assert old(NoneOpenAfter(k, agent)) && attempts[k] == s;
          return Some(s);
        }
      }
      r := None;
    }

    // Some agent ran at least twice.
    predicate Repeated()
      reads this`counts
    {
      exists a :: a in counts && counts[a] >= 2
    }

    method CloseAttempts(now: nat)
      requires run.Valid() && Valid()
      modifies run`open, attempts
      ensures run.Valid() && Valid()
      ensures forall s :: s in attempts ==>
        s.endAt == (if old(s.endAt).Some? then old(s.endAt) else Some(now)) && s.output == old(s.output)
    {
      hide *;
      AttemptsTracked(this);
      var k := |attempts|;
      while k > 0
        invariant 0 <= k <= |attempts| && run.Valid() && Valid()
        invariant forall s :: s in attempts ==> s in run.tracked && s.run == run
        invariant forall i :: k <= i < |attempts| ==> attempts[i].endAt.Some?
        invariant forall s :: s in attempts ==> s.endAt == old(s.endAt) || (old(s.endAt).None? && s.endAt == Some(now))
        invariant forall s :: s in attempts ==> s.output == old(s.output)
      {
        k := k - 1;
        assert attempts[k] in attempts;
        attempts[k].End(None, now);
      }
    }

    // End the loop: the attempts first, then one returning flow if anything repeated, then the controller.
    method Close(out: Option<Value>, now: nat)
      requires run.Valid() && Valid()
      modifies this`closed, run`open, run`records, attempts, span
      ensures run.Valid() && Valid() && closed
      ensures old(closed) ==> run.records == old(run.records) && run.open == old(run.open) && unchanged(span)
      ensures old(closed) ==> forall s :: s in attempts ==> unchanged(s)
      ensures !old(closed) ==>
        run.records == old(run.records) + if run.enabled && Repeated() then ReturningFlow(span, attempts, now) else []
      ensures !old(closed) ==> span.endAt == (if old(span.endAt).Some? then old(span.endAt) else Some(now))
      ensures !old(closed) ==> span.output == if old(span.endAt).None? && out.Some? then out else old(span.output)
      ensures !old(closed) ==> forall s :: s in attempts ==>
        s.endAt == (if old(s.endAt).Some? then old(s.endAt) else Some(now)) && s.output == old(s.output)
      ensures attempts == old(attempts) && Repeated() == old(Repeated())
    {
      hide *;
      if closed {
        return;
      }
      closed := true;
      AttemptsTracked(this);
      ControllerApart(this);
      ReturningIs(span, attempts, now);
      CloseAttempts(now);
      if Repeated() && attempts != [] {
        var last := attempts[|attempts| - 1];
        LastNamed(this);
        span.ReadsFrom([OfSpan(last)], "loop_result", now);
      }
      span.End(out, now);
    }
  }

  lemma AttemptsTracked(loop: Retry)
    requires loop.run.Valid() && loop.Valid()
    ensures forall s :: s in loop.attempts ==> s in loop.run.tracked && s.run == loop.run
    ensures loop.span in loop.run.tracked && loop.span.run == loop.run
  {
    hide IsAttempt, CountAttempts;
  }

  // The controller is never one of its own attempts: it was tracked before them.
  lemma ControllerApart(loop: Retry)
    requires loop.Valid()
    ensures loop.span !in loop.attempts
  {
    hide IsAttempt, CountAttempts;
  }

  lemma LastNamed(loop: Retry)
    requires loop.Valid() && loop.attempts != []
    ensures loop.attempts[|loop.attempts| - 1].name != ""
  {
    assert IsAttempt(loop.span, loop.attempts, |loop.attempts| - 1);
    AttemptNamed(loop.span, loop.attempts, |loop.attempts| - 1);
    hide CountAttempts;
  }

  lemma CountsAgree(loop: Retry, agent: string)
    requires loop.Valid()
    ensures CountOf(loop.counts, agent) == CountAttempts(loop.attempts, agent)
    ensures AreAttempts(loop.span, loop.attempts, loop.counts, loop.run.tracked)
  {
    hide IsAttempt, CountAttempts, CountOf;
  }

  lemma ParentKnown(loop: Retry, parent: Span)
    requires loop.run.Valid() && loop.Valid()
    requires parent == if loop.attempts == [] then loop.span else loop.attempts[|loop.attempts| - 1]
    ensures loop.run.Known(Some(parent)) && loop.span.order < |loop.run.tracked|
  {
    hide IsAttempt, CountAttempts;
  }

  lemma ValidIs(loop: Retry)
    requires AreAttempts(loop.span, loop.attempts, loop.counts, loop.run.tracked)
    ensures loop.Valid()
  {
    hide AreAttempts;
  }

  lemma AttemptsGrow(controller: Span, before: seq<Span>, counts: map<string, nat>, tracked: seq<Span>, s: Span,
                     agent: string)
    requires AreAttempts(controller, before, counts, tracked) && controller.order < s.order
    requires s.attempt == Some(Attempt(agent, CountOf(counts, agent) + 1))
    requires s.name == AttemptName(agent, CountOf(counts, agent) + 1)
    requires s.parent == Some(if before == [] then controller else before[|before| - 1])
    ensures AreAttempts(controller, before + [s], counts[agent := CountOf(counts, agent) + 1], tracked + [s])
  {
    var after := before + [s];
    hide AttemptName, CountAttempts, CountOf;
    forall k | 0 <= k < |after|
      ensures IsAttempt(controller, after, k) && after[k] in tracked + [s] && after[k].order > controller.order
    {
      assert after[..k] == before[..k];
      if k < |before| {
        assert IsAttempt(controller, before, k);
      }
    }
    CountsGrow(before, counts, s, agent);
  }

  lemma CountsGrow(before: seq<Span>, counts: map<string, nat>, s: Span, agent: string)
    requires s.attempt.Some? && s.attempt.value.agent == agent
    requires forall a :: CountOf(counts, a) == CountAttempts(before, a)
    ensures forall a :: CountOf(counts[agent := CountOf(counts, agent) + 1], a) == CountAttempts(before + [s], a)
  {
    assert (before + [s])[..|before|] == before;
  }

  lemma AttemptNamed(controller: Span, attempts: seq<Span>, k: nat)
    requires k < |attempts| && IsAttempt(controller, attempts, k)
    ensures attempts[k].name != ""
  {
    assert |attempts[k].name| >= 1;
  }

  lemma ReturningIs(reader: Span, attempts: seq<Span>, now: nat)
    ensures attempts == [] ==> ReturningFlow(reader, attempts, now) == []
    ensures attempts != [] && attempts[|attempts| - 1].name != "" ==>
      Flows(reader, [OfSpan(attempts[|attempts| - 1])], "loop_result", now) == ReturningFlow(reader, attempts, now)
  {
    if attempts != [] {
      assert [OfSpan(attempts[|attempts| - 1])][..0] == [];
      assert Flows(reader, [], "loop_result", now) == [];
    }
  }

  predicate OfAgent(s: Span, agent: string) {
    s.attempt.Some? && s.attempt.value.agent == agent
  }

  ghost predicate Once(attempts: seq<Span>, agent: string) {
    exists i :: 0 <= i < |attempts| && OfAgent(attempts[i], agent)
  }

  ghost predicate Twice(attempts: seq<Span>, agent: string) {
    exists i, j :: 0 <= i < j < |attempts| && OfAgent(attempts[i], agent) && OfAgent(attempts[j], agent)
  }

  lemma OnceMore(front: seq<Span>, s: Span, agent: string)
    ensures Once(front + [s], agent) <==> Once(front, agent) || OfAgent(s, agent)
    ensures Twice(front + [s], agent) <==> Twice(front, agent) || (Once(front, agent) && OfAgent(s, agent))
  {
    hide OfAgent;
    var all := front + [s];
    assert all[|front|] == s && forall i :: 0 <= i < |front| ==> all[i] == front[i];
    if i :| 0 <= i < |front| && OfAgent(front[i], agent) {
      assert OfAgent(all[i], agent);
    }
    if i, j :| 0 <= i < j < |front| && OfAgent(front[i], agent) && OfAgent(front[j], agent) {
      assert OfAgent(all[i], agent) && OfAgent(all[j], agent);
    }
  }

  // Main result: an agent counts as repeated exactly when two attempts are its own.
  lemma {:induction false} RepeatedMeansTwice(attempts: seq<Span>, agent: string)
    ensures CountAttempts(attempts, agent) >= 2 <==> Twice(attempts, agent)
    ensures CountAttempts(attempts, agent) >= 1 <==> Once(attempts, agent)
  {
    if attempts != [] {
      var n := |attempts| - 1;
      RepeatedMeansTwice(attempts[..n], agent);
      OnceMore(attempts[..n], attempts[n], agent);
      assert attempts == attempts[..n] + [attempts[n]];
      hide Once, Twice;
    }
  }

  // ---------- Whose attempt an agent's name ends ----------

  // The agents of a loop whose own name goes on after `agent` and a hash.
  ghost predicate Extends(attempts: seq<Span>, agent: string) {
    exists k :: 0 <= k < |attempts| && attempts[k].attempt.Some? && agent + "#" <= attempts[k].attempt.value.agent
  }

  predicate IsNumbered(s: Span) {
    s.attempt.Some? && s.name == AttemptName(s.attempt.value.agent, s.attempt.value.number)
  }

  ghost predicate Numbered(attempts: seq<Span>) {
    forall k :: 0 <= k < |attempts| ==> IsNumbered(attempts[k])
  }

  lemma LoopIsNumbered(loop: Retry)
    requires loop.Valid()
    ensures Numbered(loop.attempts)
  {
    hide CountAttempts, CountOf;
    forall k | 0 <= k < |loop.attempts| ensures IsNumbered(loop.attempts[k]) {
      assert IsAttempt(loop.span, loop.attempts, k);
    }
  }

  // A numbered name starts with an agent's prefix when it is that agent's, or when the other agent's own name does.
  lemma PrefixMeans(agent: string, other: string, number: nat)
    ensures agent + "#" <= AttemptName(other, number) <==> other == agent || agent + "#" <= other
  {
    DigitsPlain(number);
    var p, s := agent + "#", AttemptName(other, number);
    assert s[|other|] == '#' && s[..|other|] == other;
    if |other| < |agent| < |s| {
      assert s[|agent|] == Digits(number)[|agent| - |other| - 1];
    }
    if p <= s {
      assert s[|agent|] == p[|agent|] == '#' && s[..|agent|] == p[..|agent|] == agent;
      if |agent| < |other| {
        assert other[..|agent| + 1] == s[..|agent| + 1] == p;
      }
    }
    if p <= other {
      assert s[..|p|] == other[..|p|] == p;
    }
  }

  lemma {:induction false} EndingIn(attempts: seq<Span>, open: set<Span>, agent: string) returns (k: nat)
    requires Ending(attempts, open, agent).Some?
    ensures k < |attempts| && attempts[k] == Ending(attempts, open, agent).value && agent + "#" <= attempts[k].name
  {
    var n := |attempts| - 1;
    if attempts[n] in open && agent + "#" <= attempts[n].name {
      k := n;
    } else {
      k := EndingIn(attempts[..n], open, agent);
    }
  }

  lemma {:induction false} OnlyOpen(attempts: seq<Span>, k: nat, agent: string)
    requires k < |attempts| && agent + "#" <= attempts[k].name
    ensures Ending(attempts, {attempts[k]}, agent) == Some(attempts[k])
  {
    var n := |attempts| - 1;
    if k < n {
      OnlyOpen(attempts[..n], k, agent);
    }
  }

  // Main result: ending by agent name ends that agent's own attempt, whatever is open, exactly when no agent of the
  // loop is named like a numbered attempt of it.
  lemma EndsItsOwn(loop: Retry, agent: string)
    requires loop.Valid()
    ensures (forall open: set<Span> :: Ending(loop.attempts, open, agent).Some? ==>
               OfAgent(Ending(loop.attempts, open, agent).value, agent)) <==>
      !Extends(loop.attempts, agent)
  {
    LoopIsNumbered(loop);
    var attempts := loop.attempts;
    hide AttemptName, Ending, Retry.Valid;
    if k :| 0 <= k < |attempts| && attempts[k].attempt.Some? && agent + "#" <= attempts[k].attempt.value.agent {
      assert IsNumbered(attempts[k]);
      PrefixMeans(agent, attempts[k].attempt.value.agent, attempts[k].attempt.value.number);
      OnlyOpen(attempts, k, agent);
      assert !OfAgent(Ending(attempts, {attempts[k]}, agent).value, agent);
    } else {
      forall open: set<Span> | Ending(attempts, open, agent).Some?
        ensures OfAgent(Ending(attempts, open, agent).value, agent)
      {
        var k := EndingIn(attempts, open, agent);
        assert IsNumbered(attempts[k]);
        PrefixMeans(agent, attempts[k].attempt.value.agent, attempts[k].attempt.value.number);
      }
    }
  }
}
