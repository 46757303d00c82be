// What a fan-in step is handed by default: the outputs of its sources, grouped by agent name.

module FanIn {
  import opened Prelude

  // What a step took in or put out: something opaque, several outputs of one agent, or a merge by agent name.
  datatype Value = Plain(text: string) | Several(outputs: seq<Value>) | Merged(inputs: map<string, Value>)

  datatype Observation = Observation(name: string, value: Value)

  // Everything observed under one name, in order.
  function Under(obs: seq<Observation>, name: string): seq<Value> {
    if obs == [] then [] else
      var n := |obs| - 1;
      Under(obs[..n], name) + if obs[n].name == name then [obs[n].value] else []
  }

  lemma UnderNext(obs: seq<Observation>, o: Observation, name: string)
    ensures Under(obs + [o], name) == Under(obs, name) + if o.name == name then [o.value] else []
  {
    assert (obs + [o])[..|obs|] == obs;
  }

  // ---------- Grouping ----------

  ghost predicate Groups(obs: seq<Observation>, grouped: map<string, seq<Value>>) {
    forall n :: Under(obs, n) == (if n in grouped then grouped[n] else []) && (n in grouped ==> grouped[n] != [])
  }

  function Add(grouped: map<string, seq<Value>>, o: Observation): map<string, seq<Value>> {
    grouped[o.name := (if o.name in grouped then grouped[o.name] else []) + [o.value]]
  }

  lemma NothingGrouped()
    ensures Groups([], map[])
  {
  }

  lemma AddGroups(obs: seq<Observation>, grouped: map<string, seq<Value>>, o: Observation)
    requires Groups(obs, grouped)
    ensures Groups(obs + [o], Add(grouped, o))
  {
    forall n ensures Under(obs + [o], n) == if n in Add(grouped, o) then Add(grouped, o)[n] else [] {
      UnderNext(obs, o, n);
    }
  }

  // ---------- The merged input ----------

  // An agent observed once stands for its output, one observed several times for all of them.
  function Entry(outputs: seq<Value>): Value {
    if |outputs| == 1 then outputs[0] else Several(outputs)
  }

  function MergeOf(grouped: map<string, seq<Value>>): Option<Value> {
    if grouped == map[] then None else Some(Merged(map n | n in grouped :: Entry(grouped[n])))
  }

  ghost predicate IsMerge(obs: seq<Observation>, input: Option<Value>) {
    && (input.None? <==> obs == [])
    && (input.Some? ==> input.value.Merged? && forall n ::
          if Under(obs, n) == [] then n !in input.value.inputs
          else n in input.value.inputs && input.value.inputs[n] == Entry(Under(obs, n)))
  }

  lemma GroupsMerge(obs: seq<Observation>, grouped: map<string, seq<Value>>)
    requires Groups(obs, grouped)
    ensures IsMerge(obs, MergeOf(grouped))
  {
    if obs != [] {
      var o := obs[|obs| - 1];
      assert obs == obs[..|obs| - 1] + [o];
      UnderNext(obs[..|obs| - 1], o, o.name);
      assert o.name in grouped;
    }
  }

  lemma MergeIsUnique(obs: seq<Observation>, x: Option<Value>, y: Option<Value>)
    requires IsMerge(obs, x) && IsMerge(obs, y)
    ensures x == y
  {
    if obs != [] {
      assert x.value.inputs == y.value.inputs;
    }
  }

  // What a reader of the input finds for an agent.
  function ReadBack(input: Option<Value>, name: string): seq<Value> {
    if input.None? || !input.value.Merged? || name !in input.value.inputs then [] else
      match input.value.inputs[name]
      case Several(outputs) => outputs
      case v => [v]
  }

  lemma {:induction false} UnderCounts(obs: seq<Observation>, name: string, v: Value)
    ensures multiset(Under(obs, name))[v] == multiset(obs)[Observation(name, v)]
  {
    if obs != [] {
      var n := |obs| - 1;
      UnderCounts(obs[..n], name, v);
      assert obs == obs[..n] + [obs[n]];
      assert multiset(obs) == multiset(obs[..n]) + multiset{obs[n]};
      UnderNext(obs[..n], obs[n], name);
      hide Under;
      if obs[n].name == name {
        assert multiset(Under(obs, name)) == multiset(Under(obs[..n], name)) + multiset{obs[n].value};
      }
    }
  }

  // Main result: the input holds every output observed, as often and in the order it was, exactly unless an agent's
  // only output is itself a list.
  lemma NothingOverwritten(obs: seq<Observation>, input: Option<Value>, name: string)
    requires IsMerge(obs, input)
    ensures ReadBack(input, name) == Under(obs, name) <==> !(|Under(obs, name)| == 1 && Under(obs, name)[0].Several?)
    ensures !(|Under(obs, name)| == 1 && Under(obs, name)[0].Several?) ==>
      forall v :: multiset(ReadBack(input, name))[v] == multiset(obs)[Observation(name, v)]
  {
    forall v ensures multiset(Under(obs, name))[v] == multiset(obs)[Observation(name, v)] {
      UnderCounts(obs, name, v);
    }
    if |Under(obs, name)| == 1 && Under(obs, name)[0].Several? {
      NotInItself(Under(obs, name)[0].outputs);
    }
    assert obs == [] ==> Under(obs, name) == [];
  }

  lemma NotInItself(outputs: seq<Value>)
    ensures outputs != [Several(outputs)]
  {
    if outputs != [] {
      FirstDiffers(outputs[0]);
    }
  }

  lemma FirstDiffers(v: Value)
    ensures v.Several? && v.outputs != [] ==> v.outputs[0] != v
  {
  }
}
