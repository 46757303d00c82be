// The reconcile pass over facts that disagree, and the final validation.

module Reconcile {
  import opened Prelude
  import opened Evidence
  import opened Support

  // ---------- Specification ----------

  predicate Measures(f: Finding, key: string) {
    f.factKey == Some(key) && f.data.value.Some?
  }

  // Positions of the findings that measure `key`, in order.
  function GroupOf(fs: seq<Finding>, key: string): seq<nat> {
    if fs == [] then [] else
      var n := |fs| - 1;
      GroupOf(fs[..n], key) + if Measures(fs[n], key) then [n] else []
  }

  function ValuesOf(fs: seq<Finding>, key: string): set<string> {
    set f | f in fs && Measures(f, key) :: f.data.value.value
  }

  // The measured keys, each at its first appearance.
  function KeysOf(fs: seq<Finding>): seq<string> {
    if fs == [] then [] else
      var n := |fs| - 1;
      var f, before := fs[n], KeysOf(fs[..n]);
      if f.factKey.Some? && f.data.value.Some? && f.factKey.value !in before then before + [f.factKey.value] else before
  }

  function Family(key: string): string {
    if key == [] || key[0] == ':' then [] else [key[0]] + Family(key[1..])
  }

  // `key` is `family`, or goes on behind it after a colon.
  predicate InFamily(key: string, family: string) {
    key == family || (|key| > |family| && key[..|family|] == family && key[|family|] == ':')
  }

  lemma {:induction false} FamilyIs(key: string, family: string)
    requires ':' !in family
    ensures Family(key) == family <==> InFamily(key, family)
  {
    if key != [] && key[0] != ':' {
      if family != [] {
        FamilyIs(key[1..], family[1..]);
        assert key == [key[0]] + key[1..] && family == [family[0]] + family[1..];
        assert |key| > |family| ==> key[..|family|] == [key[0]] + key[1..][..|family| - 1];
      }
    }
  }

  function DivergenceKind(key: string): FindingKind {
    var family := Family(key);
    if family == "contract" || family == "file_type_requirement" then RequirementProvenance
    else if family == "assessment" then AssessmentConflict
    else RepresentationDivergence
  }

  function DivergenceFor(fs: seq<Finding>, key: string): Finding {
    Finding(DivergenceKind(key), Hard, OfGraph, NO_DATA.(values := ValuesOf(fs, key), refs := GroupOf(fs, key)),
      Some(key))
  }

  predicate Disagree(fs: seq<Finding>, key: string) {
    |ValuesOf(fs, key)| > 1
  }

  // One divergence for each of `keys` on which the findings disagree.
  function DivergencesOn(fs: seq<Finding>, keys: seq<string>): seq<Finding> {
    if keys == [] then [] else
      (if Disagree(fs, keys[0]) then [DivergenceFor(fs, keys[0])] else []) + DivergencesOn(fs, keys[1..])
  }

  function Divergences(fs: seq<Finding>): seq<Finding> {
    DivergencesOn(fs, KeysOf(fs))
  }

  // ---------- The pass ----------

  function Grouped(groups: map<string, seq<nat>>, key: string): seq<nat> {
    if key in groups then groups[key] else []
  }

  function Grow(groups: map<string, seq<nat>>, key: string, i: nat): map<string, seq<nat>> {
    groups[key := Grouped(groups, key) + [i]]
  }

  lemma GroupsNext(fs: seq<Finding>, i: nat, groups: map<string, seq<nat>>)
    requires i < |fs| && forall k :: Grouped(groups, k) == GroupOf(fs[..i], k)
    ensures fs[i].factKey.Some? && fs[i].data.value.Some? ==>
      forall k :: Grouped(Grow(groups, fs[i].factKey.value, i), k) == GroupOf(fs[..i + 1], k)
    ensures !(fs[i].factKey.Some? && fs[i].data.value.Some?) ==>
      forall k :: Grouped(groups, k) == GroupOf(fs[..i + 1], k)
  {
    assert fs[..i + 1][..i] == fs[..i];
    forall k ensures GroupOf(fs[..i + 1], k) == GroupOf(fs[..i], k) + if Measures(fs[i], k) then [i] else [] {
    }
    hide GroupOf;
  }

  lemma KeysNext(fs: seq<Finding>, i: nat)
    requires i < |fs|
    ensures KeysOf(fs[..i + 1]) ==
      if fs[i].factKey.Some? && fs[i].data.value.Some? && fs[i].factKey.value !in KeysOf(fs[..i])
      then KeysOf(fs[..i]) + [fs[i].factKey.value] else KeysOf(fs[..i])
  {
    assert fs[..i + 1][..i] == fs[..i];
  }

  method GroupByKey(fs: seq<Finding>) returns (order: seq<string>, groups: map<string, seq<nat>>)
    ensures order == KeysOf(fs) && forall k :: Grouped(groups, k) == GroupOf(fs, k)
  {
    order, groups := [], map[];
    for i := 0 to |fs|
      invariant order == KeysOf(fs[..i]) && forall k :: k in groups <==> k in order
      invariant forall k :: Grouped(groups, k) == GroupOf(fs[..i], k)
    {
      hide KeysOf, GroupOf, Grouped;
      var f := fs[i];
      GroupsNext(fs, i, groups);
      KeysNext(fs, i);
      if f.factKey.Some? && f.data.value.Some? {
        var key := f.factKey.value;
        if key !in groups {
          order := order + [key];
        }
        groups := Grow(groups, key, i);
      }
    }
    assert fs[..|fs|] == fs;
  }

  lemma {:induction false} GroupContents(fs: seq<Finding>, key: string)
    ensures forall i: nat :: i in GroupOf(fs, key) <==> i < |fs| && Measures(fs[i], key)
  {
    if fs != [] {
      var n := |fs| - 1;
      GroupContents(fs[..n], key);
      assert fs == fs[..n] + [fs[n]];
    }
  }

  method CollectValues(fs: seq<Finding>, key: string, group: seq<nat>) returns (values: set<string>)
    requires group == GroupOf(fs, key)
    ensures values == ValuesOf(fs, key)
  {
    GroupContents(fs, key);
    values := {};
    for k := 0 to |group|
      invariant values <= ValuesOf(fs, key)
      invariant forall j :: 0 <= j < k ==>
        group[j] < |fs| && fs[group[j]].data.value.Some? && fs[group[j]].data.value.value in values
    {
      var i := group[k];
      assert i in group && fs[i] in fs;
      values := values + {fs[i].data.value.value};
    }
    forall v | v in ValuesOf(fs, key) ensures v in values {
      var f :| f in fs && Measures(f, key) && f.data.value.value == v;
      var i: nat :| i < |fs| && fs[i] == f;
      assert i in group;
      var j :| 0 <= j < |group| && group[j] == i;
    }
  }

  lemma DivergencesStep(fs: seq<Finding>, keys: seq<string>, k: nat, before: seq<Finding>)
    requires k < |keys|
    ensures before + DivergencesOn(fs, keys[k..]) ==
      (before + if Disagree(fs, keys[k]) then [DivergenceFor(fs, keys[k])] else []) + DivergencesOn(fs, keys[k + 1..])
  {
    assert keys[k..][1..] == keys[k + 1..];
  }

  method Reconcile(fs: seq<Finding>) returns (divergences: seq<Finding>)
    ensures divergences == Divergences(fs)
  {
    var order, groups := GroupByKey(fs);
    divergences := [];
    assert order[0..] == order;
    for k := 0 to |order|
      invariant divergences + DivergencesOn(fs, order[k..]) == Divergences(fs)
    {
      hide DivergencesOn, ValuesOf, GroupOf, Grouped, DivergenceKind, KeysOf;
      var key := order[k];
      var values := CollectValues(fs, key, Grouped(groups, key));
      DivergencesStep(fs, order, k, divergences);
      if |values| > 1 {
        divergences := divergences + [
          Finding(DivergenceKind(key), Hard, OfGraph, NO_DATA.(values := values, refs := Grouped(groups, key)),
            Some(key))];
      }
    }
  }

  // ---------- What it guarantees ----------

  lemma {:induction false} KeysContents(fs: seq<Finding>)
    ensures Distinct(KeysOf(fs))
    ensures forall k :: k in KeysOf(fs) <==> exists f :: f in fs && Measures(f, k)
  {
    if fs != [] {
      var n := |fs| - 1;
      KeysContents(fs[..n]);
      assert fs == fs[..n] + [fs[n]];
      forall k ensures k in KeysOf(fs) <==> exists f :: f in fs && Measures(f, k) {
        if k in KeysOf(fs[..n]) {
          var f :| f in fs[..n] && Measures(f, k);
          assert f in fs;
        }
        if f :| f in fs && Measures(f, k) {
          assert f in fs[..n] || f == fs[n];
        }
        if k in KeysOf(fs) && k !in KeysOf(fs[..n]) {
          assert fs[n] in fs && Measures(fs[n], k);
        }
      }
    }
  }

  lemma {:induction false} DivergencesContents(fs: seq<Finding>, keys: seq<string>)
    ensures forall d :: d in DivergencesOn(fs, keys) <==>
      exists k :: k in keys && Disagree(fs, k) && d == DivergenceFor(fs, k)
  {
    if keys != [] {
      DivergencesContents(fs, keys[1..]);
      assert keys == [keys[0]] + keys[1..];
    }
  }

  lemma {:induction false} DivergenceKeysDistinct(fs: seq<Finding>, keys: seq<string>)
    requires Distinct(keys)
    ensures forall i, j :: 0 <= i < j < |DivergencesOn(fs, keys)| ==>
      DivergencesOn(fs, keys)[i].factKey != DivergencesOn(fs, keys)[j].factKey
  {
    if keys != [] {
      DivergenceKeysDistinct(fs, keys[1..]);
      DivergencesContents(fs, keys[1..]);
      var rest := DivergencesOn(fs, keys[1..]);
      forall j | 0 <= j < |rest| ensures rest[j].factKey != Some(keys[0]) {
        assert rest[j] in rest;
        var k :| k in keys[1..] && rest[j] == DivergenceFor(fs, k);
      }
    }
  }

  // Main result: exactly one divergence per fact carried in two or more values, citing all and only
  // the findings that carry it. Its kind goes by the family of the key.
  lemma ReconcileIsExact(fs: seq<Finding>, key: string)
    ensures (exists d :: d in Divergences(fs) && d.factKey == Some(key)) <==> Disagree(fs, key)
    ensures forall i, j :: 0 <= i < j < |Divergences(fs)| ==> Divergences(fs)[i].factKey != Divergences(fs)[j].factKey
    ensures forall d :: d in Divergences(fs) && d.factKey == Some(key) ==>
      d.data.values == ValuesOf(fs, key) && forall i: nat :: i in d.data.refs <==> i < |fs| && Measures(fs[i], key)
    ensures forall d :: d in Divergences(fs) && d.factKey == Some(key) ==>
      d.kind == if InFamily(key, "contract") || InFamily(key, "file_type_requirement") then RequirementProvenance
                else if InFamily(key, "assessment") then AssessmentConflict else RepresentationDivergence
  {
    FamilyIs(key, "contract");
    FamilyIs(key, "file_type_requirement");
    FamilyIs(key, "assessment");
    hide Family;
    KeysContents(fs);
    DivergencesContents(fs, KeysOf(fs));
    DivergenceKeysDistinct(fs, KeysOf(fs));
    GroupContents(fs, key);
    if Disagree(fs, key) {
      assert ValuesOf(fs, key) != {};
      var v :| v in ValuesOf(fs, key);
      var f :| f in fs && Measures(f, key) && f.data.value.value == v;
      assert DivergenceFor(fs, key) in Divergences(fs);
    }
  }

  // A divergence measures nothing itself.
  lemma {:induction false} SilentTail(fs: seq<Finding>, more: seq<Finding>)
    requires forall f :: f in more ==> f.data.value.None?
    ensures KeysOf(fs + more) == KeysOf(fs)
    ensures forall key :: GroupOf(fs + more, key) == GroupOf(fs, key) && ValuesOf(fs + more, key) == ValuesOf(fs, key)
  {
    if more == [] {
      assert fs + more == fs;
    } else {
      var n := |more| - 1;
      SilentTail(fs, more[..n]);
      assert more[n] in more && (fs + more)[..|fs + more| - 1] == fs + more[..n];
      forall key ensures ValuesOf(fs + more, key) == ValuesOf(fs, key) {
        assert forall f :: f in fs + more && Measures(f, key) <==> f in fs && Measures(f, key);
      }
    }
  }

  lemma {:induction false} SameDivergences(fs: seq<Finding>, gs: seq<Finding>, keys: seq<string>)
    requires forall key :: GroupOf(gs, key) == GroupOf(fs, key) && ValuesOf(gs, key) == ValuesOf(fs, key)
    ensures DivergencesOn(gs, keys) == DivergencesOn(fs, keys)
  {
    if keys != [] {
      SameDivergences(fs, gs, keys[1..]);
    }
  }

  // Main result: reconciling again, with the divergences appended, finds the same divergences.
  lemma ReconcileIsIdempotent(fs: seq<Finding>)
    ensures Divergences(fs + Divergences(fs)) == Divergences(fs)
  {
    DivergencesContents(fs, KeysOf(fs));
    SilentTail(fs, Divergences(fs));
    SameDivergences(fs, fs + Divergences(fs), KeysOf(fs));
  }

  // ---------- Finalizing ----------

  predicate Touches(div: Finding, d: Defect) {
    exists r :: r in d.refs && r.index in div.data.refs
  }

  // Context references to the divergences among positions j.. that reconcile evidence of `d`.
  function Attached(base: nat, divs: seq<Finding>, j: nat, d: Defect): (r: seq<Ref>)
    requires j <= |divs|
    ensures forall x :: x in r <==>
      x.role == Context && base + j <= x.index < base + |divs| && Touches(divs[x.index - base], d)
    decreases |divs| - j
  {
    if j == |divs| then [] else
      (if Touches(divs[j], d) then [Ref(base + j, Context)] else []) + Attached(base, divs, j + 1, d)
  }

  function Attach(base: nat, divs: seq<Finding>, d: Defect): Defect {
    d.(refs := d.refs + Attached(base, divs, 0, d))
  }

  // Main result: a defect gains, as context, exactly the divergences that reconcile some finding it cites in any role,
  // and
  // loses nothing.
  lemma AttachedExactly(base: nat, divs: seq<Finding>, d: Defect)
    ensures Attach(base, divs, d) == d.(refs := Attach(base, divs, d).refs) && d.refs <= Attach(base, divs, d).refs
    ensures forall x :: x in Attach(base, divs, d).refs <==>
      x in d.refs || (x.role == Context && exists j: nat, r ::
        j < |divs| && x.index == base + j && r in d.refs && r.index in divs[j].data.refs)
  {
    var extra := Attached(base, divs, 0, d);
    forall x ensures x in extra <==> x.role == Context && exists j: nat, r ::
      j < |divs| && x.index == base + j && r in d.refs && r.index in divs[j].data.refs
    {
      if x in extra {
        var j: nat := x.index - base;
        var r :| r in d.refs && r.index in divs[j].data.refs;
      }
    }
  }

  // Attaching divergences neither helps nor hurts a defect whose references are in range.
  lemma AttachKeepsValidity(fs: seq<Finding>, d: Defect)
    requires InBounds(fs, d.refs)
    ensures InBounds(fs + Divergences(fs), Attach(|fs|, Divergences(fs), d).refs)
    ensures ValidDefect(fs + Divergences(fs), Attach(|fs|, Divergences(fs), d)) <==> ValidDefect(fs, d)
  {
    var divs := Divergences(fs);
    var e := Attach(|fs|, divs, d);
    var extra := Attached(|fs|, divs, 0, d);
    assert e.refs == d.refs + extra;
    forall r | r in e.refs && r.role == Supporting ensures r in d.refs && (fs + divs)[r.index] == fs[r.index] {
      assert r !in extra;
    }
    assert forall r :: r in d.refs ==> r in e.refs;
    if CitesShipment(fs, d.refs) {
      var r :| r in d.refs && r.role == Supporting && r.index < |fs| && fs[r.index].kind == BreachPropagated;
      assert r in e.refs && (fs + divs)[r.index] == fs[r.index];
    }
  }

  datatype Finalized = Payload(findings: seq<Finding>, defects: seq<Defect>) | Unsupported

  method Finalize(fs: seq<Finding>, defects: seq<Defect>) returns (out: Finalized)
    requires forall d :: d in defects ==> InBounds(fs, d.refs)
    ensures out.Payload? <==> AllValid(fs, defects)
    ensures out.Payload? ==> out.findings == fs + Divergences(fs) && AllValid(out.findings, out.defects)
    ensures out.Payload? ==> |out.defects| == |defects|
    ensures out.Payload? ==> forall k :: 0 <= k < |defects| ==>
      out.defects[k] == Attach(|fs|, Divergences(fs), defects[k])
  {
    var divs := Reconcile(fs);
    var attached := [];
    for k := 0 to |defects|
      invariant |attached| == k && forall j :: 0 <= j < k ==> attached[j] == Attach(|fs|, divs, defects[j])
    {
      attached := attached + [Attach(|fs|, divs, defects[k])];
    }
    hide Attach, ValidDefect, Divergences, InBounds;
    forall k | 0 <= k < |defects| ensures ValidDefect(fs + divs, attached[k]) <==> ValidDefect(fs, defects[k]) {
      assert defects[k] in defects;
      AttachKeepsValidity(fs, defects[k]);
    }
    var ok := forall d :: d in attached ==> ValidDefect(fs + divs, d);
    if ok {
      forall k | 0 <= k < |defects| ensures ValidDefect(fs, defects[k]) {
        assert attached[k] in attached;
      }
      out := Payload(fs + divs, attached);
    } else {
      var d :| d in attached && !ValidDefect(fs + divs, d);
      var k :| 0 <= k < |attached| && attached[k] == d;
      assert defects[k] in defects;
      out := Unsupported;
    }
  }
}
