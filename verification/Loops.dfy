// Anomalous cycles: how many rounds a cycle ran, and which of its runs are the rounds.

module Loops {
  import opened Prelude
  import opened Graphs
  import opened BlameInput
  import opened Condense
  import opened Propagation
  import opened CutPoint
  import opened Evidence

  // ---------- Agent names in dictionary order ----------

  predicate NameLess(s: string, t: string) {
    t != [] && (s == [] || s[0] < t[0] || (s[0] == t[0] && NameLess(s[1..], t[1..])))
  }

  lemma {:induction false} NamesTrichotomy(s: string, t: string)
    ensures s == t || NameLess(s, t) || NameLess(t, s)
  {
    if s != [] && t != [] {
      NamesTrichotomy(s[1..], t[1..]);
      assert s == [s[0]] + s[1..] && t == [t[0]] + t[1..];
    }
  }

  lemma {:induction false} NamesTransitive(s: string, t: string, u: string)
    requires NameLess(s, t) && NameLess(t, u)
    ensures NameLess(s, u)
  {
    if s != [] && s[0] == t[0] == u[0] {
      NamesTransitive(s[1..], t[1..], u[1..]);
    }
  }

  lemma {:induction false} NamesIrreflexive(s: string)
    ensures !NameLess(s, s)
  {
    if s != [] {
      NamesIrreflexive(s[1..]);
    }
  }

  // ---------- Rounds ----------

  // A member the trace identified as an attempt of `agent`.
  predicate IsRound(inp: Input, m: RunId, agent: string) {
    agent != "" && m in inp.attemptOf && inp.attemptOf[m] == agent && m in inp.attempts
  }

  function RoundsOf(inp: Input, members: seq<RunId>, agent: string): seq<RunId> {
    Filter(members, m => IsRound(inp, m, agent))
  }

  function Agents(inp: Input, members: seq<RunId>): set<string> {
    set m | m in members && m in inp.attemptOf && IsRound(inp, m, inp.attemptOf[m]) :: inp.attemptOf[m]
  }

  // More rounds first; equal counts go to the later name.
  predicate Busier(inp: Input, members: seq<RunId>, a: string, b: string) {
    var m, n := |RoundsOf(inp, members, a)|, |RoundsOf(inp, members, b)|;
    m > n || (m == n && NameLess(b, a))
  }

  ghost predicate IsBusiest(inp: Input, members: seq<RunId>, agents: set<string>, a: string) {
    a in agents && forall b :: b in agents && b != a ==> Busier(inp, members, a, b)
  }

  method FindBusiest(inp: Input, members: seq<RunId>, agents: set<string>) returns (a: string)
    requires agents != {}
    ensures IsBusiest(inp, members, agents, a)
  {
    a :| a in agents;
    var todo := agents - {a};
    while todo != {}
      invariant todo <= agents && a in agents && a !in todo
      invariant forall b :: b in agents && b !in todo && b != a ==> Busier(inp, members, a, b)
    {
      var b :| b in todo;
      todo := todo - {b};
      NamesTrichotomy(a, b);
      if Busier(inp, members, b, a) {
        forall c | c in agents && c !in todo && c != b ensures Busier(inp, members, b, c) {
          if c != a && NameLess(c, a) && NameLess(a, b) {
            NamesTransitive(c, a, b);
          }
        }
        a := b;
      }
    }
  }

  lemma BusiestUnique(inp: Input, members: seq<RunId>, agents: set<string>, a: string, b: string)
    requires IsBusiest(inp, members, agents, a) && IsBusiest(inp, members, agents, b)
    ensures a == b
  {
    if a != b {
      assert Busier(inp, members, a, b) && Busier(inp, members, b, a);
      NamesTransitive(a, b, a);
      NamesIrreflexive(a);
    }
  }

  // Stable insertion by attempt number.
  function InsertRound(inp: Input, sorted: seq<RunId>, m: RunId): seq<RunId>
    requires m in inp.attempts && forall r :: r in sorted ==> r in inp.attempts
  {
    if sorted == [] then [m]
    else if inp.attempts[m] < inp.attempts[sorted[|sorted| - 1]] then
      assert forall r :: r in sorted[..|sorted| - 1] ==> r in sorted;
      InsertRound(inp, sorted[..|sorted| - 1], m) + [sorted[|sorted| - 1]]
    else sorted + [m]
  }

  ghost predicate InRounds(inp: Input, s: seq<RunId>) {
    && (forall r :: r in s ==> r in inp.attempts)
    && forall i, j :: 0 <= i < j < |s| ==> inp.attempts[s[i]] <= inp.attempts[s[j]]
  }

  lemma {:induction false} InsertContents(inp: Input, sorted: seq<RunId>, m: RunId)
    requires m in inp.attempts && forall r :: r in sorted ==> r in inp.attempts
    ensures multiset(InsertRound(inp, sorted, m)) == multiset(sorted) + multiset{m}
    ensures forall r :: r in InsertRound(inp, sorted, m) <==> r == m || r in sorted
  {
    if sorted != [] {
      var n := |sorted| - 1;
      assert sorted == sorted[..n] + [sorted[n]];
      if inp.attempts[m] < inp.attempts[sorted[n]] {
        InsertContents(inp, sorted[..n], m);
      }
    }
  }

  lemma AppendSorted(inp: Input, s: seq<RunId>, m: RunId)
    requires m in inp.attempts && InRounds(inp, s) && forall r :: r in s ==> inp.attempts[r] <= inp.attempts[m]
    ensures InRounds(inp, s + [m])
  {
    assert forall i :: 0 <= i < |s| ==> s[i] in s;
  }

  lemma RoundsBelow(inp: Input, s: seq<RunId>)
    requires InRounds(inp, s) && s != []
    ensures InRounds(inp, s[..|s| - 1]) && s[|s| - 1] in inp.attempts
    ensures forall r :: r in s ==> r in inp.attempts && inp.attempts[r] <= inp.attempts[s[|s| - 1]]
    ensures forall r :: r in s[..|s| - 1] ==> r in s
  {
  }

  lemma {:induction false} InsertSorted(inp: Input, sorted: seq<RunId>, m: RunId)
    requires m in inp.attempts && InRounds(inp, sorted)
    ensures InRounds(inp, InsertRound(inp, sorted, m))
  {
    InsertContents(inp, sorted, m);
    if sorted != [] {
      var n := |sorted| - 1;
      RoundsBelow(inp, sorted);
      if inp.attempts[m] < inp.attempts[sorted[n]] {
        InsertSorted(inp, sorted[..n], m);
        InsertContents(inp, sorted[..n], m);
        hide InRounds;
        AppendSorted(inp, InsertRound(inp, sorted[..n], m), sorted[n]);
      } else {
        hide InRounds;
        AppendSorted(inp, sorted, m);
      }
    }
  }

  // Insertion one by one: a stable sort by attempt number.
  function Arranged(inp: Input, s: seq<RunId>): (r: seq<RunId>)
    requires forall x :: x in s ==> x in inp.attempts
    ensures forall x :: x in r ==> x in inp.attempts
  {
    if s == [] then [] else
      var n := |s| - 1;
      var front := Arranged(inp, s[..n]);
      InsertContents(inp, front, s[n]);
      InsertRound(inp, front, s[n])
  }

  lemma {:induction false} ArrangedIs(inp: Input, s: seq<RunId>)
    requires forall x :: x in s ==> x in inp.attempts
    ensures InRounds(inp, Arranged(inp, s)) && multiset(Arranged(inp, s)) == multiset(s)
  {
    if s != [] {
      var n := |s| - 1;
      assert s == s[..n] + [s[n]];
      ArrangedIs(inp, s[..n]);
      InsertSorted(inp, Arranged(inp, s[..n]), s[n]);
      InsertContents(inp, Arranged(inp, s[..n]), s[n]);
    }
  }

  method SortRounds(inp: Input, s: seq<RunId>) returns (sorted: seq<RunId>)
    requires forall r :: r in s ==> r in inp.attempts
    ensures sorted == Arranged(inp, s)
  {
    sorted := [];
    for k := 0 to |s|
      invariant sorted == Arranged(inp, s[..k])
    {
      assert s[..k + 1][..k] == s[..k];
      sorted := InsertRound(inp, sorted, s[k]);
    }
    assert s[..|s|] == s;
  }

  // The busiest agent's attempts in attempt order, equal numbers as they finished; without any loop
  // identity, the size of the cycle.
  ghost predicate AreRounds(inp: Input, members: seq<RunId>, rounds: nat, repeating: seq<RunId>) {
    if Agents(inp, members) == {} then rounds == |members| && repeating == []
    else rounds == |repeating| && exists a ::
      IsBusiest(inp, members, Agents(inp, members), a) && repeating == Arranged(inp, RoundsOf(inp, members, a))
  }

  method Rounds(inp: Input, members: seq<RunId>) returns (rounds: nat, repeating: seq<RunId>)
    ensures AreRounds(inp, members, rounds, repeating)
  {
    var agents := Agents(inp, members);
    if agents == {} {
      return |members|, [];
    }
    var a := FindBusiest(inp, members, agents);
    repeating := SortRounds(inp, RoundsOf(inp, members, a));
    rounds := |repeating|;
  }

  // The runs that repeated all lie in the cycle, and are attempts of one agent.
  lemma RoundsInside(inp: Input, members: seq<RunId>, rounds: nat, repeating: seq<RunId>)
    requires AreRounds(inp, members, rounds, repeating)
    ensures forall r :: r in repeating ==> r in members
    ensures forall r, q :: r in repeating && q in repeating ==>
      r in inp.attemptOf && q in inp.attemptOf && inp.attemptOf[r] == inp.attemptOf[q]
    ensures rounds <= |members|
    ensures repeating != [] ==> InRounds(inp, repeating)
  {
    hide IsBusiest, Arranged, InRounds;
    if Agents(inp, members) != {} {
      var a :| IsBusiest(inp, members, Agents(inp, members), a) &&
        repeating == Arranged(inp, RoundsOf(inp, members, a));
      var own := RoundsOf(inp, members, a);
      ArrangedIs(inp, own);
      SameContents(repeating, own);
      FilterShrinks(members, m => IsRound(inp, m, a));
    }
  }

  // ---------- The rounds, told by the record ----------

  // `s` is before `t` in a dictionary: a proper beginning of it, or smaller where the two part.
  ghost predicate InDictionary(s: string, t: string) {
    exists k: nat :: k <= |s| && k < |t| && s[..k] == t[..k] && (k == |s| || s[k] < t[k])
  }

  lemma PartAtOnce(s: string, t: string)
    requires s != [] && t != [] && s[0] != t[0]
    ensures InDictionary(s, t) <==> s[0] < t[0]
  {
    if s[0] < t[0] {
      assert s[..0] == t[..0];
    }
    forall k: nat | 0 < k <= |s| && k <= |t| ensures s[..k] != t[..k] {
      assert s[..k][0] == s[0] && t[..k][0] == t[0];
    }
  }

  lemma PartLater(s: string, t: string)
    requires s != [] && t != [] && s[0] == t[0]
    ensures InDictionary(s, t) <==> InDictionary(s[1..], t[1..])
  {
    var u, v := s[1..], t[1..];
    if InDictionary(u, v) {
      var k: nat :| k <= |u| && k < |v| && u[..k] == v[..k] && (k == |u| || u[k] < v[k]);
      assert s[..k + 1] == [s[0]] + u[..k] && t[..k + 1] == [t[0]] + v[..k];
    }
    if InDictionary(s, t) {
      var k: nat :| k <= |s| && k < |t| && s[..k] == t[..k] && (k == |s| || s[k] < t[k]);
      assert k > 0;
      assert u[..k - 1] == s[..k][1..] && v[..k - 1] == t[..k][1..];
    }
  }

  lemma {:induction false} NameLessIs(s: string, t: string)
    ensures NameLess(s, t) <==> InDictionary(s, t)
  {
    if s != [] && t != [] {
      assert s == [s[0]] + s[1..] && t == [t[0]] + t[1..];
      NameLessIs(s[1..], t[1..]);
      if s[0] == t[0] {
        PartLater(s, t);
      } else {
        PartAtOnce(s, t);
      }
      hide InDictionary;
    } else if t != [] {
      assert s[..0] == t[..0];
    }
  }

  // `m` was recorded as a numbered attempt of `agent`.
  predicate Attempted(inp: Input, m: RunId, agent: string) {
    agent != "" && m in inp.attemptOf && inp.attemptOf[m] == agent && m in inp.attempts
  }

  function AttemptsIn(inp: Input, members: seq<RunId>, agent: string): set<RunId> {
    set m | m in members && Attempted(inp, m, agent)
  }

  // Listed by attempt number, equal numbers as in `members`.
  ghost predicate ByAttempt(inp: Input, members: seq<RunId>, s: seq<RunId>) {
    && (forall r :: r in s ==> r in inp.attempts)
    && forall i, j :: 0 <= i < j < |s| ==> AttemptBefore(inp, members, s[i], s[j])
  }

  ghost predicate AttemptBefore(inp: Input, members: seq<RunId>, a: RunId, b: RunId) {
    && a in inp.attempts && b in inp.attempts
    && (inp.attempts[a] < inp.attempts[b] || (inp.attempts[a] == inp.attempts[b] && Earlier(members, a, b)))
  }

  ghost predicate Earlier(members: seq<RunId>, a: RunId, b: RunId) {
    exists i, j :: 0 <= i < j < |members| && members[i] == a && members[j] == b
  }

  lemma {:induction false} FilterPicks(s: seq<RunId>, keep: RunId -> bool)
    requires Distinct(s)
    ensures Distinct(Filter(s, keep)) && forall m :: m in Filter(s, keep) <==> m in s && keep(m)
    ensures forall i, j :: 0 <= i < j < |Filter(s, keep)| ==> Earlier(s, Filter(s, keep)[i], Filter(s, keep)[j])
  {
    if s != [] {
      FilterPicks(s[1..], keep);
      assert s == [s[0]] + s[1..];
      var rest, all := Filter(s[1..], keep), Filter(s, keep);
      forall a, b | Earlier(s[1..], a, b) ensures Earlier(s, a, b) {
        var i, j :| 0 <= i < j < |s[1..]| && s[1..][i] == a && s[1..][j] == b;
        assert s[i + 1] == a && s[j + 1] == b;
      }
      forall m | m in s[1..] ensures Earlier(s, s[0], m) {
        var j :| 0 <= j < |s[1..]| && s[1..][j] == m;
        assert s[0] == s[0] && s[j + 1] == m;
      }
      if keep(s[0]) {
        assert all == [s[0]] + rest;
        assert forall j :: 0 <= j < |rest| ==> rest[j] in rest;
      } else {
        assert all == rest;
      }
    }
  }

  lemma {:induction false} InsertStable(inp: Input, members: seq<RunId>, sorted: seq<RunId>, m: RunId)
    requires m in inp.attempts && ByAttempt(inp, members, sorted)
    requires forall r :: r in sorted ==> Earlier(members, r, m)
    ensures ByAttempt(inp, members, InsertRound(inp, sorted, m))
  {
    InsertContents(inp, sorted, m);
    hide Earlier;
    if sorted != [] {
      var n := |sorted| - 1;
      var last := sorted[n];
      assert sorted == sorted[..n] + [last];
      assert forall i :: 0 <= i < n ==> AttemptBefore(inp, members, sorted[i], last);
      var front := sorted[..n];
      assert forall r :: r in front ==> AttemptBefore(inp, members, r, last);
      if inp.attempts[m] < inp.attempts[last] {
        InsertStable(inp, members, front, m);
        InsertContents(inp, front, m);
        EndsRounds(inp, members, InsertRound(inp, front, m), last);
      } else {
        forall r | r in sorted ensures AttemptBefore(inp, members, r, m) {
        }
        EndsRounds(inp, members, sorted, m);
      }
    }
  }

  lemma EndsRounds(inp: Input, members: seq<RunId>, s: seq<RunId>, m: RunId)
    requires ByAttempt(inp, members, s) && m in inp.attempts && forall r :: r in s ==> AttemptBefore(inp, members, r, m)
    ensures ByAttempt(inp, members, s + [m])
  {
    hide AttemptBefore;
    assert forall i :: 0 <= i < |s| ==> s[i] in s;
  }

  lemma {:induction false} ArrangedStable(inp: Input, members: seq<RunId>, s: seq<RunId>)
    requires forall x :: x in s ==> x in inp.attempts
    requires forall i, j :: 0 <= i < j < |s| ==> Earlier(members, s[i], s[j])
    ensures ByAttempt(inp, members, Arranged(inp, s)) && forall r :: r in Arranged(inp, s) <==> r in s
  {
    hide Earlier;
    if s != [] {
      var n := |s| - 1;
      assert s == s[..n] + [s[n]];
      ArrangedStable(inp, members, s[..n]);
      InsertContents(inp, Arranged(inp, s[..n]), s[n]);
      InsertStable(inp, members, Arranged(inp, s[..n]), s[n]);
    }
  }

  lemma AttemptsAre(inp: Input, members: seq<RunId>, agent: string)
    requires Distinct(members)
    ensures var own := RoundsOf(inp, members, agent);
      Distinct(own) && Elements(own) == AttemptsIn(inp, members, agent) && |own| == |AttemptsIn(inp, members, agent)| &&
      forall i, j :: 0 <= i < j < |own| ==> Earlier(members, own[i], own[j])
  {
    var keep := (m: RunId) => IsRound(inp, m, agent);
    FilterPicks(members, keep);
    var own := RoundsOf(inp, members, agent);
    assert own == Filter(members, keep);
    assert Elements(own) == AttemptsIn(inp, members, agent);
    DistinctCount(own);
    hide Earlier, Filter;
  }

  // `a` made the most attempts among the members, equal counts going to the later name.
  ghost predicate Repeats(inp: Input, members: seq<RunId>, a: string) {
    && AttemptsIn(inp, members, a) != {}
    && forall b :: b != a && AttemptsIn(inp, members, b) != {} ==>
      |AttemptsIn(inp, members, a)| > |AttemptsIn(inp, members, b)| ||
      (|AttemptsIn(inp, members, a)| == |AttemptsIn(inp, members, b)| && InDictionary(b, a))
  }

  // Main result: the rounds of a cycle are all the attempts of the agent that made the most, in the order of their
  // numbers, or as many as the cycle has members when no attempt was recorded.
  lemma RoundsTold(inp: Input, members: seq<RunId>, rounds: nat, repeating: seq<RunId>)
    requires Distinct(members) && AreRounds(inp, members, rounds, repeating)
    ensures (forall agent :: AttemptsIn(inp, members, agent) == {}) ==> rounds == |members| && repeating == []
    ensures (exists agent :: AttemptsIn(inp, members, agent) != {}) ==> exists agent ::
      Repeats(inp, members, agent) && Elements(repeating) == AttemptsIn(inp, members, agent) &&
      rounds == |repeating| == |AttemptsIn(inp, members, agent)| && ByAttempt(inp, members, repeating)
  {
    forall agent
      ensures agent in Agents(inp, members) <==> AttemptsIn(inp, members, agent) != {}
    {
      if m :| m in AttemptsIn(inp, members, agent) {
        assert IsRound(inp, m, inp.attemptOf[m]);
      }
      if agent in Agents(inp, members) {
        var m :| m in members && m in inp.attemptOf && IsRound(inp, m, inp.attemptOf[m]) && inp.attemptOf[m] == agent;
        assert m in AttemptsIn(inp, members, agent);
      }
    }
    hide AttemptsIn, Agents, IsBusiest, Arranged, RoundsOf;
    if Agents(inp, members) != {} {
      var a :| IsBusiest(inp, members, Agents(inp, members), a) &&
        repeating == Arranged(inp, RoundsOf(inp, members, a));
      BusiestRepeats(inp, members, a);
      RoundsArranged(inp, members, a);
    } else {
      assert forall agent :: AttemptsIn(inp, members, agent) == {};
    }
  }

  lemma RoundsArranged(inp: Input, members: seq<RunId>, a: string)
    requires Distinct(members)
    ensures var r := Arranged(inp, RoundsOf(inp, members, a));
      Elements(r) == AttemptsIn(inp, members, a) && |r| == |AttemptsIn(inp, members, a)| && ByAttempt(inp, members, r)
  {
    AttemptsAre(inp, members, a);
    var own := RoundsOf(inp, members, a);
    assert forall x :: x in own ==> x in inp.attempts;
    hide AttemptsIn, RoundsOf, Earlier;
    ArrangedStable(inp, members, own);
    ArrangedIs(inp, own);
    SameContents(Arranged(inp, own), own);
  }

  lemma BusiestRepeats(inp: Input, members: seq<RunId>, a: string)
    requires Distinct(members) && IsBusiest(inp, members, Agents(inp, members), a)
    requires forall agent :: agent in Agents(inp, members) <==> AttemptsIn(inp, members, agent) != {}
    ensures Repeats(inp, members, a)
  {
    hide AttemptsIn, Agents, RoundsOf, NameLess, InDictionary;
    AttemptsAre(inp, members, a);
    forall b | b != a && AttemptsIn(inp, members, b) != {}
      ensures |AttemptsIn(inp, members, a)| > |AttemptsIn(inp, members, b)| ||
        (|AttemptsIn(inp, members, a)| == |AttemptsIn(inp, members, b)| && InDictionary(b, a))
    {
      AttemptsAre(inp, members, b);
      NameLessIs(b, a);
      assert Busier(inp, members, a, b);
    }
  }

  // However the agents are enumerated, the rounds come out the same.
  lemma RoundsUnique(inp: Input, members: seq<RunId>, m: nat, s: seq<RunId>, n: nat, t: seq<RunId>)
    requires AreRounds(inp, members, m, s) && AreRounds(inp, members, n, t)
    ensures m == n && s == t
  {
    hide IsBusiest, Arranged;
    if Agents(inp, members) != {} {
      var a :| IsBusiest(inp, members, Agents(inp, members), a) && s == Arranged(inp, RoundsOf(inp, members, a));
      var b :| IsBusiest(inp, members, Agents(inp, members), b) && t == Arranged(inp, RoundsOf(inp, members, b));
      BusiestUnique(inp, members, Agents(inp, members), a, b);
    }
  }

  lemma SameContents(s: seq<RunId>, t: seq<RunId>)
    requires multiset(s) == multiset(t)
    ensures |s| == |t| && forall r :: r in s <==> r in t
  {
    assert |multiset(s)| == |multiset(t)|;
    assert forall r :: r in s <==> r in multiset(s);
    assert forall r :: r in t <==> r in multiset(t);
  }

  lemma {:induction false} FilterShrinks<T>(s: seq<T>, keep: T -> bool)
    ensures |Filter(s, keep)| <= |s|
  {
    if s != [] {
      FilterShrinks(s[1..], keep);
    }
  }

  // ---------- Anomalies ----------

  predicate IsCycle(sn: SuperNode) {
    |sn.members| != 1 || sn.selfLoop
  }

  // A run without an agent name goes by its own id.
  function NameOf(inp: Input, r: RunId): string {
    if r in inp.agentNames then inp.agentNames[r] else Digits(r)
  }

  function CountName(inp: Input, members: seq<RunId>, name: string): nat {
    |Filter(members, m => NameOf(inp, m) == name)|
  }

  function Names(inp: Input, members: seq<RunId>): set<string> {
    set m | m in members :: NameOf(inp, m)
  }

  // More members first; equal counts go to the earlier name.
  predicate MoreCommon(inp: Input, members: seq<RunId>, a: string, b: string) {
    var m, n := CountName(inp, members, a), CountName(inp, members, b);
    m > n || (m == n && NameLess(a, b))
  }

  ghost predicate IsMostCommon(inp: Input, members: seq<RunId>, names: set<string>, a: string) {
    a in names && forall b :: b in names && b != a ==> MoreCommon(inp, members, a, b)
  }

  method FindMostCommon(inp: Input, members: seq<RunId>) returns (a: string)
    requires members != []
    ensures IsMostCommon(inp, members, Names(inp, members), a)
  {
    var names := Names(inp, members);
    assert NameOf(inp, members[0]) in names;
    a :| a in names;
    var todo := names - {a};
    while todo != {}
      invariant todo <= names && a in names && a !in todo
      invariant forall b :: b in names && b !in todo && b != a ==> MoreCommon(inp, members, a, b)
    {
      var b :| b in todo;
      todo := todo - {b};
      NamesTrichotomy(a, b);
      if MoreCommon(inp, members, b, a) {
        forall c | c in names && c !in todo && c != b ensures MoreCommon(inp, members, b, c) {
          if c != a && NameLess(b, a) && NameLess(a, c) {
            NamesTransitive(b, a, c);
          }
        }
        a := b;
      }
    }
  }

  // The agent whose baseline applies: the repeating one, else the most common among the members.
  ghost predicate IsDominant(inp: Input, members: seq<RunId>, repeating: seq<RunId>, agent: string) {
    if repeating != [] then repeating[0] in inp.attemptOf && agent == inp.attemptOf[repeating[0]]
    else IsMostCommon(inp, members, Names(inp, members), agent)
  }

  predicate Exceeds(inp: Input, iterations: int) {
    iterations > inp.config.maxLoopIterations
  }

  predicate Outlier(inp: Input, iterations: int, agent: string) {
    && agent in inp.loopBaselines
    && inp.loopBaselines[agent].samples >= inp.config.loopMinHistory
    && iterations as real > inp.loopBaselines[agent].mean + inp.config.loopZscore * inp.loopBaselines[agent].std
  }

  // A self-loop is a node retrying itself: at least two rounds.
  function IterationsOf(sn: SuperNode, rounds: nat): int {
    if sn.selfLoop && rounds < 2 then 2 else rounds
  }

  ghost predicate RanAs(inp: Input, sn: SuperNode, iterations: int, repeating: seq<RunId>) {
    exists rounds: nat :: AreRounds(inp, sn.members, rounds, repeating) && iterations == IterationsOf(sn, rounds)
  }

  ghost predicate IsOutlying(inp: Input, sn: SuperNode, iterations: int, repeating: seq<RunId>) {
    exists agent :: IsDominant(inp, sn.members, repeating, agent) && Outlier(inp, iterations, agent)
  }

  // `a` is the finding on cycle `sn`: over the limit, or else a statistical outlier.
  ghost predicate IsAnomaly(inp: Input, sn: SuperNode, a: Anomaly) {
    && IsCycle(sn) && a.members == sn.members
    && RanAs(inp, sn, a.iterations, a.repeating)
    && (a.statistical <==> !Exceeds(inp, a.iterations))
    && (a.statistical ==> IsOutlying(inp, sn, a.iterations, a.repeating))
  }

  ghost predicate IsUnremarkable(inp: Input, sn: SuperNode, iterations: int, repeating: seq<RunId>, agent: string) {
    && RanAs(inp, sn, iterations, repeating) && IsDominant(inp, sn.members, repeating, agent)
    && !Exceeds(inp, iterations) && !Outlier(inp, iterations, agent)
  }

  ghost predicate IsBenign(inp: Input, sn: SuperNode) {
    !IsCycle(sn) || exists iterations, repeating, agent :: IsUnremarkable(inp, sn, iterations, repeating, agent)
  }

  // The agent of the repeating runs, else the most common one.
  method FindDominant(inp: Input, members: seq<RunId>, repeating: seq<RunId>) returns (agent: string)
    requires members != [] && forall r :: r in repeating ==> r in inp.attemptOf
    ensures IsDominant(inp, members, repeating, agent)
  {
    hide IsMostCommon, Names;
    if repeating != [] {
      assert repeating[0] in repeating;
      agent := inp.attemptOf[repeating[0]];
    } else {
      agent := FindMostCommon(inp, members);
    }
  }

  method JudgeCycle(inp: Input, sn: SuperNode) returns (a: Option<Anomaly>)
    requires sn.members != []
    ensures a.Some? ==> IsAnomaly(inp, sn, a.value)
    ensures a.None? ==> IsBenign(inp, sn)
  {
    if !IsCycle(sn) {
      return None;
    }
    var rounds, repeating := Rounds(inp, sn.members);
    RoundsInside(inp, sn.members, rounds, repeating);
    var iterations := IterationsOf(sn, rounds);
    assert RanAs(inp, sn, iterations, repeating);
    hide *;
    var agent := FindDominant(inp, sn.members, repeating);
    JudgedAs(inp, sn, iterations, repeating, agent);
    if Exceeds(inp, iterations) {
      a := Some(Anomaly(sn.members, iterations, false, repeating));
    } else if Outlier(inp, iterations, agent) {
      a := Some(Anomaly(sn.members, iterations, true, repeating));
    } else {
      a := None;
    }
  }

  lemma JudgedAs(inp: Input, sn: SuperNode, iterations: int, repeating: seq<RunId>, agent: string)
    requires IsCycle(sn) && RanAs(inp, sn, iterations, repeating) && IsDominant(inp, sn.members, repeating, agent)
    ensures Exceeds(inp, iterations) ==> IsAnomaly(inp, sn, Anomaly(sn.members, iterations, false, repeating))
    ensures !Exceeds(inp, iterations) && Outlier(inp, iterations, agent) ==>
      IsAnomaly(inp, sn, Anomaly(sn.members, iterations, true, repeating))
    ensures !Exceeds(inp, iterations) && !Outlier(inp, iterations, agent) ==> IsBenign(inp, sn)
  {
    hide IsCycle, RanAs, IsDominant, Exceeds, Outlier;
    if !Exceeds(inp, iterations) && !Outlier(inp, iterations, agent) {
      assert IsUnremarkable(inp, sn, iterations, repeating, agent);
    }
  }

  // Anomalies in topological order: at most one per cycle, none for a cycle that is benign.
  ghost predicate AreAnomalies(inp: Input, c: Condensation, k: nat, found: seq<Anomaly>, at: seq<nat>) {
    && k <= |c.topo| && |at| == |found|
    && (forall i :: 0 <= i < |at| ==>
       at[i] < k && c.topo[at[i]] < |c.supers| && IsAnomaly(inp, c.supers[c.topo[at[i]]], found[i]))
    && (forall i, j :: 0 <= i < j < |at| ==> at[i] < at[j])
    && forall i: nat :: i < k && i !in at && c.topo[i] < |c.supers| ==> IsBenign(inp, c.supers[c.topo[i]])
  }

  method DetectAnomalies(inp: Input, c: Condensation) returns (found: seq<Anomaly>, at: seq<nat>)
    requires WellFormed(inp, c)
    ensures AreAnomalies(inp, c, |c.topo|, found, at)
  {
    TopoInRange(inp, c);
    found, at := [], [];
    for k := 0 to |c.topo|
      invariant AreAnomalies(inp, c, k, found, at)
    {
      hide *;
      SuperHasMembers(inp, c, c.topo[k]);
      var a := JudgeCycle(inp, c.supers[c.topo[k]]);
      AnomaliesNext(inp, c, k, found, at, a);
      if a.Some? {
        found, at := found + [a.value], at + [k];
      }
    }
  }

  lemma SuperHasMembers(inp: Input, c: Condensation, s: nat)
    requires WellFormed(inp, c) && s < |c.supers|
    ensures c.supers[s].members != []
  {
    SuperContents(inp, c, s);
  }

  lemma AnomaliesNext(inp: Input, c: Condensation, k: nat, found: seq<Anomaly>, at: seq<nat>, a: Option<Anomaly>)
    requires AreAnomalies(inp, c, k, found, at) && k < |c.topo| && c.topo[k] < |c.supers|
    requires if a.Some? then IsAnomaly(inp, c.supers[c.topo[k]], a.value) else IsBenign(inp, c.supers[c.topo[k]])
    ensures a.Some? ==> AreAnomalies(inp, c, k + 1, found + [a.value], at + [k])
    ensures a.None? ==> AreAnomalies(inp, c, k + 1, found, at)
  {
    hide IsAnomaly, IsBenign;
    if a.Some? {
      var at' := at + [k];
      assert forall i :: i in at' <==> i in at || i == k;
    }
  }

  lemma AnomalyInside(inp: Input, sn: SuperNode, a: Anomaly)
    requires IsAnomaly(inp, sn, a)
    ensures a.members == sn.members && forall r :: r in a.repeating ==> r in sn.members
  {
    var rounds: nat :| AreRounds(inp, sn.members, rounds, a.repeating);
    RoundsInside(inp, sn.members, rounds, a.repeating);
  }

  predicate GoesBy(inp: Input, m: RunId, name: string) {
    if m in inp.agentNames then inp.agentNames[m] == name else Digits(m) == name
  }

  function Bearers(inp: Input, members: seq<RunId>, name: string): set<RunId> {
    set m | m in members && GoesBy(inp, m, name)
  }

  lemma BearersAre(inp: Input, members: seq<RunId>, name: string)
    requires Distinct(members)
    ensures CountName(inp, members, name) == |Bearers(inp, members, name)|
    ensures name in Names(inp, members) <==> Bearers(inp, members, name) != {}
  {
    var keep := (m: RunId) => NameOf(inp, m) == name;
    FilterPicks(members, keep);
    var own := Filter(members, keep);
    assert Elements(own) == Bearers(inp, members, name);
    DistinctCount(own);
    if name in Names(inp, members) {
      var m :| m in members && NameOf(inp, m) == name;
      assert m in Bearers(inp, members, name);
    }
    if m :| m in Bearers(inp, members, name) {
      assert NameOf(inp, m) == name;
    }
    hide Filter, Digits;
  }

  // Main result: the agent a cycle is judged by is the one that repeats, or else the name most members go by, equal
  // counts going to the earlier name.
  lemma DominantIs(inp: Input, members: seq<RunId>, repeating: seq<RunId>, agent: string)
    requires Distinct(members) && IsDominant(inp, members, repeating, agent)
    ensures repeating != [] ==> repeating[0] in inp.attemptOf && agent == inp.attemptOf[repeating[0]]
    ensures repeating == [] ==> Bearers(inp, members, agent) != {} && forall b ::
      b != agent && Bearers(inp, members, b) != {} ==>
        |Bearers(inp, members, agent)| > |Bearers(inp, members, b)| ||
        (|Bearers(inp, members, agent)| == |Bearers(inp, members, b)| && InDictionary(agent, b))
  {
    hide Bearers, Names, CountName, NameLess, InDictionary;
    if repeating == [] {
      BearersAre(inp, members, agent);
      forall b | b != agent && Bearers(inp, members, b) != {}
        ensures |Bearers(inp, members, agent)| > |Bearers(inp, members, b)| ||
          (|Bearers(inp, members, agent)| == |Bearers(inp, members, b)| && InDictionary(agent, b))
      {
        BearersAre(inp, members, b);
        NameLessIs(agent, b);
        assert MoreCommon(inp, members, agent, b);
      }
    }
  }

  // Main result, from the settings: a cycle is found anomalous exactly when its rounds are more than the limit, or
  // when the agent it is judged by has enough history and the rounds lie above its mean by more than the set number of
  // deviations. The finding is statistical when the limit itself held, and a node retrying itself ran twice at least.
  lemma AnomalousIff(inp: Input, sn: SuperNode, rounds: nat, repeating: seq<RunId>, agent: string)
    requires AreRounds(inp, sn.members, rounds, repeating) && IsDominant(inp, sn.members, repeating, agent)
    requires |sn.members| > 1 || (|sn.members| == 1 && sn.selfLoop)
    ensures var n := if sn.selfLoop && rounds < 2 then 2 else rounds;
      var over := n > inp.config.maxLoopIterations;
      var outlying := agent in inp.loopBaselines && var b := inp.loopBaselines[agent];
        b.samples >= inp.config.loopMinHistory && n as real - b.mean > inp.config.loopZscore * b.std;
      && (IsBenign(inp, sn) <==> !over && !outlying)
      && forall a :: IsAnomaly(inp, sn, a) <==> (over || outlying) && a == Anomaly(sn.members, n, !over, repeating)
  {
    var n := IterationsOf(sn, rounds);
    JudgementsAre(inp, sn, rounds, repeating, agent);
    LimitsAre(inp, n, agent);
    hide *;
  }

  // A node that is no cycle has no finding.
  lemma NoCycleIsBenign(inp: Input, sn: SuperNode, a: Anomaly)
    requires |sn.members| == 1 && !sn.selfLoop
    ensures IsBenign(inp, sn) && !IsAnomaly(inp, sn, a)
  {
  }

  lemma LimitsAre(inp: Input, n: int, agent: string)
    ensures Exceeds(inp, n) <==> n > inp.config.maxLoopIterations
    ensures Outlier(inp, n, agent) <==> agent in inp.loopBaselines && var b := inp.loopBaselines[agent];
      b.samples >= inp.config.loopMinHistory && n as real - b.mean > inp.config.loopZscore * b.std
  {
  }

  lemma JudgementsAre(inp: Input, sn: SuperNode, rounds: nat, repeating: seq<RunId>, agent: string)
    requires AreRounds(inp, sn.members, rounds, repeating) && IsDominant(inp, sn.members, repeating, agent)
    requires IsCycle(sn)
    ensures var n := IterationsOf(sn, rounds);
      && (IsBenign(inp, sn) <==> !Exceeds(inp, n) && !Outlier(inp, n, agent))
      && forall a :: IsAnomaly(inp, sn, a) <==>
        (Exceeds(inp, n) || Outlier(inp, n, agent)) && a == Anomaly(sn.members, n, !Exceeds(inp, n), repeating)
  {
    hide *;
    var n := IterationsOf(sn, rounds);
    RanInstance(inp, sn, rounds, repeating);
    JudgedAs(inp, sn, n, repeating, agent);
    var found := Anomaly(sn.members, n, !Exceeds(inp, n), repeating);
    forall a | IsAnomaly(inp, sn, a) ensures (Exceeds(inp, n) || Outlier(inp, n, agent)) && a == found {
      JudgementUnique(inp, sn, a, found);
    }
    if IsAnomaly(inp, sn, found) {
      JudgementUnique(inp, sn, found, found);
    }
  }

  lemma RanInstance(inp: Input, sn: SuperNode, rounds: nat, repeating: seq<RunId>)
    requires AreRounds(inp, sn.members, rounds, repeating)
    ensures RanAs(inp, sn, IterationsOf(sn, rounds), repeating)
  {
  }

  // ---------- One judgement per cycle ----------

  lemma MostCommonUnique(inp: Input, members: seq<RunId>, names: set<string>, a: string, b: string)
    requires IsMostCommon(inp, members, names, a) && IsMostCommon(inp, members, names, b)
    ensures a == b
  {
    if a != b {
      assert MoreCommon(inp, members, a, b) && MoreCommon(inp, members, b, a);
      NamesTransitive(a, b, a);
      NamesIrreflexive(a);
    }
  }

  lemma RanUnique(inp: Input, sn: SuperNode, m: int, s: seq<RunId>, n: int, t: seq<RunId>)
    requires RanAs(inp, sn, m, s) && RanAs(inp, sn, n, t)
    ensures m == n && s == t
  {
    hide AreRounds;
    var i: nat :| AreRounds(inp, sn.members, i, s) && m == IterationsOf(sn, i);
    var j: nat :| AreRounds(inp, sn.members, j, t) && n == IterationsOf(sn, j);
    RoundsUnique(inp, sn.members, i, s, j, t);
  }

  lemma DominantUnique(inp: Input, members: seq<RunId>, repeating: seq<RunId>, a: string, b: string)
    requires IsDominant(inp, members, repeating, a) && IsDominant(inp, members, repeating, b)
    ensures a == b
  {
    hide IsMostCommon;
    if repeating == [] {
      MostCommonUnique(inp, members, Names(inp, members), a, b);
    }
  }

  // Main result: a cycle is anomalous or benign, never both, and has one finding at most.
  lemma JudgementUnique(inp: Input, sn: SuperNode, a: Anomaly, b: Anomaly)
    requires IsAnomaly(inp, sn, a)
    ensures !IsBenign(inp, sn)
    ensures IsAnomaly(inp, sn, b) ==> a == b
  {
    hide RanAs, IsDominant, Outlier, Exceeds;
    if IsAnomaly(inp, sn, b) {
      RanUnique(inp, sn, a.iterations, a.repeating, b.iterations, b.repeating);
    }
    if IsBenign(inp, sn) {
      var n, s, agent :| IsUnremarkable(inp, sn, n, s, agent);
      RanUnique(inp, sn, a.iterations, a.repeating, n, s);
      if a.statistical {
        var other :| IsDominant(inp, sn.members, a.repeating, other) && Outlier(inp, a.iterations, other);
        DominantUnique(inp, sn.members, s, agent, other);
      }
    }
  }

  // The last cycle judged, set aside.
  lemma LastFound(inp: Input, c: Condensation, k: nat, found: seq<Anomaly>, at: seq<nat>)
    requires AreAnomalies(inp, c, k, found, at) && k > 0 && at != [] && at[|at| - 1] == k - 1
    ensures |found| == |at| && c.topo[k - 1] < |c.supers| && IsAnomaly(inp, c.supers[c.topo[k - 1]], found[|at| - 1])
    ensures AreAnomalies(inp, c, k - 1, found[..|at| - 1], at[..|at| - 1])
  {
    hide IsAnomaly, IsBenign;
    var n := |at| - 1;
    var front, before := at[..n], found[..n];
    forall i | 0 <= i < n ensures front[i] < k - 1 {
      assert at[i] < at[n];
    }
    forall i: nat | i < k - 1 && i !in front && c.topo[i] < |c.supers| ensures IsBenign(inp, c.supers[c.topo[i]]) {
      assert at == front + [k - 1];
      assert i !in at;
    }
  }

  lemma LastBenign(inp: Input, c: Condensation, k: nat, found: seq<Anomaly>, at: seq<nat>)
    requires AreAnomalies(inp, c, k, found, at) && k > 0 && c.topo[k - 1] < |c.supers|
    requires (at == [] || at[|at| - 1] != k - 1)
    ensures |found| == |at| && IsBenign(inp, c.supers[c.topo[k - 1]]) && AreAnomalies(inp, c, k - 1, found, at)
  {
    hide IsAnomaly, IsBenign;
    forall i | 0 <= i < |at| ensures at[i] < k - 1 {
      assert i < |at| - 1 ==> at[i] < at[|at| - 1];
    }
    var last: nat := k - 1;
    assert last !in at;
  }

  // Main result: the anomalies of a graph are determined, whatever order the scans inside one cycle take.
  lemma {:induction false} AnomaliesUnique(inp: Input, c: Condensation, k: nat, f: seq<Anomaly>, s: seq<nat>,
                                           g: seq<Anomaly>, t: seq<nat>)
    requires AreAnomalies(inp, c, k, f, s) && AreAnomalies(inp, c, k, g, t)
    requires forall i :: 0 <= i < |c.topo| ==> c.topo[i] < |c.supers|
    ensures f == g && s == t
  {
    hide IsAnomaly, IsBenign;
    if k > 0 {
      var sn := c.supers[c.topo[k - 1]];
      var a, b := s != [] && s[|s| - 1] == k - 1, t != [] && t[|t| - 1] == k - 1;
      if a { LastFound(inp, c, k, f, s); } else { LastBenign(inp, c, k, f, s); }
      if b { LastFound(inp, c, k, g, t); } else { LastBenign(inp, c, k, g, t); }
      hide AreAnomalies;
      if a {
        JudgementUnique(inp, sn, f[|s| - 1], if b then g[|t| - 1] else f[|s| - 1]);
        AnomaliesUnique(inp, c, k - 1, f[..|s| - 1], s[..|s| - 1], g[..|t| - 1], t[..|t| - 1]);
        assert f == f[..|s| - 1] + [f[|s| - 1]] && g == g[..|t| - 1] + [g[|t| - 1]];
      } else if b {
        JudgementUnique(inp, sn, g[|t| - 1], g[|t| - 1]);
      } else {
        AnomaliesUnique(inp, c, k - 1, f, s, g, t);
      }
    }
  }
}
