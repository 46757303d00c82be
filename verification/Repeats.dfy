// When the analysis names one super-node twice: two healthy heads that feed one eroding node.

module Repeats {
  import opened Prelude
  import opened Graphs
  import opened BlameInput
  import opened Condense
  import opened Propagation
  import opened CutPoint
  import Localize
  import opened Origins
  import opened Evidence
  import opened Derive
  import opened Loops
  import opened Gaps
  import opened CandidateFacts
  import opened Cascade
  import opened Soundness
  import opened Verdicts
  import opened Blame
  import Guarantees

  // ---------- Naming a node once and twice ----------

  ghost predicate NamesNode(cs: seq<Candidate>, n: nat) {
    exists i :: 0 <= i < |cs| && cs[i].superId == n
  }

  ghost predicate NamesTwice(cs: seq<Candidate>, n: nat) {
    exists i, j :: 0 <= i < j < |cs| && cs[i].superId == cs[j].superId == n
  }

  lemma NamesAppend(cs: seq<Candidate>, x: Candidate, n: nat)
    ensures NamesNode(cs + [x], n) <==> NamesNode(cs, n) || x.superId == n
    ensures NamesTwice(cs + [x], n) <==> NamesTwice(cs, n) || (NamesNode(cs, n) && x.superId == n)
  {
    var all := cs + [x];
    assert all[|cs|] == x && forall i :: 0 <= i < |cs| ==> all[i] == cs[i];
    if i :| 0 <= i < |cs| && cs[i].superId == n {
      assert all[i].superId == n;
    }
    if i, j :| 0 <= i < j < |cs| && cs[i].superId == cs[j].superId == n {
      assert all[i].superId == all[j].superId == n;
    }
  }

  lemma OncePerNode(cs: seq<Candidate>, n: nat)
    requires SupersDiffer(cs)
    ensures !NamesTwice(cs, n)
  {
  }

  // Shadowing drops or keeps everything at a node together.
  lemma {:induction false} UnshadowedNames(c: Condensation, ids: set<nat>, cs: seq<Candidate>, n: nat)
    ensures NamesNode(Unshadowed(c, ids, cs), n) <==> NamesNode(cs, n) && !Shadowed(c, ids, n)
    ensures NamesTwice(Unshadowed(c, ids, cs), n) <==> NamesTwice(cs, n) && !Shadowed(c, ids, n)
  {
    if cs != [] {
      var k := |cs| - 1;
      var front, x := cs[..k], cs[k];
      UnshadowedNames(c, ids, front, n);
      assert cs == front + [x];
      NamesAppend(front, x, n);
      NamesAppend(Unshadowed(c, ids, front), x, n);
      hide Shadowed, NamesNode, NamesTwice;
      assert Unshadowed(c, ids, cs) == Unshadowed(c, ids, front) + if Shadowed(c, ids, x.superId) then [] else [x];
      assert Unshadowed(c, ids, front) + [] == Unshadowed(c, ids, front);
    }
  }

  // ---------- Chains that enter a node ----------

  // The chain blames `n` for its decline.
  ghost predicate Enters(inp: Input, c: Condensation, ch: Chain, n: nat) {
    |ch.superIds| >= 2 && ch.superIds[1] == n && n < |c.supers| && !InputFlawed(inp, c.supers[n].exit)
  }

  ghost predicate Entered(inp: Input, c: Condensation, chains: seq<Chain>, n: nat) {
    exists i :: 0 <= i < |chains| && Enters(inp, c, chains[i], n)
  }

  ghost predicate EnteredTwice(inp: Input, c: Condensation, chains: seq<Chain>, n: nat) {
    exists i, j :: 0 <= i < j < |chains| && Enters(inp, c, chains[i], n) && Enters(inp, c, chains[j], n)
  }

  lemma EnteredAppend(inp: Input, c: Condensation, chains: seq<Chain>, ch: Chain, n: nat)
    ensures Entered(inp, c, chains + [ch], n) <==> Entered(inp, c, chains, n) || Enters(inp, c, ch, n)
    ensures EnteredTwice(inp, c, chains + [ch], n) <==>
      EnteredTwice(inp, c, chains, n) || (Entered(inp, c, chains, n) && Enters(inp, c, ch, n))
  {
    hide Enters;
    var all := chains + [ch];
    assert all[|chains|] == ch && forall i :: 0 <= i < |chains| ==> all[i] == chains[i];
    if i :| 0 <= i < |chains| && Enters(inp, c, chains[i], n) {
      assert Enters(inp, c, all[i], n);
    }
    if i, j :| 0 <= i < j < |chains| && Enters(inp, c, chains[i], n) && Enters(inp, c, chains[j], n) {
      assert Enters(inp, c, all[i], n) && Enters(inp, c, all[j], n);
    }
  }

  lemma ErosionAt(inp: Input, c: Condensation, ch: Chain)
    requires ChainReady(c, ch)
    ensures ErosionCandidate(inp, c, ch).superId == ch.superIds[1]
  {
    hide UnknownUpstream, Channels;
  }

  lemma {:induction false} ErodedNames(inp: Input, c: Condensation, chains: seq<Chain>, n: nat)
    requires forall ch :: ch in chains ==> ChainReady(c, ch)
    ensures NamesNode(Eroded(inp, c, chains), n) <==> Entered(inp, c, chains, n)
    ensures NamesTwice(Eroded(inp, c, chains), n) <==> EnteredTwice(inp, c, chains, n)
  {
    if chains != [] {
      var k := |chains| - 1;
      var front, ch := chains[..k], chains[k];
      assert ch in chains && (forall x :: x in front ==> x in chains) && chains == front + [ch];
      ErodedNames(inp, c, front, n);
      EnteredAppend(inp, c, front, ch, n);
      NamesAppend(Eroded(inp, c, front), ErosionCandidate(inp, c, ch), n);
      ErosionAt(inp, c, ch);
      hide NamesNode, NamesTwice, Entered, EnteredTwice, ErosionCandidate, InputFlawed;
      assert Eroded(inp, c, chains) == Eroded(inp, c, front) +
        if InputFlawed(inp, c.supers[ch.superIds[1]].exit) then [] else [ErosionCandidate(inp, c, ch)];
      assert Eroded(inp, c, front) + [] == Eroded(inp, c, front);
    }
  }

  // ---------- Everything else names a node once ----------

  lemma EdgeAt(inp: Input, c: Condensation, sid: nat)
    requires sid < |c.supers| && c.supers[sid].score.Some?
    ensures EdgeCandidate(inp, c, sid).superId == sid
  {
    hide UnknownUpstream, Channels;
  }

  ghost predicate InOrder(c: Condensation, k: nat, cs: seq<Candidate>) {
    k <= |c.topo| && SupersDiffer(cs) && forall x :: x in cs ==> x.superId in c.topo[..k]
  }

  // At most one more candidate, at the next node of the order.
  lemma InOrderNext(c: Condensation, k: nat, before: seq<Candidate>, more: seq<Candidate>)
    requires k < |c.topo| && Distinct(c.topo) && InOrder(c, k, before)
    requires |more| <= 1 && forall x :: x in more ==> x.superId == c.topo[k]
    ensures InOrder(c, k + 1, before + more)
  {
    assert c.topo[..k + 1] == c.topo[..k] + [c.topo[k]];
    assert forall i :: 0 <= i < |before| ==> before[i] in before;
    assert more == [] || more[0] in more;
  }

  lemma InOrderNone(c: Condensation)
    ensures InOrder(c, 0, [])
  {
  }

  lemma {:induction false} BucketedInOrder(inp: Input, c: Condensation, k: nat, b: Bucket)
    requires k <= |c.topo| && b != NoOrigin && Distinct(c.topo)
    requires forall i :: 0 <= i < |c.topo| ==> c.topo[i] < |c.supers|
    ensures InOrder(c, k, Bucketed(inp, c, k, b)) && AllIn(inp, c, Bucketed(inp, c, k, b), b)
  {
    hide *;
    if k > 0 {
      var sid := c.topo[k - 1];
      var before := Bucketed(inp, c, k - 1, b);
      BucketedInOrder(inp, c, k - 1, b);
      BucketedNext(inp, c, k - 1, b);
      if BucketOf(inp, c, sid) == b {
        var x := EdgeCandidate(inp, c, sid);
        EdgeAt(inp, c, sid);
        InOrderNext(c, k - 1, before, [x]);
        AllInNext(inp, c, before, x, b);
      } else {
        InOrderNext(c, k - 1, before, []);
        assert before + [] == before;
      }
    } else {
      NoneBucketedYet(inp, c, b);
      InOrderNone(c);
    }
  }

  ghost predicate AllIn(inp: Input, c: Condensation, cs: seq<Candidate>, b: Bucket) {
    forall x :: x in cs ==> x.superId < |c.supers| && BucketOf(inp, c, x.superId) == b
  }

  lemma AllInNext(inp: Input, c: Condensation, cs: seq<Candidate>, x: Candidate, b: Bucket)
    requires AllIn(inp, c, cs, b) && x.superId < |c.supers| && BucketOf(inp, c, x.superId) == b
    ensures AllIn(inp, c, cs + [x], b)
  {
    hide BucketOf;
  }

  lemma NoneBucketedYet(inp: Input, c: Condensation, b: Bucket)
    requires b != NoOrigin && forall i :: 0 <= i < |c.topo| ==> c.topo[i] < |c.supers|
    ensures Bucketed(inp, c, 0, b) == [] && AllIn(inp, c, [], b)
  {
    hide BucketOf;
  }

  lemma {:induction false} InternalInOrder(inp: Input, c: Condensation, k: nat, already: set<nat>)
    requires k <= |c.topo| && Distinct(c.topo) && forall i :: 0 <= i < |c.topo| ==> c.topo[i] < |c.supers|
    ensures InOrder(c, k, Internal(inp, c, k, already))
  {
    hide *;
    if k > 0 {
      var sid := c.topo[k - 1];
      InternalInOrder(inp, c, k - 1, already);
      InternalNext(inp, c, k - 1, already);
      var found := InternalCandidate(inp, c, sid);
      if sid !in already && found.Some? {
        InternalAt(inp, c, sid);
        InOrderNext(c, k - 1, Internal(inp, c, k - 1, already), [found.value]);
      } else {
        InOrderNext(c, k - 1, Internal(inp, c, k - 1, already), []);
      }
    } else {
      InternalNone(inp, c, already);
      InOrderNone(c);
    }
  }

  lemma InternalNone(inp: Input, c: Condensation, already: set<nat>)
    requires forall i :: 0 <= i < |c.topo| ==> c.topo[i] < |c.supers|
    ensures Internal(inp, c, 0, already) == []
  {
  }

  lemma DifferJoin(cs: seq<Candidate>, ds: seq<Candidate>)
    requires SupersDiffer(cs) && SupersDiffer(ds) && forall x, y :: x in cs && y in ds ==> x.superId != y.superId
    ensures SupersDiffer(cs + ds)
  {
    assert (forall i :: 0 <= i < |cs| ==> cs[i] in cs) && forall i :: 0 <= i < |ds| ==> ds[i] in ds;
  }

  lemma BrokenDiffer(inp: Input, c: Condensation)
    requires WellFormed(inp, c)
    ensures forall i :: 0 <= i < |c.topo| ==> c.topo[i] < |c.supers|
    ensures SupersDiffer(Broken(inp, c)) && SupersDiffer(Bucketed(inp, c, |c.topo|, RecoveredBoundary))
  {
    TopoListsAll(inp, c);
    TopoInRange(inp, c);
    hide WellFormed, Bucketed, Internal;
    var k := |c.topo|;
    BucketedInOrder(inp, c, k, DropOrigin);
    BucketedInOrder(inp, c, k, Propagating);
    BucketedInOrder(inp, c, k, RecoveredBoundary);
    var sharp := SharpOrigins(inp, c);
    DifferJoin(Bucketed(inp, c, k, DropOrigin), Bucketed(inp, c, k, Propagating));
    InternalInOrder(inp, c, k, SuperIds(sharp));
    InternalOutside(inp, c, k, SuperIds(sharp));
    assert forall x :: x in sharp ==> x.superId in SuperIds(sharp);
    DifferJoin(sharp, Internal(inp, c, k, SuperIds(sharp)));
  }

  // Among the origins of the content channel only erosions repeat a node.
  lemma OriginsTwice(inp: Input, c: Condensation, n: nat)
    requires WellFormed(inp, c) && Steady(inp, c)
    ensures forall i :: 0 <= i < |c.topo| ==> c.topo[i] < |c.supers|
    ensures NamesTwice(ContentOrigins(inp, c), n) <==> Broken(inp, c) == [] && EnteredTwice(inp, c, Chains(inp, c), n)
  {
    BrokenDiffer(inp, c);
    hide WellFormed, Chains, Broken, Bucketed, Eroded, ChainReady, NamesTwice, EnteredTwice, SupersDiffer;
    OncePerNode(Broken(inp, c), n);
    OncePerNode(Bucketed(inp, c, |c.topo|, RecoveredBoundary), n);
    if Broken(inp, c) == [] {
      ErodedNames(inp, c, Chains(inp, c), n);
      NoneTwice(n);
    }
  }

  lemma NoneTwice(n: nat)
    ensures !NamesTwice([], n)
  {
  }

  // The hard channel adds nothing at a node the content channel named, and names each node once.
  lemma MergedTwice(inp: Input, c: Condensation, n: nat)
    requires WellFormed(inp, c) && Steady(inp, c)
    ensures NamesTwice(Candidates(inp, c), n) <==> NamesTwice(ContentFinal(inp, c), n)
  {
    hide *;
    var xs, content := Candidates(inp, c), ContentFinal(inp, c);
    MergedParts(inp, c);
    if NamesTwice(xs, n) {
      var i, j := Pair(xs, n);
      RepeatInContent(inp, c, i, j);
      MakePair(content, i, j, n);
    }
    if NamesTwice(content, n) {
      var i, j := Pair(content, n);
      MakePair(xs, i, j, n);
    }
  }

  lemma Pair(cs: seq<Candidate>, n: nat) returns (i: nat, j: nat)
    requires NamesTwice(cs, n)
    ensures i < j < |cs| && cs[i].superId == cs[j].superId == n
  {
    i, j :| 0 <= i < j < |cs| && cs[i].superId == cs[j].superId == n;
  }

  lemma MakePair(cs: seq<Candidate>, i: nat, j: nat, n: nat)
    requires i < j < |cs| && cs[i].superId == cs[j].superId == n
    ensures NamesTwice(cs, n)
  {
  }

  lemma MergedParts(inp: Input, c: Condensation)
    requires WellFormed(inp, c) && Steady(inp, c)
    ensures |ContentFinal(inp, c)| <= |Candidates(inp, c)|
    ensures forall i :: 0 <= i < |ContentFinal(inp, c)| ==>
      Candidates(inp, c)[i].superId == ContentFinal(inp, c)[i].superId
  {
    hide WellFormed, Steady, ContentFinal, HardOrigins, RunsOf;
  }

  lemma RepeatInContent(inp: Input, c: Condensation, i: nat, j: nat)
    requires WellFormed(inp, c) && Steady(inp, c) && i < j < |Candidates(inp, c)|
    requires Candidates(inp, c)[i].superId == Candidates(inp, c)[j].superId
    ensures j < |ContentFinal(inp, c)|
  {
    hide *;
    var xs := Candidates(inp, c);
    RepeatsAreContent(inp, c, i, j);
    SameSuperAgrees(inp, c, xs[i], xs[j]);
    if |ContentFinal(inp, c)| <= j {
      HardPart(inp, c, j);
    }
  }

  lemma MergeTail(content: seq<Candidate>, det: seq<Candidate>, j: nat)
    requires |content| <= j < |Merge(content, det)|
    ensures Merge(content, det)[j] in det
  {
    hide RunsOf, MergeOne;
    var own := Filter(det, (x: Candidate) => x.run !in RunsOf(content));
    assert Merge(content, det)[j] == own[j - |content|] && own[j - |content|] in own;
  }

  lemma CandidatesAre(inp: Input, c: Condensation)
    requires WellFormed(inp, c) && Steady(inp, c)
    ensures forall i :: 0 <= i < |c.topo| ==> c.topo[i] < |c.supers|
    ensures Candidates(inp, c) == Merge(ContentFinal(inp, c), HardOrigins(inp, c))
  {
    TopoInRange(inp, c);
    hide WellFormed, Steady, ContentFinal, HardOrigins, Merge;
  }

  lemma HardPart(inp: Input, c: Condensation, j: nat)
    requires WellFormed(inp, c) && Steady(inp, c) && |ContentFinal(inp, c)| <= j < |Candidates(inp, c)|
    ensures Candidates(inp, c)[j].via == Deterministic
  {
    hide *;
    CandidatesAre(inp, c);
    HardAreHardLike(inp, c);
    MergeTail(ContentFinal(inp, c), HardOrigins(inp, c), j);
    HardIsHard(inp, c, Candidates(inp, c)[j]);
  }

  // ---------- Heads ----------

  // A healthy node from which a decline runs over `n`, on no chain but its own.
  ghost predicate StartsDecline(inp: Input, c: Condensation, h: nat, n: nat)
    requires WellFormed(inp, c)
  {
    && HealthyAt(inp, c, h) && StepsTo(inp, c, h, n) && IsErosion(inp, ChainAt(inp, c, h))
    && forall ch :: ch in Chains(inp, c) && h in ch.superIds ==> ch.superIds[0] == h
  }

  lemma EntryOf(inp: Input, c: Condensation, ch: Chain, n: nat)
    requires WellFormed(inp, c) && ch in Chains(inp, c) && Enters(inp, c, ch, n)
    ensures StartsDecline(inp, c, ch.superIds[0], n)
  {
    ChainsReadyIff(inp, c);
    HeadsApart(inp, c);
    var chains := Chains(inp, c);
    var i :| 0 <= i < |chains| && chains[i] == ch;
    ErodeFrom(inp, c, ch);
    hide WellFormed, Chains, NextRun, IsErosion, Declines, ChainAt;
    forall x | x in chains && ch.superIds[0] in x.superIds ensures x.superIds[0] == ch.superIds[0] {
      var j :| 0 <= j < |chains| && chains[j] == x;
      assert Heads(chains[i], chains[j]);
    }
    assert StepsTo(inp, c, ch.superIds[0], ch.superIds[1]);
  }

  // A recorded chain is the greedy walk from its head.
  lemma ErodeFrom(inp: Input, c: Condensation, ch: Chain)
    requires WellFormed(inp, c) && IsErosionChain(inp, c, ch)
    ensures ch.superIds != [] && ch.superIds[0] < |c.supers| && IsErosion(inp, ChainAt(inp, c, ch.superIds[0]))
  {
    assert ch.superIds[0] in ch.superIds;
    DescentIsErode(inp, c, ch.superIds);
  }

  lemma {:induction false} DescentIsErode(inp: Input, c: Condensation, p: seq<nat>)
    requires WellFormed(inp, c) && IsDescent(inp, c, p)
    ensures p[0] < |c.supers| && Erode(inp, c, p[0]) == p
    decreases |p|
  {
    assert p[0] in p;
    if |p| == 1 {
      Localize.ErodeEnds(inp, c, p[0]);
    } else {
      assert StepsTo(inp, c, p[0], p[1]) && p[1] in p;
      ExitsLocated(inp, c, p[1]);
      hide WellFormed, NextRun, Erode;
      RestDescends(inp, c, p);
      DescentIsErode(inp, c, p[1..]);
      Localize.ErodeSteps(inp, c, p[0], c.supers[p[1]].exit);
    }
  }

  lemma RestDescends(inp: Input, c: Condensation, p: seq<nat>)
    requires IsDescent(inp, c, p) && |p| > 1
    ensures IsDescent(inp, c, p[1..])
  {
    hide StepsTo, Stuck;
    var q := p[1..];
    assert forall x :: x in q ==> x in p;
    forall i, j | 0 <= i < |q| && j == i + 1 < |q| ensures StepsTo(inp, c, q[i], q[j]) && (q[i], q[j]) in c.dag.edges {
      var k, l := i + 1, j + 1;
      assert StepsTo(inp, c, p[k], p[l]) && (p[k], p[l]) in c.dag.edges;
    }
  }

  lemma HeadOf(inp: Input, c: Condensation, h: nat, n: nat) returns (ch: Chain)
    requires WellFormed(inp, c) && StartsDecline(inp, c, h, n)
    ensures ch in Chains(inp, c) && |ch.superIds| >= 2 && ch.superIds[0] == h && ch.superIds[1] == n
  {
    TopoPosition(inp, c, h);
    var i :| 0 <= i < |c.topo| && c.topo[i] == h;
    ChainsAre(inp, c);
    ChainsReadyIff(inp, c);
    NoErosionMissed(inp, c, 0, {}, i);
    ch :| ch in ChainsFrom(inp, c, 0, {}) && h in ch.superIds;
    assert IsErosionChain(inp, c, ch) && ch.superIds[0] == h;
    SecondIs(inp, c, ch.superIds, n);
  }

  lemma SecondIs(inp: Input, c: Condensation, p: seq<nat>, n: nat)
    requires WellFormed(inp, c) && IsDescent(inp, c, p) && StepsTo(inp, c, p[0], n)
    ensures |p| >= 2 && p[1] == n
  {
    hide NextRun;
    if |p| >= 2 {
      assert StepsTo(inp, c, p[0], p[1]);
      ExitsLocated(inp, c, p[1]);
      ExitsLocated(inp, c, n);
    }
  }

  // Two chains enter a node exactly when two heads start over it.
  lemma EnteredTwiceIff(inp: Input, c: Condensation, n: nat)
    requires WellFormed(inp, c)
    ensures EnteredTwice(inp, c, Chains(inp, c), n) <==>
      n < |c.supers| && !InputFlawed(inp, c.supers[n].exit) &&
      exists h, k :: h != k && StartsDecline(inp, c, h, n) && StartsDecline(inp, c, k, n)
  {
    hide *;
    if EnteredTwice(inp, c, Chains(inp, c), n) {
      TwoHeads(inp, c, n);
    }
    if h, k :| h != k && StartsDecline(inp, c, h, n) && StartsDecline(inp, c, k, n) {
      if n < |c.supers| && !InputFlawed(inp, c.supers[n].exit) {
        var x := HeadOf(inp, c, h, n);
        var y := HeadOf(inp, c, k, n);
        TwoEnter(inp, c, Chains(inp, c), x, y, n);
      }
    }
  }

  lemma TwoEnter(inp: Input, c: Condensation, chains: seq<Chain>, x: Chain, y: Chain, n: nat)
    requires x in chains && y in chains && n < |c.supers| && !InputFlawed(inp, c.supers[n].exit)
    requires |x.superIds| >= 2 && |y.superIds| >= 2 && x.superIds[1] == n && y.superIds[1] == n
    requires x.superIds[0] != y.superIds[0]
    ensures EnteredTwice(inp, c, chains, n)
  {
    hide InputFlawed;
    var i :| 0 <= i < |chains| && chains[i] == x;
    var j :| 0 <= j < |chains| && chains[j] == y;
    var lo, hi := if i < j then i else j, if i < j then j else i;
    assert lo < hi && Enters(inp, c, chains[lo], n) && Enters(inp, c, chains[hi], n);
  }

  lemma TwoHeads(inp: Input, c: Condensation, n: nat)
    requires WellFormed(inp, c) && EnteredTwice(inp, c, Chains(inp, c), n)
    ensures n < |c.supers| && !InputFlawed(inp, c.supers[n].exit)
    ensures exists h, k :: h != k && StartsDecline(inp, c, h, n) && StartsDecline(inp, c, k, n)
  {
    var chains := Chains(inp, c);
    HeadsApart(inp, c);
    hide WellFormed, Chains, StartsDecline, InputFlawed;
    var i, j :| 0 <= i < j < |chains| && Enters(inp, c, chains[i], n) && Enters(inp, c, chains[j], n);
    EntryOf(inp, c, chains[i], n);
    EntryOf(inp, c, chains[j], n);
    assert Heads(chains[i], chains[j]) ==> i == j;
    assert chains[j].superIds[0] in chains[j].superIds;
  }

  // Main result: the analysis names one super-node twice exactly when nothing broke at one step, two healthy heads
  // start a decline over that node, it did not blame its input, and no origin lies upstream of it.
  lemma RepeatedOrigin(inp: Input, c: Condensation, a: Analysis, n: nat)
    requires IsAnalysis(inp, c, a)
    ensures forall i :: 0 <= i < |c.topo| ==> c.topo[i] < |c.supers|
    ensures (exists i, j :: 0 <= i < j < |a.candidates| && a.candidates[i].superId == a.candidates[j].superId == n) <==>
      && Broken(inp, c) == [] && n < |c.supers| && !InputFlawed(inp, c.supers[n].exit)
      && (exists h, k :: h != k && StartsDecline(inp, c, h, n) && StartsDecline(inp, c, k, n))
      && !Shadowed(c, SuperIds(ContentOrigins(inp, c)), n)
  {
    AnalysisIs(inp, c, a);
    TopoInRange(inp, c);
    TwiceIs(a.candidates, n);
    hide *;
    MergedTwice(inp, c, n);
    FinalIs(inp, c);
    UnshadowedNames(c, SuperIds(ContentOrigins(inp, c)), ContentOrigins(inp, c), n);
    OriginsTwice(inp, c, n);
    EnteredTwiceIff(inp, c, n);
  }

  lemma TwiceIs(cs: seq<Candidate>, n: nat)
    ensures NamesTwice(cs, n) <==> exists i, j :: 0 <= i < j < |cs| && cs[i].superId == cs[j].superId == n
  {
  }

  lemma FinalIs(inp: Input, c: Condensation)
    requires WellFormed(inp, c) && Steady(inp, c)
    ensures ContentFinal(inp, c) == Unshadowed(c, SuperIds(ContentOrigins(inp, c)), ContentOrigins(inp, c))
  {
  }

  // ---------- What the report then says ----------

  // Main result: with several origins the report repeats a culprit exactly when a node is named twice, and when
  // that node is all there is the verdict is a single cut point.
  lemma RepeatedCulprit(inp: Input, c: Condensation, a: Analysis, anomalies: seq<Anomaly>)
    requires Analyzed(inp, c, a, anomalies) && CascadeReady(c, a, anomalies) && RowReady(c, RowOf(inp, c, a, anomalies))
    requires RowOf(inp, c, a, anomalies).ManyOrigins?
    ensures (exists n :: NamesTwice(a.candidates, n)) <==> !Distinct(RowCulprits(inp, c, RowOf(inp, c, a, anomalies)))
    ensures FinalVerdict(inp, c, RowOf(inp, c, a, anomalies)) ==
      if exists x, y ::
        x in a.candidates && y in a.candidates && x.superId != y.superId then MultiCulprit else CutPointVerdict
  {
    hide *;
    AnalyzedIsReady(inp, c, a, anomalies);
    RowFits(inp, c, a, anomalies);
    ManyFits(c, a.candidates);
    ManyNames(inp, c, a.candidates);
    CulpritsRepeat(inp, c, a.candidates);
    ManyFinal(inp, c, a.candidates);
  }

  lemma ManyFinal(inp: Input, c: Condensation, xs: seq<Candidate>)
    requires RowReady(c, ManyOrigins(xs))
    ensures FinalVerdict(inp, c, ManyOrigins(xs)) ==
      if exists x, y :: x in xs && y in xs && x.superId != y.superId then MultiCulprit else CutPointVerdict
  {
    hide AllGaps, RowCulprits;
  }

  lemma CulpritsRepeat(inp: Input, c: Condensation, xs: seq<Candidate>)
    requires WellFormed(inp, c) && Told(inp, c, xs) && Agree(xs) && Placed(c, xs)
    ensures (exists n :: NamesTwice(xs, n)) <==> !Distinct(AllResolved(inp, c, xs))
  {
    var runs := AllResolved(inp, c, xs);
    forall i, j | 0 <= i < j < |xs| ensures runs[i] == runs[j] <==> xs[i].superId == xs[j].superId {
      assert xs[i] in xs && xs[j] in xs;
      Kin(inp, c, xs, xs[i], xs[j]);
      ResolvedInside(inp, c, xs[i]);
      ResolvedInside(inp, c, xs[j]);
      if xs[i].superId == xs[j].superId {
        SameResolved(inp, c, xs[i], xs[j]);
      }
    }
    hide WellFormed, Told, Agree, Placed, Resolved;
    if n :| NamesTwice(xs, n) {
      var i, j := Pair(xs, n);
      assert runs[i] == runs[j];
    }
    if i, j :| 0 <= i < j < |runs| && runs[i] == runs[j] {
      MakePair(xs, i, j, xs[i].superId);
    }
  }

  // ---------- Beside a runaway loop ----------

  lemma NodeAt(cs: seq<Candidate>, n: nat) returns (i: nat)
    requires NamesNode(cs, n)
    ensures i < |cs| && cs[i].superId == n
  {
    i :| 0 <= i < |cs| && cs[i].superId == n;
  }

  lemma AtNode(cs: seq<Candidate>, i: nat)
    requires i < |cs|
    ensures NamesNode(cs, cs[i].superId)
  {
  }

  lemma NamesPrepend(x: Candidate, cs: seq<Candidate>, n: nat)
    ensures NamesNode([x] + cs, n) <==> x.superId == n || NamesNode(cs, n)
    ensures NamesTwice([x] + cs, n) <==> NamesTwice(cs, n) || (x.superId == n && NamesNode(cs, n))
  {
    hide *;
    var all := [x] + cs;
    AtNode(all, 0);
    if NamesNode(cs, n) {
      var i := NodeAt(cs, n);
      AtNode(all, i + 1);
      if x.superId == n {
        MakePair(all, 0, i + 1, n);
      }
    }
    if NamesNode(all, n) {
      var i := NodeAt(all, n);
      if i > 0 {
        AtNode(cs, i - 1);
      }
    }
    if NamesTwice(cs, n) {
      var i, j := Pair(cs, n);
      MakePair(all, i + 1, j + 1, n);
    }
    if NamesTwice(all, n) {
      var i, j := Pair(all, n);
      AtNode(cs, j - 1);
      if i > 0 {
        MakePair(cs, i - 1, j - 1, n);
      }
    }
  }

  lemma NoNames(n: nat)
    ensures !NamesNode([], n) && !NamesTwice([], n)
  {
  }

  lemma {:induction false} OutsideNames(cs: seq<Candidate>, s: nat, n: nat)
    ensures NamesNode(Outside(cs, s), n) <==> n != s && NamesNode(cs, n)
    ensures NamesTwice(Outside(cs, s), n) <==> n != s && NamesTwice(cs, n)
  {
    NoNames(n);
    hide NamesNode, NamesTwice;
    if cs != [] {
      OutsideNames(cs[1..], s, n);
      NamesPrepend(cs[0], cs[1..], n);
      NamesPrepend(cs[0], Outside(cs[1..], s), n);
      assert cs == [cs[0]] + cs[1..];
      assert [] + Outside(cs[1..], s) == Outside(cs[1..], s);
    }
  }

  // The origins beside the loop are the analysis' candidates outside its cycle.
  lemma OthersNames(inp: Input, c: Condensation, a: Analysis, anomalies: seq<Anomaly>, n: nat)
    requires CascadeReady(c, a, anomalies) && RowOf(inp, c, a, anomalies).Runaway?
    requires RowOf(inp, c, a, anomalies).anomaly.members != []
    requires RowOf(inp, c, a, anomalies).anomaly.members[0] in c.superOf
    ensures var row := RowOf(inp, c, a, anomalies);
      NamesTwice(row.others, n) <==> n != c.superOf[row.anomaly.members[0]] && NamesTwice(a.candidates, n)
  {
    hide QualityUnmeasured, FlawedSources, NamesTwice, LoopIsNamed, Outside, InCycle, TerminalOk, TerminalBad,
      LooksHealthy, Confesses, ChosenAnomaly;
    var row := RowOf(inp, c, a, anomalies);
    OutsideNames(a.candidates, c.superOf[row.anomaly.members[0]], n);
  }

  lemma {:induction false} FilterOnce<T>(s: seq<T>, keep: T -> bool)
    requires Distinct(s)
    ensures Distinct(Filter(s, keep))
  {
    if s != [] {
      FilterOnce(s[1..], keep);
    }
  }

  lemma {:induction false} FilterAll<T>(s: seq<T>, keep: T -> bool)
    requires forall x :: x in s ==> keep(x)
    ensures Filter(s, keep) == s
  {
    if s != [] {
      FilterAll(s[1..], keep);
    }
  }

  lemma OncePerRun<T>(s: seq<T>, t: seq<T>)
    requires Distinct(s) && multiset(s) == multiset(t)
    ensures Distinct(t)
  {
    forall i, j | 0 <= i < j < |t| ensures t[i] != t[j] {
      if t[i] == t[j] {
        assert multiset(t) == multiset(t[..j]) + multiset(t[j..]) by {
          assert t == t[..j] + t[j..];
        }
        assert t[..j][i] == t[i] && t[j..][0] == t[j];
        assert multiset(t[..j])[t[i]] >= 1 && multiset(t[j..])[t[i]] >= 1;
        OnceCounted(s, t[i]);
      }
    }
  }

  lemma {:induction false} OnceCounted<T>(s: seq<T>, x: T)
    requires Distinct(s)
    ensures multiset(s)[x] <= 1
  {
    if s != [] {
      OnceCounted(s[1..], x);
      assert s == [s[0]] + s[1..];
      assert s[0] !in s[1..];
    }
  }

  // A loop names no run twice.
  lemma LoopOnce(inp: Input, sn: SuperNode, an: Anomaly)
    requires IsAnomaly(inp, sn, an) && Distinct(sn.members)
    ensures Distinct(LoopCulprits(an))
  {
    var rounds: nat :| AreRounds(inp, sn.members, rounds, an.repeating);
    hide IsCycle, Exceeds, IsOutlying, RanAs, IsBusiest, IsRound;
    if Agents(inp, sn.members) != {} {
      var a :| an.repeating == Arranged(inp, RoundsOf(inp, sn.members, a));
      FilterOnce(sn.members, m => IsRound(inp, m, a));
      ArrangedIs(inp, RoundsOf(inp, sn.members, a));
      OncePerRun(RoundsOf(inp, sn.members, a), an.repeating);
    }
  }

  lemma LoopOf(inp: Input, c: Condensation, a: Analysis, anomalies: seq<Anomaly>, an: Anomaly)
    requires Analyzed(inp, c, a, anomalies) && an in anomalies
    ensures Distinct(LoopCulprits(an))
  {
    hide *;
    var at := AnalyzedParts(inp, c, a, anomalies);
    var s := AnomalySuper(inp, c, anomalies, at, an);
    SuperContents(inp, c, s);
    LoopOnce(inp, c.supers[s], an);
  }

  lemma AnomalySuper(inp: Input, c: Condensation, anomalies: seq<Anomaly>, at: seq<nat>, an: Anomaly) returns (s: nat)
    requires AreAnomalies(inp, c, |c.topo|, anomalies, at) && an in anomalies
    ensures s < |c.supers| && IsAnomaly(inp, c.supers[s], an)
  {
    hide IsAnomaly, IsBenign;
    var i :| 0 <= i < |anomalies| && anomalies[i] == an;
    s := c.topo[at[i]];
  }

  // Outside the cycle no origin resolves to a run of the loop, so all of them are named.
  lemma RunawayNames(inp: Input, c: Condensation, an: Anomaly, others: seq<Candidate>)
    requires WellFormed(inp, c) && Told(inp, c, others) && Placed(c, others) && RowReady(c, Runaway(an, others))
    requires InsideCycle(c, an) && an.members[0] in c.superOf
    requires forall x :: x in others ==> x.superId != c.superOf[an.members[0]]
    ensures RowCulprits(inp, c, Runaway(an, others)) == LoopCulprits(an) + AllResolved(inp, c, others)
    ensures forall r, q :: r in LoopCulprits(an) && q in AllResolved(inp, c, others) ==> r != q
  {
    var runs, loop := AllResolved(inp, c, others), LoopCulprits(an);
    LoopHasCulprit(an);
    LoopSeat(inp, c, an);
    hide WellFormed, Told, InsideCycle, Resolved, LoopCulprits;
    forall q | q in runs ensures q !in loop {
      var i :| 0 <= i < |runs| && runs[i] == q;
      assert others[i] in others;
      Guarantees.ListedResolved(inp, c, others, others[i]);
    }
    FilterAll(runs, (r: RunId) => r !in loop);
  }

  lemma DistinctJoin<T>(s: seq<T>, t: seq<T>)
    requires Distinct(s) && forall x, y :: x in s && y in t ==> x != y
    ensures Distinct(s + t) <==> Distinct(t)
  {
    if Distinct(s + t) {
      forall i, j | 0 <= i < j < |t| ensures t[i] != t[j] {
        assert (s + t)[|s| + i] == t[i] && (s + t)[|s| + j] == t[j];
      }
    }
    if Distinct(t) {
      forall i, j | 0 <= i < j < |s + t| ensures (s + t)[i] != (s + t)[j] {
        if i < |s| <= j {
          assert (s + t)[i] in s && (s + t)[j] in t;
        }
      }
    }
  }

  // Main result: beside a runaway loop the report repeats a culprit exactly when a node outside the loop's cycle is
  // named twice; the loop itself names no run twice, nor one an origin resolves to.
  lemma RepeatedBesideLoop(inp: Input, c: Condensation, a: Analysis, anomalies: seq<Anomaly>)
    requires Analyzed(inp, c, a, anomalies) && CascadeReady(c, a, anomalies) && RowReady(c, RowOf(inp, c, a, anomalies))
    requires RowOf(inp, c, a, anomalies).Runaway?
    ensures RowOf(inp, c, a, anomalies).anomaly.members != []
    ensures RowOf(inp, c, a, anomalies).anomaly.members[0] in c.superOf
    ensures var row := RowOf(inp, c, a, anomalies);
      !Distinct(RowCulprits(inp, c, row)) <==>
      exists n :: n != c.superOf[row.anomaly.members[0]] && NamesTwice(a.candidates, n)
  {
    hide *;
    var row := RowOf(inp, c, a, anomalies);
    AnalyzedIsReady(inp, c, a, anomalies);
    RowFits(inp, c, a, anomalies);
    RunawayFits(c, a, row.anomaly, row.others);
    OthersTold(inp, c, a.candidates, row.others);
    LoopMember(inp, c, row.anomaly);
    LoopOf(inp, c, a, anomalies, row.anomaly);
    RunawayNames(inp, c, row.anomaly, row.others);
    OthersAgree(a.candidates, row.others);
    CulpritsRepeat(inp, c, row.others);
    DistinctJoin(LoopCulprits(row.anomaly), AllResolved(inp, c, row.others));
    forall n ensures NamesTwice(row.others, n) <==>
      n != c.superOf[row.anomaly.members[0]] && NamesTwice(a.candidates, n)
    {
      OthersNames(inp, c, a, anomalies, n);
    }
  }

  lemma OthersAgree(all: seq<Candidate>, xs: seq<Candidate>)
    requires Agree(all) && forall x :: x in xs ==> x in all
    ensures Agree(xs)
  {
    hide SameFate;
  }
}
