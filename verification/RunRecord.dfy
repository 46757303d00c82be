// What the input records of a run, read off its fields: the vocabulary of the statements about published results.

module RunRecord {
  import opened Prelude
  import opened BlameInput
  import opened Condense
  import opened Propagation
  import opened CutPoint

  predicate HasScore(inp: Input, r: RunId) {
    r in inp.scores && inp.scores[r].score.Some?
  }

  function ScoreIn(inp: Input, r: RunId): real
    requires HasScore(inp, r)
  {
    inp.scores[r].score.value
  }

  predicate Admits(inp: Input, r: RunId) {
    r in inp.scores && inp.scores[r].inputFlawed
  }

  predicate Because(inp: Input, r: RunId, reason: string) {
    r in inp.scores && inp.scores[r].unscoredReason == Some(reason)
  }

  predicate Broke(inp: Input, r: RunId) {
    r in inp.scores && inp.scores[r].violations != []
  }

  predicate Checks(inp: Input, r: RunId) {
    r in inp.agentNames && inp.agentNames[r] in inp.verifierNames
  }

  predicate FailsCheck(inp: Input, r: RunId) {
    r in inp.scores && exists s :: s in inp.scores[r].signals && s.fail
  }

  predicate DeliverableBad(inp: Input) {
    inp.terminal.Some? && inp.terminal.value.checkable && inp.terminal.value.bad
  }

  predicate DeliverableOk(inp: Input) {
    inp.terminal.Some? && inp.terminal.value.checkable && !inp.terminal.value.bad
  }

  // `q` is before `r` by end time, a missing one first, ties by id.
  predicate Sooner(inp: Input, q: RunId, r: RunId) {
    if q in inp.endTimes && r in inp.endTimes
    then inp.endTimes[q] < inp.endTimes[r] || (inp.endTimes[q] == inp.endTimes[r] && q < r)
    else if q !in inp.endTimes && r !in inp.endTimes then q < r
    else q !in inp.endTimes
  }

  lemma SoonerIs(inp: Input, q: RunId, r: RunId)
    ensures Sooner(inp, q, r) <==> Before(KeyOf(inp.endTimes, q), KeyOf(inp.endTimes, r))
  {
  }

  // `m` is scored below every other member, or as low and earlier.
  predicate LowestAmong(inp: Input, members: seq<RunId>, m: RunId) {
    m in members && HasScore(inp, m) && forall q :: q in members && q != m && HasScore(inp, q) ==>
      ScoreIn(inp, m) < ScoreIn(inp, q) || (ScoreIn(inp, m) == ScoreIn(inp, q) && Sooner(inp, m, q))
  }

  lemma FieldsAre(inp: Input, r: RunId)
    ensures HasScore(inp, r) <==> ScoreOf(inp, r).Some?
    ensures HasScore(inp, r) ==> ScoreIn(inp, r) == ScoreOf(inp, r).value
    ensures Admits(inp, r) <==> InputFlawed(inp, r)
    ensures Broke(inp, r) <==> Violations(inp, r) != []
    ensures Checks(inp, r) <==> IsVerifier(inp, r)
  {
  }

  lemma LowestIs(inp: Input, members: seq<RunId>, m: RunId)
    ensures LowestAmong(inp, members, m) <==>
      m in KnownScores(inp, Elements(members)) &&
        forall q :: q in KnownScores(inp, Elements(members)) && q != m ==> StepLess(RunStep(inp, m), RunStep(inp, q))
  {
    var scored := KnownScores(inp, Elements(members));
    forall q ensures q in scored <==> q in members && HasScore(inp, q) {
      FieldsAre(inp, q);
    }
    forall q | q in scored && m in scored
      ensures StepLess(RunStep(inp, m), RunStep(inp, q)) <==>
        ScoreIn(inp, m) < ScoreIn(inp, q) || (ScoreIn(inp, m) == ScoreIn(inp, q) && Sooner(inp, m, q))
    {
      SoonerIs(inp, m, q);
    }
    hide HasScore, ScoreIn, Sooner, KnownScores, StepLess, RunStep;
  }
}
