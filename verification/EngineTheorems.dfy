/** What holds of every run of the engine. */
module EngineTheorems {
  import opened Json
  import opened Models
  import opened Grading
  import opened Runs
  import opened Engine
  import opened Ledger
  import opened EngineInvariants

  // ----- Runs of moves -----

  lemma RunNext(m: Machine, moves: seq<Move>, mv: Move)
    ensures Run(m, moves + [mv]) == Step(Run(m, moves), mv)
  {
    assert (moves + [mv])[..|moves|] == moves;
  }

  lemma SplitLast(before: seq<Move>, after: seq<Move>) returns (init: seq<Move>, last: Move)
    requires after != []
    ensures after == init + [last] && before + after == before + init + [last]
  {
    init, last := after[..|after| - 1], after[|after| - 1];
  }

  lemma {:induction false} RunConcat(m: Machine, before: seq<Move>, after: seq<Move>)
    ensures Run(m, before + after) == Run(Run(m, before), after)
    decreases |after|
  {
    if after == [] {
      assert before + after == before;
    } else {
      var init, last := SplitLast(before, after);
      RunConcat(m, before, init);
      RunConcatNext(m, before, init, last);
    }
  }

  lemma RunConcatNext(m: Machine, before: seq<Move>, init: seq<Move>, last: Move)
    requires Run(m, before + init) == Run(Run(m, before), init)
    ensures Run(m, before + init + [last]) == Run(Run(m, before), init + [last])
  {
    var n := Run(m, before);
    RunNext(m, before + init, last);
    RunNext(n, init, last);
  }

  function StatusOf(m: Machine): Status
    requires Started(m.log)
  {
    Replay(m.log).status
  }

  ghost predicate Reachable(m: Machine) {
    && Started(m.log)
    && exists moves :: m == Execute(m.log[0].definition, moves)
  }

  lemma ReachableKeeps(m: Machine)
    requires Reachable(m)
    ensures Inv(ViewOf(m.log), m.live)
  {
    var moves :| m == Execute(m.log[0].definition, moves);
    ReachableInv(m.log[0].definition, moves);
  }

  lemma ReachableStep(m: Machine, mv: Move)
    requires Reachable(m)
    ensures Reachable(Step(m, mv))
  {
    var definition := m.log[0].definition;
    var moves :| m == Execute(definition, moves);
    var more := moves + [mv];
    assert more[..|more| - 1] == moves;
    assert Step(m, mv) == Execute(definition, more);
    ReachableInv(definition, more);
  }

  lemma {:induction false} ReachableRun(m: Machine, moves: seq<Move>)
    requires Reachable(m)
    ensures Reachable(Run(m, moves))
  {
    if moves != [] {
      ReachableRun(m, moves[..|moves| - 1]);
      ReachableStep(Run(m, moves[..|moves| - 1]), moves[|moves| - 1]);
    }
  }

  // ----- Conservation of attempts -----

  function Starts(log: seq<Event>): nat {
    if log == [] then 0 else Starts(log[..|log| - 1]) + One(log[|log| - 1].RunStarted?)
  }

  predicate Numbered(log: seq<Event>) {
    forall i | 0 <= i < |log| && log[i].RunStarted? :: log[i].attempt == Starts(log[..i]) + 1
  }

  predicate NoStart(batch: seq<Event>) { forall e | e in batch :: !e.RunStarted? }

  lemma {:induction false} HintsAreNoStart(drafts: seq<HintDraft>, a: Attempt)
    ensures NoStart(HintEvents(drafts, a))
    ensures forall e | e in HintEvents(drafts, a) :: e.HintPublished? && e.delivery.Some?
    decreases |drafts|
  {
    if drafts != [] { HintsAreNoStart(drafts[1..], a); }
  }

  lemma AttemptsDoNotStart(a: Attempt, mv: Move)
    ensures NoStart(AttemptEffect(a, mv).batch)
  {
    if mv.PublishHints? && a.phase.Reviewed? {
      HintsAreNoStart(NewDrafts(a.phase.directive.hints, a.publishedKeys), a);
    }
  }

  lemma OnlyBeginStarts(m: Machine, mv: Move)
    requires Started(m.log)
    ensures NoStart(EffectOf(m, mv).batch) || EffectOf(m, mv).batch == [RunStarted(Replay(m.log).attempt + 1)]
  {
    if m.live.Some? && !Outside(mv) { AttemptsDoNotStart(m.live.value, mv); }
  }

  lemma {:induction false} StartsAppend(log: seq<Event>, batch: seq<Event>)
    requires NoStart(batch)
    ensures Starts(log + batch) == Starts(log)
    decreases |batch|
  {
    if batch == [] {
      assert log + batch == log;
    } else {
      var n := |batch| - 1;
      StartsAppend(log, batch[..n]);
      assert (log + batch)[..|log| + n] == log + batch[..n];
      assert batch[n] in batch;
    }
  }

  lemma NumberedAppend(log: seq<Event>, batch: seq<Event>)
    requires Numbered(log) && (NoStart(batch) || batch == [RunStarted(Starts(log) + 1)])
    ensures Numbered(log + batch)
  {
    var all := log + batch;
    forall i | 0 <= i < |all| && all[i].RunStarted? ensures all[i].attempt == Starts(all[..i]) + 1 {
      if i < |log| {
        assert all[..i] == log[..i];
      } else {
        assert batch[i - |log|] in batch && all[i] == batch[i - |log|];
        assert all[..|log|] == log;
      }
    }
  }

  lemma AttemptAfter(v: View, e: Event)
    ensures See(v, e).run.attempt == if e.RunStarted? then e.attempt else v.run.attempt
    ensures See(v, e).tally.started == v.tally.started + One(e.RunStarted?)
  {
  }

  lemma NumberedPrefix(log: seq<Event>, n: nat)
    requires Numbered(log) && n <= |log|
    ensures Numbered(log[..n])
  {
    assert forall i | 0 <= i < n :: log[..n][..i] == log[..i];
  }

  lemma {:induction false} StartsAreAttempts(log: seq<Event>)
    requires Started(log) && Numbered(log)
    ensures Starts(log) == Replay(log).attempt == TallyOf(log).started
  {
    var n := |log| - 1;
    if n == 0 {
      assert Starts(log[..0]) == 0;
    } else {
      NumberedPrefix(log, n);
      StartsAreAttempts(log[..n]);
      AttemptAfter(ViewOf(log[..n]), log[n]);
      assert ViewOf(log) == See(ViewOf(log[..n]), log[n]);
    }
  }

  lemma NumberedMore(log: seq<Event>, batch: seq<Event>)
    requires Started(log) && Numbered(log)
    requires NoStart(batch) || batch == [RunStarted(Replay(log).attempt + 1)]
    ensures Numbered(log + batch)
  {
    StartsAreAttempts(log);
    NumberedAppend(log, batch);
  }

  lemma NumberedStep(m: Machine, mv: Move)
    requires Started(m.log) && Numbered(m.log)
    ensures Numbered(Step(m, mv).log)
  {
    OnlyBeginStarts(m, mv);
    StepAppends(m, mv, EffectOf(m, mv));
    NumberedMore(m.log, EffectOf(m, mv).batch);
  }

  lemma StepAppends(m: Machine, mv: Move, e: Effect)
    requires e == EffectOf(m, mv)
    ensures Step(m, mv) == Machine(m.log + e.batch, e.live)
  {
  }

  lemma {:induction false} ReachableNumbered(definition: RunDefinition, moves: seq<Move>)
    ensures Numbered(Execute(definition, moves).log)
  {
    if moves != [] {
      ReachableNumbered(definition, moves[..|moves| - 1]);
      NumberedStep(Execute(definition, moves[..|moves| - 1]), moves[|moves| - 1]);
    }
  }

  /** Attempts are conserved in every run: each one was paid for by the creation of the run, an
      evaluation retry, a human retry, a resume or a recovery, except for what boundary pauses and
      internal failures took away and what is still owed to a startable run. The n-th start carries
      number n, and evaluation retries never exceed the policy. */
  lemma AttemptConservation(definition: RunDefinition, moves: seq<Move>)
    ensures var log := Execute(definition, moves).log;
      && Started(log)
      && var t := TallyOf(log);
      && Starts(log) + One(Startable(Replay(log).status))
           == 1 + t.evaluationRetries + t.humanRetries + t.resumes + t.recoveries
              - t.boundaryPauses - t.startableFailures
      && (forall i | 0 <= i < |log| && log[i].RunStarted? :: log[i].attempt == Starts(log[..i]) + 1)
      && t.evaluationRetries <= definition.supervisorPolicy.maxRetries
  {
    ReachableInv(definition, moves);
    ReachableNumbered(definition, moves);
    StartsAreAttempts(Execute(definition, moves).log);
    ReplayVersion(Execute(definition, moves).log);
  }

  // ----- Success is earned -----

  /** The last decision `d` justifies the success of a run with snapshot `s`: the reported score is its
      weighted mean and reaches the threshold, every required constraint was reported and every report
      of it was true, and the totals of all attempts are within budget. */
  ghost predicate Justifies(d: GradingDecision, s: Snapshot) {
    var gp, sp := s.definition.gradingPolicy, s.definition.supervisorPolicy;
    && s.lastScore == Some(d.score) && d.score >= gp.threshold
    && IsWeightedMean(d.score, gp, d.results)
    && (forall c | c in gp.requiredConstraints ::
          (exists r | r in d.results :: c in r.hardConstraints)
          && forall r | r in d.results && c in r.hardConstraints :: r.hardConstraints[c])
    && (sp.maxTokens.Some? ==> s.totalTokens <= sp.maxTokens.value)
    && (sp.maxCost.Some? ==> s.totalCost <= sp.maxCost.value)
  }

  /** The score is the mean of the results under the configured weights. */
  ghost predicate IsWeightedMean(score: real, policy: GradingPolicy, results: seq<EvaluationResult>) {
    forall ws: seq<real> :: Weighed(policy, results, ws) ==> score * Total(ws) == Dot(results, ws)
  }

  lemma DecidedIsMean(policy: GradingPolicy, results: seq<EvaluationResult>)
    requires Aggregate(policy, results).Ok?
    ensures IsWeightedMean(Aggregate(policy, results).value.score, policy, results)
  {
    var score := Aggregate(policy, results).value.score;
    forall ws: seq<real> | Weighed(policy, results, ws) ensures score * Total(ws) == Dot(results, ws) {
      DecidedMean(policy, results, ws);
    }
  }

  lemma EarnedSuccessMeans(v: View)
    requires EarnedSuccess(v) && v.run.status == Succeeded && !v.run.humanOverride
    ensures v.tally.lastDecision.Some? && Justifies(v.tally.lastDecision.value, v.run)
  {
    var policy, d := v.run.definition.gradingPolicy, v.tally.lastDecision.value;
    PassedExactly(policy, d.results);
    DecidedIsMean(policy, d.results);
  }

  /** A run that succeeded without a human override passed its last evaluation. */
  lemma SuccessSoundness(m: Machine)
    requires Reachable(m) && StatusOf(m) == Succeeded && !Replay(m.log).humanOverride
    ensures TallyOf(m.log).lastDecision.Some? && Justifies(TallyOf(m.log).lastDecision.value, Replay(m.log))
    ensures Replay(m.log).definition == m.log[0].definition
  {
    ReachableKeeps(m);
    ReplayVersion(m.log);
    EarnedSuccessMeans(ViewOf(m.log));
  }
}
