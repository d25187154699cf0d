/** How an attempt is concluded, and when the advisor's hints are active. */
module EngineFeedback {
  import opened Json
  import opened Models
  import opened Grading
  import opened Runs
  import opened Engine
  import opened Ledger
  import opened EngineInvariants
  import opened EngineTheorems
  import opened EngineBounds
  import opened EngineHints

  // ----- The verdict on an attempt -----

  predicate Retryable(d: GradingDecision) { exists r | r in d.results :: r.retryable }

  /** The status that the last decision leads to. */
  function Concluded(s: Snapshot, d: GradingDecision): Status {
    var policy := s.definition.supervisorPolicy;
    if d.passed then Succeeded
    else if Retryable(d) && s.attempt <= policy.maxRetries then RetryScheduled
    else if policy.requireHumanOnExhaustion then WaitingHuman
    else Failed
  }

  lemma ConclusionOf(v: View, a: Attempt, d: GradingDecision)
    requires a.number == v.run.attempt && a.base.definition == v.run.definition
    ensures Then(v, ConclusionBatch(a, d)).run.status == Concluded(v.run, d)
  {
    var batch := ConclusionBatch(a, d);
    if IsRetry(batch) {
      RetryStatus(v, batch);
    } else {
      assert batch == [batch[0]];
      VerdictStatus(v, batch[0]);
    }
  }

  lemma RetryStatus(v: View, batch: seq<Event>)
    requires IsRetry(batch)
    ensures Then(v, batch).run.status == RetryScheduled
  {
    ThenShort(v, batch);
  }

  lemma VerdictStatus(v: View, e: Event)
    requires e.RunSucceeded? || e.RunWaitingHuman? || e.RunFailed?
    ensures Then(v, [e]).run.status
         == if e.RunSucceeded? then Succeeded else if e.RunWaitingHuman? then WaitingHuman else Failed
  {
    ThenShort(v, [e]);
  }

  lemma ConcludeStep(m: Machine)
    requires m.live.Some? && m.live.value.phase.Decided?
    ensures Step(m, Conclude) == Machine(m.log + ConclusionBatch(m.live.value, m.live.value.phase.decision), None)
  {
  }

  lemma DecidedIsLast(v: View, a: Attempt)
    requires Inv(v, Some(a)) && a.phase.Decided?
    ensures v.tally.lastDecision == Some(a.phase.decision)
    ensures a.number == v.run.attempt && a.base.definition == v.run.definition
  {
  }

  /** An evaluated attempt ends as the recorded decision and the policy say, however long ago the
      snapshot was taken that the attempt works with. */
  lemma ConclusionExactly(m: Machine)
    requires Reachable(m) && m.live.Some? && m.live.value.phase.Decided?
    ensures TallyOf(m.log).lastDecision.Some?
    ensures StatusOf(Step(m, Conclude)) == Concluded(Replay(m.log), TallyOf(m.log).lastDecision.value)
    ensures Step(m, Conclude).live.None?
  {
    ReachableKeeps(m);
    var a := m.live.value;
    DecidedIsLast(ViewOf(m.log), a);
    ConcludeStep(m);
    ConclusionAppended(m.log, a, a.phase.decision);
  }

  lemma ConclusionAppended(log: seq<Event>, a: Attempt, d: GradingDecision)
    requires Started(log) && a.number == Replay(log).attempt && a.base.definition == Replay(log).definition
    ensures Started(log + ConclusionBatch(a, d))
    ensures Replay(log + ConclusionBatch(a, d)).status == Concluded(Replay(log), d)
  {
    ViewAppend(log, ConclusionBatch(a, d));
    ConclusionOf(ViewOf(log), a, d);
  }

  // ----- Every evaluation retry carries its feedback -----

  /** The retry scheduled at `j` follows a failed evaluation with a retryable result, within the retry
      budget, and comes right after the feedback of that evaluation. */
  predicate Explained(log: seq<Event>, j: nat)
    requires Started(log) && 2 <= j < |log| && log[j].RunRetryScheduled?
  {
    var v := ViewOf(log[..j]);
    var n := v.run.attempt;
    && v.tally.lastDecision.Some?
    && var d := v.tally.lastDecision.value;
    && !d.passed && Retryable(d) && n <= v.run.definition.supervisorPolicy.maxRetries
    && log[j - 1] == HintPublished(FeedbackHint(n, d.results), None)
    && log[j].nextAttempt == n + 1
  }

  /** A retry at `j` that an evaluation scheduled is explained. */
  predicate RetryExplained(log: seq<Event>, j: nat)
    requires Started(log) && 1 <= j < |log|
  {
    log[j].RunRetryScheduled? && Replay(log[..j]).status == Evaluating ==> j >= 2 && Explained(log, j)
  }

  predicate RetriesExplained(log: seq<Event>)
    requires Started(log)
  {
    forall j | 1 <= j < |log| :: RetryExplained(log, j)
  }

  predicate NoRetry(batch: seq<Event>) { forall e | e in batch :: !e.RunRetryScheduled? }

  /** The three pairs that schedule a retry. */
  predicate IsRetryPair(v: View, batch: seq<Event>) {
    && |batch| == 2 && !batch[0].RunRetryScheduled? && batch[1].RunRetryScheduled?
    && ((batch[0].HitlResolved? && v.run.status == WaitingHuman)
        || batch[0].RunRecovered?
        || IsFeedbackPair(v, batch))
  }

  predicate IsFeedbackPair(v: View, batch: seq<Event>) {
    && v.tally.lastDecision.Some?
    && var d := v.tally.lastDecision.value;
    && !d.passed && Retryable(d) && v.run.attempt <= v.run.definition.supervisorPolicy.maxRetries
    && batch == RetryBatch(v.run.attempt, FeedbackHint(v.run.attempt, d.results))
  }

  lemma ConclusionShape(v: View, a: Attempt, d: GradingDecision)
    requires a.number == v.run.attempt && a.base.definition == v.run.definition && v.tally.lastDecision == Some(d)
    ensures NoRetry(ConclusionBatch(a, d)) || IsFeedbackPair(v, ConclusionBatch(a, d))
  {
  }

  lemma OtherShape(a: Attempt, mv: Move)
    requires !(mv.Conclude? && a.phase.Decided?)
    ensures NoRetry(AttemptEffect(a, mv).batch)
  {
    if mv.PublishHints? && a.phase.Reviewed? {
      HintsAreNoStart(NewDrafts(a.phase.directive.hints, a.publishedKeys), a);
    }
  }

  lemma CommandShape(v: View, idle: bool, mv: Move)
    ensures var batch := CommandBatch(v.run, idle, mv); NoRetry(batch) || IsRetryPair(v, batch)
  {
  }

  lemma AttemptShape(v: View, a: Attempt, mv: Move)
    requires Inv(v, Some(a))
    ensures var batch := AttemptEffect(a, mv).batch; NoRetry(batch) || IsRetryPair(v, batch)
  {
    if mv.Conclude? && a.phase.Decided? { ConclusionShape(v, a, a.phase.decision); } else { OtherShape(a, mv); }
  }

  lemma RetryShape(m: Machine, mv: Move)
    requires Started(m.log) && Inv(ViewOf(m.log), m.live)
    ensures var batch := EffectOf(m, mv).batch; NoRetry(batch) || IsRetryPair(ViewOf(m.log), batch)
  {
    if IsCommand(mv) {
      CommandShape(ViewOf(m.log), m.live.None?, mv);
    } else if m.live.Some? && !mv.Begin? {
      AttemptShape(ViewOf(m.log), m.live.value, mv);
    }
  }

  lemma PairIsFeedback(v: View, batch: seq<Event>)
    requires IsRetryPair(v, batch) && See(v, batch[0]).run.status == Evaluating
    ensures IsFeedbackPair(v, batch)
  {
  }

  lemma FeedbackSeen(v: View, hint: Hint)
    ensures var w := See(v, HintPublished(hint, None));
      w.tally == v.tally && w.run.attempt == v.run.attempt && w.run.definition == v.run.definition
  {
  }

  lemma PairExplained(log: seq<Event>, batch: seq<Event>)
    requires Started(log) && IsRetryPair(ViewOf(log), batch)
    requires Replay(log + [batch[0]]).status == Evaluating
    ensures Explained(log + batch, |log| + 1)
  {
    var next, v := log + [batch[0]], ViewOf(log);
    assert next[..|log|] == log;
    assert ViewOf(next) == See(v, batch[0]);
    PairIsFeedback(v, batch);
    var hint := batch[0].hint;
    FeedbackSeen(v, hint);
    assert (log + batch)[..|log| + 1] == next;
  }

  lemma ExplainedLater(log: seq<Event>, batch: seq<Event>, j: nat)
    requires Started(log) && 2 <= j < |log| && log[j].RunRetryScheduled? && Explained(log, j)
    ensures Explained(log + batch, j)
  {
    assert (log + batch)[..j] == log[..j];
  }

  lemma ExplainedBehind(log: seq<Event>, batch: seq<Event>, k: nat)
    requires Started(log) && IsRetryPair(ViewOf(log), batch) && k < |batch| && batch[k].RunRetryScheduled?
    requires Replay((log + batch)[..|log| + k]).status == Evaluating
    ensures k == 1 && Explained(log + batch, |log| + k)
  {
    assert (log + batch)[..|log| + 1] == log + [batch[0]];
    PairExplained(log, batch);
  }

  lemma ExplainedBefore(log: seq<Event>, batch: seq<Event>, j: nat)
    requires Started(log) && 1 <= j < |log| && RetryExplained(log, j)
    ensures RetryExplained(log + batch, j)
  {
    assert (log + batch)[..j] == log[..j];
    if log[j].RunRetryScheduled? && Replay(log[..j]).status == Evaluating { ExplainedLater(log, batch, j); }
  }

  lemma ExplainedAfter(log: seq<Event>, batch: seq<Event>, k: nat)
    requires Started(log) && k < |batch| && (NoRetry(batch) || IsRetryPair(ViewOf(log), batch))
    ensures RetryExplained(log + batch, |log| + k)
  {
    assert (log + batch)[|log| + k] == batch[k] && batch[k] in batch;
    if batch[k].RunRetryScheduled? && Replay((log + batch)[..|log| + k]).status == Evaluating {
      ExplainedBehind(log, batch, k);
    }
  }

  lemma ExplainedAppend(log: seq<Event>, batch: seq<Event>)
    requires Started(log) && RetriesExplained(log)
    requires NoRetry(batch) || IsRetryPair(ViewOf(log), batch)
    ensures RetriesExplained(log + batch)
  {
    forall j | 1 <= j < |log + batch| ensures RetryExplained(log + batch, j) {
      if j < |log| {
        assert RetryExplained(log, j);
        ExplainedBefore(log, batch, j);
      } else {
        ExplainedAfter(log, batch, j - |log|);
      }
    }
  }

  /** Retries are scheduled by an evaluation only after a failed one with a retryable result, within the
      budget, and the feedback published right before is that evaluation's. */
  lemma {:induction false} RetriesCarryFeedback(definition: RunDefinition, moves: seq<Move>)
    ensures RetriesExplained(Execute(definition, moves).log)
  {
    if moves != [] {
      var before := Execute(definition, moves[..|moves| - 1]);
      RetriesCarryFeedback(definition, moves[..|moves| - 1]);
      ReachableInv(definition, moves[..|moves| - 1]);
      RetryShape(before, moves[|moves| - 1]);
      ExplainedAppend(before.log, EffectOf(before, moves[|moves| - 1]).batch);
    }
  }

  // ----- When the advisor's hints are active -----

  /** Inline hints are created for the executing attempt, others for the next one. */
  predicate AdviceDate(e: Event, attempt: nat)
    requires IsAdvice(e)
  {
    e.hint.createdAtStep == if e.delivery.value then attempt else attempt + 1
  }

  predicate AdviceAt(log: seq<Event>, i: nat)
    requires i < |log|
  {
    IsAdvice(log[i]) ==> AdviceDate(log[i], Starts(log[..i]))
  }

  predicate AdviceDated(log: seq<Event>) { forall i | 0 <= i < |log| :: AdviceAt(log, i) }

  lemma {:induction false} HintEventsDated(drafts: seq<HintDraft>, a: Attempt)
    ensures forall e | e in HintEvents(drafts, a) :: IsAdvice(e) && AdviceDate(e, a.number)
    decreases |drafts|
  {
    if drafts != [] { HintEventsDated(drafts[1..], a); }
  }

  lemma AdviceOfMove(v: View, a: Attempt, mv: Move)
    requires Inv(v, Some(a))
    ensures forall e | e in AttemptEffect(a, mv).batch && IsAdvice(e) :: AdviceDate(e, v.run.attempt)
  {
    PublishedHints(v, Some(a), mv);
    if mv.PublishHints? && a.phase.Reviewed? {
      HintEventsDated(NewDrafts(a.phase.directive.hints, a.publishedKeys), a);
    }
  }

  lemma AdviceBefore(log: seq<Event>, batch: seq<Event>, i: nat)
    requires i < |log| && AdviceAt(log, i)
    ensures AdviceAt(log + batch, i)
  {
    assert (log + batch)[..i] == log[..i];
  }

  lemma AdviceBehind(log: seq<Event>, batch: seq<Event>, k: nat)
    requires NoStart(batch) && k < |batch| && (IsAdvice(batch[k]) ==> AdviceDate(batch[k], Starts(log)))
    ensures AdviceAt(log + batch, |log| + k)
  {
    assert (log + batch)[..|log| + k] == log + batch[..k];
    StartsAppend(log, batch[..k]);
  }

  lemma AdviceAppend(log: seq<Event>, batch: seq<Event>)
    requires AdviceDated(log) && NoStart(batch)
    requires forall e | e in batch && IsAdvice(e) :: AdviceDate(e, Starts(log))
    ensures AdviceDated(log + batch)
  {
    forall i | 0 <= i < |log + batch| ensures AdviceAt(log + batch, i) {
      if i < |log| {
        assert AdviceAt(log, i);
        AdviceBefore(log, batch, i);
      } else {
        assert batch[i - |log|] in batch;
        AdviceBehind(log, batch, i - |log|);
      }
    }
  }

  lemma NothingAppend(log: seq<Event>, batch: seq<Event>)
    requires AdviceDated(log) && forall e | e in batch :: !e.HintPublished?
    ensures AdviceDated(log + batch)
  {
    forall i | 0 <= i < |log + batch| ensures AdviceAt(log + batch, i) {
      if i < |log| {
        assert AdviceAt(log, i);
        AdviceBefore(log, batch, i);
      } else {
        assert batch[i - |log|] in batch;
      }
    }
  }

  lemma AdviceStep(m: Machine, mv: Move)
    requires Started(m.log) && Inv(ViewOf(m.log), m.live)
    requires Starts(m.log) == Replay(m.log).attempt && AdviceDated(m.log)
    ensures AdviceDated(m.log + EffectOf(m, mv).batch)
  {
    if m.live.None? || Outside(mv) {
      CommandsPublishNothing(m, mv);
      NothingAppend(m.log, EffectOf(m, mv).batch);
    } else {
      HintsOfMove(m, mv);
      AdviceOfMove(ViewOf(m.log), m.live.value, mv);
      AttemptsDoNotStart(m.live.value, mv);
      AdviceAppend(m.log, EffectOf(m, mv).batch);
    }
  }

  lemma {:induction false} ReachableAdvice(definition: RunDefinition, moves: seq<Move>)
    ensures AdviceDated(Execute(definition, moves).log)
  {
    if moves != [] {
      var before := Execute(definition, moves[..|moves| - 1]);
      ReachableAdvice(definition, moves[..|moves| - 1]);
      ReachableInv(definition, moves[..|moves| - 1]);
      ReachableNumbered(definition, moves[..|moves| - 1]);
      StartsAreAttempts(before.log);
      AdviceStep(before, moves[|moves| - 1]);
    }
  }

  /** A hint that the advisor publishes during attempt n goes into the request of a later attempt k exactly
      if k comes within its lifetime, counted from n when it was delivered inline and from n + 1 when not. */
  lemma AdviceDelivery(definition: RunDefinition, moves: seq<Move>, i: nat, j: nat)
    requires var log := Execute(definition, moves).log;
      i < j < |log| && IsAdvice(log[i]) && log[j].RunStarted?
    ensures var log := Execute(definition, moves).log;
      var n, k := Starts(log[..i]), log[j].attempt;
      && 1 <= i && k > n
      && (log[i].hint in ActiveHints(Replay(log[..j]).hints, k) <==>
            k < (if log[i].delivery.value then n else n + 1) + log[i].hint.expiresAfterSteps)
  {
    var log := Execute(definition, moves).log;
    ReachableNumbered(definition, moves);
    ReachableAdvice(definition, moves);
    assert AdviceAt(log, i);
    StartsBetween(log, i, j);
    HintsRemembered(log[..j], i);
  }
}
