/** How an attempt of `SupervisorEngine` can end, whatever its collaborators do. */
module SupervisorEnds {
  import opened Json
  import opened Models
  import opened Grading
  import opened Runs
  import opened Redaction
  import opened Engine
  import opened Ledger
  import opened EngineFeedback
  import opened Supervisor

  // ----- What the harness leaves behind -----

  predicate Directed(call: EmitCall, action: DirectiveAction) {
    call.advice.Directs? && call.advice.directive.action == action
  }

  /** The advisor asked for `action` in one of the calls. */
  predicate Asked(calls: seq<EmitCall>, action: DirectiveAction) { exists c | c in calls :: Directed(c, action) }

  /** Same attempt; a pause or an abort was the advisor's. */
  predicate Blameless(a: Attempt, b: Attempt, pausing: bool, aborting: bool) {
    && b.number == a.number && b.base == a.base
    && (b.phase == Interrupted(MustPause) ==> pausing)
    && (b.phase.Interrupted? && b.phase.cause.MustAbort? ==> aborting)
  }

  lemma ActBlame(a: Attempt, d: Directive, handler: Handler)
    ensures Blameless(a, ActOutcome(a, d, handler).live.value, d.action == Pause, d.action == Abort)
    ensures var p := ActOutcome(a, d, handler).live.value.phase; p == Executing || p.Interrupted?
  {
  }

  lemma ReviewBlame(a: Attempt, advice: Advice)
    requires !advice.NoReview?
    ensures var b := ReviewOutcome(a, advice).live.value;
      && Blameless(a, b, advice.Directs? && advice.directive.action == Pause,
                   advice.Directs? && advice.directive.action == Abort)
      && (b.phase == Executing || b.phase.Interrupted?)
  {
    if advice.Directs? {
      ActBlame(PublishEffect(a.(phase := Reviewed(advice.directive)), advice.directive).live.value,
               advice.directive, advice.handler);
    }
  }

  lemma EmitBlame(a: Attempt, call: EmitCall)
    requires a.phase == Executing
    ensures var b := EmitOutcome(a, call).live.value;
      Blameless(a, b, Directed(call, Pause), Directed(call, Abort)) && (b.phase == Executing || b.phase.Interrupted?)
  {
    var e := EmitEffect(a, call.kind, !call.advice.NoReview?);
    if e.live.value.phase == Observed { ReviewBlame(e.live.value, call.advice); }
  }

  lemma {:induction false} HarnessBlame(a: Attempt, calls: seq<EmitCall>, ending: Ending)
    requires a.phase == Executing
    ensures var b := HarnessOutcome(a, calls, ending).live.value;
      && Blameless(a, b, Asked(calls, Pause), Asked(calls, Abort))
      && (b.phase.Interrupted? || (b.phase == Executing && ending.Returns?))
    decreases |calls|
  {
    if calls != [] {
      var b := EmitOutcome(a, calls[0]).live.value;
      EmitBlame(a, calls[0]);
      assert calls[0] in calls;
      if !b.phase.Interrupted? || calls[0].swallow {
        HarnessBlame(b.(phase := Executing), calls[1..], ending);
        assert b.phase == Executing ==> b == b.(phase := Executing);
      }
    }
  }

  // ----- The status at the end -----

  function CauseStatus(cause: Cause): Status {
    match cause
    case MustPause => Paused
    case MustAbort(_) => Failed
    case _ => WaitingHuman
  }

  /** The status that an event sets, whatever was before. */
  function Sets(e: Event): Option<Status> {
    match e
    case RunPaused => Some(Paused)
    case RunWaitingHuman(_) => Some(WaitingHuman)
    case RunFailed(_) => Some(Failed)
    case RunSucceeded(_) => Some(Succeeded)
    case RunRetryScheduled(_, _) => Some(RetryScheduled)
    case _ => None
  }

  lemma SetsStatus(s: Snapshot, e: Event)
    requires Sets(e).Some?
    ensures Apply(s, e).status == Sets(e).value
  {
  }

  lemma {:induction false} StaysStarted(log: seq<Event>, batch: seq<Event>)
    requires Started(log)
    ensures Started(log + batch)
  {
    assert (log + batch)[0] == log[0];
  }

  lemma LastStatus(log: seq<Event>, batch: seq<Event>, status: Status)
    requires Started(log) && batch != [] && Sets(batch[|batch| - 1]) == Some(status)
    ensures Started(log + batch) && Replay(log + batch).status == status
  {
    var n := |batch| - 1;
    StaysStarted(log, batch[..n]);
    ReplayNext(log + batch[..n], batch[n]);
    SetsStatus(Replay(log + batch[..n]), batch[n]);
    assert log + batch == log + batch[..n] + [batch[n]];
  }

  lemma CauseSets(a: Attempt, cause: Cause)
    ensures var batch := InterruptBatch(a, cause);
      batch != [] && Sets(batch[|batch| - 1]) == Some(CauseStatus(cause))
  {
  }

  lemma InterruptStatus(log: seq<Event>, a: Attempt, cause: Cause)
    requires Started(log)
    ensures Started(log + InterruptBatch(a, cause))
    ensures Replay(log + InterruptBatch(a, cause)).status == CauseStatus(cause)
  {
    CauseSets(a, cause);
    LastStatus(log, InterruptBatch(a, cause), CauseStatus(cause));
  }

  /** The verdict of attempt `number`. */
  function VerdictStatus(policy: SupervisorPolicy, number: nat, d: GradingDecision): Status {
    if d.passed then Succeeded
    else if Retryable(d) && number <= policy.maxRetries then RetryScheduled
    else if policy.requireHumanOnExhaustion then WaitingHuman
    else Failed
  }

  lemma VerdictSets(a: Attempt, d: GradingDecision)
    ensures var batch := ConclusionBatch(a, d);
      batch != [] && Sets(batch[|batch| - 1]) == Some(VerdictStatus(a.base.definition.supervisorPolicy, a.number, d))
  {
  }

  lemma VerdictSeen(log: seq<Event>, a: Attempt, d: GradingDecision)
    requires Started(log)
    ensures Started(log + ConclusionBatch(a, d))
    ensures Replay(log + ConclusionBatch(a, d)).status
         == VerdictStatus(a.base.definition.supervisorPolicy, a.number, d)
  {
    VerdictSets(a, d);
    LastStatus(log, ConclusionBatch(a, d), VerdictStatus(a.base.definition.supervisorPolicy, a.number, d));
  }

  lemma {:induction false} GradersKeepStatus(log: seq<Event>, failed: seq<string>)
    requires Started(log)
    ensures Started(log + GraderBatch(failed)) && Replay(log + GraderBatch(failed)).status == Replay(log).status
    decreases |failed|
  {
    if failed == [] {
      assert log + [] == log;
    } else {
      var n := |failed| - 1;
      GradersKeepStatus(log, failed[..n]);
      ReplayNext(log + GraderBatch(failed[..n]), GraderFailed(failed[n]));
      assert log + GraderBatch(failed) == log + GraderBatch(failed[..n]) + [GraderFailed(failed[n])];
    }
  }

  lemma EvaluationStatus(log: seq<Event>, a: Attempt, failed: seq<string>, results: seq<EvaluationResult>)
    requires Started(log)
    ensures Started(log + EvaluationBatch(a, failed, results))
    ensures Replay(log + EvaluationBatch(a, failed, results)).status
         == match Aggregate(a.base.definition.gradingPolicy, results)
            case Err(_) => Replay(log).status
            case Ok(d) => VerdictStatus(a.base.definition.supervisorPolicy, a.number, d)
  {
    GradersKeepStatus(log, failed);
    var graded := log + GraderBatch(failed);
    match Aggregate(a.base.definition.gradingPolicy, results)
    case Err(_) => assert EvaluationBatch(a, failed, results) == GraderBatch(failed);
    case Ok(d) =>
      VerdictSeen(graded + [EvaluationCompleted(d)], a, d);
      Regroup(log, GraderBatch(failed), [EvaluationCompleted(d)], ConclusionBatch(a, d));
  }

  lemma Regroup(log: seq<Event>, a: seq<Event>, b: seq<Event>, c: seq<Event>)
    ensures log + a + b + c == log + (a + (b + c))
  {
  }

  /** What follows a result: over budget, ungradable, or the verdict. */
  function ResultStatus(a: Attempt, script: Script): Status
    requires script.ending.Returns?
  {
    var policy := a.base.definition.supervisorPolicy;
    if Exceeds(policy, a.base.totalTokens + script.ending.tokens, a.base.totalCost + script.ending.cost)
    then WaitingHuman
    else
      match Aggregate(a.base.definition.gradingPolicy, script.results)
      case Err(_) => Evaluating
      case Ok(d) => VerdictStatus(policy, a.number, d)
  }

  lemma OverBudget(log: seq<Event>, a: Attempt, script: Script)
    requires Started(log) && script.ending.Returns?
    requires Exceeds(a.base.definition.supervisorPolicy, a.base.totalTokens + script.ending.tokens,
                     a.base.totalCost + script.ending.cost)
    ensures Started(log + CompletionBatch(a, script))
    ensures Replay(log + CompletionBatch(a, script)).status == WaitingHuman
  {
    var batch := CompletionBatch(a, script);
    assert Sets(batch[|batch| - 1]) == Some(WaitingHuman);
    LastStatus(log, batch, WaitingHuman);
  }

  lemma WithinBudget(log: seq<Event>, a: Attempt, script: Script)
    requires Started(log) && script.ending.Returns?
    requires !Exceeds(a.base.definition.supervisorPolicy, a.base.totalTokens + script.ending.tokens,
                      a.base.totalCost + script.ending.cost)
    ensures Started(log + CompletionBatch(a, script))
    ensures Replay(log + CompletionBatch(a, script)).status == ResultStatus(a, script)
  {
    var Returns(output, tokens, cost) := script.ending;
    var completed, started := ExecutionCompleted(a.number, output, tokens, cost), EvaluationStarted(a.number);
    var grading := log + [completed] + [started];
    ReplayNext(log, completed);
    ReplayNext(log + [completed], started);
    EvaluationStatus(grading, a, script.failedGraders, script.results);
    Regroup(log, [completed], [started], EvaluationBatch(a, script.failedGraders, script.results));
    InBudgetBatch(a, script);
  }

  lemma InBudgetBatch(a: Attempt, script: Script)
    requires script.ending.Returns?
    requires !Exceeds(a.base.definition.supervisorPolicy, a.base.totalTokens + script.ending.tokens,
                      a.base.totalCost + script.ending.cost)
    ensures var Returns(output, tokens, cost) := script.ending;
      CompletionBatch(a, script)
      == [ExecutionCompleted(a.number, output, tokens, cost)]
         + ([EvaluationStarted(a.number)] + EvaluationBatch(a, script.failedGraders, script.results))
  {
  }

  /** The status after an attempt whose harness left `a`. */
  function EndStatus(a: Attempt, script: Script): Status
    requires a.phase.Interrupted? || script.ending.Returns?
  {
    if a.phase.Interrupted? then CauseStatus(a.phase.cause) else ResultStatus(a, script)
  }

  lemma FinishStatus(log: seq<Event>, a: Attempt, script: Script)
    requires Started(log) && (a.phase.Interrupted? || script.ending.Returns?)
    ensures Started(log + FinishBatch(a, script))
    ensures Replay(log + FinishBatch(a, script)).status == EndStatus(a, script)
  {
    if a.phase.Interrupted? {
      InterruptStatus(log, a, a.phase.cause);
    } else if Exceeds(a.base.definition.supervisorPolicy, a.base.totalTokens + script.ending.tokens,
                      a.base.totalCost + script.ending.cost) {
      OverBudget(log, a, script);
    } else {
      WithinBudget(log, a, script);
    }
  }

  // ----- What a status says about the attempt -----

  /** What each status after attempt `number` of a run with snapshot `s` proves about the script. */
  predicate Explains(s: Snapshot, script: Script, raised: bool, status: Status) {
    var policy, verdict := s.definition.supervisorPolicy, Aggregate(s.definition.gradingPolicy, script.results);
    && status != Created && status != Running && status != Cancelled
    && (raised <==> status == Evaluating)
    && (status == Paused ==> Asked(script.calls, Pause))
    && (status == Succeeded ==>
          && script.ending.Returns? && verdict.Ok? && verdict.value.passed
          && !Exceeds(policy, s.totalTokens + script.ending.tokens, s.totalCost + script.ending.cost))
    && (status == RetryScheduled ==>
          && script.ending.Returns? && verdict.Ok? && !verdict.value.passed && Retryable(verdict.value)
          && s.attempt + 1 <= policy.maxRetries)
    && (status == Failed ==>
          Asked(script.calls, Abort)
          || (script.ending.Returns? && verdict.Ok? && !verdict.value.passed && !policy.requireHumanOnExhaustion))
  }

  lemma EndExplains(s: Snapshot, a: Attempt, script: Script)
    requires a.base == s && a.number == s.attempt + 1 && (a.phase.Interrupted? || script.ending.Returns?)
    requires a.phase == Interrupted(MustPause) ==> Asked(script.calls, Pause)
    requires a.phase.Interrupted? && a.phase.cause.MustAbort? ==> Asked(script.calls, Abort)
    ensures Explains(s, script, Ungradable(a, script), EndStatus(a, script))
  {
  }

  /** Every attempt of the loop ends in a status that its collaborators explain: it is never left running;
      it is left evaluating exactly when an exception leaves it; a pause or an abort was the advisor's;
      success and retry are the grading policy's, within budget and within the retry limit. */
  lemma AttemptEnds(log: seq<Event>, s: Snapshot, script: Script)
    requires GetRun(log) == Ok(s) && Startable(s.status)
    ensures var (after, raised) := AttemptTurn(log, s, script);
      Started(after) && Explains(s, script, raised, Replay(after).status)
  {
    var first := FirstOf(log, s, script.inlineDelivery);
    var a0 := first.live.value;
    HarnessBlame(a0, script.calls, script.ending);
    var ran := HarnessOutcome(a0, script.calls, script.ending);
    var before := first.log + ran.batch;
    StaysStarted(log, [RunStarted(s.attempt + 1)]);
    StaysStarted(first.log, ran.batch);
    FinishStatus(before, ran.live.value, script);
    EndExplains(s, ran.live.value, script);
  }
}
