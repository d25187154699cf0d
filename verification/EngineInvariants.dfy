/** What every move of the engine keeps. */
module EngineInvariants {
  import opened Json
  import opened Models
  import opened Grading
  import opened Runs
  import opened Engine
  import opened Ledger
  import opened Redaction
  import opened StepKinds

  function One(b: bool): nat { if b then 1 else 0 }

  /** Every attempt was paid for: by the creation of the run, a retry, a resume or a recovery. */
  predicate Balanced(v: View) {
    var t := v.tally;
    && t.started == v.run.attempt
    && t.started + One(Startable(v.run.status)) + t.boundaryPauses + t.startableFailures
         == 1 + t.evaluationRetries + t.humanRetries + t.resumes + t.recoveries
    && t.evaluationRetries <= v.run.attempt
    && t.evaluationRetries <= v.run.definition.supervisorPolicy.maxRetries
  }

  /** The last decision is the verdict of the grading policy on its results, and replay shows its score. */
  predicate Judged(v: View, d: GradingDecision) {
    && v.tally.lastDecision == Some(d)
    && Aggregate(v.run.definition.gradingPolicy, d.results) == Ok(d)
    && v.run.lastScore == Some(d.score)
  }

  predicate WithinBudget(v: View) { !Exceeds(v.run.definition.supervisorPolicy, v.run.totalTokens, v.run.totalCost) }

  predicate EarnedSuccess(v: View) {
    v.run.status == Succeeded && !v.run.humanOverride ==>
      v.tally.lastDecision.Some? && v.tally.lastDecision.value.passed && Judged(v, v.tally.lastDecision.value)
      && WithinBudget(v)
  }

  predicate PhaseAgrees(v: View, a: Attempt) {
    var r := v.run;
    match a.phase
    case Completed(tokens, cost) =>
      r.status == Running && r.totalTokens == a.base.totalTokens + tokens && r.totalCost == a.base.totalCost + cost
    case GradingOutput => r.status == Evaluating && WithinBudget(v)
    case Decided(d) => r.status == Evaluating && WithinBudget(v) && Judged(v, d)
    case _ => r.status == Running && r.totalTokens == a.base.totalTokens && r.totalCost == a.base.totalCost
  }

  /** The locals of the executing attempt agree with what replay says. */
  predicate Follows(v: View, live: Option<Attempt>) {
    live.Some? ==>
      var a := live.value;
      && a.number == v.run.attempt == a.base.attempt + 1
      && a.base.definition == v.run.definition
      && v.tally.evaluationRetries < v.run.attempt
      && v.run.totalSteps == a.base.totalSteps + a.steps
      && PhaseAgrees(v, a)
  }

  predicate Inv(v: View, live: Option<Attempt>) { Balanced(v) && EarnedSuccess(v) && Follows(v, live) }

  // ----- Each move keeps the invariant -----

  lemma BeginKeeps(v: View, inlineDelivery: bool)
    requires Inv(v, None) && Startable(v.run.status)
    ensures var e := BeginEffect(v.run, inlineDelivery); Inv(Then(v, e.batch), e.live)
  {
    ThenShort(v, BeginEffect(v.run, inlineDelivery).batch);
  }

  lemma EmitKeeps(v: View, a: Attempt, kind: string, review: bool)
    requires Inv(v, Some(a)) && a.phase == Executing
    ensures var e := EmitEffect(a, kind, review); Inv(Then(v, e.batch), e.live)
  {
    ThenShort(v, EmitEffect(a, kind, review).batch);
    StepKindsSurviveRedaction(kind);
  }

  lemma PublishKeeps(v: View, a: Attempt, d: Directive)
    requires Inv(v, Some(a)) && a.phase == Reviewed(d)
    ensures var e := PublishEffect(a, d); Inv(Then(v, e.batch), e.live)
  {
    ThenHints(v, NewDrafts(d.hints, a.publishedKeys), a);
  }

  /** The shapes of the batches that end an attempt early. */
  predicate IsEnding(batch: seq<Event>) {
    || (|batch| == 1 && (batch[0].RunPaused? || batch[0].RunWaitingHuman? || batch[0].RunFailed?))
    || (|batch| == 2 && (batch[0].BudgetExhausted? || batch[0].ExecutionFailed?) && batch[1].RunWaitingHuman?)
  }

  lemma EndKeeps(v: View, a: Attempt, batch: seq<Event>)
    requires Inv(v, Some(a)) && IsEnding(batch)
    ensures Inv(Then(v, batch), None)
  {
    ThenShort(v, batch);
  }

  lemma InterruptEnds(a: Attempt, cause: Cause)
    ensures IsEnding(InterruptBatch(a, cause))
  {
  }

  lemma InterruptKeeps(v: View, a: Attempt, cause: Cause)
    requires Inv(v, Some(a))
    ensures Inv(Then(v, InterruptBatch(a, cause)), None)
  {
    InterruptEnds(a, cause);
    EndKeeps(v, a, InterruptBatch(a, cause));
  }

  lemma BudgetKeeps(v: View, a: Attempt, tokens: int, cost: real)
    requires Inv(v, Some(a)) && a.phase == Completed(tokens, cost)
    ensures var e := BudgetEffect(a, tokens, cost); Inv(Then(v, e.batch), e.live)
  {
    var e := BudgetEffect(a, tokens, cost);
    if e.live.None? {
      InterruptKeeps(v, a, OverBudget(if e.batch[0].resource == Tokens then Tokens else Cost));
    } else {
      ThenShort(v, e.batch);
    }
  }

  lemma DecideKeeps(v: View, a: Attempt, results: seq<EvaluationResult>)
    requires Inv(v, Some(a)) && a.phase == GradingOutput
    ensures var e := DecideEffect(a, results); Inv(Then(v, e.batch), e.live)
  {
    ThenShort(v, DecideEffect(a, results).batch);
  }

  lemma RetryKeeps(v: View, a: Attempt, feedback: Hint)
    requires Inv(v, Some(a)) && a.phase.Decided? && a.number <= v.run.definition.supervisorPolicy.maxRetries
    ensures Inv(Then(v, RetryBatch(a.number, feedback)), None)
  {
    ThenShort(v, RetryBatch(a.number, feedback));
  }

  /** Success, failure or a wait: one event, and success only of a passed decision. */
  lemma VerdictKeeps(v: View, a: Attempt, d: GradingDecision, e: Event)
    requires Inv(v, Some(a)) && a.phase == Decided(d)
    requires (e == RunSucceeded(false) && d.passed) || e.RunWaitingHuman? || e.RunFailed?
    ensures Inv(Then(v, [e]), None)
  {
    ThenShort(v, [e]);
  }

  lemma ConcludeKeeps(v: View, a: Attempt, d: GradingDecision)
    requires Inv(v, Some(a)) && a.phase == Decided(d)
    ensures Inv(Then(v, ConclusionBatch(a, d)), None)
  {
    var batch := ConclusionBatch(a, d);
    if |batch| == 1 {
      assert batch == [batch[0]];
      VerdictKeeps(v, a, d, batch[0]);
    } else {
      RetryKeeps(v, a, FeedbackHint(a.number, d.results));
    }
  }

  lemma ActionKeeps(v: View, a: Attempt, d: Directive, handled: bool)
    requires Inv(v, Some(a)) && a.phase == Hinted(d)
    ensures var e := ActionEffect(a, d, handled); Inv(Then(v, e.batch), e.live)
  {
    ThenShort(v, ActionEffect(a, d, handled).batch);
  }

  lemma ReturnKeeps(v: View, a: Attempt, output: Value, tokens: int, cost: real)
    requires Inv(v, Some(a)) && a.phase == Executing
    ensures var e := ReturnEffect(a, output, tokens, cost); Inv(Then(v, e.batch), e.live)
  {
    ThenShort(v, ReturnEffect(a, output, tokens, cost).batch);
  }

  /** An event that replay passes over, while the phase moves within the harness or within grading. */
  lemma QuietKeeps(v: View, a: Attempt, batch: seq<Event>, phase: Phase)
    requires Inv(v, Some(a)) && |batch| <= 1
    requires batch != [] ==>
      batch[0].SupervisorReviewed? || batch[0].ActionCompleted? || batch[0].ActionFailed? || batch[0].GraderFailed?
    requires phase == a.phase || (InHarness(a.phase) && InHarness(phase))
    ensures Inv(Then(v, batch), Some(a.(phase := phase)))
    ensures Inv(Then(v, batch), None)
  {
    ThenShort(v, batch);
  }

  /** The moves with which the harness comes to an end, and those after it. */
  predicate Closes(a: Attempt, mv: Move) {
    || (mv.HandleInterrupt? && a.phase.Interrupted?) || (mv.HarnessReturns? && a.phase == Executing)
    || (mv.CheckBudget? && a.phase.Completed?) || (mv.Decide? && a.phase == GradingOutput)
    || (mv.Conclude? && a.phase.Decided?)
  }

  lemma ClosingKeeps(v: View, a: Attempt, mv: Move)
    requires Inv(v, Some(a)) && Closes(a, mv)
    ensures var e := AttemptEffect(a, mv); Inv(Then(v, e.batch), e.live)
  {
    match mv
    case HandleInterrupt => InterruptKeeps(v, a, a.phase.cause);
    case HarnessReturns(output, tokens, cost) => ReturnKeeps(v, a, output, tokens, cost);
    case CheckBudget => BudgetKeeps(v, a, a.phase.tokens, a.phase.cost);
    case _ => GradingKeeps(v, a, mv);
  }

  lemma GradingKeeps(v: View, a: Attempt, mv: Move)
    requires Inv(v, Some(a)) && Closes(a, mv) && (mv.Decide? || mv.Conclude?)
    ensures var e := AttemptEffect(a, mv); Inv(Then(v, e.batch), e.live)
  {
    match mv
    case Decide(results) => DecideKeeps(v, a, results);
    case Conclude => ConcludeKeeps(v, a, a.phase.decision);
  }

  /** The moves that change the attempt's counters, keys or phase while the harness runs. */
  predicate Works(a: Attempt, mv: Move) {
    || (mv.Emit? && a.phase == Executing) || (mv.PublishHints? && a.phase.Reviewed?)
    || (mv.RequestAction? && a.phase.Hinted?) || (mv.PublishRefused? && a.phase.Reviewed?)
  }

  lemma RefusedKeeps(v: View, a: Attempt, d: Directive)
    requires Inv(v, Some(a)) && a.phase == Reviewed(d)
    ensures var e := RefusedEffect(a, d); Inv(Then(v, e.batch), e.live)
  {
    ThenShort(v, []);
  }

  lemma WorkKeeps(v: View, a: Attempt, mv: Move)
    requires Inv(v, Some(a)) && Works(a, mv)
    ensures var e := AttemptEffect(a, mv); Inv(Then(v, e.batch), e.live)
  {
    match mv
    case Emit(kind, review) => EmitKeeps(v, a, kind, review);
    case PublishHints => PublishKeeps(v, a, a.phase.directive);
    case PublishRefused => RefusedKeeps(v, a, a.phase.directive);
    case RequestAction(handled) => ActionKeeps(v, a, a.phase.directive, handled);
  }

  lemma OtherIsQuiet(a: Attempt, mv: Move)
    requires !Closes(a, mv) && !Works(a, mv)
    ensures var e := AttemptEffect(a, mv);
      && |e.batch| <= 1
      && (e.batch != [] ==>
            e.batch[0].SupervisorReviewed? || e.batch[0].ActionCompleted? || e.batch[0].ActionFailed?
            || e.batch[0].GraderFailed?)
      && (e.live.Some? ==>
            var phase := e.live.value.phase;
            e.live.value == a.(phase := phase) && (phase == a.phase || (InHarness(a.phase) && InHarness(phase))))
  {
  }

  lemma AttemptKeeps(v: View, a: Attempt, mv: Move)
    requires Inv(v, Some(a))
    ensures var e := AttemptEffect(a, mv); Inv(Then(v, e.batch), e.live)
  {
    if Closes(a, mv) {
      ClosingKeeps(v, a, mv);
    } else if Works(a, mv) {
      WorkKeeps(v, a, mv);
    } else {
      var e := AttemptEffect(a, mv);
      OtherIsQuiet(a, mv);
      QuietKeeps(v, a, e.batch, if e.live.Some? then e.live.value.phase else a.phase);
    }
  }

  predicate IsResolution(batch: seq<Event>) {
    && |batch| == 2 && batch[0].HitlResolved?
    && match batch[0].verdict
       case Approve => batch[1] == RunSucceeded(true)
       case Reject => batch[1].RunFailed?
       case Retry => batch[1].RunRetryScheduled?
  }

  lemma ResolutionKeeps(v: View, live: Option<Attempt>, batch: seq<Event>)
    requires Inv(v, live) && v.run.status == WaitingHuman && IsResolution(batch)
    ensures Inv(Then(v, batch), live)
  {
    ThenShort(v, batch);
    match batch[0].verdict
    case Approve =>
    case Reject =>
    case Retry =>
  }

  lemma ResolveKeeps(v: View, live: Option<Attempt>, decision: HumanDecision, reason: string)
    requires Inv(v, live) && v.run.status == WaitingHuman
    ensures Inv(Then(v, ResolveBatch(v.run, decision, reason)), live)
  {
    ResolutionKeeps(v, live, ResolveBatch(v.run, decision, reason));
  }

  lemma RecoverKeeps(v: View)
    requires Inv(v, None) && (v.run.status == Running || v.run.status == Evaluating)
    ensures Inv(Then(v, RecoverBatch(v.run)), None)
  {
    ThenShort(v, RecoverBatch(v.run));
  }

  lemma PauseKeeps(v: View, live: Option<Attempt>)
    requires Inv(v, live) && Startable(v.run.status)
    ensures Inv(Then(v, [RunPauseRequested(v.run.status), RunPaused]), live)
  {
    ThenShort(v, [RunPauseRequested(v.run.status), RunPaused]);
  }

  lemma FailureKeeps(v: View)
    requires Inv(v, None) && !Terminal(v.run.status)
    ensures Inv(Then(v, InternalFailureBatch()), None)
  {
    ThenShort(v, InternalFailureBatch());
  }

  lemma ResumeKeeps(v: View, live: Option<Attempt>)
    requires Inv(v, live) && v.run.status == Paused
    ensures Inv(Then(v, [RunResumed(v.run.attempt + 1)]), live)
  {
    ThenShort(v, [RunResumed(v.run.attempt + 1)]);
  }

  lemma ControlKeeps(v: View, live: Option<Attempt>, e: Event)
    requires Inv(v, live) && IsControl(e)
    ensures Inv(Then(v, [e]), live)
  {
    ThenShort(v, [e]);
    assert See(v, e) == View(v.run.(version := v.run.version + 1), v.tally);
  }

  lemma CommandKeeps(v: View, live: Option<Attempt>, mv: Move)
    requires Inv(v, live)
    ensures Inv(Then(v, CommandBatch(v.run, live.None?, mv)), live)
  {
    if CommandBatch(v.run, live.None?, mv) == [] {
      ThenShort(v, []);
    } else {
      match mv
      case ResolveHuman(decision, reason) => ResolveKeeps(v, live, decision, reason);
      case PauseRun => PauseKeeps(v, live);
      case ResumeRun => ResumeKeeps(v, live);
      case RecoverIncomplete => RecoverKeeps(v);
      case RecordInternalFailure => FailureKeeps(v);
      case AppendControl(e) => ControlKeeps(v, live, e);
    }
  }

  /** The failure of a straggling grader changes nothing that replay or the tally shows. */
  lemma LateKeeps(v: View, live: Option<Attempt>, batch: seq<Event>)
    requires Inv(v, live) && |batch| <= 1 && forall e | e in batch :: e.GraderFailed?
    ensures Inv(Then(v, batch), live)
  {
    ThenShort(v, batch);
    if batch != [] {
      assert batch[0] in batch;
      assert See(v, batch[0]) == View(v.run.(version := v.run.version + 1), v.tally);
    }
  }

  lemma OutsideKeeps(m: Machine, mv: Move)
    requires Started(m.log) && Inv(ViewOf(m.log), m.live) && Outside(mv)
    ensures var e := EffectOf(m, mv); Inv(Then(ViewOf(m.log), e.batch), e.live)
  {
    if mv.GraderFailsLate? {
      LateKeeps(ViewOf(m.log), m.live, LateBatch(m.log, mv.graderId));
    } else if mv.Begin? {
      StartKeeps(m, mv);
    } else {
      OrderKeeps(m, mv);
    }
  }

  lemma OrderKeeps(m: Machine, mv: Move)
    requires Started(m.log) && Inv(ViewOf(m.log), m.live) && IsCommand(mv)
    ensures var e := EffectOf(m, mv); Inv(Then(ViewOf(m.log), e.batch), e.live)
  {
    ThenShort(ViewOf(m.log), []);
    CommandKeeps(ViewOf(m.log), m.live, mv);
  }

  lemma StartKeeps(m: Machine, mv: Move)
    requires Started(m.log) && Inv(ViewOf(m.log), m.live) && mv.Begin?
    ensures var e := EffectOf(m, mv); Inv(Then(ViewOf(m.log), e.batch), e.live)
  {
    var v := ViewOf(m.log);
    ThenShort(v, []);
    if m.live.None? && Startable(v.run.status) { BeginKeeps(v, mv.inlineDelivery); }
  }

  lemma EffectKeeps(m: Machine, mv: Move)
    requires Started(m.log) && Inv(ViewOf(m.log), m.live)
    ensures var e := EffectOf(m, mv); Inv(Then(ViewOf(m.log), e.batch), e.live)
  {
    if Outside(mv) {
      OutsideKeeps(m, mv);
    } else if m.live.Some? {
      AttemptKeeps(ViewOf(m.log), m.live.value, mv);
    } else {
      ThenShort(ViewOf(m.log), []);
    }
  }

  lemma StepKeeps(m: Machine, mv: Move)
    requires Started(m.log) && Inv(ViewOf(m.log), m.live)
    ensures Started(Step(m, mv).log) && Inv(ViewOf(Step(m, mv).log), Step(m, mv).live)
  {
    ViewAppend(m.log, EffectOf(m, mv).batch);
    EffectKeeps(m, mv);
  }

  lemma {:induction false} ReachableInv(definition: RunDefinition, moves: seq<Move>)
    ensures var m := Execute(definition, moves);
      && Started(m.log) && m.log[0] == RunCreated(definition, true)
      && Inv(ViewOf(m.log), m.live)
  {
    if moves != [] {
      var before := moves[..|moves| - 1];
      ReachableInv(definition, before);
      StepKeeps(Execute(definition, before), moves[|moves| - 1]);
    }
  }
}
