/**
 The supervisor engine as a state machine (application/engine.py).

 A run is its event log together with the attempt that is executing, if any. Every move appends one
 batch, as one call of `_append` does; between two moves a crash may drop the executing attempt.
 The harness, the advisor and the graders are the arguments of the moves and may be anything.
 The guard of a command and its append are one move. Event kinds and the keys and targets of
 hints, the strings that decide anything after replay, are stored through `RedactText`; the definition is
 the stored one.
 */
module Engine {
  import opened Json
  import opened Models
  import opened Grading
  import opened Runs
  import opened Redaction

  datatype Cause =
    | MustPause | NeedsHuman(wait: WaitReason) | MustAbort(rationale: string) | OverBudget(resource: Resource) | Raised

  datatype Phase =
    | Executing
    | Observed
    | Reviewed(directive: Directive)
    | Hinted(directive: Directive)
    | Acting(directive: Directive)
    | Interrupted(cause: Cause)
    | Completed(tokens: int, cost: real)
    | GradingOutput
    | Decided(decision: GradingDecision)

  /** The locals of `_execute_attempt`: `base` is the snapshot it was called with and `hints` go into
      the request that the harness receives. */
  datatype Attempt = Attempt(
    number: nat,
    base: Snapshot,
    hints: seq<Hint>,
    inlineDelivery: bool,
    steps: nat,
    publishedKeys: set<string>,
    phase: Phase)

  datatype Machine = Machine(log: seq<Event>, live: Option<Attempt>)

  datatype Move =
    // the loop of run_until_blocked and one attempt
    | Begin(inlineDelivery: bool)
    | Emit(kind: string, review: bool)
    | Review(directive: Directive)
    | PublishHints
    | PublishRefused
    | RequestAction(handled: bool)
    | ActionSucceeds
    | ActionFails
    | HarnessRaises
    | HarnessSwallows
    | HandleInterrupt
    | HarnessReturns(output: Value, tokens: int, cost: real)
    | CheckBudget
    | GraderFails(graderId: string)
    | Decide(results: seq<EvaluationResult>)
    | Conclude
    | Crash
    // commands
    | ResolveHuman(decision: HumanDecision, reason: string)
    | PauseRun
    | ResumeRun
    | RecoverIncomplete
    | RecordInternalFailure
    | AppendControl(event: Event)
    // a grader that was still running when an exception ended the grading
    | GraderFailsLate(graderId: string)

  /** What a move appends and which attempt goes on afterwards. */
  datatype Effect = Effect(batch: seq<Event>, live: Option<Attempt>)

  predicate Startable(status: Status) { status == Created || status == RetryScheduled }

  predicate Terminal(status: Status) { status == Succeeded || status == Failed || status == Cancelled }

  predicate IsControl(e: Event) {
    e.TeamCreated? || e.MemberSpawnRequested? || e.MemberSpawnFailed? || e.MemberSpawned? ||
    e.MemberCompleted? || e.MemberFailed?
  }

  // ----- Hints -----

  function Keys(hints: seq<Hint>): set<string> { set h | h in hints :: h.deduplicationKey }

  function ActiveHints(hints: seq<Hint>, attempt: nat): (active: seq<Hint>)
    ensures forall h :: h in active <==> h in hints && h.IsActive(attempt)
  {
    if hints == [] then []
    else (if hints[0].IsActive(attempt) then [hints[0]] else []) + ActiveHints(hints[1..], attempt)
  }

  function StoredHint(target: string, instruction: seq<string>, createdAt: nat, expiresAfter: nat, key: string): Hint {
    Hint(RedactText(target), instruction, createdAt, expiresAfter, RedactText(key))
  }

  /** The drafts whose key has not been published yet. */
  function NewDrafts(drafts: seq<HintDraft>, published: set<string>): seq<HintDraft> {
    if drafts == [] then []
    else (if drafts[0].deduplicationKey in published then [] else [drafts[0]]) + NewDrafts(drafts[1..], published)
  }

  function DraftKeys(drafts: seq<HintDraft>): set<string> { set d | d in drafts :: d.deduplicationKey }

  function HintEvents(drafts: seq<HintDraft>, a: Attempt): seq<Event> {
    if drafts == [] then []
    else
      var createdAt := if a.inlineDelivery then a.number else a.number + 1;
      var hint := StoredHint(drafts[0].target, drafts[0].instruction, createdAt, drafts[0].expiresAfterSteps,
                             drafts[0].deduplicationKey);
      [HintPublished(hint, Some(a.inlineDelivery))] + HintEvents(drafts[1..], a)
  }

  function Digits(n: nat): string {
    (if n < 10 then "" else Digits(n / 10)) + [('0' as int + n % 10) as char]
  }

  function EvaluationKey(attempt: nat): string { "evaluation-attempt-" + Digits(attempt) }

  function AllFeedback(results: seq<EvaluationResult>): seq<string> {
    if results == [] then [] else results[0].feedback + AllFeedback(results[1..])
  }

  /** Redaction leaves the target alone (`HintKeys.FeedbackTargetStable`). */
  const FEEDBACK_TARGET := "executor"

  const DEFAULT_INSTRUCTION := "Review the failed evaluation and use a new approach."

  /** The messages, unless they join to the empty text. */
  function Instruction(feedback: seq<string>): seq<string> {
    if feedback == [] || feedback == [""] then [DEFAULT_INSTRUCTION] else feedback
  }

  function FeedbackHint(attempt: nat, results: seq<EvaluationResult>): Hint {
    Hint(FEEDBACK_TARGET, Instruction(AllFeedback(results)), attempt + 1, 1, RedactText(EvaluationKey(attempt)))
  }

  // ----- One attempt -----

  function BeginEffect(s: Snapshot, inlineDelivery: bool): Effect {
    Effect([RunStarted(s.attempt + 1)],
           Some(Attempt(s.attempt + 1, s, ActiveHints(s.hints, s.attempt + 1), inlineDelivery, 0, Keys(s.hints),
                        Executing)))
  }

  function Stay(a: Attempt): Effect { Effect([], Some(a)) }

  function Continuing(a: Attempt, batch: seq<Event>, phase: Phase): Effect { Effect(batch, Some(a.(phase := phase))) }

  function EmitEffect(a: Attempt, kind: string, review: bool): Effect {
    var steps := if IsStep(kind) then a.steps + 1 else a.steps;
    var phase :=
      if IsStep(kind) && steps > a.base.definition.supervisorPolicy.maxStepsPerAttempt
      then Interrupted(OverBudget(Steps))
      else if review then Observed else Executing;
    Effect([AgentEvent(RedactText(kind))], Some(a.(steps := steps, phase := phase)))
  }

  function PublishEffect(a: Attempt, d: Directive): Effect {
    var drafts := NewDrafts(d.hints, a.publishedKeys);
    Effect(HintEvents(drafts, a),
           Some(a.(publishedKeys := a.publishedKeys + DraftKeys(drafts), phase := Hinted(d))))
  }

  /** The store refuses the append: the keys were already noted, so the attempt never publishes these
      hints again even if the harness goes on. */
  function RefusedEffect(a: Attempt, d: Directive): Effect {
    var drafts := NewDrafts(d.hints, a.publishedKeys);
    if drafts == [] then Stay(a)
    else Effect([], Some(a.(publishedKeys := a.publishedKeys + DraftKeys(drafts), phase := Interrupted(Raised))))
  }

  function ActionEffect(a: Attempt, d: Directive, handled: bool): Effect {
    match d.action
    case Continue => Continuing(a, [], Executing)
    case InjectHint => Continuing(a, [], Executing)
    case SpawnSubagent => Continuing(a, [ActionRequested(d)], if handled then Acting(d) else Executing)
    case ProposeMutation => Continuing(a, [ActionRequested(d)], if handled then Acting(d) else Executing)
    case Pause => Continuing(a, [ActionRequested(d)], Interrupted(MustPause))
    case RequestHuman => Continuing(a, [ActionRequested(d)], Interrupted(NeedsHuman(Advised(d.rationale))))
    case Abort => Continuing(a, [ActionRequested(d)], Interrupted(MustAbort(d.rationale)))
  }

  function InterruptBatch(a: Attempt, cause: Cause): seq<Event> {
    match cause
    case MustPause => [RunPaused]
    case NeedsHuman(wait) => [RunWaitingHuman(wait)]
    case MustAbort(rationale) => [RunFailed(Aborted(rationale))]
    case OverBudget(resource) => [BudgetExhausted(a.number, resource), RunWaitingHuman(BudgetReason)]
    case Raised => [ExecutionFailed(a.number), RunWaitingHuman(ExecutionReason)]
  }

  predicate Exceeds(policy: SupervisorPolicy, tokens: int, cost: real) {
    (policy.maxTokens.Some? && tokens > policy.maxTokens.value) || (policy.maxCost.Some? && cost > policy.maxCost.value)
  }

  function BudgetEffect(a: Attempt, tokens: int, cost: real): Effect {
    var policy := a.base.definition.supervisorPolicy;
    var tokenTotal, costTotal := a.base.totalTokens + tokens, a.base.totalCost + cost;
    if Exceeds(policy, tokenTotal, costTotal) then
      var resource := if policy.maxTokens.Some? && tokenTotal > policy.maxTokens.value then Tokens else Cost;
      Effect(InterruptBatch(a, OverBudget(resource)), None)
    else Continuing(a, [EvaluationStarted(a.number)], GradingOutput)
  }

  function DecideEffect(a: Attempt, results: seq<EvaluationResult>): Effect {
    match Aggregate(a.base.definition.gradingPolicy, results)
    case Ok(decision) => Continuing(a, [EvaluationCompleted(decision)], Decided(decision))
    case Err(_) => Effect([], None)
  }

  function RetryBatch(attempt: nat, feedback: Hint): seq<Event> {
    [HintPublished(feedback, None), RunRetryScheduled(attempt + 1, false)]
  }

  function ConclusionBatch(a: Attempt, decision: GradingDecision): seq<Event> {
    var policy := a.base.definition.supervisorPolicy;
    if decision.passed then [RunSucceeded(false)]
    else if (exists r | r in decision.results :: r.retryable) && a.number <= policy.maxRetries then
      RetryBatch(a.number, FeedbackHint(a.number, decision.results))
    else if policy.requireHumanOnExhaustion then [RunWaitingHuman(EvaluationReason)]
    else [RunFailed(EvaluationFailed)]
  }

  /** The phases inside `harness.execute`, the emitter included. */
  predicate InHarness(p: Phase) { !p.Completed? && !p.GradingOutput? && !p.Decided? }

  function ReturnEffect(a: Attempt, output: Value, tokens: int, cost: real): Effect {
    Continuing(a, [ExecutionCompleted(a.number, output, tokens, cost)], Completed(tokens, cost))
  }

  /** The moves of an executing attempt; a move that does not fit the phase does nothing. */
  function AttemptEffect(a: Attempt, mv: Move): Effect {
    match mv
    case Emit(kind, review) => if a.phase == Executing then EmitEffect(a, kind, review) else Stay(a)
    case Review(d) => if a.phase == Observed then Continuing(a, [SupervisorReviewed(d)], Reviewed(d)) else Stay(a)
    case PublishHints => if a.phase.Reviewed? then PublishEffect(a, a.phase.directive) else Stay(a)
    case PublishRefused => if a.phase.Reviewed? then RefusedEffect(a, a.phase.directive) else Stay(a)
    case RequestAction(handled) => if a.phase.Hinted? then ActionEffect(a, a.phase.directive, handled) else Stay(a)
    case ActionSucceeds =>
      if a.phase.Acting? then Continuing(a, [ActionCompleted(a.phase.directive.action)], Executing) else Stay(a)
    case ActionFails =>
      if a.phase.Acting? then
        Continuing(a, [ActionFailed(a.phase.directive.action)], Interrupted(NeedsHuman(ActionReason)))
      else Stay(a)
    case HarnessRaises => if InHarness(a.phase) then Continuing(a, [], Interrupted(Raised)) else Stay(a)
    case HarnessSwallows => if a.phase.Interrupted? then Continuing(a, [], Executing) else Stay(a)
    case HandleInterrupt => if a.phase.Interrupted? then Effect(InterruptBatch(a, a.phase.cause), None) else Stay(a)
    case HarnessReturns(output, tokens, cost) =>
      if a.phase == Executing then ReturnEffect(a, output, tokens, cost) else Stay(a)
    case CheckBudget => if a.phase.Completed? then BudgetEffect(a, a.phase.tokens, a.phase.cost) else Stay(a)
    case GraderFails(id) =>
      if a.phase == GradingOutput then Continuing(a, [GraderFailed(id)], GradingOutput) else Stay(a)
    case Decide(results) => if a.phase == GradingOutput then DecideEffect(a, results) else Stay(a)
    case Conclude => if a.phase.Decided? then Effect(ConclusionBatch(a, a.phase.decision), None) else Stay(a)
    case Crash => Effect([], None)
    case _ => Stay(a)
  }

  // ----- Commands -----

  function ResolveBatch(s: Snapshot, decision: HumanDecision, reason: string): seq<Event> {
    match decision
    case Approve => [HitlResolved(Approve), RunSucceeded(true)]
    case Reject => [HitlResolved(Reject), RunFailed(Rejected(reason))]
    case Retry => [HitlResolved(Retry), RunRetryScheduled(s.attempt + 1, false)]
  }

  function RecoverBatch(s: Snapshot): seq<Event> {
    [RunRecovered(s.status, s.attempt), RunRetryScheduled(s.attempt + 1, true)]
  }

  function InternalFailureBatch(): seq<Event> { [RunInternalFailed, RunWaitingHuman(InternalReason)] }

  /** What a command appends to a run with snapshot `s`; `idle` says that no attempt is executing. */
  function CommandBatch(s: Snapshot, idle: bool, mv: Move): seq<Event> {
    match mv
    case ResolveHuman(decision, reason) => if s.status == WaitingHuman then ResolveBatch(s, decision, reason) else []
    case PauseRun => if Startable(s.status) then [RunPauseRequested(s.status), RunPaused] else []
    case ResumeRun => if s.status == Paused then [RunResumed(s.attempt + 1)] else []
    case RecoverIncomplete =>
      if idle && (s.status == Running || s.status == Evaluating) then RecoverBatch(s) else []
    case RecordInternalFailure =>
      if idle && !Terminal(s.status) then InternalFailureBatch() else []
    case AppendControl(e) => if IsControl(e) then [e] else []
    case _ => []
  }

  // ----- The machine -----

  predicate Graded(log: seq<Event>) { exists e | e in log :: e.EvaluationStarted? }

  /** Nothing guards the failure of a straggling grader: it may come at any time once grading has begun. */
  function LateBatch(log: seq<Event>, graderId: string): seq<Event> {
    if Graded(log) then [GraderFailed(graderId)] else []
  }

  function EffectOf(m: Machine, mv: Move): Effect {
    var run := GetRun(m.log);
    if mv.GraderFailsLate? then Effect(LateBatch(m.log, mv.graderId), m.live)
    else if mv.Begin? then
      if m.live.None? && run.Ok? && Startable(run.value.status) then BeginEffect(run.value, mv.inlineDelivery)
      else Effect([], m.live)
    else if IsCommand(mv) then
      if run.Ok? then Effect(CommandBatch(run.value, m.live.None?, mv), m.live) else Effect([], m.live)
    else if m.live.Some? then AttemptEffect(m.live.value, mv)
    else Effect([], None)
  }

  predicate IsCommand(mv: Move) {
    mv.ResolveHuman? || mv.PauseRun? || mv.ResumeRun? || mv.RecoverIncomplete? || mv.RecordInternalFailure? ||
    mv.AppendControl?
  }

  /** The moves that are not an executing attempt's own. */
  predicate Outside(mv: Move) { mv.Begin? || IsCommand(mv) || mv.GraderFailsLate? }

  function Step(m: Machine, mv: Move): Machine {
    var e := EffectOf(m, mv);
    Machine(m.log + e.batch, e.live)
  }

  /** A run keeps everything it has appended. */
  function Run(m: Machine, moves: seq<Move>): (r: Machine)
    ensures m.log <= r.log
  {
    if moves == [] then m else Step(Run(m, moves[..|moves| - 1]), moves[|moves| - 1])
  }

  function Initial(definition: RunDefinition): Machine { Machine([RunCreated(definition, true)], None) }

  function Execute(definition: RunDefinition, moves: seq<Move>): (m: Machine)
    ensures Started(m.log) && m.log[0] == RunCreated(definition, true)
  {
    Run(Initial(definition), moves)
  }
}
