/** Run events and the snapshot that replay folds them into (domain/runs.py, domain/events.py). */
module Runs {
  import opened Json
  import opened Models
  import opened Grading

  datatype Status =
    | Created | Running | Evaluating | RetryScheduled | WaitingHuman | Paused | Succeeded | Failed | Cancelled

  type Retries = n: nat | n <= 100

  datatype SupervisorPolicy = SupervisorPolicy(
    maxRetries: Retries,
    requireHumanOnExhaustion: bool,
    maxStepsPerAttempt: nat,
    maxTokens: Option<nat>,
    maxCost: Option<real>,
    maxSubagents: nat,
    maxSubagentDepth: nat)

  datatype RunDefinition = RunDefinition(
    goal: string,
    harnessId: string,
    agentBundle: AgentBundle,
    agentVersionId: Option<Id>,
    graderIds: seq<string>,
    gradingPolicy: GradingPolicy,
    supervisorPolicy: SupervisorPolicy,
    parentRunId: Option<Id>,
    teamId: Option<Id>,
    role: string,
    depth: nat,
    metadata: Object)

  datatype DirectiveAction = Continue | InjectHint | Pause | RequestHuman | SpawnSubagent | ProposeMutation | Abort

  /** The bounds of a draft's key and lifetime, and of the target that a hint accepts. */
  type DraftKey = s: string | 1 <= |s| <= 256 witness "k"

  type Target = s: string | 1 <= |s| <= 128 witness "executor"

  type Lifetime = n: nat | 1 <= n <= 100 witness 1

  datatype HintDraft = HintDraft(
    target: Target,
    instruction: seq<string>,
    expiresAfterSteps: Lifetime,
    deduplicationKey: DraftKey)

  datatype Directive = Directive(action: DirectiveAction, rationale: string, hints: seq<HintDraft>)

  datatype HumanDecision = Approve | Reject | Retry

  datatype Resource = Steps | Tokens | Cost

  datatype WaitReason =
    | BudgetReason | ExecutionReason | EvaluationReason | InternalReason | ActionReason | Advised(rationale: string)

  datatype FailReason = EvaluationFailed | Aborted(rationale: string) | Rejected(reason: string)

  datatype TeamMember = TeamMember(runId: Id, role: string, goal: string)

  /** One constructor per event type. `delivery` is the "inline" flag that only hints of the advisor carry.
      A creation is `intact` if the stored definition validates, and then `definition` is the stored one. */
  datatype Event =
    | RunCreated(definition: RunDefinition, intact: bool)
    | RunStarted(attempt: nat)
    | AgentEvent(kind: string)
    | SupervisorReviewed(directive: Directive)
    | HintPublished(hint: Hint, delivery: Option<bool>)
    | ActionRequested(directive: Directive)
    | ActionCompleted(action: DirectiveAction)
    | ActionFailed(action: DirectiveAction)
    | ExecutionCompleted(attempt: nat, output: Value, tokens: int, cost: real)
    | ExecutionFailed(attempt: nat)
    | BudgetExhausted(attempt: nat, resource: Resource)
    | EvaluationStarted(attempt: nat)
    | GraderFailed(graderId: string)
    | EvaluationCompleted(decision: GradingDecision)
    | RunRetryScheduled(nextAttempt: nat, recovered: bool)
    | RunWaitingHuman(wait: WaitReason)
    | RunPauseRequested(fromStatus: Status)
    | RunPaused
    | RunResumed(nextAttempt: nat)
    | RunRecovered(fromStatus: Status, priorAttempt: nat)
    | RunSucceeded(humanOverride: bool)
    | RunFailed(reason: FailReason)
    | RunCancelled
    | HitlResolved(verdict: HumanDecision)
    | RunInternalFailed
    | TeamCreated(teamId: Id)
    | MemberSpawnRequested(childRunId: Id)
    | MemberSpawnFailed(childRunId: Id)
    | MemberSpawned(member: TeamMember)
    | MemberCompleted(runId: Id)
    | MemberFailed(runId: Id)

  datatype Snapshot = Snapshot(
    definition: RunDefinition,
    status: Status,
    version: nat,
    attempt: nat,
    lastOutput: Option<Value>,
    lastScore: Option<Score>,
    hints: seq<Hint>,
    humanOverride: bool,
    error: Option<FailReason>,
    totalSteps: nat,
    totalTokens: int,
    totalCost: real)

  predicate IsStep(kind: string) { kind == "agent.step" || kind == "step/start" || kind == "dsh.step/start" }

  // ----- Replay -----

  /** The stream begins with a creation whose definition replay accepts. */
  predicate Started(log: seq<Event>) { log != [] && log[0].RunCreated? && log[0].intact }

  function Fresh(definition: RunDefinition): Snapshot {
    Snapshot(definition, Created, 1, 0, None, None, [], false, None, 0, 0, 0.0)
  }

  function Transition(s: Snapshot, e: Event): Snapshot {
    match e
    case RunStarted(attempt) => s.(status := Running, attempt := attempt)
    case ExecutionCompleted(_, output, tokens, cost) =>
      s.(lastOutput := Some(output), totalTokens := s.totalTokens + tokens, totalCost := s.totalCost + cost)
    case AgentEvent(kind) => if IsStep(kind) then s.(totalSteps := s.totalSteps + 1) else s
    case EvaluationStarted(_) => s.(status := Evaluating)
    case EvaluationCompleted(decision) => s.(status := Evaluating, lastScore := Some(decision.score))
    case HintPublished(hint, _) => s.(hints := s.hints + [hint])
    case RunRetryScheduled(_, _) => s.(status := RetryScheduled)
    case RunWaitingHuman(_) => s.(status := WaitingHuman)
    case RunPaused => s.(status := Paused)
    case RunResumed(_) => s.(status := RetryScheduled)
    case RunRecovered(_, _) => s.(status := RetryScheduled)
    case RunSucceeded(humanOverride) => s.(status := Succeeded, humanOverride := humanOverride)
    case RunFailed(reason) => s.(status := Failed, error := Some(reason))
    case RunCancelled => s.(status := Cancelled)
    case _ => s
  }

  function Apply(s: Snapshot, e: Event): Snapshot {
    Transition(s, e).(version := s.version + 1)
  }

  function Replay(log: seq<Event>): Snapshot
    requires Started(log)
  {
    if |log| == 1 then Fresh(log[0].definition) else Apply(Replay(log[..|log| - 1]), log[|log| - 1])
  }

  datatype ReplayError = NoSuchRun | NotARun | MalformedDefinition | MalformedHint | NegativeTotals

  predicate HintsValid(s: Snapshot) { forall h | h in s.hints :: h.WithinBounds() }

  /** The validators of the snapshot refuse negative totals. */
  predicate TotalsValid(s: Snapshot) { s.totalTokens >= 0 && s.totalCost >= 0.0 }

  predicate Valid(s: Snapshot) { HintsValid(s) && TotalsValid(s) }

  function GetRun(log: seq<Event>): Result<Snapshot, ReplayError> {
    if log == [] then Err(NoSuchRun)
    else if !log[0].RunCreated? then Err(NotARun)
    else if !log[0].intact then Err(MalformedDefinition)
    else if !HintsValid(Replay(log)) then Err(MalformedHint)
    else if !TotalsValid(Replay(log)) then Err(NegativeTotals)
    else Ok(Replay(log))
  }

  /** Every stored hint is validated as it is read, the totals at the end. */
  method LoadRun(events: seq<Event>) returns (r: Result<Snapshot, ReplayError>)
    ensures r == GetRun(events)
  {
    if events == [] { return Err(NoSuchRun); }
    if !events[0].RunCreated? { return Err(NotARun); }
    if !events[0].intact { return Err(MalformedDefinition); }
    var state := Fresh(events[0].definition);
    for i := 1 to |events|
      invariant state == Replay(events[..i]) && HintsValid(state)
    {
      assert events[..i + 1][..i] == events[..i];
      HintsKept(events, i + 1);
      if events[i].HintPublished? && !events[i].hint.WithinBounds() {
        assert events[i].hint in Replay(events[..i + 1]).hints;
        return Err(MalformedHint);
      }
      state := Apply(state, events[i]);
    }
    assert events[..|events|] == events;
    r := if TotalsValid(state) then Ok(state) else Err(NegativeTotals);
  }

  /** Replay never drops a hint. */
  lemma {:induction false} HintsKept(log: seq<Event>, n: nat)
    requires Started(log) && 1 <= n <= |log|
    ensures forall h | h in Replay(log[..n]).hints :: h in Replay(log).hints
  {
    if n == |log| {
      assert log[..n] == log;
    } else {
      assert log[..|log| - 1][..n] == log[..n];
      HintsKept(log[..|log| - 1], n);
    }
  }

  /** Replay starts from the first event alone and is determined one event at a time. */
  lemma ReplayNext(log: seq<Event>, e: Event)
    requires Started(log)
    ensures Started(log + [e]) && Replay(log + [e]) == Apply(Replay(log), e)
  {
    assert (log + [e])[..|log|] == log;
  }

  lemma {:induction false} ReplayVersion(log: seq<Event>)
    requires Started(log)
    ensures Replay(log).version == |log| && Replay(log).definition == log[0].definition
  {
    if |log| > 1 { ReplayVersion(log[..|log| - 1]); }
  }
}
