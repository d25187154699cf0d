/** Final states, waiting states, and how much a run can do. */
module EngineBounds {
  import opened Json
  import opened Models
  import opened Grading
  import opened Runs
  import opened Engine
  import opened Ledger
  import opened EngineInvariants
  import opened EngineTheorems

  // ----- Terminal states absorb -----

  /** A run that waits, pauses or has ended has no executing attempt. */
  lemma RestingIsIdle(m: Machine)
    requires Reachable(m) && StatusOf(m) != Running && StatusOf(m) != Evaluating
    ensures m.live.None?
  {
    ReachableKeeps(m);
  }

  /** The events that may be appended to a run that has ended. */
  predicate IsNoise(e: Event) { IsControl(e) || e.GraderFailed? }

  lemma NoiseChangesNothing(v: View, e: Event)
    requires IsNoise(e)
    ensures See(v, e) == View(v.run.(version := v.run.version + 1), v.tally)
  {
  }

  lemma TerminalEffect(m: Machine, mv: Move)
    requires Started(m.log) && Terminal(Replay(m.log).status) && m.live.None?
    ensures var e := EffectOf(m, mv);
      e.live.None? && (e.batch == [] || (|e.batch| == 1 && IsNoise(e.batch[0])))
  {
  }

  lemma {:induction false} TerminalAbsorbs(m: Machine, moves: seq<Move>)
    requires Reachable(m) && Terminal(StatusOf(m))
    ensures Replay(Run(m, moves).log) == Replay(m.log).(version := |Run(m, moves).log|)
    ensures forall i | |m.log| <= i < |Run(m, moves).log| :: IsNoise(Run(m, moves).log[i])
    ensures Run(m, moves).live.None?
  {
    ReplayVersion(m.log);
    if moves == [] {
      RestingIsIdle(m);
    } else {
      TerminalAbsorbs(m, moves[..|moves| - 1]);
      TerminalOneMore(m, Run(m, moves[..|moves| - 1]), moves[|moves| - 1]);
    }
  }

  lemma TerminalOneMore(m: Machine, n: Machine, mv: Move)
    requires Started(m.log) && m.log <= n.log && n.live.None? && Terminal(Replay(m.log).status)
    requires Replay(n.log) == Replay(m.log).(version := |n.log|)
    requires forall i | |m.log| <= i < |n.log| :: IsNoise(n.log[i])
    ensures Replay(Step(n, mv).log) == Replay(m.log).(version := |Step(n, mv).log|)
    ensures forall i | |m.log| <= i < |Step(n, mv).log| :: IsNoise(Step(n, mv).log[i])
    ensures Step(n, mv).live.None?
  {
    TerminalEffect(n, mv);
    var batch := EffectOf(n, mv).batch;
    ViewAppend(n.log, batch);
    ThenShort(ViewOf(n.log), batch);
    if batch != [] { NoiseChangesNothing(ViewOf(n.log), batch[0]); }
  }

  // ----- Waiting and paused runs -----

  /** The status after a command, for a run whose snapshot is valid and that is not executing. */
  function StatusAfter(s: Snapshot, mv: Move): Status {
    match mv
    case ResolveHuman(Approve, _) => if s.status == WaitingHuman then Succeeded else s.status
    case ResolveHuman(Reject, _) => if s.status == WaitingHuman then Failed else s.status
    case ResolveHuman(Retry, _) => if s.status == WaitingHuman then RetryScheduled else s.status
    case PauseRun => if Startable(s.status) then Paused else s.status
    case ResumeRun => if s.status == Paused then RetryScheduled else s.status
    case RecoverIncomplete => if s.status == Running || s.status == Evaluating then RetryScheduled else s.status
    case RecordInternalFailure => if Terminal(s.status) then s.status else WaitingHuman
    case _ => s.status
  }

  lemma CommandStatus(v: View, mv: Move)
    requires IsCommand(mv)
    ensures Then(v, CommandBatch(v.run, true, mv)).run.status == StatusAfter(v.run, mv)
  {
    var batch := CommandBatch(v.run, true, mv);
    ThenShort(v, batch);
    if mv.ResolveHuman? && batch != [] { ResolutionStatus(v, mv.decision, mv.reason); }
  }

  lemma ResolutionStatus(v: View, decision: HumanDecision, reason: string)
    requires v.run.status == WaitingHuman
    ensures Then(v, ResolveBatch(v.run, decision, reason)).run.status
         == StatusAfter(v.run, ResolveHuman(decision, reason))
    ensures Then(v, ResolveBatch(v.run, decision, reason)).run.humanOverride
         == if decision == Approve then true else v.run.humanOverride
  {
    ThenShort(v, ResolveBatch(v.run, decision, reason));
  }

  // ----- What a run appends when no attempt is executing -----

  /** An event of a team. */
  predicate OfATeam(e: Event) {
    match e
    case TeamCreated(_) => true
    case MemberSpawnRequested(_) => true
    case MemberSpawnFailed(_) => true
    case MemberSpawned(_) => true
    case MemberCompleted(_) => true
    case MemberFailed(_) => true
    case _ => false
  }

  /** The batch of a command, or of a start, on a readable run with this snapshot. */
  function IdleEvents(s: Snapshot, mv: Move): seq<Event> {
    match mv
    case Begin(_) => if s.status in {Created, RetryScheduled} then [RunStarted(s.attempt + 1)] else []
    case ResolveHuman(decision, reason) =>
      if s.status != WaitingHuman then []
      else [HitlResolved(decision), match decision
                                    case Approve => RunSucceeded(true)
                                    case Reject => RunFailed(Rejected(reason))
                                    case Retry => RunRetryScheduled(s.attempt + 1, false)]
    case PauseRun => if s.status in {Created, RetryScheduled} then [RunPauseRequested(s.status), RunPaused] else []
    case ResumeRun => if s.status == Paused then [RunResumed(s.attempt + 1)] else []
    case RecoverIncomplete =>
      if s.status in {Running, Evaluating} then
        [RunRecovered(s.status, s.attempt), RunRetryScheduled(s.attempt + 1, true)]
      else []
    case RecordInternalFailure =>
      if s.status in {Succeeded, Failed, Cancelled} then [] else [RunInternalFailed, RunWaitingHuman(InternalReason)]
    case AppendControl(e) => if OfATeam(e) then [e] else []
    case _ => []
  }

  /** Every move of an idle run: a straggling grader's failure is appended once grading has begun, nothing else to a
      run that cannot be read, and otherwise what the command says. */
  lemma IdleExactly(m: Machine, mv: Move)
    requires m.live.None?
    ensures EffectOf(m, mv).batch
         == if mv.GraderFailsLate? then
              if exists e | e in m.log :: e.EvaluationStarted? then [GraderFailed(mv.graderId)] else []
            else if GetRun(m.log).Err? then []
            else IdleEvents(GetRun(m.log).value, mv)
  {
    if IsCommand(mv) && GetRun(m.log).Ok? { IdleCommand(GetRun(m.log).value, mv); }
  }

  lemma IdleCommand(s: Snapshot, mv: Move)
    requires IsCommand(mv)
    ensures CommandBatch(s, true, mv) == IdleEvents(s, mv)
  {
    match mv
    case ResolveHuman(decision, reason) => match decision { case _ => }
    case _ =>
  }

  /** An idle run: what every move makes of its status. */
  lemma IdleStatus(m: Machine, mv: Move)
    requires Started(m.log) && m.live.None?
    ensures var s, s' := Replay(m.log), StatusOf(Step(m, mv));
      s' == if !Valid(s) then s.status
            else if mv.Begin? && Startable(s.status) then Running
            else if IsCommand(mv) then StatusAfter(s, mv) else s.status
  {
    ViewAppend(m.log, EffectOf(m, mv).batch);
    IdleEffectStatus(m, mv);
  }

  lemma IdleEffectStatus(m: Machine, mv: Move)
    requires Started(m.log) && m.live.None?
    ensures var s, w := Replay(m.log), Then(ViewOf(m.log), EffectOf(m, mv).batch).run;
      w.status == if !Valid(s) then s.status
                  else if mv.Begin? && Startable(s.status) then Running
                  else if IsCommand(mv) then StatusAfter(s, mv) else s.status
  {
    var v := ViewOf(m.log);
    if IsCommand(mv) && Valid(v.run) {
      CommandStatus(v, mv);
    } else if mv.GraderFailsLate? {
      ThenShort(v, EffectOf(m, mv).batch);
    } else {
      IdleOther(m, mv);
      ThenShort(v, EffectOf(m, mv).batch);
    }
  }

  lemma IdleOther(m: Machine, mv: Move)
    requires Started(m.log) && m.live.None? && !(IsCommand(mv) && Valid(Replay(m.log))) && !mv.GraderFailsLate?
    ensures var s, batch := Replay(m.log), EffectOf(m, mv).batch;
      batch == if mv.Begin? && Valid(s) && Startable(s.status) then [RunStarted(s.attempt + 1)] else []
  {
  }

  /** A run waiting for a human is left only through `resolve_human`, and a paused run only through
      `resume` or an internal failure. */
  lemma WaitingIsGuarded(m: Machine, mv: Move)
    requires Reachable(m)
    ensures StatusOf(m) == WaitingHuman && StatusOf(Step(m, mv)) != WaitingHuman ==> mv.ResolveHuman?
    ensures StatusOf(m) == Paused && StatusOf(Step(m, mv)) != Paused ==> mv.ResumeRun? || mv.RecordInternalFailure?
  {
    if StatusOf(m) == WaitingHuman || StatusOf(m) == Paused {
      RestingIsIdle(m);
      IdleStatus(m, mv);
    }
  }

  // ----- The number of attempts of one loop -----

  /** The moves that make a run startable again from outside the loop. */
  predicate Reschedules(mv: Move) { mv.ResolveHuman? || mv.ResumeRun? || mv.RecoverIncomplete? }

  predicate LoopBounded(s: Snapshot, start: nat) {
    var retries := s.definition.supervisorPolicy.maxRetries;
    && start <= s.attempt <= Max(start, retries) + 1
    && (Startable(s.status) ==> s.attempt == start || s.attempt <= retries)
  }

  function Max(a: nat, b: nat): nat { if a < b then b else a }

  predicate IsRetry(batch: seq<Event>) { |batch| == 2 && batch[0].HintPublished? && batch[1].RunRetryScheduled? }

  lemma VerdictStops(v: View, e: Event)
    requires e.RunSucceeded? || e.RunWaitingHuman? || e.RunFailed?
    ensures var w := Then(v, [e]).run;
      w.attempt == v.run.attempt && w.definition == v.run.definition && !Startable(w.status)
  {
    ThenShort(v, [e]);
  }

  lemma RetrySchedules(v: View, batch: seq<Event>)
    requires IsRetry(batch)
    ensures var w := Then(v, batch).run; w.attempt == v.run.attempt && w.definition == v.run.definition
  {
    ThenShort(v, batch);
  }

  /** A conclusion makes the run startable only within the retry budget. */
  lemma ConclusionStatus(v: View, a: Attempt, d: GradingDecision)
    requires a.base.definition == v.run.definition
    ensures var w := Then(v, ConclusionBatch(a, d)).run;
      && w.attempt == v.run.attempt && w.definition == v.run.definition
      && (Startable(w.status) ==> a.number <= v.run.definition.supervisorPolicy.maxRetries)
  {
    var batch := ConclusionBatch(a, d);
    if IsRetry(batch) {
      RetrySchedules(v, batch);
    } else {
      assert batch == [batch[0]];
      VerdictStops(v, batch[0]);
    }
  }

  /** No other move of an executing attempt makes the run startable. */
  lemma AttemptStatus(v: View, a: Attempt, mv: Move)
    requires Inv(v, Some(a))
    ensures var w := Then(v, AttemptEffect(a, mv).batch).run;
      && w.attempt == v.run.attempt && w.definition == v.run.definition
      && (Startable(w.status) ==> v.run.attempt <= v.run.definition.supervisorPolicy.maxRetries)
  {
    var batch := AttemptEffect(a, mv).batch;
    LiveAttempt(v, a);
    if mv.Conclude? && a.phase.Decided? {
      assert batch == ConclusionBatch(a, a.phase.decision);
      ConclusionStatus(v, a, a.phase.decision);
    } else if mv.PublishHints? && a.phase.Reviewed? {
      PublishStatus(v, a, a.phase.directive);
    } else {
      OtherBatch(a, mv);
      NeverStartable(v, batch);
    }
  }

  lemma LiveAttempt(v: View, a: Attempt)
    requires Inv(v, Some(a))
    ensures a.number == v.run.attempt && a.base.definition == v.run.definition && !Startable(v.run.status)
  {
  }

  lemma PublishStatus(v: View, a: Attempt, d: Directive)
    ensures var w := Then(v, PublishEffect(a, d).batch).run;
      w.attempt == v.run.attempt && w.definition == v.run.definition && w.status == v.run.status
  {
    ThenHints(v, NewDrafts(d.hints, a.publishedKeys), a);
  }

  /** Events that leave the attempt number alone and schedule nothing. */
  predicate Schedules(e: Event) {
    e.RunStarted? || e.RunRetryScheduled? || e.RunResumed? || e.RunRecovered?
  }

  lemma OtherBatch(a: Attempt, mv: Move)
    requires !(mv.Conclude? && a.phase.Decided?) && !(mv.PublishHints? && a.phase.Reviewed?)
    ensures var batch := AttemptEffect(a, mv).batch; |batch| <= 2 && forall e | e in batch :: !Schedules(e)
  {
  }

  lemma NeverStartable(v: View, batch: seq<Event>)
    requires |batch| <= 2 && !Startable(v.run.status) && forall e | e in batch :: !Schedules(e)
    ensures var w := Then(v, batch).run;
      w.attempt == v.run.attempt && w.definition == v.run.definition && !Startable(w.status)
  {
    ThenShort(v, batch);
    if |batch| > 0 { OneNeverStartable(v, batch[0]); }
    if |batch| > 1 { OneNeverStartable(See(v, batch[0]), batch[1]); }
  }

  lemma OneNeverStartable(v: View, e: Event)
    requires !Startable(v.run.status) && !Schedules(e)
    ensures var w := See(v, e).run;
      w.attempt == v.run.attempt && w.definition == v.run.definition && !Startable(w.status)
  {
  }

  /** An idle run's attempt number grows by one when a start is appended, and nothing else counts. */
  lemma IdleBatchMeans(v: View, batch: seq<Event>)
    requires |batch| <= 2 && forall e | e in batch :: !e.AgentEvent?
    requires batch == [RunStarted(v.run.attempt + 1)] || forall e | e in batch :: !e.RunStarted?
    ensures var s, s' := v.run, Then(v, batch).run;
      && s'.definition == s.definition && s'.totalSteps == s.totalSteps
      && s'.attempt == s.attempt + One(batch == [RunStarted(s.attempt + 1)])
  {
    ThenShort(v, batch);
    if |batch| >= 1 { IdleEvent(v, batch[0]); }
    if |batch| == 2 { IdleEvent(See(v, batch[0]), batch[1]); }
  }

  lemma IdleAttempt(m: Machine, mv: Move)
    requires Started(m.log) && m.live.None?
    ensures var s, s' := Replay(m.log), Replay(Step(m, mv).log);
      && s'.definition == s.definition
      && s'.attempt == s.attempt + One(mv.Begin? && Valid(s) && Startable(s.status))
      && s'.totalSteps == s.totalSteps
  {
    var batch := EffectOf(m, mv).batch;
    IdleBatch(m, mv);
    ViewAppend(m.log, batch);
    assert batch == [RunStarted(Replay(m.log).attempt + 1)] ==> batch[0] in batch;
    IdleBatchMeans(ViewOf(m.log), batch);
  }

  lemma IdleEvent(v: View, e: Event)
    requires !e.AgentEvent?
    ensures var w := See(v, e).run;
      && w.definition == v.run.definition && w.totalSteps == v.run.totalSteps
      && w.attempt == if e.RunStarted? then e.attempt else v.run.attempt
  {
  }

  lemma IdleBatch(m: Machine, mv: Move)
    requires Started(m.log) && m.live.None?
    ensures var s, batch := Replay(m.log), EffectOf(m, mv).batch;
      && |batch| <= 2
      && (forall e | e in batch :: !e.AgentEvent?)
      && (if mv.Begin? && Valid(s) && Startable(s.status) then batch == [RunStarted(s.attempt + 1)]
          else forall e | e in batch :: !e.RunStarted?)
  {
  }

  lemma LiveEffect(m: Machine, mv: Move)
    requires Started(m.log) && m.live.Some? && Outside(mv)
    requires Replay(m.log).status == Running || Replay(m.log).status == Evaluating
    ensures var e := EffectOf(m, mv);
      e.live == m.live && (e.batch == [] || (|e.batch| == 1 && IsNoise(e.batch[0])))
  {
  }

  /** While an attempt executes, commands are refused; only control events get through. */
  lemma LiveCommand(m: Machine, mv: Move)
    requires Started(m.log) && Inv(ViewOf(m.log), m.live) && m.live.Some? && Outside(mv)
    ensures Step(m, mv).live == m.live
    ensures Replay(Step(m, mv).log) == Replay(m.log).(version := Replay(Step(m, mv).log).version)
  {
    var v := ViewOf(m.log);
    LiveEffect(m, mv);
    var batch := EffectOf(m, mv).batch;
    ViewAppend(m.log, batch);
    ThenShort(v, batch);
    if batch != [] { NoiseChangesNothing(v, batch[0]); }
  }

  lemma LoopStep(m: Machine, mv: Move, start: nat)
    requires Reachable(m) && LoopBounded(Replay(m.log), start) && !Reschedules(mv)
    ensures LoopBounded(Replay(Step(m, mv).log), start)
  {
    if m.live.None? {
      IdleStatus(m, mv);
      IdleAttempt(m, mv);
    } else if Outside(mv) {
      ReachableKeeps(m);
      LiveCommand(m, mv);
    } else {
      ReachableKeeps(m);
      ViewAppend(m.log, EffectOf(m, mv).batch);
      AttemptStatus(ViewOf(m.log), m.live.value, mv);
    }
  }

  /** From attempt `a` on, without human retries, resumes and recoveries, at most
      max(1, maxRetries + 1 - a) further attempts start, whatever harness, advisor and graders do. */
  lemma {:induction false} LoopBound(m: Machine, moves: seq<Move>)
    requires Reachable(m) && forall mv | mv in moves :: !Reschedules(mv)
    ensures var a, retries := Replay(m.log).attempt, Replay(m.log).definition.supervisorPolicy.maxRetries;
      Starts(Run(m, moves).log) - Starts(m.log) <= if a <= retries then retries + 1 - a else 1
  {
    LoopBoundHolds(m, moves);
    ReachableRun(m, moves);
    StartsOfReachable(m);
    StartsOfReachable(Run(m, moves));
  }

  lemma StartsOfReachable(m: Machine)
    requires Reachable(m)
    ensures Starts(m.log) == Replay(m.log).attempt
  {
    var moves :| m == Execute(m.log[0].definition, moves);
    ReachableNumbered(m.log[0].definition, moves);
    StartsAreAttempts(m.log);
  }

  lemma {:induction false} LoopBoundHolds(m: Machine, moves: seq<Move>)
    requires Reachable(m) && forall mv | mv in moves :: !Reschedules(mv)
    ensures LoopBounded(Replay(Run(m, moves).log), Replay(m.log).attempt)
    ensures Replay(Run(m, moves).log).definition == Replay(m.log).definition
  {
    ReplayVersion(m.log);
    ReplayVersion(Run(m, moves).log);
    if moves != [] {
      LoopBoundHolds(m, moves[..|moves| - 1]);
      ReachableRun(m, moves[..|moves| - 1]);
      LoopStep(Run(m, moves[..|moves| - 1]), moves[|moves| - 1], Replay(m.log).attempt);
    }
  }

  // ----- The number of steps -----

  /** How often the harness went on after its emitter had raised. */
  function Swallows(moves: seq<Move>): nat {
    if moves == [] then 0 else Swallows(moves[..|moves| - 1]) + One(moves[|moves| - 1].HarnessSwallows?)
  }

  function Quota(s: Snapshot, attempts: nat): nat { (s.definition.supervisorPolicy.maxStepsPerAttempt + 1) * attempts }

  predicate StepsBounded(s: Snapshot, live: Option<Attempt>, swallows: nat) {
    if live.None? then s.totalSteps <= Quota(s, s.attempt) + swallows
    else
      var a, limit := live.value, s.definition.supervisorPolicy.maxStepsPerAttempt;
      && s.attempt >= 1
      && a.base.totalSteps <= Quota(s, s.attempt - 1) + swallows
      && (a.steps <= limit
          || s.totalSteps <= Quota(s, s.attempt - 1) + swallows + limit + One(a.phase.Interrupted?))
  }

  /** What a move of an attempt does to the step count: `w` and `live` are what comes after. */
  predicate StepRelation(s: Snapshot, a: Attempt, mv: Move, w: Snapshot, live: Option<Attempt>) {
    && w.attempt == s.attempt && w.definition == s.definition
    && (live.Some? ==> live.value.base == a.base)
    && if mv.Emit? && a.phase == Executing && IsStep(mv.kind)
       then
         && w.totalSteps == s.totalSteps + 1 && live.Some? && live.value.steps == a.steps + 1
         && (a.steps >= s.definition.supervisorPolicy.maxStepsPerAttempt ==> live.value.phase.Interrupted?)
       else
         && w.totalSteps == s.totalSteps
         && (live.Some? ==> live.value.steps == a.steps)
         && (live.Some? && a.phase.Interrupted? && !mv.HarnessSwallows? ==> live.value.phase.Interrupted?)
  }

  lemma EmitSteps(v: View, a: Attempt, kind: string, review: bool)
    requires Inv(v, Some(a)) && a.phase == Executing
    ensures var e := EmitEffect(a, kind, review);
      StepRelation(v.run, a, Emit(kind, review), Then(v, e.batch).run, e.live)
  {
    EmitKeeps(v, a, kind, review);
    ThenShort(v, EmitEffect(a, kind, review).batch);
  }

  lemma StaticSteps(a: Attempt, mv: Move)
    requires !(mv.Emit? && a.phase == Executing)
    ensures var e := AttemptEffect(a, mv);
      e.live.Some? ==>
        && e.live.value.steps == a.steps && e.live.value.base == a.base
        && (a.phase.Interrupted? && !mv.HarnessSwallows? ==> e.live.value.phase.Interrupted?)
  {
  }

  lemma AttemptSteps(v: View, a: Attempt, mv: Move)
    requires Inv(v, Some(a))
    ensures var e := AttemptEffect(a, mv); StepRelation(v.run, a, mv, Then(v, e.batch).run, e.live)
  {
    if mv.Emit? && a.phase == Executing {
      EmitSteps(v, a, mv.kind, mv.review);
    } else {
      AttemptStatus(v, a, mv);
      StaticSteps(a, mv);
      if mv.PublishHints? && a.phase.Reviewed? {
        ThenHints(v, NewDrafts(a.phase.directive.hints, a.publishedKeys), a);
      } else {
        OtherSteps(v, a, mv);
      }
    }
  }

  lemma OtherSteps(v: View, a: Attempt, mv: Move)
    requires !mv.Emit? || a.phase != Executing
    requires !(mv.PublishHints? && a.phase.Reviewed?)
    ensures Then(v, AttemptEffect(a, mv).batch).run.totalSteps == v.run.totalSteps
  {
    var batch := AttemptEffect(a, mv).batch;
    OtherShort(a, mv);
    ThenShort(v, batch);
    if |batch| > 0 { IdleEvent(v, batch[0]); }
    if |batch| > 1 { IdleEvent(See(v, batch[0]), batch[1]); }
  }

  lemma OtherShort(a: Attempt, mv: Move)
    requires !mv.Emit? || a.phase != Executing
    requires !(mv.PublishHints? && a.phase.Reviewed?)
    ensures var batch := AttemptEffect(a, mv).batch; |batch| <= 2 && forall e | e in batch :: !e.AgentEvent?
  {
  }

  lemma StepsRelated(s: Snapshot, a: Attempt, mv: Move, w: Snapshot, live: Option<Attempt>, swallows: nat)
    requires StepRelation(s, a, mv, w, live) && StepsBounded(s, Some(a), swallows)
    requires s.totalSteps == a.base.totalSteps + a.steps
    ensures StepsBounded(w, live, swallows + One(mv.HarnessSwallows?))
  {
    QuotaGrows(s, s.attempt - 1);
    assert Quota(w, w.attempt - 1) == Quota(s, s.attempt - 1) && Quota(w, w.attempt) == Quota(s, s.attempt);
  }

  lemma StepsOfAttempt(v: View, a: Attempt, mv: Move, swallows: nat)
    requires Inv(v, Some(a)) && StepsBounded(v.run, Some(a), swallows)
    ensures var e := AttemptEffect(a, mv);
      StepsBounded(Then(v, e.batch).run, e.live, swallows + One(mv.HarnessSwallows?))
  {
    AttemptSteps(v, a, mv);
    var e := AttemptEffect(a, mv);
    StepsRelated(v.run, a, mv, Then(v, e.batch).run, e.live, swallows);
  }

  lemma StepsOfBegin(s: Snapshot, inlineDelivery: bool, after: Snapshot, swallows: nat)
    requires StepsBounded(s, None, swallows)
    requires after.definition == s.definition && after.attempt == s.attempt + 1 && after.totalSteps == s.totalSteps
    ensures StepsBounded(after, BeginEffect(s, inlineDelivery).live, swallows)
  {
  }

  lemma StepsOfIdle(m: Machine, mv: Move, swallows: nat)
    requires Started(m.log) && m.live.None? && StepsBounded(Replay(m.log), None, swallows)
    ensures StepsBounded(Replay(Step(m, mv).log), Step(m, mv).live, swallows + One(mv.HarnessSwallows?))
  {
    var s, after := Replay(m.log), Replay(Step(m, mv).log);
    IdleAttempt(m, mv);
    if mv.Begin? && Valid(s) && Startable(s.status) {
      StepsOfBegin(s, mv.inlineDelivery, after, swallows);
    }
  }

  lemma StepsOfCommand(m: Machine, mv: Move, swallows: nat)
    requires Started(m.log) && Inv(ViewOf(m.log), m.live) && m.live.Some? && Outside(mv)
    requires StepsBounded(Replay(m.log), m.live, swallows)
    ensures StepsBounded(Replay(Step(m, mv).log), Step(m, mv).live, swallows + One(mv.HarnessSwallows?))
  {
    LiveCommand(m, mv);
    SameSteps(Replay(m.log), Replay(Step(m, mv).log), m.live, swallows);
  }

  lemma SameSteps(s: Snapshot, w: Snapshot, live: Option<Attempt>, swallows: nat)
    requires StepsBounded(s, live, swallows) && w == s.(version := w.version)
    ensures StepsBounded(w, live, swallows)
  {
  }

  lemma StepsOfLive(m: Machine, mv: Move, swallows: nat)
    requires Started(m.log) && Inv(ViewOf(m.log), m.live) && m.live.Some? && !Outside(mv)
    requires StepsBounded(Replay(m.log), m.live, swallows)
    ensures StepsBounded(Replay(Step(m, mv).log), Step(m, mv).live, swallows + One(mv.HarnessSwallows?))
  {
    ViewAppend(m.log, EffectOf(m, mv).batch);
    StepsOfAttempt(ViewOf(m.log), m.live.value, mv, swallows);
  }

  lemma StepsStep(m: Machine, mv: Move, swallows: nat)
    requires Started(m.log) && Inv(ViewOf(m.log), m.live) && StepsBounded(Replay(m.log), m.live, swallows)
    ensures StepsBounded(Replay(Step(m, mv).log), Step(m, mv).live, swallows + One(mv.HarnessSwallows?))
  {
    if m.live.None? {
      StepsOfIdle(m, mv, swallows);
    } else if Outside(mv) {
      StepsOfCommand(m, mv, swallows);
    } else {
      StepsOfLive(m, mv, swallows);
    }
  }

  lemma QuotaGrows(s: Snapshot, n: nat)
    ensures Quota(s, n + 1) == Quota(s, n) + s.definition.supervisorPolicy.maxStepsPerAttempt + 1
  {
  }

  lemma StepsInAll(s: Snapshot, live: Option<Attempt>, swallows: nat)
    requires StepsBounded(s, live, swallows)
    requires live.Some? ==> s.totalSteps == live.value.base.totalSteps + live.value.steps
    ensures s.totalSteps <= Quota(s, s.attempt) + swallows
  {
    if live.Some? { QuotaGrows(s, s.attempt - 1); }
  }

  lemma LastMove(definition: RunDefinition, moves: seq<Move>)
    requires moves != []
    ensures Execute(definition, moves) == Step(Execute(definition, moves[..|moves| - 1]), moves[|moves| - 1])
  {
  }

  predicate StepsFine(m: Machine, swallows: nat) {
    Started(m.log) && StepsBounded(Replay(m.log), m.live, swallows)
  }

  lemma StepFine(m: Machine, mv: Move, next: Machine, swallows: nat)
    requires Started(m.log) && Inv(ViewOf(m.log), m.live) && StepsFine(m, swallows) && next == Step(m, mv)
    ensures StepsFine(next, swallows + One(mv.HarnessSwallows?))
  {
    StepsStep(m, mv, swallows);
  }

  lemma {:induction false} StepsHold(definition: RunDefinition, moves: seq<Move>)
    ensures StepsFine(Execute(definition, moves), Swallows(moves))
  {
    if moves != [] {
      var before, last := moves[..|moves| - 1], moves[|moves| - 1];
      StepsHold(definition, before);
      ReachableInv(definition, before);
      LastMove(definition, moves);
      StepFine(Execute(definition, before), last, Execute(definition, moves), Swallows(before));
    }
  }

  /** Replayed steps never exceed one more than the limit for each attempt, plus one for every time a
      harness went on after its emitter had raised; crashes and recoveries cost nothing. */
  lemma StepBound(definition: RunDefinition, moves: seq<Move>)
    ensures var s := Replay(Execute(definition, moves).log); s.totalSteps <= Quota(s, s.attempt) + Swallows(moves)
  {
    var m := Execute(definition, moves);
    StepsHold(definition, moves);
    ReachableInv(definition, moves);
    StepsInAll(Replay(m.log), m.live, Swallows(moves));
  }
}
