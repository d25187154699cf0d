/**
 `SupervisorEngine` for one run, as the object that appends to the run's stream.

 The locals of an executing attempt, which the emitter updates, are the field `live`. Every method
 takes a ghost set of machines that is closed under moves and keeps the object inside it: whatever is
 an invariant of the moves, such as being reachable, is an invariant of the object.
 */
module Supervisor {
  import opened Json
  import opened Models
  import opened Grading
  import opened Runs
  import opened Redaction
  import opened Definitions
  import opened Engine
  import opened Ledger
  import opened EngineInvariants
  import opened EngineTheorems
  import opened EngineBounds

  // ----- The collaborators' behaviour during one attempt -----

  datatype Advice = NoReview | AdvisorRaises | Directs(directive: Directive, handler: Handler)

  datatype Handler = NoHandler | HandlerSucceeds | HandlerRaises

  /** One call of the emitter; `swallow` says that the harness goes on if the call raises. */
  datatype EmitCall = EmitCall(kind: string, advice: Advice, swallow: bool)

  datatype Ending = Raises | Returns(output: Value, tokens: int, cost: real)

  datatype Script = Script(
    inlineDelivery: bool,
    calls: seq<EmitCall>,
    ending: Ending,
    failedGraders: seq<string>,
    results: seq<EvaluationResult>)

  datatype CommandError = Unreadable(error: ReplayError) | WrongStatus(status: Status)

  /** Closed under every move. */
  ghost predicate Inductive(scope: iset<Machine>) { forall m, mv | m in scope :: Step(m, mv) in scope }

  /** The moves of an executing attempt: no command and no further start. */
  predicate Inner(mv: Move) { !Outside(mv) }

  /** Closed under the moves of an executing attempt. */
  ghost predicate InnerInductive(scope: iset<Machine>) {
    forall m, mv | m in scope && Inner(mv) :: Step(m, mv) in scope
  }

  // ----- What replay shows after a command -----

  /** The snapshot after a human decision. */
  function Resolved(s: Snapshot, decision: HumanDecision, reason: string): Snapshot {
    match decision
    case Approve => s.(status := Succeeded, humanOverride := true, version := s.version + 2)
    case Reject => s.(status := Failed, error := Some(Rejected(reason)), version := s.version + 2)
    case Retry => s.(status := RetryScheduled, version := s.version + 2)
  }

  lemma PairResult(log: seq<Event>, s: Snapshot, a: Event, b: Event, t: Snapshot)
    requires GetRun(log) == Ok(s) && t == Apply(Apply(s, a), b) && Valid(t)
    ensures GetRun(log + [a, b]) == Ok(t)
  {
    ReplayNext(log, a);
    ReplayNext(log + [a], b);
    assert log + [a, b] == log + [a] + [b];
  }

  lemma ResolveResult(log: seq<Event>, s: Snapshot, decision: HumanDecision, reason: string)
    requires GetRun(log) == Ok(s)
    ensures GetRun(log + ResolveBatch(s, decision, reason)) == Ok(Resolved(s, decision, reason))
  {
    var batch := ResolveBatch(s, decision, reason);
    var t := Resolved(s, decision, reason);
    assert Apply(Apply(s, batch[0]), batch[1]) == t;
    PairResult(log, s, batch[0], batch[1], t);
    assert batch == [batch[0], batch[1]];
  }

  lemma PauseResult(log: seq<Event>, s: Snapshot)
    requires GetRun(log) == Ok(s)
    ensures GetRun(log + [RunPauseRequested(s.status), RunPaused]) == Ok(s.(status := Paused, version := s.version + 2))
  {
    PairResult(log, s, RunPauseRequested(s.status), RunPaused, s.(status := Paused, version := s.version + 2));
  }

  lemma ResumeResult(log: seq<Event>, s: Snapshot)
    requires GetRun(log) == Ok(s)
    ensures GetRun(log + [RunResumed(s.attempt + 1)])
         == Ok(s.(status := RetryScheduled, version := s.version + 1))
  {
    ReplayNext(log, RunResumed(s.attempt + 1));
  }

  lemma RecoverResult(log: seq<Event>, s: Snapshot)
    requires GetRun(log) == Ok(s)
    ensures GetRun(log + RecoverBatch(s)) == Ok(s.(status := RetryScheduled, version := s.version + 2))
  {
    var batch := RecoverBatch(s);
    PairResult(log, s, batch[0], batch[1], s.(status := RetryScheduled, version := s.version + 2));
  }

  // ----- What one attempt appends, given what its collaborators do -----

  function Prepend(batch: seq<Event>, e: Effect): Effect { Effect(batch + e.batch, e.live) }

  function Raising(a: Attempt): Effect { Effect([], Some(a.(phase := Interrupted(Raised)))) }

  function HandlerEffect(a: Attempt, d: Directive, succeeds: bool): Effect {
    if succeeds then Effect([ActionCompleted(d.action)], Some(a.(phase := Executing)))
    else Effect([ActionFailed(d.action)], Some(a.(phase := Interrupted(NeedsHuman(ActionReason)))))
  }

  function ActOutcome(a: Attempt, d: Directive, handler: Handler): (e: Effect)
    ensures e.live.Some?
  {
    var e := ActionEffect(a, d, !handler.NoHandler?);
    if e.live.value.phase.Acting? then Prepend(e.batch, HandlerEffect(e.live.value, d, handler.HandlerSucceeds?)) else e
  }

  function ReviewOutcome(a: Attempt, advice: Advice): (e: Effect)
    requires !advice.NoReview?
    ensures e.live.Some?
  {
    match advice
    case AdvisorRaises => Raising(a)
    case Directs(d, handler) =>
      var published := PublishEffect(a.(phase := Reviewed(d)), d);
      Prepend([SupervisorReviewed(d)] + published.batch, ActOutcome(published.live.value, d, handler))
  }

  function EmitOutcome(a: Attempt, call: EmitCall): (e: Effect)
    ensures e.live.Some?
  {
    var e := EmitEffect(a, call.kind, !call.advice.NoReview?);
    if e.live.value.phase == Observed && !call.advice.NoReview?
    then Prepend(e.batch, ReviewOutcome(e.live.value, call.advice)) else e
  }

  /** An exception of the emitter ends the harness unless it goes on regardless. */
  function HarnessOutcome(a: Attempt, calls: seq<EmitCall>, ending: Ending): (e: Effect)
    ensures e.live.Some?
    decreases |calls|
  {
    if calls == [] then (if ending.Raises? then Raising(a) else Stay(a))
    else
      var e := EmitOutcome(a, calls[0]);
      if e.live.value.phase.Interrupted? && !calls[0].swallow then e
      else
        var next := if e.live.value.phase.Interrupted? then e.live.value.(phase := Executing) else e.live.value;
        Prepend(e.batch, HarnessOutcome(next, calls[1..], ending))
  }

  function GraderBatch(failed: seq<string>): seq<Event> {
    if failed == [] then [] else GraderBatch(failed[..|failed| - 1]) + [GraderFailed(failed[|failed| - 1])]
  }

  function EvaluationBatch(a: Attempt, failed: seq<string>, results: seq<EvaluationResult>): seq<Event> {
    GraderBatch(failed) +
    match Aggregate(a.base.definition.gradingPolicy, results)
    case Err(_) => []
    case Ok(decision) => [EvaluationCompleted(decision)] + ConclusionBatch(a, decision)
  }

  function CompletionBatch(a: Attempt, script: Script): seq<Event>
    requires script.ending.Returns?
  {
    var Returns(output, tokens, cost) := script.ending;
    var budget := BudgetEffect(a, tokens, cost);
    [ExecutionCompleted(a.number, output, tokens, cost)] + budget.batch
    + if budget.live.Some? then EvaluationBatch(a, script.failedGraders, script.results) else []
  }

  /** Once the harness is done: the exception handlers, or what follows a result. */
  function FinishBatch(a: Attempt, script: Script): seq<Event> {
    if a.phase.Interrupted? then InterruptBatch(a, a.phase.cause)
    else if script.ending.Returns? then CompletionBatch(a, script) else []
  }

  /** The grading policy raises on what the graders gave. */
  predicate Ungradable(a: Attempt, script: Script) {
    && !a.phase.Interrupted? && script.ending.Returns?
    && BudgetEffect(a, script.ending.tokens, script.ending.cost).live.Some?
    && Aggregate(a.base.definition.gradingPolicy, script.results).Err?
  }

  /** The stream and the attempt when the harness is done. */
  function HarnessRun(log: seq<Event>, s: Snapshot, script: Script): (e: Effect)
    ensures e.live.Some?
  {
    var first := FirstOf(log, s, script.inlineDelivery);
    Prepend(first.log, HarnessOutcome(first.live.value, script.calls, script.ending))
  }

  /** The stream after one attempt, and whether an exception leaves it. */
  function AttemptTurn(log: seq<Event>, s: Snapshot, script: Script): (seq<Event>, bool) {
    var ran := HarnessRun(log, s, script);
    (ran.batch + FinishBatch(ran.live.value, script), Ungradable(ran.live.value, script))
  }

  type TurnFunction = seq<Event> -> (seq<Event>, bool)

  /** What the collaborators do in the next attempt of a run. */
  function NextScript(scripts: nat -> Script, s: Snapshot): Script { scripts(s.attempt + 1) }

  /** `turn` is one turn of the loop. */
  ghost predicate IsTurn(turn: TurnFunction, scripts: nat -> Script) {
    forall log, s {:trigger AttemptTurn(log, s, NextScript(scripts, s))} ::
      GetRun(log) == Ok(s) && Startable(s.status) ==> turn(log) == AttemptTurn(log, s, NextScript(scripts, s))
  }

  /** The stream after `n` turns. */
  function Iterate(turn: TurnFunction, log: seq<Event>, n: nat): seq<Event> {
    if n == 0 then log else turn(Iterate(turn, log, n - 1)).0
  }

  /** The stream went through a number of whole turns. */
  ghost predicate Turned(turn: TurnFunction, before: seq<Event>, after: seq<Event>) {
    exists n: nat :: after == Iterate(turn, before, n)
  }

  /** The step counter of the emitter: the attempt as it is once the event has been appended. */
  method StepLimit(a: Attempt, kind: string, review: bool) returns (next: Attempt)
    ensures EmitEffect(a, kind, review) == Effect([AgentEvent(RedactText(kind))], Some(next))
    ensures a.phase == Executing ==>
      next.phase == Executing || next.phase.Interrupted? || (review && next.phase == Observed)
  {
    var steps, phase := a.steps, if review then Observed else Executing;
    if IsStep(kind) {
      steps := steps + 1;
      if steps > a.base.definition.supervisorPolicy.maxStepsPerAttempt { phase := Interrupted(OverBudget(Steps)); }
    }
    next := a.(steps := steps, phase := phase);
  }

  class SupervisorEngine {
    var log: seq<Event>
    var live: Option<Attempt>

    ghost function Here(): Machine
      reads this
    {
      Machine(log, live)
    }

    /** `create_run` with its registries satisfied; the run is reachable if its definition survives redaction. */
    constructor (sensitive: set<string>, definition: RunDefinition)
      ensures log == [Creation(sensitive, definition)] && live == None
      ensures Survives(sensitive, definition) ==> Here() == Initial(Stored(sensitive, definition))
    {
      log := [Creation(sensitive, definition)];
      live := None;
    }

    /** `_append` in a command. */
    method AppendCommand(ghost scope: iset<Machine>, ghost mv: Move, batch: seq<Event>)
      requires Inductive(scope) && Here() in scope
      requires GetRun(log).Ok? && IsCommand(mv) && batch == CommandBatch(GetRun(log).value, live.None?, mv)
      modifies this
      ensures Here() in scope && log == old(log) + batch && live == old(live)
    {
      ghost var next := Step(Here(), mv);
      log := log + batch;
      assert Here() == next;
    }

    /** `_append` in an attempt, with the step of the control flow that goes with it. */
    method AppendMove(ghost scope: iset<Machine>, ghost mv: Move, batch: seq<Event>, next: Option<Attempt>)
      requires InnerInductive(scope) && Here() in scope
      requires live.Some? && Inner(mv) && AttemptEffect(live.value, mv) == Effect(batch, next)
      modifies this
      ensures Here() in scope && live == next && log == old(log) + batch
    {
      ghost var after := Step(Here(), mv);
      log := log + batch;
      live := next;
      assert Here() == after;
    }

    /** `_append` in a command that does not look whether an attempt is executing; with one, the append is
        not a move of the run. */
    method AppendAnyway(ghost scope: iset<Machine>, ghost mv: Move, batch: seq<Event>)
      requires Inductive(scope) && Here() in scope
      requires GetRun(log).Ok? && IsCommand(mv)
      requires live.None? ==> batch == CommandBatch(GetRun(log).value, true, mv)
      modifies this
      ensures log == old(log) + batch && live == old(live) && (live.None? ==> Here() in scope)
    {
      ghost var next := Step(Here(), mv);
      log := log + batch;
      assert live.None? ==> Here() == next;
    }

    method Load() returns (r: Result<Snapshot, ReplayError>)
      ensures r == GetRun(log)
    {
      r := LoadRun(log);
    }

    // ----- Operator commands -----

    method ResolveWaiting(ghost scope: iset<Machine>, decision: HumanDecision, reason: string)
      returns (r: Result<Snapshot, CommandError>)
      requires Inductive(scope) && Here() in scope
      modifies this
      ensures Here() in scope && live == old(live)
      ensures match GetRun(old(log))
        case Err(e) => r == Err(Unreadable(e)) && log == old(log)
        case Ok(s) =>
          if s.status != WaitingHuman then r == Err(WrongStatus(s.status)) && log == old(log)
          else
            && log == old(log) + [HitlResolved(decision), match decision
                                                          case Approve => RunSucceeded(true)
                                                          case Reject => RunFailed(Rejected(reason))
                                                          case Retry => RunRetryScheduled(s.attempt + 1, false)]
            && r == Ok(Resolved(s, decision, reason))
    {
      var run := Load();
      if run.Err? { return Err(Unreadable(run.error)); }
      var s := run.value;
      if s.status != WaitingHuman { return Err(WrongStatus(s.status)); }
      var batch := [HitlResolved(decision)];
      match decision {
        case Approve => batch := batch + [RunSucceeded(true)];
        case Reject => batch := batch + [RunFailed(Rejected(reason))];
        case Retry => batch := batch + [RunRetryScheduled(s.attempt + 1, false)];
      }
      assert batch == ResolveBatch(s, decision, reason);
      ResolveResult(log, s, decision, reason);
      AppendCommand(scope, ResolveHuman(decision, reason), batch);
      run := Load();
      r := Ok(run.value);
    }

    method PauseAtBoundary(ghost scope: iset<Machine>) returns (r: Result<Snapshot, CommandError>)
      requires Inductive(scope) && Here() in scope
      modifies this
      ensures Here() in scope && live == old(live)
      ensures match GetRun(old(log))
        case Err(e) => r == Err(Unreadable(e)) && log == old(log)
        case Ok(s) =>
          if s.status != Created && s.status != RetryScheduled then r == Err(WrongStatus(s.status)) && log == old(log)
          else
            && log == old(log) + [RunPauseRequested(s.status), RunPaused]
            && r == Ok(s.(status := Paused, version := s.version + 2))
    {
      var run := Load();
      if run.Err? { return Err(Unreadable(run.error)); }
      var s := run.value;
      if s.status == Succeeded || s.status == Failed || s.status == Cancelled || s.status == Paused
         || s.status == WaitingHuman {
        return Err(WrongStatus(s.status));
      }
      if s.status == Running || s.status == Evaluating { return Err(WrongStatus(s.status)); }
      PauseResult(log, s);
      AppendCommand(scope, PauseRun, [RunPauseRequested(s.status), RunPaused]);
      run := Load();
      r := Ok(run.value);
    }

    method ResumePaused(ghost scope: iset<Machine>) returns (r: Result<Snapshot, CommandError>)
      requires Inductive(scope) && Here() in scope
      modifies this
      ensures Here() in scope && live == old(live)
      ensures match GetRun(old(log))
        case Err(e) => r == Err(Unreadable(e)) && log == old(log)
        case Ok(s) =>
          if s.status != Paused then r == Err(WrongStatus(s.status)) && log == old(log)
          else
            && log == old(log) + [RunResumed(s.attempt + 1)]
            && r == Ok(s.(status := RetryScheduled, version := s.version + 1))
    {
      var run := Load();
      if run.Err? { return Err(Unreadable(run.error)); }
      var s := run.value;
      if s.status != Paused { return Err(WrongStatus(s.status)); }
      ResumeResult(log, s);
      AppendCommand(scope, ResumeRun, [RunResumed(s.attempt + 1)]);
      run := Load();
      r := Ok(run.value);
    }

    /** The API calls it only when no task of this process owns the run; then the run stays reachable. */
    method RecoverCrashed(ghost scope: iset<Machine>) returns (r: Result<Snapshot, ReplayError>)
      requires Inductive(scope) && Here() in scope
      modifies this
      ensures live == old(live) && (live.None? ==> Here() in scope)
      ensures match GetRun(old(log))
        case Err(e) => r == Err(e) && log == old(log)
        case Ok(s) =>
          if s.status != Running && s.status != Evaluating then r == Ok(s) && log == old(log)
          else
            && log == old(log) + [RunRecovered(s.status, s.attempt), RunRetryScheduled(s.attempt + 1, true)]
            && r == Ok(s.(status := RetryScheduled, version := s.version + 2))
    {
      r := Load();
      if r.Err? { return; }
      var s := r.value;
      if s.status != Running && s.status != Evaluating { return; }
      RecoverResult(log, s);
      AppendAnyway(scope, RecoverIncomplete,
                   [RunRecovered(s.status, s.attempt), RunRetryScheduled(s.attempt + 1, true)]);
      r := Load();
    }

    method RecordFailure(ghost scope: iset<Machine>)
      requires Inductive(scope) && Here() in scope
      modifies this
      ensures live == old(live) && (live.None? ==> Here() in scope)
      ensures log == old(log) || log == old(log) + [RunInternalFailed, RunWaitingHuman(InternalReason)]
      ensures log == old(log) <==>
        GetRun(old(log)).Err? || GetRun(old(log)).value.status in {Succeeded, Failed, Cancelled}
    {
      var run := Load();
      if run.Err? { return; }
      var s := run.value;
      if s.status == Succeeded || s.status == Failed || s.status == Cancelled { return; }
      AppendAnyway(scope, RecordInternalFailure, [RunInternalFailed, RunWaitingHuman(InternalReason)]);
    }

    // ----- One attempt -----

    /** The emitter. It either lets the harness go on or raises. */
    method EmitHarnessEvent(ghost scope: iset<Machine>, call: EmitCall)
      requires InnerInductive(scope) && Here() in scope && live.Some? && live.value.phase == Executing
      modifies this
      ensures Here() in scope && live.Some?
      ensures live.value.phase == Executing || live.value.phase.Interrupted?
      ensures Effect(log, live) == Prepend(old(log), EmitOutcome(old(live).value, call))
    {
      CountStep(scope, call.kind, !call.advice.NoReview?);
      EmitParts(old(log), old(live).value, call, live.value);
      if live.value.phase == Observed { ReviewEvents(scope, call.advice); }
    }

    /** The event is stored and, if it is a step, counted against the limit. */
    method CountStep(ghost scope: iset<Machine>, kind: string, review: bool)
      requires InnerInductive(scope) && Here() in scope && live.Some? && live.value.phase == Executing
      modifies this
      ensures Here() in scope && live.Some?
      ensures live.value.phase == Executing || live.value.phase.Interrupted? || (review && live.value.phase == Observed)
      ensures Effect(log, live) == Prepend(old(log), EmitEffect(old(live).value, kind, review))
    {
      var next := StepLimit(live.value, kind, review);
      AppendMove(scope, Emit(kind, review), [AgentEvent(RedactText(kind))], Some(next));
    }

    /** The advisor's answer to the observed events. */
    method ReviewEvents(ghost scope: iset<Machine>, advice: Advice)
      requires InnerInductive(scope) && Here() in scope && live.Some? && live.value.phase == Observed
      requires !advice.NoReview?
      modifies this
      ensures Here() in scope && live.Some?
      ensures live.value.phase == Executing || live.value.phase.Interrupted?
      ensures Effect(log, live) == Prepend(old(log), ReviewOutcome(old(live).value, advice))
    {
      match advice {
        case AdvisorRaises => RaiseInHarness(scope);
        case Directs(d, handler) => FollowDirective(scope, d, handler);
      }
    }

    method RaiseInHarness(ghost scope: iset<Machine>)
      requires InnerInductive(scope) && Here() in scope && live.Some? && InHarness(live.value.phase)
      modifies this
      ensures Here() in scope && Effect(log, live) == Prepend(old(log), Raising(old(live).value))
    {
      AppendMove(scope, HarnessRaises, [], Some(live.value.(phase := Interrupted(Raised))));
    }

    method FollowDirective(ghost scope: iset<Machine>, d: Directive, handler: Handler)
      requires InnerInductive(scope) && Here() in scope && live.Some? && live.value.phase == Observed
      modifies this
      ensures Here() in scope && live.Some?
      ensures live.value.phase == Executing || live.value.phase.Interrupted?
      ensures Effect(log, live) == Prepend(old(log), ReviewOutcome(old(live).value, Directs(d, handler)))
    {
      RecordReview(scope, d);
      PublishNewHints(scope, d);
      ReviewParts(old(log), old(live).value, d, handler, live.value);
      ActOn(scope, d, handler);
    }

    method RecordReview(ghost scope: iset<Machine>, d: Directive)
      requires InnerInductive(scope) && Here() in scope && live.Some? && live.value.phase == Observed
      modifies this
      ensures Here() in scope && live == Some(old(live).value.(phase := Reviewed(d)))
      ensures log == old(log) + [SupervisorReviewed(d)]
    {
      AppendMove(scope, Review(d), [SupervisorReviewed(d)], Some(live.value.(phase := Reviewed(d))));
    }

    method PublishNewHints(ghost scope: iset<Machine>, d: Directive)
      requires InnerInductive(scope) && Here() in scope && live.Some? && live.value.phase == Reviewed(d)
      modifies this
      ensures Here() in scope && live.Some? && live.value.phase == Hinted(d)
      ensures Effect(log, live) == Prepend(old(log), PublishEffect(old(live).value, d))
    {
      var a := live.value;
      var drafts := NewDrafts(d.hints, a.publishedKeys);
      AppendMove(scope, PublishHints, HintEvents(drafts, a),
                 Some(a.(publishedKeys := a.publishedKeys + DraftKeys(drafts), phase := Hinted(d))));
    }

    method ActOn(ghost scope: iset<Machine>, d: Directive, handler: Handler)
      requires InnerInductive(scope) && Here() in scope && live.Some? && live.value.phase == Hinted(d)
      modifies this
      ensures Here() in scope && live.Some?
      ensures live.value.phase == Executing || live.value.phase.Interrupted?
      ensures Effect(log, live) == Prepend(old(log), ActOutcome(old(live).value, d, handler))
    {
      var a := live.value;
      ghost var mv := RequestAction(!handler.NoHandler?);
      if d.action == Continue || d.action == InjectHint {
        AppendMove(scope, mv, [], Some(a.(phase := Executing)));
      } else if d.action == SpawnSubagent || d.action == ProposeMutation {
        AppendMove(scope, mv, [ActionRequested(d)],
                   Some(a.(phase := if handler.NoHandler? then Executing else Acting(d))));
        if !handler.NoHandler? { HandleAction(scope, d, handler.HandlerSucceeds?); }
      } else {
        var cause := if d.action == Pause then MustPause
                     else if d.action == RequestHuman then NeedsHuman(Advised(d.rationale))
                     else MustAbort(d.rationale);
        AppendMove(scope, mv, [ActionRequested(d)], Some(a.(phase := Interrupted(cause))));
      }
    }

    method HandleAction(ghost scope: iset<Machine>, d: Directive, succeeds: bool)
      requires InnerInductive(scope) && Here() in scope && live.Some? && live.value.phase == Acting(d)
      modifies this
      ensures Here() in scope && live.Some?
      ensures live.value.phase == Executing || live.value.phase.Interrupted?
      ensures Effect(log, live) == Prepend(old(log), HandlerEffect(old(live).value, d, succeeds))
    {
      if succeeds {
        AppendMove(scope, ActionSucceeds, [ActionCompleted(d.action)], Some(live.value.(phase := Executing)));
      } else {
        AppendMove(scope, ActionFails, [ActionFailed(d.action)],
                   Some(live.value.(phase := Interrupted(NeedsHuman(ActionReason)))));
      }
    }

    /** `harness.execute`: the calls of the emitter up to the first one whose exception propagates. */
    method RunHarness(ghost scope: iset<Machine>, calls: seq<EmitCall>, ending: Ending)
      requires InnerInductive(scope) && Here() in scope && live.Some? && live.value.phase == Executing
      modifies this
      ensures Here() in scope && live.Some?
      ensures live.value.phase.Interrupted? || (live.value.phase == Executing && ending.Returns?)
      ensures Effect(log, live) == Prepend(old(log), HarnessOutcome(old(live).value, calls, ending))
    {
      for i := 0 to |calls|
        invariant Here() in scope && live.Some? && live.value.phase == Executing
        invariant Prepend(old(log), HarnessOutcome(old(live).value, calls, ending))
               == Prepend(log, HarnessOutcome(live.value, calls[i..], ending))
      {
        NextCall(log, live.value, calls[i..], ending);
        assert calls[i..][1..] == calls[i + 1..];
        EmitHarnessEvent(scope, calls[i]);
        if live.value.phase.Interrupted? {
          if !calls[i].swallow { return; }
          GoOn(scope);
        }
      }
      if ending.Raises? { RaiseInHarness(scope); }
    }

    /** The harness catches what the emitter raised. */
    method GoOn(ghost scope: iset<Machine>)
      requires InnerInductive(scope) && Here() in scope && live.Some? && live.value.phase.Interrupted?
      modifies this
      ensures Here() in scope && log == old(log) && live == Some(old(live).value.(phase := Executing))
    {
      AppendMove(scope, HarnessSwallows, [], Some(live.value.(phase := Executing)));
    }

    /** `_evaluate`; false when the grading policy raises. */
    method Evaluate(ghost scope: iset<Machine>, failedGraders: seq<string>, results: seq<EvaluationResult>)
      returns (ok: bool)
      requires InnerInductive(scope) && Here() in scope && live.Some? && live.value.phase == GradingOutput
      modifies this
      ensures Here() in scope && live.None?
      ensures ok <==> Aggregate(old(live).value.base.definition.gradingPolicy, results).Ok?
      ensures log == old(log) + EvaluationBatch(old(live).value, failedGraders, results)
    {
      RecordGraderFailures(scope, failedGraders);
      match Aggregate(live.value.base.definition.gradingPolicy, results) {
        case Err(_) =>
          AppendMove(scope, Decide(results), [], None);
          ok := false;
        case Ok(decision) =>
          RecordDecision(scope, results, decision);
          ConcludeAttempt(scope, decision);
          EvaluationParts(old(log), old(live).value, failedGraders, results, decision);
          ok := true;
      }
    }

    method RecordGraderFailures(ghost scope: iset<Machine>, failedGraders: seq<string>)
      requires InnerInductive(scope) && Here() in scope && live.Some? && live.value.phase == GradingOutput
      modifies this
      ensures Here() in scope && live == old(live) && log == old(log) + GraderBatch(failedGraders)
    {
      for i := 0 to |failedGraders|
        invariant Here() in scope && live == old(live) && log == old(log) + GraderBatch(failedGraders[..i])
      {
        assert failedGraders[..i + 1][..i] == failedGraders[..i];
        AppendMove(scope, GraderFails(failedGraders[i]), [GraderFailed(failedGraders[i])], live);
      }
      assert failedGraders[..|failedGraders|] == failedGraders;
    }

    method RecordDecision(ghost scope: iset<Machine>, results: seq<EvaluationResult>, decision: GradingDecision)
      requires InnerInductive(scope) && Here() in scope && live.Some? && live.value.phase == GradingOutput
      requires Aggregate(live.value.base.definition.gradingPolicy, results) == Ok(decision)
      modifies this
      ensures Here() in scope && live == Some(old(live).value.(phase := Decided(decision)))
      ensures log == old(log) + [EvaluationCompleted(decision)]
    {
      AppendMove(scope, Decide(results), [EvaluationCompleted(decision)],
                 Some(live.value.(phase := Decided(decision))));
    }

    method ConcludeAttempt(ghost scope: iset<Machine>, decision: GradingDecision)
      requires InnerInductive(scope) && Here() in scope && live.Some? && live.value.phase == Decided(decision)
      modifies this
      ensures Here() in scope && live.None?
      ensures log == old(log) + ConclusionBatch(old(live).value, decision)
    {
      var a := live.value;
      var policy := a.base.definition.supervisorPolicy;
      var batch := [RunFailed(EvaluationFailed)];
      if decision.passed {
        batch := [RunSucceeded(false)];
      } else if (exists r | r in decision.results :: r.retryable) && a.number <= policy.maxRetries {
        var hint := FeedbackHint(a.number, decision.results);
        batch := [HintPublished(hint, None), RunRetryScheduled(a.number + 1, false)];
      } else if policy.requireHumanOnExhaustion {
        batch := [RunWaitingHuman(EvaluationReason)];
      }
      AppendMove(scope, Conclude, batch, None);
    }

    /** What happens once the harness has returned. */
    method CompleteAttempt(ghost scope: iset<Machine>, script: Script) returns (ok: bool)
      requires InnerInductive(scope) && Here() in scope && live.Some? && live.value.phase == Executing
      requires script.ending.Returns?
      modifies this
      ensures Here() in scope && live.None?
      ensures log == old(log) + CompletionBatch(old(live).value, script) && ok == !Ungradable(old(live).value, script)
    {
      var a := live.value;
      var Returns(output, tokens, cost) := script.ending;
      AppendMove(scope, HarnessReturns(output, tokens, cost), [ExecutionCompleted(a.number, output, tokens, cost)],
                 Some(a.(phase := Completed(tokens, cost))));
      CheckBudgets(scope, tokens, cost);
      ok := true;
      if live.Some? { ok := Evaluate(scope, script.failedGraders, script.results); }
    }

    method CheckBudgets(ghost scope: iset<Machine>, tokens: int, cost: real)
      requires InnerInductive(scope) && Here() in scope && live.Some? && live.value.phase == Completed(tokens, cost)
      modifies this
      ensures Here() in scope && (live.Some? ==> live.value.phase == GradingOutput)
      ensures Effect(log, live) == Prepend(old(log), BudgetEffect(old(live).value, tokens, cost))
    {
      var a := live.value;
      var policy := a.base.definition.supervisorPolicy;
      var batch, next := [EvaluationStarted(a.number)], Some(a.(phase := GradingOutput));
      if policy.maxTokens.Some? && a.base.totalTokens + tokens > policy.maxTokens.value {
        batch, next := [BudgetExhausted(a.number, Tokens), RunWaitingHuman(BudgetReason)], None;
      } else if policy.maxCost.Some? && a.base.totalCost + cost > policy.maxCost.value {
        batch, next := [BudgetExhausted(a.number, Cost), RunWaitingHuman(BudgetReason)], None;
      }
      AppendMove(scope, CheckBudget, batch, next);
    }

    /** `_execute_attempt`; false when an exception leaves it. */
    method ExecuteAttempt(ghost scope: iset<Machine>, snapshot: Snapshot, script: Script) returns (ok: bool)
      requires InnerInductive(scope) && FirstOf(log, snapshot, script.inlineDelivery) in scope
      modifies this
      ensures Here() in scope && live.None?
      ensures (log, !ok) == AttemptTurn(old(log), snapshot, script)
    {
      StartAttempt(snapshot, script.inlineDelivery);
      RunHarness(scope, script.calls, script.ending);
      ok := FinishAttempt(scope, script);
    }

    method FinishAttempt(ghost scope: iset<Machine>, script: Script) returns (ok: bool)
      requires InnerInductive(scope) && Here() in scope && live.Some?
      requires live.value.phase.Interrupted? || (live.value.phase == Executing && script.ending.Returns?)
      modifies this
      ensures Here() in scope && live.None?
      ensures log == old(log) + FinishBatch(old(live).value, script) && ok == !Ungradable(old(live).value, script)
    {
      if live.value.phase.Interrupted? {
        HandleInterruption(scope);
        ok := true;
      } else {
        ok := CompleteAttempt(scope, script);
      }
    }

    method StartAttempt(snapshot: Snapshot, inlineDelivery: bool)
      modifies this
      ensures Here() == FirstOf(old(log), snapshot, inlineDelivery)
    {
      var n := snapshot.attempt + 1;
      log := log + [RunStarted(n)];
      live := Some(Attempt(n, snapshot, ActiveHints(snapshot.hints, n), inlineDelivery, 0,
                           Keys(snapshot.hints), Executing));
    }

    /** The exception handlers around the harness. */
    method HandleInterruption(ghost scope: iset<Machine>)
      requires InnerInductive(scope) && Here() in scope && live.Some? && live.value.phase.Interrupted?
      modifies this
      ensures Here() in scope && live.None?
      ensures log == old(log) + InterruptBatch(old(live).value, old(live).value.phase.cause)
    {
      var a := live.value;
      AppendMove(scope, HandleInterrupt, InterruptBatch(a, a.phase.cause), None);
    }

    /** The loop. `scripts(k)` is what the collaborators do in attempt k, and `turn` one turn with them.
        With no other writer on the run it stops: a normal return leaves the run blocked, and from attempt
        a on at most max(1, maxRetries + 1 - a) attempts were made. */
    method RunUntilBlocked(scripts: nat -> Script, ghost turn: TurnFunction) returns (r: Result<Snapshot, LoopError>)
      requires Reachable(Here()) && live.None? && IsTurn(turn, scripts)
      modifies this
      ensures Reachable(Here()) && live.None? && Turned(turn, old(log), log)
      ensures LoopBounded(Replay(log), Replay(old(log)).attempt)
      ensures match r
        case Ok(s) => GetRun(log) == Ok(s) && s.status != Created && s.status != RetryScheduled
        case Err(BadStream) => GetRun(log).Err?
        case Err(GradingRaised) => exists before :: Turned(turn, old(log), before) && turn(before) == (log, true)
    {
      ghost var start := Here();
      LoopStarts(start);
      NoTurn(turn, log);
      while true
        invariant InLoop(start, Here()) && live.None? && Turned(turn, old(log), log)
        decreases Remaining(Replay(log), Replay(start.log).attempt)
      {
        var run := Load();
        if run.Err? { r := Err(BadStream); break; }
        var snapshot := run.value;
        if snapshot.status != Created && snapshot.status != RetryScheduled { r := Ok(snapshot); break; }
        ghost var before := log;
        OneMoreTurn(turn, old(log), log);
        var ok := LoopAttempt(start, snapshot, scripts, turn);
        if !ok { r := Err(GradingRaised); break; }
      }
    }

    method LoopAttempt(ghost start: Machine, snapshot: Snapshot, scripts: nat -> Script, ghost turn: TurnFunction)
      returns (ok: bool)
      requires InLoop(start, Here()) && live.None? && GetRun(log) == Ok(snapshot) && Startable(snapshot.status)
      requires IsTurn(turn, scripts)
      modifies this
      ensures InLoop(start, Here()) && live.None?
      ensures turn(old(log)) == (log, !ok)
      ensures Remaining(Replay(log), Replay(start.log).attempt) < Remaining(snapshot, Replay(start.log).attempt)
    {
      ghost var scope := AttemptScope(start, snapshot.attempt + 1);
      AttemptScopeReady(start, Here(), snapshot, NextScript(scripts, snapshot).inlineDelivery, scope);
      ok := TakeTurn(scope, snapshot, scripts, turn);
      AttemptScopeEnds(start, Here(), snapshot, scope);
    }

    method TakeTurn(ghost scope: iset<Machine>, snapshot: Snapshot, scripts: nat -> Script, ghost turn: TurnFunction)
      returns (ok: bool)
      requires GetRun(log) == Ok(snapshot) && Startable(snapshot.status) && IsTurn(turn, scripts)
      requires InnerInductive(scope) && FirstOf(log, snapshot, NextScript(scripts, snapshot).inlineDelivery) in scope
      modifies this
      ensures Here() in scope && live.None?
      ensures turn(old(log)) == (log, !ok)
    {
      ok := ExecuteAttempt(scope, snapshot, NextScript(scripts, snapshot));
    }
  }

  lemma NoTurn(turn: TurnFunction, log: seq<Event>)
    ensures Turned(turn, log, log)
  {
    assert log == Iterate(turn, log, 0);
  }

  lemma OneMoreTurn(turn: TurnFunction, before: seq<Event>, after: seq<Event>)
    requires Turned(turn, before, after)
    ensures Turned(turn, before, turn(after).0)
  {
    var n: nat :| after == Iterate(turn, before, n);
    assert turn(after).0 == Iterate(turn, before, n + 1);
  }

  lemma EvaluationParts(
      log: seq<Event>, a: Attempt, failed: seq<string>, results: seq<EvaluationResult>, decision: GradingDecision)
    requires Aggregate(a.base.definition.gradingPolicy, results) == Ok(decision)
    ensures var b := a.(phase := Decided(decision));
      log + GraderBatch(failed) + [EvaluationCompleted(decision)] + ConclusionBatch(b, decision)
      == log + EvaluationBatch(a, failed, results)
  {
    var e, c := [EvaluationCompleted(decision)], ConclusionBatch(a, decision);
    assert ConclusionBatch(a.(phase := Decided(decision)), decision) == c;
    assert EvaluationBatch(a, failed, results) == GraderBatch(failed) + (e + c);
    assert log + GraderBatch(failed) + e + c == log + (GraderBatch(failed) + (e + c));
  }

  /** The event and, if it is reviewed, what the review brings. */
  lemma EmitParts(log: seq<Event>, a: Attempt, call: EmitCall, b: Attempt)
    requires EmitEffect(a, call.kind, !call.advice.NoReview?).live == Some(b)
    ensures var batch := EmitEffect(a, call.kind, !call.advice.NoReview?).batch;
      Prepend(log, EmitOutcome(a, call))
      == if b.phase == Observed && !call.advice.NoReview? then Prepend(log + batch, ReviewOutcome(b, call.advice))
         else Effect(log + batch, Some(b))
  {
    var batch := EmitEffect(a, call.kind, !call.advice.NoReview?).batch;
    if b.phase == Observed && !call.advice.NoReview? { PrependTwice(log, batch, ReviewOutcome(b, call.advice)); }
  }

  lemma ReviewParts(log: seq<Event>, a: Attempt, d: Directive, handler: Handler, b: Attempt)
    requires PublishEffect(a.(phase := Reviewed(d)), d).live == Some(b)
    ensures Prepend(log + [SupervisorReviewed(d)] + PublishEffect(a.(phase := Reviewed(d)), d).batch,
                    ActOutcome(b, d, handler))
         == Prepend(log, ReviewOutcome(a, Directs(d, handler)))
  {
    var p, e := PublishEffect(a.(phase := Reviewed(d)), d).batch, ActOutcome(b, d, handler).batch;
    assert log + [SupervisorReviewed(d)] + p + e == log + ([SupervisorReviewed(d)] + p + e);
  }

  /** One call of the emitter, seen from the stream. */
  lemma NextCall(log: seq<Event>, a: Attempt, calls: seq<EmitCall>, ending: Ending)
    requires calls != []
    ensures var e := EmitOutcome(a, calls[0]); var b := e.live.value;
      Prepend(log, HarnessOutcome(a, calls, ending))
      == if b.phase.Interrupted? && !calls[0].swallow then Prepend(log, e)
         else Prepend(log + e.batch,
                      HarnessOutcome(if b.phase.Interrupted? then b.(phase := Executing) else b, calls[1..], ending))
  {
    var e := EmitOutcome(a, calls[0]);
    var b := e.live.value;
    PrependTwice(log, e.batch,
                 HarnessOutcome(if b.phase.Interrupted? then b.(phase := Executing) else b, calls[1..], ending));
  }

  lemma PrependTwice(log: seq<Event>, batch: seq<Event>, e: Effect)
    ensures Prepend(log, Prepend(batch, e)) == Prepend(log + batch, e)
  {
    assert log + (batch + e.batch) == log + batch + e.batch;
  }

  datatype LoopError = BadStream | GradingRaised

  /** The machine after `run.started`. */
  function FirstOf(log: seq<Event>, snapshot: Snapshot, inlineDelivery: bool): Machine {
    var e := BeginEffect(snapshot, inlineDelivery);
    Machine(log + e.batch, e.live)
  }

  // ----- The loop's own set of machines -----

  ghost predicate InLoop(start: Machine, m: Machine) {
    Reachable(m) && Started(start.log) && start.log <= m.log && LoopBounded(Replay(m.log), Replay(start.log).attempt)
  }

  /** The machines of the loop during its attempt `n`. */
  ghost function AttemptScope(start: Machine, n: nat): iset<Machine> {
    iset m | InLoop(start, m) && Replay(m.log).attempt == n
  }

  function Remaining(s: Snapshot, start: nat): nat {
    var last := Max(start, s.definition.supervisorPolicy.maxRetries) + 1;
    if last < s.attempt then 0 else last - s.attempt
  }

  lemma LoopStarts(m: Machine)
    requires Reachable(m)
    ensures InLoop(m, m)
  {
  }

  lemma InnerStaysInLoop(start: Machine, m: Machine, mv: Move)
    requires InLoop(start, m) && Inner(mv)
    ensures InLoop(start, Step(m, mv)) && Replay(Step(m, mv).log).attempt == Replay(m.log).attempt
  {
    ReachableStep(m, mv);
    LoopStep(m, mv, Replay(start.log).attempt);
    InnerKeepsAttempt(m, mv);
  }

  lemma InnerKeepsAttempt(m: Machine, mv: Move)
    requires Reachable(m) && Inner(mv)
    ensures Replay(Step(m, mv).log).attempt == Replay(m.log).attempt
  {
    if m.live.None? {
      IdleAttempt(m, mv);
    } else {
      ReachableKeeps(m);
      ViewAppend(m.log, EffectOf(m, mv).batch);
      AttemptStatus(ViewOf(m.log), m.live.value, mv);
    }
  }

  lemma AttemptScopeIsInductive(start: Machine, n: nat)
    ensures InnerInductive(AttemptScope(start, n))
  {
    forall m, mv | m in AttemptScope(start, n) && Inner(mv) ensures Step(m, mv) in AttemptScope(start, n) {
      InnerStaysInLoop(start, m, mv);
    }
  }

  lemma AttemptScopeStarts(start: Machine, m: Machine, snapshot: Snapshot, inlineDelivery: bool)
    requires InLoop(start, m) && m.live.None? && GetRun(m.log) == Ok(snapshot) && Startable(snapshot.status)
    ensures FirstOf(m.log, snapshot, inlineDelivery) in AttemptScope(start, snapshot.attempt + 1)
  {
    assert Step(m, Begin(inlineDelivery)) == FirstOf(m.log, snapshot, inlineDelivery);
    ReachableStep(m, Begin(inlineDelivery));
    LoopStep(m, Begin(inlineDelivery), Replay(start.log).attempt);
    IdleAttempt(m, Begin(inlineDelivery));
  }

  lemma AttemptScopeReady(
      start: Machine, m: Machine, snapshot: Snapshot, inlineDelivery: bool, scope: iset<Machine>)
    requires InLoop(start, m) && m.live.None? && GetRun(m.log) == Ok(snapshot) && Startable(snapshot.status)
    requires scope == AttemptScope(start, snapshot.attempt + 1)
    ensures InnerInductive(scope) && FirstOf(m.log, snapshot, inlineDelivery) in scope
    ensures snapshot.definition == start.log[0].definition
  {
    ReplayVersion(m.log);
    AttemptScopeIsInductive(start, snapshot.attempt + 1);
    AttemptScopeStarts(start, m, snapshot, inlineDelivery);
  }

  lemma AttemptScopeEnds(start: Machine, m: Machine, before: Snapshot, scope: iset<Machine>)
    requires Started(start.log) && scope == AttemptScope(start, before.attempt + 1) && m in scope
    requires before.definition == start.log[0].definition
    ensures InLoop(start, m)
    ensures Remaining(Replay(m.log), Replay(start.log).attempt) < Remaining(before, Replay(start.log).attempt)
  {
    ReplayVersion(m.log);
  }

  /** Being reachable is closed under every move, so the commands keep it. */
  ghost function ReachableScope(): iset<Machine> { iset m | Reachable(m) }

  lemma ReachableIsInductive()
    ensures Inductive(ReachableScope())
  {
    forall m, mv | m in ReachableScope() ensures Step(m, mv) in ReachableScope() {
      ReachableStep(m, mv);
    }
  }
}
