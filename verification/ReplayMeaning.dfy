/** Every field of a replayed snapshot, read off the log without replaying it. */
module ReplayMeaning {
  import opened Json
  import opened Models
  import opened Grading
  import opened Runs

  // ----- Fields that the last event of their kind decides -----

  /** The status that each kind of event leaves a run in. */
  function StatusAfter(e: Event): Option<Status> {
    if e.RunStarted? then Some(Running)
    else if e.EvaluationStarted? || e.EvaluationCompleted? then Some(Evaluating)
    else if e.RunRetryScheduled? || e.RunResumed? || e.RunRecovered? then Some(RetryScheduled)
    else if e.RunWaitingHuman? then Some(WaitingHuman)
    else if e.RunPaused? then Some(Paused)
    else if e.RunSucceeded? then Some(Succeeded)
    else if e.RunFailed? then Some(Failed)
    else if e.RunCancelled? then Some(Cancelled)
    else None
  }

  datatype Field = TheStatus | TheAttempt | TheOutput | TheScore | TheOverride | TheError

  /** The event decides the field. */
  predicate Decides(e: Event, field: Field) {
    match field
    case TheStatus => StatusAfter(e).Some?
    case TheAttempt => e.RunStarted?
    case TheOutput => e.ExecutionCompleted?
    case TheScore => e.EvaluationCompleted?
    case TheOverride => e.RunSucceeded?
    case TheError => e.RunFailed?
  }

  /** The snapshot has the event's value in the field. */
  predicate Shows(s: Snapshot, e: Event, field: Field)
    requires Decides(e, field)
  {
    match field
    case TheStatus => s.status == StatusAfter(e).value
    case TheAttempt => s.attempt == e.attempt
    case TheOutput => s.lastOutput == Some(e.output)
    case TheScore => s.lastScore == Some(e.decision.score)
    case TheOverride => s.humanOverride == e.humanOverride
    case TheError => s.error == Some(e.reason)
  }

  /** What a run shows before any event decides the field. */
  predicate ShowsNothing(s: Snapshot, field: Field) {
    match field
    case TheStatus => s.status == Created
    case TheAttempt => s.attempt == 0
    case TheOutput => s.lastOutput == None
    case TheScore => s.lastScore == None
    case TheOverride => !s.humanOverride
    case TheError => s.error == None
  }

  predicate IsLast(log: seq<Event>, i: nat, field: Field) {
    i < |log| && Decides(log[i], field) && forall j | i < j < |log| :: !Decides(log[j], field)
  }

  lemma DecidesAlone(s: Snapshot, e: Event, field: Field)
    ensures Decides(e, field) ==> Shows(Apply(s, e), e, field)
    ensures !Decides(e, field) ==> (ShowsNothing(Apply(s, e), field) <==> ShowsNothing(s, field))
    ensures !Decides(e, field) ==>
      forall d | Decides(d, field) :: Shows(Apply(s, e), d, field) <==> Shows(s, d, field)
  {
  }

  /** A field shows the value of the last event that decides it. */
  lemma {:induction false} LastDecides(log: seq<Event>, i: nat, field: Field)
    requires Started(log) && IsLast(log, i, field)
    ensures Shows(Replay(log), log[i], field)
  {
    var n := |log| - 1;
    DecidesAlone(Fresh(log[0].definition), log[0], field);
    if n > 0 {
      DecidesAlone(Replay(log[..n]), log[n], field);
      if i < n { LastDecides(log[..n], i, field); }
    }
  }

  /** A field that no event decided is as it was at the creation. */
  lemma {:induction false} NothingDecides(log: seq<Event>, field: Field)
    requires Started(log) && forall e | e in log :: !Decides(e, field)
    ensures ShowsNothing(Replay(log), field)
  {
    var n := |log| - 1;
    if n > 0 {
      DecidesAlone(Replay(log[..n]), log[n], field);
      NothingDecides(log[..n], field);
    }
  }

  // ----- Fields that collect -----

  function StepsOf(e: Event): nat {
    if e.AgentEvent? && (e.kind == "agent.step" || e.kind == "step/start" || e.kind == "dsh.step/start") then 1 else 0
  }

  function StepsIn(log: seq<Event>): nat {
    if log == [] then 0 else StepsOf(log[0]) + StepsIn(log[1..])
  }

  function TokensIn(log: seq<Event>): int {
    if log == [] then 0 else (if log[0].ExecutionCompleted? then log[0].tokens else 0) + TokensIn(log[1..])
  }

  function CostIn(log: seq<Event>): real {
    if log == [] then 0.0 else (if log[0].ExecutionCompleted? then log[0].cost else 0.0) + CostIn(log[1..])
  }

  function HintsIn(log: seq<Event>): seq<Hint> {
    if log == [] then [] else (if log[0].HintPublished? then [log[0].hint] else []) + HintsIn(log[1..])
  }

  lemma {:induction false} CollectNext(log: seq<Event>, e: Event)
    ensures StepsIn(log + [e]) == StepsIn(log) + StepsOf(e)
    ensures TokensIn(log + [e]) == TokensIn(log) + (if e.ExecutionCompleted? then e.tokens else 0)
    ensures CostIn(log + [e]) == CostIn(log) + (if e.ExecutionCompleted? then e.cost else 0.0)
    ensures HintsIn(log + [e]) == HintsIn(log) + (if e.HintPublished? then [e.hint] else [])
    decreases |log|
  {
    if log == [] {
      assert [] + [e] == [e] && [e][1..] == [];
    } else {
      assert (log + [e])[1..] == log[1..] + [e];
      CollectNext(log[1..], e);
    }
  }

  /** The totals are the sums over all results and steps of the run, and the hints are all that were
      published, in order. */
  lemma {:induction false} Collected(log: seq<Event>)
    requires Started(log)
    ensures var s := Replay(log);
      && s.totalSteps == StepsIn(log) && s.totalTokens == TokensIn(log) && s.totalCost == CostIn(log)
      && s.hints == HintsIn(log)
  {
    var n := |log| - 1;
    assert log == log[..n] + [log[n]];
    CollectNext(log[..n], log[n]);
    if n > 0 { Collected(log[..n]); } else { assert log[..0] == []; }
  }
}
