/**
 Background tasks (application/tasks.py).

 The event loop may switch tasks only at an `await`, so a move is what runs between two of them. `start`
 is two moves: `Acquire` takes the start lock and checks for a task that is not done; `Publish` has the
 run's status, checks it and publishes the task before it gives the lock back.
 */
module Tasks {
  import opened Json
  import opened Models
  import opened Runs

  /** The life of one task; an error is an opaque id. */
  datatype Phase = Queued | Inside | Recording(error: Id) | Finished(raised: Option<Id>)

  datatype Task = Task(run: Id, phase: Phase)

  /** `loading` is the run whose start holds the lock; `latest` names the last task published for a run. */
  datatype Manager = Manager(
    loading: Option<Id>, latest: map<Id, Id>, tasks: map<Id, Task>, permits: nat, errors: map<Id, Id>)

  datatype Move =
    | Acquire(run: Id)
    | Publish(status: Result<Status, ReplayError>, task: Id)
    | Enter(task: Id)
    | Return(task: Id)
    | Raise(task: Id, error: Id)
    | Recorded(task: Id)
    | Cancel(task: Id)

  predicate Blocked(status: Status) {
    status.Succeeded? || status.Failed? || status.Cancelled? || status.Paused? || status.WaitingHuman?
  }

  predicate Unfinished(m: Manager, task: Id) { task in m.tasks && !m.tasks[task].phase.Finished? }

  predicate IsActive(m: Manager, run: Id) { run in m.latest && Unfinished(m, m.latest[run]) }

  function SetPhase(m: Manager, task: Id, phase: Phase): Manager
    requires task in m.tasks
  {
    m.(tasks := m.tasks[task := m.tasks[task].(phase := phase)])
  }

  predicate Enabled(m: Manager, move: Move) {
    match move
    case Acquire(_) => m.loading.None?
    case Publish(_, task) => m.loading.Some? && task !in m.tasks
    case Enter(task) => task in m.tasks && m.tasks[task].phase.Queued? && m.permits > 0
    case Return(task) => task in m.tasks && m.tasks[task].phase.Inside?
    case Raise(task, _) => task in m.tasks && m.tasks[task].phase.Inside?
    case Recorded(task) => task in m.tasks && m.tasks[task].phase.Recording?
    case Cancel(task) => Unfinished(m, task)
  }

  /** A cancelled task ends at once; one that is recording a failure swallows the cancellation. */
  function Step(m: Manager, move: Move): Manager
    requires Enabled(m, move)
  {
    match move
    case Acquire(run) => if IsActive(m, run) then m else m.(loading := Some(run))
    case Publish(status, task) =>
      if status.Err? || Blocked(status.value) then m.(loading := None)
      else
        var run := m.loading.value;
        Manager(None, m.latest[run := task], m.tasks[task := Task(run, Queued)], m.permits, m.errors - {run})
    case Enter(task) => SetPhase(m, task, Inside).(permits := m.permits - 1)
    case Return(task) => SetPhase(m, task, Finished(None)).(permits := m.permits + 1)
    case Raise(task, error) =>
      SetPhase(m, task, Recording(error)).(permits := m.permits + 1, errors := m.errors[m.tasks[task].run := error])
    case Recorded(task) => SetPhase(m, task, Finished(Some(m.tasks[task].phase.error)))
    case Cancel(task) =>
      match m.tasks[task].phase
      case Inside => SetPhase(m, task, Finished(None)).(permits := m.permits + 1)
      case Recording(error) => SetPhase(m, task, Finished(Some(error)))
      case _ => SetPhase(m, task, Finished(None))
  }

  function Initial(maxConcurrency: nat): Manager { Manager(None, map[], map[], maxConcurrency, map[]) }

  ghost predicate Execution(ms: seq<Manager>, moves: seq<Move>, maxConcurrency: nat) {
    && |ms| == |moves| + 1 && ms[0] == Initial(maxConcurrency)
    && forall k | 0 <= k < |moves| :: Enabled(ms[k], moves[k]) && ms[k + 1] == Step(ms[k], moves[k])
  }

  // ----- The manager itself, one method per move -----

  datatype StartError = RunAlreadyActive | CannotStart(status: Status) | Unreadable(error: ReplayError)

  class RunTaskManager {
    const maxConcurrency: nat
    var loading: Option<Id>
    var latest: map<Id, Id>
    var tasks: map<Id, Task>
    var permits: nat
    var errors: map<Id, Id>

    ghost function State(): Manager
      reads this
    {
      Manager(loading, latest, tasks, permits, errors)
    }

    constructor (maxConcurrency: nat)
      requires maxConcurrency >= 1
      ensures State() == Initial(maxConcurrency) && this.maxConcurrency == maxConcurrency
    {
      this.maxConcurrency := maxConcurrency;
      loading, latest, tasks, permits, errors := None, map[], map[], maxConcurrency, map[];
    }

    method IsRunActive(run: Id) returns (active: bool)
      ensures active == IsActive(State(), run)
    {
      if run !in latest { return false; }
      var task := latest[run];
      active := task in tasks && !tasks[task].phase.Finished?;
    }

    /** The first half of `start`: with an error the lock is free again. */
    method AcquireStart(run: Id) returns (r: Result<bool, StartError>)
      requires Enabled(State(), Acquire(run))
      modifies this
      ensures State() == Step(old(State()), Acquire(run))
      ensures r == if IsActive(old(State()), run) then Err(RunAlreadyActive) else Ok(true)
      ensures loading == (if r.Ok? then Some(run) else None) && latest == old(latest) && tasks == old(tasks)
    {
      var active := IsRunActive(run);
      if active { return Err(RunAlreadyActive); }
      loading := Some(run);
      r := Ok(true);
    }

    /** The second half, once the run was loaded. */
    method PublishTask(status: Result<Status, ReplayError>, task: Id) returns (r: Result<bool, StartError>)
      requires Enabled(State(), Publish(status, task))
      modifies this
      ensures State() == Step(old(State()), Publish(status, task))
      ensures r == match status
                   case Err(e) => Err(Unreadable(e))
                   case Ok(s) =>
                     if s in {Succeeded, Failed, Cancelled, Paused, WaitingHuman} then Err(CannotStart(s)) else Ok(true)
      ensures loading.None? && (r.Err? ==> latest == old(latest) && tasks == old(tasks) && errors == old(errors))
      ensures r.Ok? ==>
        var run := old(loading).value;
        && latest == old(latest)[run := task] && tasks == old(tasks)[task := Task(run, Queued)]
        && errors == old(errors) - {run}
    {
      var run := loading.value;
      loading := None;
      if status.Err? { return Err(Unreadable(status.error)); }
      if Blocked(status.value) { return Err(CannotStart(status.value)); }
      errors := errors - {run};
      tasks := tasks[task := Task(run, Queued)];
      latest := latest[run := task];
      r := Ok(true);
    }

    method EnterSemaphore(task: Id)
      requires Enabled(State(), Enter(task))
      modifies this
      ensures State() == Step(old(State()), Enter(task))
    {
      permits := permits - 1;
      tasks := tasks[task := tasks[task].(phase := Inside)];
    }

    /** The loop returned, or raised `error`: the semaphore is released first. */
    method LeaveSemaphore(task: Id, error: Option<Id>)
      requires Enabled(State(), Return(task))
      modifies this
      ensures State() == Step(old(State()), if error.Some? then Raise(task, error.value) else Return(task))
    {
      permits := permits + 1;
      if error.None? {
        tasks := tasks[task := tasks[task].(phase := Finished(None))];
        return;
      }
      errors := errors[tasks[task].run := error.value];
      tasks := tasks[task := tasks[task].(phase := Recording(error.value))];
    }

    /** Recording the failure is best effort: the task ends either way. */
    method FinishRecording(task: Id)
      requires Enabled(State(), Recorded(task))
      modifies this
      ensures State() == Step(old(State()), Recorded(task))
    {
      tasks := tasks[task := tasks[task].(phase := Finished(Some(tasks[task].phase.error)))];
    }
  }

  // ----- The invariant -----

  function InsideTasks(m: Manager): set<Id> { set t | t in m.tasks && m.tasks[t].phase.Inside? }

  /** A task that is not done is the latest of its run. */
  predicate LatestOnly(m: Manager) {
    forall t | t in m.tasks && !m.tasks[t].phase.Finished? ::
      m.tasks[t].run in m.latest && m.latest[m.tasks[t].run] == t
  }

  predicate Known(m: Manager) {
    forall run | run in m.latest :: m.latest[run] in m.tasks && m.tasks[m.latest[run]].run == run
  }

  /** The start that holds the lock found no active task, and none appeared since. */
  predicate LockExcludes(m: Manager) { m.loading.Some? ==> !IsActive(m, m.loading.value) }

  function RaisedBy(phase: Phase): Option<Id> {
    match phase case Recording(e) => Some(e) case Finished(raised) => raised case _ => None
  }

  function ErrorOf(m: Manager, run: Id): Option<Id> { if run in m.errors then Some(m.errors[run]) else None }

  /** The error kept for a run is what its latest task raised. */
  ghost predicate ErrorsExact(m: Manager) {
    forall run ::
      ErrorOf(m, run)
      == if run in m.latest && m.latest[run] in m.tasks then RaisedBy(m.tasks[m.latest[run]].phase) else None
  }

  predicate Counted(m: Manager, maxConcurrency: nat) { |InsideTasks(m)| + m.permits == maxConcurrency }

  ghost predicate Inv(m: Manager, maxConcurrency: nat) {
    LatestOnly(m) && Known(m) && LockExcludes(m) && ErrorsExact(m) && Counted(m, maxConcurrency)
  }

  lemma InsideAfter(m: Manager, task: Id, phase: Phase)
    requires task in m.tasks
    ensures InsideTasks(SetPhase(m, task, phase))
         == if phase.Inside? then InsideTasks(m) + {task} else InsideTasks(m) - {task}
  {
  }

  lemma InsideUnchanged(m: Manager, task: Id, run: Id, latest: map<Id, Id>, errors: map<Id, Id>)
    requires task !in m.tasks
    ensures InsideTasks(Manager(None, latest, m.tasks[task := Task(run, Queued)], m.permits, errors)) == InsideTasks(m)
  {
  }

  lemma CountedKept(m: Manager, move: Move, maxConcurrency: nat)
    requires Enabled(m, move) && Counted(m, maxConcurrency)
    ensures Counted(Step(m, move), maxConcurrency)
  {
    match move
    case Acquire(run) =>
    case Publish(status, task) =>
      if status.Ok? {
        var run := m.loading.value;
        InsideUnchanged(m, task, run, m.latest[run := task], m.errors - {run});
      }
      assert InsideTasks(m.(loading := None)) == InsideTasks(m);
    case Enter(task) => InsideAfter(m, task, Inside);
    case Return(task) => InsideAfter(m, task, Finished(None));
    case Raise(task, error) => InsideAfter(m, task, Recording(error));
    case Recorded(task) => InsideAfter(m, task, Finished(Some(m.tasks[task].phase.error)));
    case Cancel(task) =>
      InsideAfter(m, task, Finished(None));
      if m.tasks[task].phase.Recording? { InsideAfter(m, task, Finished(Some(m.tasks[task].phase.error))); }
  }

  lemma PhaseKept(m: Manager, move: Move, maxConcurrency: nat)
    requires Enabled(m, move) && Inv(m, maxConcurrency) && !move.Acquire? && !move.Publish?
    ensures Inv(Step(m, move), maxConcurrency)
  {
    CountedKept(m, move, maxConcurrency);
    PhaseKeepsErrors(m, move);
    PhaseKeepsLatest(m, move);
  }

  lemma PhaseKeepsErrors(m: Manager, move: Move)
    requires Enabled(m, move) && ErrorsExact(m) && !move.Acquire? && !move.Publish?
    requires LatestOnly(m) && Known(m) && LockExcludes(m)
    ensures ErrorsExact(Step(m, move))
  {
  }

  lemma PhaseKeepsLatest(m: Manager, move: Move)
    requires Enabled(m, move) && !move.Acquire? && !move.Publish?
    requires LatestOnly(m) && Known(m) && LockExcludes(m)
    ensures LatestOnly(Step(m, move)) && Known(Step(m, move)) && LockExcludes(Step(m, move))
  {
  }

  lemma StartKept(m: Manager, move: Move, maxConcurrency: nat)
    requires Enabled(m, move) && Inv(m, maxConcurrency) && (move.Acquire? || move.Publish?)
    ensures Inv(Step(m, move), maxConcurrency)
  {
    CountedKept(m, move, maxConcurrency);
  }

  lemma {:induction false} ReachableInv(ms: seq<Manager>, moves: seq<Move>, maxConcurrency: nat, k: nat)
    requires Execution(ms, moves, maxConcurrency) && k <= |moves|
    ensures Inv(ms[k], maxConcurrency)
  {
    if k == 0 {
      assert InsideTasks(ms[0]) == {};
    } else {
      ReachableInv(ms, moves, maxConcurrency, k - 1);
      var move := moves[k - 1];
      if move.Acquire? || move.Publish? {
        StartKept(ms[k - 1], move, maxConcurrency);
      } else {
        PhaseKept(ms[k - 1], move, maxConcurrency);
      }
    }
  }

  /** Single execution: at every moment of every interleaving of starts, completions, failures and
      cancellations, a run has at most one task that is not done, and `is_active` tells whether it has
      one; so no two loops of the manager overlap on a run. At most `maxConcurrency` are inside the
      semaphore, and the error kept for a run is exactly what its latest task raised. */
  lemma SingleExecution(ms: seq<Manager>, moves: seq<Move>, maxConcurrency: nat, k: nat, a: Id, b: Id, run: Id)
    requires Execution(ms, moves, maxConcurrency) && k <= |moves|
    ensures Unfinished(ms[k], a) && Unfinished(ms[k], b) && ms[k].tasks[a].run == ms[k].tasks[b].run ==> a == b
    ensures IsActive(ms[k], run) <==> exists t :: Unfinished(ms[k], t) && ms[k].tasks[t].run == run
    ensures |InsideTasks(ms[k])| <= maxConcurrency
    ensures ErrorOf(ms[k], run) == if run in ms[k].latest && ms[k].latest[run] in ms[k].tasks
                                   then RaisedBy(ms[k].tasks[ms[k].latest[run]].phase) else None
  {
    ReachableInv(ms, moves, maxConcurrency, k);
    if IsActive(ms[k], run) { assert Unfinished(ms[k], ms[k].latest[run]); }
  }
}
