/** Counting what a log contains, beside its replayed snapshot. */
module Ledger {
  import opened Json
  import opened Models
  import opened Grading
  import opened Runs
  import opened Engine

  datatype Tally = Tally(
    started: nat,
    evaluationRetries: nat,
    humanRetries: nat,
    resumes: nat,
    recoveries: nat,
    boundaryPauses: nat,
    startableFailures: nat,
    lastDecision: Option<GradingDecision>)

  /** Counts one event, `status` being the replayed status before it. A retry scheduled while
      evaluating is an evaluation retry; an internal failure is counted when it hits a startable run. */
  function Count(t: Tally, status: Status, e: Event): Tally {
    match e
    case RunStarted(_) => t.(started := t.started + 1)
    case RunRetryScheduled(_, _) =>
      if status == Evaluating then t.(evaluationRetries := t.evaluationRetries + 1) else t
    case HitlResolved(Retry) => t.(humanRetries := t.humanRetries + 1)
    case RunResumed(_) => t.(resumes := t.resumes + 1)
    case RunRecovered(_, _) => t.(recoveries := t.recoveries + 1)
    case RunPauseRequested(_) => t.(boundaryPauses := t.boundaryPauses + 1)
    case RunInternalFailed => if Startable(status) then t.(startableFailures := t.startableFailures + 1) else t
    case EvaluationCompleted(decision) => t.(lastDecision := Some(decision))
    case _ => t
  }

  function TallyOf(log: seq<Event>): Tally
    requires Started(log)
  {
    if |log| == 1 then Tally(0, 0, 0, 0, 0, 0, 0, None)
    else
      var before := log[..|log| - 1];
      Count(TallyOf(before), Replay(before).status, log[|log| - 1])
  }

  datatype View = View(run: Snapshot, tally: Tally)

  function ViewOf(log: seq<Event>): View
    requires Started(log)
  {
    View(Replay(log), TallyOf(log))
  }

  function See(v: View, e: Event): View { View(Apply(v.run, e), Count(v.tally, v.run.status, e)) }

  function Then(v: View, batch: seq<Event>): View
    decreases |batch|
  {
    if batch == [] then v else Then(See(v, batch[0]), batch[1..])
  }

  lemma {:induction false} ViewAppend(log: seq<Event>, batch: seq<Event>)
    requires Started(log)
    ensures Started(log + batch) && ViewOf(log + batch) == Then(ViewOf(log), batch)
    decreases |batch|
  {
    if batch == [] {
      assert log + batch == log;
    } else {
      var next := log + [batch[0]];
      assert next[..|log|] == log;
      assert log + batch == next + batch[1..];
      ViewAppend(next, batch[1..]);
    }
  }

  lemma ThenShort(v: View, batch: seq<Event>)
    ensures batch == [] ==> Then(v, batch) == v
    ensures |batch| == 1 ==> Then(v, batch) == See(v, batch[0])
    ensures |batch| == 2 ==> Then(v, batch) == See(See(v, batch[0]), batch[1])
  {
    if |batch| == 1 { assert Then(See(v, batch[0]), batch[1..]) == See(v, batch[0]); }
    if |batch| == 2 {
      var rest := batch[1..];
      assert Then(See(See(v, batch[0]), rest[0]), rest[1..]) == See(See(v, batch[0]), rest[0]);
    }
  }

  /** Publishing hints changes nothing but the hints. */
  lemma {:induction false} ThenHints(v: View, drafts: seq<HintDraft>, a: Attempt)
    ensures var w := Then(v, HintEvents(drafts, a));
      && w.tally == v.tally
      && w.run == v.run.(hints := w.run.hints, version := w.run.version)
    decreases |drafts|
  {
    if drafts != [] {
      var batch := HintEvents(drafts, a);
      assert batch[1..] == HintEvents(drafts[1..], a);
      ThenHints(See(v, batch[0]), drafts[1..], a);
    }
  }
}
