/**
 Promotion of a candidate version: evidence from benchmark runs (api/app.py) and the policy that judges it
 (evolution/promotion.py).
 */
module Promotion {
  import opened Json
  import opened Models
  import opened Grading
  import opened Redaction
  import opened Runs

  datatype PromotionEvidence = PromotionEvidence(
    baselineScore: Score,
    candidateScore: Score,
    regressions: nat,
    hardConstraints: map<string, bool>,
    benchmarkRunIds: seq<Id>,
    baselineCost: Option<real>,
    candidateCost: Option<real>)

  datatype PromotionPolicy = PromotionPolicy(
    minimumCandidateScore: Score,
    minimumScoreDelta: Score,
    maximumRegressions: nat,
    maximumCostMultiplier: Option<real>)

  datatype Reason = LowScore | LowDelta | TooManyRegressions | ConstraintFailed(name: string) | TooCostly

  datatype PromotionDecision = PromotionDecision(passed: bool, scoreDelta: real, reasons: seq<Reason>)

  // ----- Rounding to twelve digits, ties to even -----

  const TWELVE_DIGITS := 1000000000000.0

  function RoundHalfEven(y: real): (r: int)
    ensures -0.5 <= r as real - y <= 0.5
  {
    var f := y.Floor;
    var d := y - f as real;
    if d < 0.5 then f else if d > 0.5 then f + 1 else if f % 2 == 0 then f else f + 1
  }

  function Round12(x: real): (r: real)
    ensures -0.0000000000005 <= r - x <= 0.0000000000005
  {
    RoundHalfEven(x * TWELVE_DIGITS) as real / TWELVE_DIGITS
  }

  // ----- The policy -----

  function Delta(e: PromotionEvidence): real { Round12(e.candidateScore - e.baselineScore) }

  /** What each reason complains about, `delta` being the rounded difference of the scores. */
  predicate Violates(p: PromotionPolicy, e: PromotionEvidence, delta: real, r: Reason) {
    match r
    case LowScore => e.candidateScore < p.minimumCandidateScore
    case LowDelta => delta < p.minimumScoreDelta
    case TooManyRegressions => e.regressions > p.maximumRegressions
    case ConstraintFailed(name) => name in e.hardConstraints && !e.hardConstraints[name]
    case TooCostly =>
      && p.maximumCostMultiplier.Some? && e.baselineCost.Some? && e.candidateCost.Some?
      && e.baselineCost.value > 0.0
      && e.candidateCost.value > e.baselineCost.value * p.maximumCostMultiplier.value
  }

  predicate Holds(p: PromotionPolicy, e: PromotionEvidence, r: Reason) { Violates(p, e, Delta(e), r) }

  /** The reasons are exactly the conditions that hold; the order of the constraints is open. */
  method Evaluate(policy: PromotionPolicy, evidence: PromotionEvidence) returns (d: PromotionDecision)
    ensures d.scoreDelta == Delta(evidence)
    ensures forall r :: r in d.reasons <==> Holds(policy, evidence, r)
    ensures d.passed <==> forall r :: !Holds(policy, evidence, r)
  {
    var delta := Delta(evidence);
    var reasons := CollectReasons(policy, evidence, delta);
    assert reasons != [] ==> reasons[0] in reasons;
    d := PromotionDecision(reasons == [], delta, reasons);
  }

  method CollectReasons(policy: PromotionPolicy, evidence: PromotionEvidence, delta: real)
    returns (reasons: seq<Reason>)
    ensures forall r :: r in reasons <==> Violates(policy, evidence, delta, r)
  {
    reasons := [];
    if evidence.candidateScore < policy.minimumCandidateScore { reasons := reasons + [LowScore]; }
    if delta < policy.minimumScoreDelta { reasons := reasons + [LowDelta]; }
    if evidence.regressions > policy.maximumRegressions { reasons := reasons + [TooManyRegressions]; }
    var failed := FailedNames(evidence.hardConstraints);
    reasons := reasons + failed;
    if && policy.maximumCostMultiplier.Some? && evidence.baselineCost.Some? && evidence.candidateCost.Some?
       && evidence.baselineCost.value > 0.0
       && evidence.candidateCost.value > evidence.baselineCost.value * policy.maximumCostMultiplier.value {
      reasons := reasons + [TooCostly];
    }
  }

  method FailedNames(hardConstraints: map<string, bool>) returns (reasons: seq<Reason>)
    ensures forall r :: r in reasons <==> r.ConstraintFailed? && r.name in hardConstraints && !hardConstraints[r.name]
  {
    reasons := [];
    var names := hardConstraints.Keys;
    while names != {}
      invariant names <= hardConstraints.Keys
      invariant forall r :: r in reasons <==>
        r.ConstraintFailed? && r.name in hardConstraints && r.name !in names && !hardConstraints[r.name]
    {
      var name :| name in names;
      if !hardConstraints[name] { reasons := reasons + [ConstraintFailed(name)]; }
      names := names - {name};
    }
  }

  // ----- Scores and means -----

  function Sum(xs: seq<real>): real { if xs == [] then 0.0 else Sum(xs[..|xs| - 1]) + xs[|xs| - 1] }

  lemma {:induction false} SumWithin(xs: seq<Score>)
    ensures 0.0 <= Sum(xs) <= |xs| as real
  {
    if xs != [] { SumWithin(xs[..|xs| - 1]); }
  }

  lemma {:induction false} SumMonotone(xs: seq<real>, ys: seq<real>)
    requires |xs| == |ys| && forall i | 0 <= i < |xs| :: xs[i] <= ys[i]
    ensures Sum(xs) <= Sum(ys)
  {
    if xs != [] { SumMonotone(xs[..|xs| - 1], ys[..|ys| - 1]); }
  }

  function Mean(xs: seq<real>): real
    requires xs != []
  {
    Sum(xs) / |xs| as real
  }

  lemma Divide(a: real, b: real, n: real)
    requires a <= b && n > 0.0
    ensures a / n <= b / n
  {
  }

  function MeanScore(xs: seq<Score>): Score
    requires xs != []
  {
    SumWithin(xs);
    Divide(0.0, Sum(xs), |xs| as real);
    Divide(Sum(xs), |xs| as real, |xs| as real);
    Mean(xs)
  }

  /** `sum(candidate < baseline for ...)` */
  function Regressions(baseline: seq<Score>, candidate: seq<Score>): nat
    requires |baseline| == |candidate|
  {
    if baseline == [] then 0
    else
      var n := |baseline| - 1;
      Regressions(baseline[..n], candidate[..n]) + if candidate[n] < baseline[n] then 1 else 0
  }

  lemma {:induction false} NoRegressions(baseline: seq<Score>, candidate: seq<Score>)
    requires |baseline| == |candidate|
    ensures Regressions(baseline, candidate) == 0 <==> forall i | 0 <= i < |baseline| :: baseline[i] <= candidate[i]
  {
    if baseline != [] {
      var n := |baseline| - 1;
      NoRegressions(baseline[..n], candidate[..n]);
      if Regressions(baseline, candidate) == 0 {
        forall i | 0 <= i < |baseline| ensures baseline[i] <= candidate[i] {
          if i < n { assert baseline[..n][i] <= candidate[..n][i]; }
        }
      }
    }
  }

  // ----- Hard constraints of the last evaluations -----

  function LastEvaluation(log: seq<Event>): Option<GradingDecision> {
    if log == [] then None
    else if log[|log| - 1].EvaluationCompleted? then Some(log[|log| - 1].decision)
    else LastEvaluation(log[..|log| - 1])
  }

  /** The constraints of a result as they were stored: the event went through redaction first. */
  function Stored(constraints: map<string, bool>): (stored: Object)
    ensures stored.Keys == constraints.Keys
  {
    Redact(SENSITIVE_KEYS, Dict(map name | name in constraints :: Bool(constraints[name]))).fields
  }

  /** `bool(passed)` on the stored value. */
  predicate Reported(constraints: map<string, bool>, name: string)
    requires name in constraints
  {
    Truthy(Stored(constraints)[name])
  }

  lemma ReportedMeans(constraints: map<string, bool>, name: string)
    requires name in constraints
    ensures Reported(constraints, name) <==> constraints[name] || Sensitive(SENSITIVE_KEYS, name)
  {
    var flags := map n | n in constraints :: Bool(constraints[n]);
    assert Redact(SENSITIVE_KEYS, flags[name]) == Bool(constraints[name]);
    assert Stored(constraints)[name]
        == if Sensitive(SENSITIVE_KEYS, name) then Str(REPLACEMENT) else Redact(SENSITIVE_KEYS, flags[name]);
  }

  function MergeReport(found: map<string, bool>, constraints: map<string, bool>): map<string, bool> {
    map name | name in found.Keys + constraints.Keys ::
      (name in found ==> found[name]) && (name in constraints ==> Reported(constraints, name))
  }

  function Verdicts(results: seq<EvaluationResult>): map<string, bool> {
    if results == [] then map[]
    else MergeReport(Verdicts(results[..|results| - 1]), results[|results| - 1].hardConstraints)
  }

  /** A constraint is among the verdicts iff some result reported it; its verdict is true iff every report
      of it is true, or redaction rewrote its name's value. */
  lemma {:induction false} VerdictsMean(results: seq<EvaluationResult>, name: string)
    ensures name in Verdicts(results) <==> exists r | r in results :: name in r.hardConstraints
    ensures name in Verdicts(results) ==>
      (Verdicts(results)[name] <==>
         Sensitive(SENSITIVE_KEYS, name)
         || forall r | r in results && name in r.hardConstraints :: r.hardConstraints[name])
  {
    if results != [] {
      var before, last := results[..|results| - 1], results[|results| - 1];
      VerdictsMean(before, name);
      assert forall r :: r in results <==> r in before || r == last;
      if name in last.hardConstraints { ReportedMeans(last.hardConstraints, name); }
    }
  }

  /** The results of the last evaluation of every run, one run after the other. */
  function LastResults(logs: seq<seq<Event>>): seq<EvaluationResult>
    requires forall log | log in logs :: LastEvaluation(log).Some?
  {
    if logs == [] then []
    else LastResults(logs[..|logs| - 1]) + LastEvaluation(logs[|logs| - 1]).value.results
  }

  lemma {:induction false} InLastResults(logs: seq<seq<Event>>, log: seq<Event>, r: EvaluationResult)
    requires forall l | l in logs :: LastEvaluation(l).Some?
    requires log in logs && r in LastEvaluation(log).value.results
    ensures r in LastResults(logs)
  {
    if log != logs[|logs| - 1] { InLastResults(logs[..|logs| - 1], log, r); }
  }

  method DeriveConstraints(logs: seq<seq<Event>>) returns (r: Option<map<string, bool>>)
    ensures r.Some? <==> forall log | log in logs :: LastEvaluation(log).Some?
    ensures r.Some? ==> r.value == Verdicts(LastResults(logs))
  {
    var hardConstraints: map<string, bool> := map[];
    for i := 0 to |logs|
      invariant forall log | log in logs[..i] :: LastEvaluation(log).Some?
      invariant hardConstraints == Verdicts(LastResults(logs[..i]))
    {
      var completed := FindLastEvaluation(logs[i]);
      if completed.None? { return None; }
      assert logs[..i + 1][..i] == logs[..i];
      hardConstraints := AddResults(hardConstraints, completed.value.results, LastResults(logs[..i]));
    }
    assert logs[..|logs|] == logs;
    r := Some(hardConstraints);
  }

  lemma VerdictsNext(before: seq<EvaluationResult>, results: seq<EvaluationResult>, k: nat)
    requires k < |results|
    ensures Verdicts(before + results[..k + 1])
         == MergeReport(Verdicts(before + results[..k]), results[k].hardConstraints)
  {
    var longer := before + results[..k + 1];
    assert longer[..|longer| - 1] == before + results[..k] && longer[|longer| - 1] == results[k];
  }

  method AddResults(found: map<string, bool>, results: seq<EvaluationResult>, ghost before: seq<EvaluationResult>)
    returns (r: map<string, bool>)
    requires found == Verdicts(before)
    ensures r == Verdicts(before + results)
  {
    r := found;
    assert before + results[..0] == before;
    for k := 0 to |results|
      invariant r == Verdicts(before + results[..k])
    {
      VerdictsNext(before, results, k);
      r := AddReport(r, results[k].hardConstraints);
    }
    assert results[..|results|] == results;
  }

  method FindLastEvaluation(log: seq<Event>) returns (r: Option<GradingDecision>)
    ensures r == LastEvaluation(log)
  {
    r := None;
    for i := 0 to |log|
      invariant r == LastEvaluation(log[..i])
    {
      assert log[..i + 1][..i] == log[..i];
      if log[i].EvaluationCompleted? { r := Some(log[i].decision); }
    }
    assert log[..|log|] == log;
  }

  /** `hard_constraints[name] = hard_constraints.get(name, True) and bool(passed)` for every name. */
  method AddReport(found: map<string, bool>, constraints: map<string, bool>) returns (r: map<string, bool>)
    ensures r == MergeReport(found, constraints)
  {
    r := found;
    var stored := Stored(constraints);
    var names := stored.Keys;
    while names != {}
      invariant names <= stored.Keys
      invariant r.Keys == found.Keys + (stored.Keys - names)
      invariant forall name | name in r ::
        r[name] == ((name in found ==> found[name]) && (name in stored && name !in names ==> Truthy(stored[name])))
    {
      var name :| name in names;
      r := r[name := (if name in r then r[name] else true) && Truthy(stored[name])];
      names := names - {name};
    }
  }

  // ----- Deriving the evidence -----

  datatype EvidenceError =
    | NoBaseline | UnequalSets | RepeatedRuns | Unreadable | WrongVersion | NotTerminal | NoScore | Overridden
    | GoalsDiffer | GradersDiffer | PoliciesDiffer | NoEvaluation | NoRuns

  function BenchmarkError(s: Snapshot, expectedVersion: Id): Option<EvidenceError> {
    if s.definition.agentVersionId != Some(expectedVersion) then Some(WrongVersion)
    else if s.status != Succeeded && s.status != Failed then Some(NotTerminal)
    else if s.lastScore.None? then Some(NoScore)
    else if s.humanOverride then Some(Overridden)
    else None
  }

  function PairError(baseline: Snapshot, candidate: Snapshot, baselineVersion: Id, candidateVersion: Id)
    : Option<EvidenceError>
  {
    if BenchmarkError(baseline, baselineVersion).Some? then BenchmarkError(baseline, baselineVersion)
    else if BenchmarkError(candidate, candidateVersion).Some? then BenchmarkError(candidate, candidateVersion)
    else if baseline.definition.goal != candidate.definition.goal then Some(GoalsDiffer)
    else if baseline.definition.graderIds != candidate.definition.graderIds then Some(GradersDiffer)
    else if baseline.definition.gradingPolicy != candidate.definition.gradingPolicy then Some(PoliciesDiffer)
    else None
  }

  predicate Distinct(ids: seq<Id>) { forall i, j | 0 <= i < j < |ids| :: ids[i] != ids[j] }

  function LogsOf(store: map<Id, seq<Event>>, ids: seq<Id>): (logs: seq<seq<Event>>)
    ensures |logs| == |ids|
  {
    seq(|ids|, i requires 0 <= i < |ids| => if ids[i] in store then store[ids[i]] else [])
  }

  predicate AllReadable(logs: seq<seq<Event>>) { forall log | log in logs :: GetRun(log).Ok? }

  function Snapshots(logs: seq<seq<Event>>): (runs: seq<Snapshot>)
    requires AllReadable(logs)
    ensures |runs| == |logs|
  {
    seq(|logs|, i requires 0 <= i < |logs| => GetRun(logs[i]).value)
  }

  predicate AllScored(runs: seq<Snapshot>) { forall run | run in runs :: run.lastScore.Some? }

  function Scores(runs: seq<Snapshot>): (scores: seq<Score>)
    requires AllScored(runs)
    ensures |scores| == |runs|
  {
    seq(|runs|, i requires 0 <= i < |runs| => runs[i].lastScore.value)
  }

  function Costs(runs: seq<Snapshot>): (costs: seq<real>)
    ensures |costs| == |runs|
  {
    seq(|runs|, i requires 0 <= i < |runs| => runs[i].totalCost)
  }

  predicate PairsOk(baselines: seq<Snapshot>, candidates: seq<Snapshot>, baselineVersion: Id, candidateVersion: Id)
    requires |baselines| == |candidates|
  {
    forall i | 0 <= i < |baselines| :: PairError(baselines[i], candidates[i], baselineVersion, candidateVersion).None?
  }

  /** Everything the derivation demands. */
  predicate Derivable(store: map<Id, seq<Event>>, baselineIds: seq<Id>, candidateIds: seq<Id>, baseline: Option<Id>,
                      candidate: Id)
  {
    && baseline.Some? && |baselineIds| == |candidateIds| > 0 && Distinct(baselineIds + candidateIds)
    && AllReadable(LogsOf(store, baselineIds)) && AllReadable(LogsOf(store, candidateIds))
    && PairsOk(Snapshots(LogsOf(store, baselineIds)), Snapshots(LogsOf(store, candidateIds)), baseline.value, candidate)
  }

  /** The first complaint about the pairs from the i-th on. */
  function FirstPairError(baselines: seq<Snapshot>, candidates: seq<Snapshot>, baselineVersion: Id,
                          candidateVersion: Id, i: nat)
    : Option<EvidenceError>
    requires |baselines| == |candidates| && i <= |baselines|
    decreases |baselines| - i
  {
    if i == |baselines| then None
    else
      match PairError(baselines[i], candidates[i], baselineVersion, candidateVersion)
      case Some(error) => Some(error)
      case None => FirstPairError(baselines, candidates, baselineVersion, candidateVersion, i + 1)
  }

  /** The first demand that is not met, in the order of the checks. */
  function Refusal(store: map<Id, seq<Event>>, baselineIds: seq<Id>, candidateIds: seq<Id>, baseline: Option<Id>,
                   candidate: Id)
    : Option<EvidenceError>
  {
    if baseline.None? then Some(NoBaseline)
    else if |baselineIds| != |candidateIds| then Some(UnequalSets)
    else if !Distinct(baselineIds + candidateIds) then Some(RepeatedRuns)
    else if !AllReadable(LogsOf(store, baselineIds)) || !AllReadable(LogsOf(store, candidateIds)) then Some(Unreadable)
    else if baselineIds == [] then Some(NoRuns)
    else
      FirstPairError(Snapshots(LogsOf(store, baselineIds)), Snapshots(LogsOf(store, candidateIds)),
                     baseline.value, candidate, 0)
  }

  lemma PairsScored(baselines: seq<Snapshot>, candidates: seq<Snapshot>, baselineVersion: Id, candidateVersion: Id)
    requires |baselines| == |candidates| && PairsOk(baselines, candidates, baselineVersion, candidateVersion)
    ensures AllScored(baselines) && AllScored(candidates)
  {
    forall i | 0 <= i < |baselines| ensures baselines[i].lastScore.Some? && candidates[i].lastScore.Some? {
      assert PairError(baselines[i], candidates[i], baselineVersion, candidateVersion).None?;
    }
  }

  /** The score that replay reports is that of the last evaluation. */
  lemma {:induction false} ScoreIsOfLastEvaluation(log: seq<Event>)
    requires Started(log)
    ensures Replay(log).lastScore == match LastEvaluation(log) case None => None case Some(d) => Some(d.score)
  {
    if |log| > 1 {
      ScoreIsOfLastEvaluation(log[..|log| - 1]);
    } else {
      assert log[..0] == [];
    }
  }

  lemma ScoredAreEvaluated(logs: seq<seq<Event>>)
    requires AllReadable(logs) && AllScored(Snapshots(logs))
    ensures forall log | log in logs :: LastEvaluation(log).Some?
  {
    forall i | 0 <= i < |logs| ensures LastEvaluation(logs[i]).Some? {
      assert GetRun(logs[i]).Ok?;
      ScoreIsOfLastEvaluation(logs[i]);
      assert Snapshots(logs)[i].lastScore.Some?;
    }
  }

  function EvidenceOf(baselineLogs: seq<seq<Event>>, candidateLogs: seq<seq<Event>>, ids: seq<Id>): PromotionEvidence
    requires |baselineLogs| == |candidateLogs| > 0 && AllReadable(baselineLogs) && AllReadable(candidateLogs)
    requires AllScored(Snapshots(baselineLogs)) && AllScored(Snapshots(candidateLogs))
  {
    var baselines, candidates := Snapshots(baselineLogs), Snapshots(candidateLogs);
    ScoredAreEvaluated(candidateLogs);
    PromotionEvidence(
      MeanScore(Scores(baselines)),
      MeanScore(Scores(candidates)),
      Regressions(Scores(baselines), Scores(candidates)),
      Verdicts(LastResults(candidateLogs)),
      ids,
      Some(Mean(Costs(baselines))),
      Some(Mean(Costs(candidates))))
  }

  method LoadRuns(store: map<Id, seq<Event>>, ids: seq<Id>) returns (r: Option<seq<Snapshot>>)
    ensures r.Some? <==> AllReadable(LogsOf(store, ids))
    ensures r.Some? ==> r.value == Snapshots(LogsOf(store, ids))
  {
    var runs: seq<Snapshot> := [];
    for i := 0 to |ids|
      invariant |runs| == i
      invariant forall k | 0 <= k < i :: GetRun(LogsOf(store, ids)[k]) == Ok(runs[k])
    {
      var loaded := LoadRun(if ids[i] in store then store[ids[i]] else []);
      if loaded.Err? {
        assert LogsOf(store, ids)[i] in LogsOf(store, ids);
        return None;
      }
      runs := runs + [loaded.value];
    }
    r := Some(runs);
  }

  method CheckPairs(baselines: seq<Snapshot>, candidates: seq<Snapshot>, baselineVersion: Id, candidateVersion: Id)
    returns (r: Option<EvidenceError>)
    requires |baselines| == |candidates|
    ensures r == FirstPairError(baselines, candidates, baselineVersion, candidateVersion, 0)
    ensures r.None? <==> PairsOk(baselines, candidates, baselineVersion, candidateVersion)
  {
    for i := 0 to |baselines|
      invariant forall k | 0 <= k < i :: PairError(baselines[k], candidates[k], baselineVersion, candidateVersion).None?
      invariant FirstPairError(baselines, candidates, baselineVersion, candidateVersion, 0)
             == FirstPairError(baselines, candidates, baselineVersion, candidateVersion, i)
    {
      var error := PairError(baselines[i], candidates[i], baselineVersion, candidateVersion);
      if error.Some? { return error; }
    }
    r := None;
  }

  method DerivePromotionEvidence(
      store: map<Id, seq<Event>>, candidateVersionId: Id, baselineVersionId: Option<Id>,
      baselineRunIds: seq<Id>, candidateRunIds: seq<Id>)
    returns (r: Result<PromotionEvidence, EvidenceError>)
    ensures r.Ok? <==> Derivable(store, baselineRunIds, candidateRunIds, baselineVersionId, candidateVersionId)
    ensures r.Ok? ==>
      var baselineLogs, candidateLogs := LogsOf(store, baselineRunIds), LogsOf(store, candidateRunIds);
      && AllScored(Snapshots(baselineLogs)) && AllScored(Snapshots(candidateLogs))
      && r.value == EvidenceOf(baselineLogs, candidateLogs, baselineRunIds + candidateRunIds)
    ensures r.Err? ==>
      Refusal(store, baselineRunIds, candidateRunIds, baselineVersionId, candidateVersionId) == Some(r.error)
  {
    if baselineVersionId.None? { return Err(NoBaseline); }
    if |baselineRunIds| != |candidateRunIds| { return Err(UnequalSets); }
    var allIds := baselineRunIds + candidateRunIds;
    if exists i, j | 0 <= i < j < |allIds| :: allIds[i] == allIds[j] { return Err(RepeatedRuns); }
    var loadedBaselines := LoadRuns(store, baselineRunIds);
    if loadedBaselines.None? { return Err(Unreadable); }
    var loadedCandidates := LoadRuns(store, candidateRunIds);
    if loadedCandidates.None? { return Err(Unreadable); }
    var baselineRuns, candidateRuns := loadedBaselines.value, loadedCandidates.value;
    var failed := CheckPairs(baselineRuns, candidateRuns, baselineVersionId.value, candidateVersionId);
    if failed.Some? { return Err(failed.value); }
    PairsScored(baselineRuns, candidateRuns, baselineVersionId.value, candidateVersionId);
    ScoredAreEvaluated(LogsOf(store, candidateRunIds));
    var constraints := DeriveConstraints(LogsOf(store, candidateRunIds));
    if constraints.None? { return Err(NoEvaluation); }
    if baselineRuns == [] { return Err(NoRuns); }
    var baselineScores, candidateScores := Scores(baselineRuns), Scores(candidateRuns);
    r := Ok(PromotionEvidence(
      MeanScore(baselineScores), MeanScore(candidateScores), Regressions(baselineScores, candidateScores),
      constraints.value, allIds, Some(Mean(Costs(baselineRuns))), Some(Mean(Costs(candidateRuns)))));
  }

  // ----- What a promotion means -----

  lemma ConstraintsPassed(
      policy: PromotionPolicy, e: PromotionEvidence, logs: seq<seq<Event>>, log: seq<Event>,
      result: EvaluationResult, name: string)
    requires forall l | l in logs :: LastEvaluation(l).Some?
    requires e.hardConstraints == Verdicts(LastResults(logs)) && !Holds(policy, e, ConstraintFailed(name))
    requires log in logs && result in LastEvaluation(log).value.results && name in result.hardConstraints
    ensures result.hardConstraints[name] || Sensitive(SENSITIVE_KEYS, name)
  {
    InLastResults(logs, log, result);
    VerdictsMean(LastResults(logs), name);
  }

  lemma NothingFell(before: seq<Score>, after: seq<Score>)
    requires |before| == |after| > 0 && Regressions(before, after) == 0
    ensures Mean(before) <= Mean(after) && forall i | 0 <= i < |before| :: before[i] <= after[i]
  {
    NoRegressions(before, after);
    SumMonotone(before, after);
    Divide(Sum(before), Sum(after), |before| as real);
  }

  lemma DeltaReached(policy: PromotionPolicy, e: PromotionEvidence)
    requires !Holds(policy, e, LowDelta)
    ensures e.candidateScore - e.baselineScore >= policy.minimumScoreDelta - 0.0000000000005
  {
  }

  /** The evidence has passed the policy. */
  ghost predicate Passes(policy: PromotionPolicy, e: PromotionEvidence) { forall r :: !Holds(policy, e, r) }

  /** The cost limit binds only when the baseline cost something. */
  lemma CostLimit(policy: PromotionPolicy, e: PromotionEvidence)
    requires Passes(policy, e)
    requires policy.maximumCostMultiplier.Some? && e.baselineCost.Some? && e.candidateCost.Some?
    ensures e.baselineCost.value <= 0.0
            || e.candidateCost.value <= e.baselineCost.value * policy.maximumCostMultiplier.value
  {
    assert !Holds(policy, e, TooCostly);
  }

  lemma ScoresSuffice(policy: PromotionPolicy, e: PromotionEvidence)
    requires Passes(policy, e)
    ensures e.candidateScore >= policy.minimumCandidateScore && e.regressions <= policy.maximumRegressions
    ensures e.candidateScore - e.baselineScore >= policy.minimumScoreDelta - 0.0000000000005
  {
    assert !Holds(policy, e, LowScore) && !Holds(policy, e, TooManyRegressions) && !Holds(policy, e, LowDelta);
    DeltaReached(policy, e);
  }

  lemma NoneBlocks(
      policy: PromotionPolicy, e: PromotionEvidence, logs: seq<seq<Event>>, log: seq<Event>, result: EvaluationResult,
      name: string)
    requires Passes(policy, e) && forall l | l in logs :: LastEvaluation(l).Some?
    requires e.hardConstraints == Verdicts(LastResults(logs))
    requires log in logs && result in LastEvaluation(log).value.results && name in result.hardConstraints
    ensures result.hardConstraints[name] || Sensitive(SENSITIVE_KEYS, name)
  {
    assert !Holds(policy, e, ConstraintFailed(name));
    ConstraintsPassed(policy, e, logs, log, result, name);
  }

  /** When derived evidence passes: every constraint that the last evaluation of any candidate run reports
      is true, unless redaction rewrote its name's value; the mean score rose by the minimum, up to the
      rounding error; with no regressions allowed, no pair fell and the mean did not fall; and the mean cost
      stayed within its multiple of the baseline's, if that is not zero. */
  lemma PromotionSoundness(
      policy: PromotionPolicy, baselineLogs: seq<seq<Event>>, candidateLogs: seq<seq<Event>>, ids: seq<Id>,
      log: seq<Event>, result: EvaluationResult, name: string, i: nat)
    requires |baselineLogs| == |candidateLogs| > 0 && AllReadable(baselineLogs) && AllReadable(candidateLogs)
    requires AllScored(Snapshots(baselineLogs)) && AllScored(Snapshots(candidateLogs))
    requires Passes(policy, EvidenceOf(baselineLogs, candidateLogs, ids))
    ensures (&& log in candidateLogs && LastEvaluation(log).Some? && result in LastEvaluation(log).value.results
             && name in result.hardConstraints && !Sensitive(SENSITIVE_KEYS, name))
            ==> result.hardConstraints[name]
    ensures Mean(Scores(Snapshots(candidateLogs))) - Mean(Scores(Snapshots(baselineLogs)))
         >= policy.minimumScoreDelta - 0.0000000000005
    ensures Mean(Scores(Snapshots(candidateLogs))) >= policy.minimumCandidateScore
    ensures policy.maximumRegressions == 0 ==>
      && (i < |baselineLogs| ==> Scores(Snapshots(baselineLogs))[i] <= Scores(Snapshots(candidateLogs))[i])
      && Mean(Scores(Snapshots(baselineLogs))) <= Mean(Scores(Snapshots(candidateLogs)))
    ensures policy.maximumCostMultiplier.Some? && Mean(Costs(Snapshots(baselineLogs))) > 0.0 ==>
      Mean(Costs(Snapshots(candidateLogs)))
      <= Mean(Costs(Snapshots(baselineLogs))) * policy.maximumCostMultiplier.value
  {
    var e := EvidenceOf(baselineLogs, candidateLogs, ids);
    ScoresSuffice(policy, e);
    if policy.maximumCostMultiplier.Some? { CostLimit(policy, e); }
    if policy.maximumRegressions == 0 {
      NothingFell(Scores(Snapshots(baselineLogs)), Scores(Snapshots(candidateLogs)));
    }
    ScoredAreEvaluated(candidateLogs);
    if log in candidateLogs && result in LastEvaluation(log).value.results && name in result.hardConstraints {
      NoneBlocks(policy, e, candidateLogs, log, result, name);
    }
  }

  /** Exactly the constraints that block a promotion: somebody reported false under a name that redaction
      leaves alone. */
  lemma BlockingConstraint(policy: PromotionPolicy, e: PromotionEvidence, results: seq<EvaluationResult>, name: string)
    requires e.hardConstraints == Verdicts(results)
    ensures Holds(policy, e, ConstraintFailed(name)) <==>
      !Sensitive(SENSITIVE_KEYS, name)
      && exists r | r in results :: name in r.hardConstraints && !r.hardConstraints[name]
  {
    VerdictsMean(results, name);
  }

  /** A constraint called "secret" that failed does not block. */
  lemma FailedSecretPasses(graderId: string, score: Score)
    ensures var failed := EvaluationResult(graderId, score, map["secret" := false], [], false);
      Verdicts([failed]) == map["secret" := true]
  {
    var failed := EvaluationResult(graderId, score, map["secret" := false], [], false);
    assert Casefold("secret") == "secret";
    VerdictsMean([failed], "secret");
    forall name | name != "secret" ensures name !in Verdicts([failed]) { VerdictsMean([failed], name); }
  }
}
