/**
 What the evidence and the verdict of a promotion say, in terms of the replayed runs and of the numbers in
 the policy alone.
 */
module PromotionMeaning {
  import opened Json
  import opened Models
  import opened Grading
  import opened Redaction
  import opened RedactionMeaning
  import opened Runs
  import opened Promotion

  // ----- Rounding -----

  /** `r` is the integer nearest to `y`, and the even one of two that are equally near. */
  predicate NearestEven(y: real, r: int) {
    -0.5 <= r as real - y <= 0.5 && (r as real - y == 0.5 || r as real - y == -0.5 ==> r % 2 == 0)
  }

  lemma RoundsToNearestEven(y: real, r: int)
    ensures RoundHalfEven(y) == r <==> NearestEven(y, r)
  {
  }

  /** `delta` is `x` with twelve digits after the point. */
  predicate TwelveDigits(x: real, delta: real) {
    var n := (delta * 1000000000000.0).Floor;
    delta * 1000000000000.0 == n as real && NearestEven(x * 1000000000000.0, n)
  }

  lemma RoundedExactly(x: real, delta: real)
    ensures TwelveDigits(x, delta) <==> delta == Round12(x)
  {
    var n := RoundHalfEven(x * TWELVE_DIGITS);
    assert Round12(x) * 1000000000000.0 == n as real;
    RoundsToNearestEven(x * 1000000000000.0, n);
    RoundsToNearestEven(x * 1000000000000.0, (delta * 1000000000000.0).Floor);
  }

  // ----- The verdict -----

  /** Candidate costs above the allowed multiple of a positive baseline. */
  predicate Costly(p: PromotionPolicy, e: PromotionEvidence) {
    && p.maximumCostMultiplier.Some? && e.baselineCost.Some? && e.candidateCost.Some?
    && e.baselineCost.value > 0.0
    && e.candidateCost.value > e.baselineCost.value * p.maximumCostMultiplier.value
  }

  lemma ReasonsExactly(p: PromotionPolicy, e: PromotionEvidence, delta: real, name: string)
    requires TwelveDigits(e.candidateScore - e.baselineScore, delta)
    ensures Holds(p, e, LowScore) <==> e.candidateScore < p.minimumCandidateScore
    ensures Holds(p, e, LowDelta) <==> delta < p.minimumScoreDelta
    ensures Holds(p, e, TooManyRegressions) <==> e.regressions > p.maximumRegressions
    ensures Holds(p, e, ConstraintFailed(name)) <==> name in e.hardConstraints && !e.hardConstraints[name]
    ensures Holds(p, e, TooCostly) <==> Costly(p, e)
  {
    RoundedExactly(e.candidateScore - e.baselineScore, delta);
  }

  /** Evidence passes exactly if every number is within the policy's limit and no constraint failed. */
  lemma PassesExactly(p: PromotionPolicy, e: PromotionEvidence, delta: real)
    requires TwelveDigits(e.candidateScore - e.baselineScore, delta)
    ensures Passes(p, e) <==>
      && e.candidateScore >= p.minimumCandidateScore && delta >= p.minimumScoreDelta
      && e.regressions <= p.maximumRegressions && (forall name | name in e.hardConstraints :: e.hardConstraints[name])
      && !Costly(p, e)
  {
    ReasonsExactly(p, e, delta, "");
    forall name | name in e.hardConstraints
      ensures Holds(p, e, ConstraintFailed(name)) <==> !e.hardConstraints[name]
    { ReasonsExactly(p, e, delta, name); }
    if Passes(p, e) {
      assert !Holds(p, e, LowScore) && !Holds(p, e, LowDelta) && !Holds(p, e, TooManyRegressions);
      assert !Holds(p, e, TooCostly);
      forall name | name in e.hardConstraints ensures e.hardConstraints[name] {
        assert !Holds(p, e, ConstraintFailed(name));
      }
    }
  }

  // ----- Means and regressions -----

  lemma {:induction false} TotalSnoc(xs: seq<real>, x: real)
    ensures Total(xs + [x]) == Total(xs) + x
  {
    if xs == [] {
      assert [] + [x] == [x] && [x][1..] == [];
    } else {
      assert (xs + [x])[1..] == xs[1..] + [x];
      TotalSnoc(xs[1..], x);
    }
  }

  lemma {:induction false} SumIsTotal(xs: seq<real>)
    ensures Sum(xs) == Total(xs)
  {
    if xs != [] {
      var n := |xs| - 1;
      SumIsTotal(xs[..n]);
      TotalSnoc(xs[..n], xs[n]);
      assert xs == xs[..n] + [xs[n]];
    }
  }

  lemma {:induction false} TotalConcat(xs: seq<real>, ys: seq<real>)
    ensures Total(xs + ys) == Total(xs) + Total(ys)
  {
    if xs == [] {
      assert xs + ys == ys;
    } else {
      assert (xs + ys)[1..] == xs[1..] + ys;
      TotalConcat(xs[1..], ys);
    }
  }

  /** `m` times the number of values is their total. */
  predicate IsMean(m: real, xs: seq<real>) { xs != [] && m * |xs| as real == Total(xs) }

  lemma MeanTimesLength(xs: seq<real>)
    requires xs != []
    ensures IsMean(Mean(xs), xs)
  {
    SumIsTotal(xs);
  }

  /** The law that makes it the mean: one value is its own, and two lists weigh in by their lengths. */
  lemma MeanLaw(x: real, xs: seq<real>, ys: seq<real>)
    requires xs != [] && ys != []
    ensures Mean([x]) == x
    ensures Mean(xs + ys) * |xs + ys| as real == Mean(xs) * |xs| as real + Mean(ys) * |ys| as real
  {
    MeanTimesLength([x]);
    assert [x][1..] == [] && Total([x]) == x + Total([x][1..]);
    assert |[x]| as real == 1.0;
    MeanTimesLength(xs);
    MeanTimesLength(ys);
    MeanTimesLength(xs + ys);
    TotalConcat(xs, ys);
  }

  /** The pairs whose candidate fell below its baseline. */
  function Fallen(baseline: seq<Score>, candidate: seq<Score>): set<nat>
    requires |baseline| == |candidate|
  {
    set i: nat | i < |baseline| && candidate[i] < baseline[i]
  }

  lemma {:induction false} RegressionsCount(baseline: seq<Score>, candidate: seq<Score>)
    requires |baseline| == |candidate|
    ensures Regressions(baseline, candidate) == |Fallen(baseline, candidate)|
  {
    if baseline != [] {
      var n := |baseline| - 1;
      RegressionsCount(baseline[..n], candidate[..n]);
      assert Fallen(baseline, candidate)
          == Fallen(baseline[..n], candidate[..n]) + if candidate[n] < baseline[n] then {n} else {};
    }
  }

  // ----- The evidence -----

  /** What replay shows of the runs: one score and one cost for each. */
  predicate Shows(logs: seq<seq<Event>>, scores: seq<Score>, costs: seq<real>) {
    && |scores| == |costs| == |logs|
    && forall i | 0 <= i < |logs| ::
         GetRun(logs[i]).Ok? && GetRun(logs[i]).value.lastScore == Some(scores[i])
         && GetRun(logs[i]).value.totalCost == costs[i]
  }

  lemma ShownIsUsed(logs: seq<seq<Event>>, scores: seq<Score>, costs: seq<real>)
    requires Shows(logs, scores, costs) && AllReadable(logs) && AllScored(Snapshots(logs))
    ensures Scores(Snapshots(logs)) == scores && Costs(Snapshots(logs)) == costs
  {
  }

  lemma ShownIsReadable(logs: seq<seq<Event>>, scores: seq<Score>, costs: seq<real>)
    requires Shows(logs, scores, costs)
    ensures AllReadable(logs) && AllScored(Snapshots(logs))
  {
    forall run | run in Snapshots(logs) ensures run.lastScore.Some? {
      var i :| 0 <= i < |logs| && Snapshots(logs)[i] == run;
    }
  }

  lemma EvidenceIs(
      baselineLogs: seq<seq<Event>>, candidateLogs: seq<seq<Event>>, ids: seq<Id>,
      before: seq<Score>, after: seq<Score>, costBefore: seq<real>, costAfter: seq<real>)
    requires |baselineLogs| == |candidateLogs| > 0 && AllReadable(baselineLogs) && AllReadable(candidateLogs)
    requires AllScored(Snapshots(baselineLogs)) && AllScored(Snapshots(candidateLogs))
    requires Scores(Snapshots(baselineLogs)) == before && Scores(Snapshots(candidateLogs)) == after
    requires Costs(Snapshots(baselineLogs)) == costBefore && Costs(Snapshots(candidateLogs)) == costAfter
    ensures var e := EvidenceOf(baselineLogs, candidateLogs, ids);
      && e.baselineScore == Mean(before) && e.candidateScore == Mean(after)
      && e.regressions == Regressions(before, after) && e.benchmarkRunIds == ids
      && e.baselineCost == Some(Mean(costBefore)) && e.candidateCost == Some(Mean(costAfter))
  {
  }

  /** The derived evidence: the mean scores and costs of the replayed runs, the number of fallen pairs, the run
      ids, and the verdicts on the constraints. */
  lemma EvidenceExactly(
      baselineLogs: seq<seq<Event>>, candidateLogs: seq<seq<Event>>, ids: seq<Id>,
      before: seq<Score>, after: seq<Score>, costBefore: seq<real>, costAfter: seq<real>)
    requires |baselineLogs| == |candidateLogs| > 0 && AllReadable(baselineLogs) && AllReadable(candidateLogs)
    requires AllScored(Snapshots(baselineLogs)) && AllScored(Snapshots(candidateLogs))
    requires Shows(baselineLogs, before, costBefore) && Shows(candidateLogs, after, costAfter)
    ensures var e := EvidenceOf(baselineLogs, candidateLogs, ids);
      && IsMean(e.baselineScore, before) && IsMean(e.candidateScore, after)
      && e.regressions == |Fallen(before, after)| && e.benchmarkRunIds == ids
      && e.baselineCost.Some? && IsMean(e.baselineCost.value, costBefore)
      && e.candidateCost.Some? && IsMean(e.candidateCost.value, costAfter)
  {
    ShownIsUsed(baselineLogs, before, costBefore);
    ShownIsUsed(candidateLogs, after, costAfter);
    EvidenceIs(baselineLogs, candidateLogs, ids, before, after, costBefore, costAfter);
    RegressionsCount(before, after);
    MeanTimesLength(before);
    MeanTimesLength(after);
    MeanTimesLength(costBefore);
    MeanTimesLength(costAfter);
  }

  /** `d` is the decision of the last evaluation on the stream. */
  ghost predicate IsLastDecision(log: seq<Event>, d: GradingDecision) {
    exists i | 0 <= i < |log| ::
      log[i] == EvaluationCompleted(d) && forall j | i < j < |log| :: !log[j].EvaluationCompleted?
  }

  lemma LastDecisionNext(log: seq<Event>, e: Event, d: GradingDecision)
    ensures IsLastDecision(log + [e], d)
       <==> if e.EvaluationCompleted? then e.decision == d else IsLastDecision(log, d)
  {
    var next := log + [e];
    assert next[|log|] == e && forall i | 0 <= i < |log| :: next[i] == log[i];
    if e.EvaluationCompleted? && e.decision == d { assert next[|log|] == EvaluationCompleted(d); }
    if IsLastDecision(log, d) && !e.EvaluationCompleted? {
      var i :| 0 <= i < |log| && log[i] == EvaluationCompleted(d)
               && forall j | i < j < |log| :: !log[j].EvaluationCompleted?;
      assert next[i] == EvaluationCompleted(d);
    }
  }

  lemma {:induction false} LastDecisionExactly(log: seq<Event>, d: GradingDecision)
    ensures LastEvaluation(log) == Some(d) <==> IsLastDecision(log, d)
    ensures LastEvaluation(log) == None <==> forall e | e in log :: !e.EvaluationCompleted?
  {
    if log != [] {
      var n := |log| - 1;
      LastDecisionExactly(log[..n], d);
      LastDecisionNext(log[..n], log[n], d);
      UndecidedNext(log[..n], log[n]);
      assert log == log[..n] + [log[n]];
    }
  }

  lemma UndecidedNext(log: seq<Event>, e: Event)
    ensures (forall x | x in log + [e] :: !x.EvaluationCompleted?)
       <==> !e.EvaluationCompleted? && forall x | x in log :: !x.EvaluationCompleted?
  {
    assert e in log + [e] && forall x | x in log :: x in log + [e];
  }

  lemma {:induction false} ResultsExactly(logs: seq<seq<Event>>, r: EvaluationResult)
    requires forall log | log in logs :: LastEvaluation(log).Some?
    ensures r in LastResults(logs) <==> exists log | log in logs :: r in LastEvaluation(log).value.results
  {
    if logs != [] {
      var n := |logs| - 1;
      ResultsExactly(logs[..n], r);
      assert logs[n] in logs;
      forall log | log in logs && r in LastEvaluation(log).value.results ensures r in LastResults(logs) {
        InLastResults(logs, log, r);
      }
      if r in LastResults(logs[..n]) {
        var log :| log in logs[..n] && r in LastEvaluation(log).value.results;
        assert log in logs;
      }
    }
  }

  /** The verdicts in the evidence: a constraint has one if a last evaluation of a candidate run reports it, and
      it is true if all their reports are, or if the name is a secret's. */
  lemma VerdictsExactly(
      baselineLogs: seq<seq<Event>>, candidateLogs: seq<seq<Event>>, ids: seq<Id>, name: string)
    requires |baselineLogs| == |candidateLogs| > 0 && AllReadable(baselineLogs) && AllReadable(candidateLogs)
    requires AllScored(Snapshots(baselineLogs)) && AllScored(Snapshots(candidateLogs))
    ensures var e := EvidenceOf(baselineLogs, candidateLogs, ids);
      && (name in e.hardConstraints <==>
            exists log, d, r | log in candidateLogs :: Reports(log, d, r, name))
      && (name in e.hardConstraints ==>
            (e.hardConstraints[name] <==>
               NamesSecret(name)
               || forall log, d, r | log in candidateLogs && Reports(log, d, r, name) :: r.hardConstraints[name]))
  {
    ScoredAreEvaluated(candidateLogs);
    var results := LastResults(candidateLogs);
    VerdictsMean(results, name);
    SensitiveExactly(name);
    forall r ensures r in results && name in r.hardConstraints <==>
      exists log, d | log in candidateLogs :: Reports(log, d, r, name)
    { ReportedBySome(candidateLogs, r, name); }
  }

  /** `r` is a result of the last evaluation `d` of the run and reports on the constraint. */
  ghost predicate Reports(log: seq<Event>, d: GradingDecision, r: EvaluationResult, name: string) {
    IsLastDecision(log, d) && r in d.results && name in r.hardConstraints
  }

  lemma ReportedBySome(logs: seq<seq<Event>>, r: EvaluationResult, name: string)
    requires forall log | log in logs :: LastEvaluation(log).Some?
    ensures r in LastResults(logs) && name in r.hardConstraints
       <==> exists log, d | log in logs :: Reports(log, d, r, name)
  {
    ResultsExactly(logs, r);
    if r in LastResults(logs) && name in r.hardConstraints {
      var log :| log in logs && r in LastEvaluation(log).value.results;
      LastDecisionExactly(log, LastEvaluation(log).value);
      assert Reports(log, LastEvaluation(log).value, r, name);
    }
    forall log, d | log in logs && Reports(log, d, r, name) ensures r in LastEvaluation(log).value.results {
      LastDecisionExactly(log, d);
    }
  }

  // ----- The demands on the runs -----

  /** The demands on one run, in the order in which they are checked, each with what is wrong without it. */
  function RunDemands(s: Snapshot, version: Id): seq<(bool, EvidenceError)> {
    [(s.definition.agentVersionId == Some(version), WrongVersion),
     (s.status == Succeeded || s.status == Failed, NotTerminal),
     (s.lastScore != None, NoScore),
     (s.humanOverride == false, Overridden)]
  }

  /** What the two runs of a pair must have in common. */
  function PairDemands(b: Snapshot, c: Snapshot): seq<(bool, EvidenceError)> {
    [(b.definition.goal == c.definition.goal, GoalsDiffer),
     (b.definition.graderIds == c.definition.graderIds, GradersDiffer),
     (b.definition.gradingPolicy == c.definition.gradingPolicy, PoliciesDiffer)]
  }

  /** The first demand that is not met. */
  function FirstUnmet(demands: seq<(bool, EvidenceError)>): Option<EvidenceError> {
    if demands == [] then None else if !demands[0].0 then Some(demands[0].1) else FirstUnmet(demands[1..])
  }

  lemma {:induction false} FirstUnmetConcat(a: seq<(bool, EvidenceError)>, b: seq<(bool, EvidenceError)>)
    ensures FirstUnmet(a + b) == if FirstUnmet(a).Some? then FirstUnmet(a) else FirstUnmet(b)
  {
    if a == [] {
      assert a + b == b;
    } else {
      assert (a + b)[1..] == a[1..] + b;
      FirstUnmetConcat(a[1..], b);
    }
  }

  lemma FirstUnmetCons(d: (bool, EvidenceError), rest: seq<(bool, EvidenceError)>)
    ensures FirstUnmet([d] + rest) == if !d.0 then Some(d.1) else FirstUnmet(rest)
  {
    assert ([d] + rest)[1..] == rest;
  }

  lemma ThreeDemands(a: (bool, EvidenceError), b: (bool, EvidenceError), c: (bool, EvidenceError))
    ensures FirstUnmet([a, b, c])
         == if !a.0 then Some(a.1) else if !b.0 then Some(b.1) else if !c.0 then Some(c.1) else None
  {
    FirstUnmetCons(c, []);
    FirstUnmetCons(b, [c]);
    FirstUnmetCons(a, [b, c]);
    assert [c] + [] == [c] && [b] + [c] == [b, c] && [a] + [b, c] == [a, b, c];
  }

  lemma RunDemandsExactly(s: Snapshot, version: Id)
    ensures BenchmarkError(s, version) == FirstUnmet(RunDemands(s, version))
  {
    var demands := RunDemands(s, version);
    ThreeDemands(demands[1], demands[2], demands[3]);
    FirstUnmetCons(demands[0], [demands[1], demands[2], demands[3]]);
    assert demands == [demands[0]] + [demands[1], demands[2], demands[3]];
  }

  lemma PairDemandsExactly(b: Snapshot, c: Snapshot)
    ensures FirstUnmet(PairDemands(b, c))
         == if b.definition.goal != c.definition.goal then Some(GoalsDiffer)
            else if b.definition.graderIds != c.definition.graderIds then Some(GradersDiffer)
            else if b.definition.gradingPolicy != c.definition.gradingPolicy then Some(PoliciesDiffer)
            else None
  {
    var demands := PairDemands(b, c);
    ThreeDemands(demands[0], demands[1], demands[2]);
    assert demands == [demands[0], demands[1], demands[2]];
  }

  /** A pair is refused for the first demand that it does not meet: the baseline's, the candidate's, and what the
      two must share. */
  lemma DemandsExactly(b: Snapshot, c: Snapshot, baseline: Id, candidate: Id)
    ensures PairError(b, c, baseline, candidate)
         == FirstUnmet(RunDemands(b, baseline) + RunDemands(c, candidate) + PairDemands(b, c))
  {
    FirstUnmetConcat(RunDemands(b, baseline) + RunDemands(c, candidate), PairDemands(b, c));
    FirstUnmetConcat(RunDemands(b, baseline), RunDemands(c, candidate));
    RunDemandsExactly(b, baseline);
    RunDemandsExactly(c, candidate);
    PairDemandsExactly(b, c);
  }
}
