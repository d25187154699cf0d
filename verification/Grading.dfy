/** Combining grader results into one decision (grading/policy.py). */
module Grading {
  import opened Json
  import opened Models

  datatype GradingPolicy = GradingPolicy(
    threshold: Score,
    graderWeights: map<string, real>,
    requiredConstraints: seq<string>)

  datatype GradingDecision = GradingDecision(
    score: Score,
    passed: bool,
    failedConstraints: seq<string>,
    results: seq<EvaluationResult>)

  datatype GradingError = NoResults | BadWeights

  function Weight(policy: GradingPolicy, r: EvaluationResult): real {
    if r.graderId in policy.graderWeights then policy.graderWeights[r.graderId] else 1.0
  }

  function TotalWeight(policy: GradingPolicy, results: seq<EvaluationResult>): real {
    if results == [] then 0.0 else Weight(policy, results[0]) + TotalWeight(policy, results[1..])
  }

  function WeightedSum(policy: GradingPolicy, results: seq<EvaluationResult>): real {
    if results == [] then 0.0
    else results[0].score * Weight(policy, results[0]) + WeightedSum(policy, results[1..])
  }

  predicate WeightsUsable(policy: GradingPolicy, results: seq<EvaluationResult>) {
    (forall r | r in results :: Weight(policy, r) >= 0.0) && TotalWeight(policy, results) > 0.0
  }

  /** Somebody reported the constraint and everybody who did reported it true. */
  predicate ConstraintPassed(constraint: string, results: seq<EvaluationResult>) {
    && (exists r | r in results :: constraint in r.hardConstraints)
    && (forall r | r in results && constraint in r.hardConstraints :: r.hardConstraints[constraint])
  }

  function FailedConstraints(required: seq<string>, results: seq<EvaluationResult>): (failed: seq<string>)
    ensures forall c :: c in failed <==> c in required && !ConstraintPassed(c, results)
  {
    if required == [] then []
    else (if ConstraintPassed(required[0], results) then [] else [required[0]])
         + FailedConstraints(required[1..], results)
  }

  function Aggregate(policy: GradingPolicy, results: seq<EvaluationResult>): Result<GradingDecision, GradingError> {
    if results == [] then Err(NoResults)
    else if !WeightsUsable(policy, results) then Err(BadWeights)
    else
      MeanIsScore(policy, results);
      var score: Score := WeightedSum(policy, results) / TotalWeight(policy, results);
      var failed := FailedConstraints(policy.requiredConstraints, results);
      Ok(GradingDecision(score, score >= policy.threshold && failed == [], failed, results))
  }

  // ----- The weighted mean -----

  predicate Within(lo: real, hi: real, total: real, sum: real) { lo * total <= sum <= hi * total }

  lemma {:induction false} SumWithin(policy: GradingPolicy, results: seq<EvaluationResult>, lo: real, hi: real)
    requires forall r | r in results :: Weight(policy, r) >= 0.0 && lo <= r.score <= hi
    ensures Within(lo, hi, TotalWeight(policy, results), WeightedSum(policy, results))
  {
    if results != [] {
      var r, total, sum := results[0], TotalWeight(policy, results[1..]), WeightedSum(policy, results[1..]);
      SumWithin(policy, results[1..], lo, hi);
      AddWithin(lo, hi, r.score, Weight(policy, r), total, sum);
    }
  }

  lemma AddWithin(lo: real, hi: real, x: real, w: real, total: real, sum: real)
    requires lo <= x <= hi && w >= 0.0 && Within(lo, hi, total, sum)
    ensures Within(lo, hi, w + total, x * w + sum)
  {
    Scale(lo, x, w);
    Scale(x, hi, w);
  }

  lemma Scale(x: real, y: real, w: real)
    requires x <= y && w >= 0.0
    ensures x * w <= y * w
  {
    assert (y - x) * w >= 0.0;
  }

  lemma DivideWithin(sum: real, total: real, lo: real, hi: real)
    requires total > 0.0 && lo * total <= sum <= hi * total
    ensures lo <= sum / total <= hi
  {
    var q := sum / total;
    assert q * total == sum;
    Cancel(q - lo, total);
    Cancel(hi - q, total);
  }

  lemma Cancel(x: real, w: real)
    requires w > 0.0 && x * w >= 0.0
    ensures x >= 0.0
  {
  }

  lemma MeanIsScore(policy: GradingPolicy, results: seq<EvaluationResult>)
    requires WeightsUsable(policy, results)
    ensures 0.0 <= WeightedSum(policy, results) / TotalWeight(policy, results) <= 1.0
  {
    SumWithin(policy, results, 0.0, 1.0);
    DivideWithin(WeightedSum(policy, results), TotalWeight(policy, results), 0.0, 1.0);
  }

  /** The combined score lies between the lowest and the highest result. */
  lemma ScoreBetweenResults(policy: GradingPolicy, results: seq<EvaluationResult>, lo: real, hi: real)
    requires Aggregate(policy, results).Ok?
    requires forall r | r in results :: lo <= r.score <= hi
    ensures lo <= Aggregate(policy, results).value.score <= hi
  {
    SumWithin(policy, results, lo, hi);
    DivideWithin(WeightedSum(policy, results), TotalWeight(policy, results), lo, hi);
  }

  // ----- When a decision passes -----

  /** Passing is exactly: the weighted mean reaches the threshold, and every required constraint was
      reported and never reported false. */
  lemma PassedExactly(policy: GradingPolicy, results: seq<EvaluationResult>)
    requires Aggregate(policy, results).Ok?
    ensures var d := Aggregate(policy, results).value;
      && d.results == results
      && d.score * TotalWeight(policy, results) == WeightedSum(policy, results)
      && (d.passed <==>
          (d.score >= policy.threshold
           && forall c | c in policy.requiredConstraints ::
             (exists r | r in results :: c in r.hardConstraints)
             && forall r | r in results && c in r.hardConstraints :: r.hardConstraints[c]))
  {
    var failed := FailedConstraints(policy.requiredConstraints, results);
    if failed != [] { assert failed[0] in failed; }
    assert forall c | c in policy.requiredConstraints :: c in failed <==> !ConstraintPassed(c, results);
  }

  // ----- The weights -----

  /** One weight for every result: the configured one, or 1. */
  predicate Weighed(policy: GradingPolicy, results: seq<EvaluationResult>, ws: seq<real>) {
    && |ws| == |results|
    && forall i | 0 <= i < |results| ::
         ws[i] == if results[i].graderId in policy.graderWeights
                  then policy.graderWeights[results[i].graderId] else 1.0
  }

  function Total(ws: seq<real>): real { if ws == [] then 0.0 else ws[0] + Total(ws[1..]) }

  /** The sum of the scores, each times its weight. */
  function Dot(results: seq<EvaluationResult>, ws: seq<real>): real
    requires |ws| == |results|
  {
    if ws == [] then 0.0 else results[0].score * ws[0] + Dot(results[1..], ws[1..])
  }

  lemma {:induction false} WeighedSums(policy: GradingPolicy, results: seq<EvaluationResult>, ws: seq<real>)
    requires Weighed(policy, results, ws)
    ensures TotalWeight(policy, results) == Total(ws) && WeightedSum(policy, results) == Dot(results, ws)
  {
    if results != [] {
      WeighedSums(policy, results[1..], ws[1..]);
      assert Weight(policy, results[0]) == ws[0];
    }
  }

  lemma UsableWeights(policy: GradingPolicy, results: seq<EvaluationResult>, ws: seq<real>)
    requires Weighed(policy, results, ws)
    ensures WeightsUsable(policy, results) <==> (forall w | w in ws :: w >= 0.0) && Total(ws) > 0.0
  {
    WeighedSums(policy, results, ws);
    forall i | 0 <= i < |results| ensures Weight(policy, results[i]) == ws[i] && results[i] in results && ws[i] in ws {}
  }

  lemma ErrorsExactly(policy: GradingPolicy, results: seq<EvaluationResult>, ws: seq<real>)
    requires Weighed(policy, results, ws)
    ensures Aggregate(policy, results) == Err(NoResults) <==> results == []
    ensures Aggregate(policy, results) == Err(BadWeights) <==>
      results != [] && ((exists w | w in ws :: w < 0.0) || Total(ws) <= 0.0)
  {
    UsableWeights(policy, results, ws);
  }

  /** The decision, with nothing but the configured weights: the score is the weighted mean; without results,
      or with a negative weight or no positive total, there is none. */
  lemma AggregateExactly(policy: GradingPolicy, results: seq<EvaluationResult>, ws: seq<real>)
    requires Weighed(policy, results, ws)
    ensures Aggregate(policy, results) == Err(NoResults) <==> results == []
    ensures Aggregate(policy, results) == Err(BadWeights) <==>
      results != [] && ((exists w | w in ws :: w < 0.0) || Total(ws) <= 0.0)
    ensures Aggregate(policy, results).Ok? ==>
      var d := Aggregate(policy, results).value;
      && d.score * Total(ws) == Dot(results, ws)
      && (d.passed <==> d.score >= policy.threshold && Unmet(policy, results) == {})
      && (forall c :: c in d.failedConstraints <==> c in Unmet(policy, results))
      && d.results == results
  {
    ErrorsExactly(policy, results, ws);
    if Aggregate(policy, results).Ok? {
      DecidedMean(policy, results, ws);
      PassedExactly(policy, results);
      FailedAreUnmet(policy, results);
    }
  }

  lemma DecidedMean(policy: GradingPolicy, results: seq<EvaluationResult>, ws: seq<real>)
    requires Weighed(policy, results, ws) && Aggregate(policy, results).Ok?
    ensures Aggregate(policy, results).value.score * Total(ws) == Dot(results, ws)
  {
    WeighedSums(policy, results, ws);
  }

  /** The required constraints that nobody reported or somebody reported false. */
  function Unmet(policy: GradingPolicy, results: seq<EvaluationResult>): set<string> {
    set c | c in policy.requiredConstraints
            && ((forall r | r in results :: c !in r.hardConstraints)
                || exists r | r in results :: c in r.hardConstraints && !r.hardConstraints[c])
  }

  lemma FailedAreUnmet(policy: GradingPolicy, results: seq<EvaluationResult>)
    ensures var failed := FailedConstraints(policy.requiredConstraints, results);
      (forall c :: c in failed <==> c in Unmet(policy, results)) && (failed == [] <==> Unmet(policy, results) == {})
  {
    var failed := FailedConstraints(policy.requiredConstraints, results);
    forall c | c in policy.requiredConstraints ensures c in failed <==> c in Unmet(policy, results) {}
    if failed != [] { assert failed[0] in failed; }
  }

  /** The weights of some results. */
  function WeightsOf(policy: GradingPolicy, results: seq<EvaluationResult>): (ws: seq<real>)
    ensures Weighed(policy, results, ws)
  {
    seq(|results|, i requires 0 <= i < |results| =>
      if results[i].graderId in policy.graderWeights then policy.graderWeights[results[i].graderId] else 1.0)
  }

  // ----- A grader that crashes never helps -----

  /** The result that stands in for a grader that raised. */
  function FailedGrade(graderId: string, errorType: string): EvaluationResult {
    EvaluationResult(graderId, 0.0, map[], ["Grader failed: " + errorType], false)
  }

  lemma {:induction false} SumMonotone(policy: GradingPolicy, a: seq<EvaluationResult>, b: seq<EvaluationResult>)
    requires |a| == |b|
    requires forall i | 0 <= i < |a| :: a[i].graderId == b[i].graderId && a[i].score <= b[i].score
    requires forall r | r in a :: Weight(policy, r) >= 0.0
    ensures TotalWeight(policy, a) == TotalWeight(policy, b)
    ensures WeightedSum(policy, a) <= WeightedSum(policy, b)
  {
    if a != [] {
      SumMonotone(policy, a[1..], b[1..]);
      AddMonotone(a[0].score, b[0].score, Weight(policy, a[0]), WeightedSum(policy, a[1..]),
                  WeightedSum(policy, b[1..]));
    }
  }

  lemma AddMonotone(x: real, y: real, w: real, a: real, b: real)
    requires x <= y && w >= 0.0 && a <= b
    ensures x * w + a <= y * w + b
  {
    var p, q := x * w, y * w;
    assert p <= q by { Scale(x, y, w); }
    assert p + a <= q + b;
  }

  /** If the decision passes although grader `i` crashed, it also passes with any
      result that grader could have returned whose reports are all true. */
  lemma CrashNeverHelps(policy: GradingPolicy, results: seq<EvaluationResult>, i: nat, errorType: string)
    requires i < |results| && forall c | c in results[i].hardConstraints :: results[i].hardConstraints[c]
    requires var crashed := results[i := FailedGrade(results[i].graderId, errorType)];
             Aggregate(policy, crashed).Ok? && Aggregate(policy, crashed).value.passed
    ensures Aggregate(policy, results).Ok? && Aggregate(policy, results).value.passed
  {
    var crashed := results[i := FailedGrade(results[i].graderId, errorType)];
    forall r | r in results ensures Weight(policy, r) >= 0.0 {
      var j :| 0 <= j < |results| && results[j] == r;
      assert crashed[j] in crashed;
    }
    SumMonotone(policy, crashed, results);
    var w := TotalWeight(policy, results);
    assert w > 0.0;
    DivideMonotone(WeightedSum(policy, crashed), WeightedSum(policy, results), w);
    PassedExactly(policy, crashed);
    forall c | c in policy.requiredConstraints ensures ConstraintPassed(c, results) {
      assert ConstraintPassed(c, crashed);
      ReportsSurvive(c, results, i, errorType);
    }
    PassedExactly(policy, results);
  }

  lemma ReportsSurvive(c: string, results: seq<EvaluationResult>, i: nat, errorType: string)
    requires i < |results| && forall c | c in results[i].hardConstraints :: results[i].hardConstraints[c]
    requires ConstraintPassed(c, results[i := FailedGrade(results[i].graderId, errorType)])
    ensures ConstraintPassed(c, results)
  {
    var crashed := results[i := FailedGrade(results[i].graderId, errorType)];
    var r :| r in crashed && c in r.hardConstraints;
    var j :| 0 <= j < |crashed| && crashed[j] == r;
    assert j != i && results[j] == r && results[j] in results;
    forall q | q in results && c in q.hardConstraints ensures q.hardConstraints[c] {
      var k :| 0 <= k < |results| && results[k] == q;
      if k != i { assert crashed[k] == q && crashed[k] in crashed; }
    }
  }

  lemma DivideMonotone(a: real, b: real, w: real)
    requires a <= b && w > 0.0
    ensures a / w <= b / w
  {
    DivideWithin(b, w, a / w, b / w);
    assert a / w * w == a;
  }
}
