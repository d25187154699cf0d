/** When a run can be read: what a replay validates again, and what every move does to it. */
module Readability {
  import opened Json
  import opened Models
  import opened Grading
  import opened Runs
  import opened Redaction
  import opened RedactionProofs
  import opened Definitions
  import opened Engine
  import opened Ledger
  import opened EngineInvariants
  import opened EngineTheorems
  import opened EngineBounds
  import opened EngineHints
  import opened HintKeys

  // ----- Stored hints -----

  /** Redaction lengthens neither the key nor the target of the draft beyond what a hint may have. */
  predicate Fits(x: HintDraft) { |RedactText(x.deduplicationKey)| <= 256 && |RedactText(x.target)| <= 128 }

  predicate Legible(drafts: seq<HintDraft>) { forall x | x in drafts :: Fits(x) }

  lemma StoredDraft(x: HintDraft, createdAt: nat)
    ensures var h := StoredHint(x.target, x.instruction, createdAt, x.expiresAfterSteps, x.deduplicationKey);
      h.WithinBounds() <==> Fits(x)
  {
    NonEmptyText(x.target);
    NonEmptyText(x.deduplicationKey);
  }

  /** Every hint in the batch can be read back. */
  predicate HintsFit(batch: seq<Event>) { forall e | e in batch && e.HintPublished? :: e.hint.WithinBounds() }

  lemma SplitFit(batch: seq<Event>)
    requires batch != [] && batch[0].HintPublished?
    ensures HintsFit(batch) <==> batch[0].hint.WithinBounds() && HintsFit(batch[1..])
  {
    assert batch == [batch[0]] + batch[1..];
  }

  lemma SplitLegible(drafts: seq<HintDraft>)
    requires drafts != []
    ensures Legible(drafts) <==> Fits(drafts[0]) && Legible(drafts[1..])
  {
    assert drafts == [drafts[0]] + drafts[1..];
  }

  lemma {:induction false} HintEventsFit(drafts: seq<HintDraft>, a: Attempt)
    ensures HintsFit(HintEvents(drafts, a)) <==> Legible(drafts)
    decreases |drafts|
  {
    if drafts != [] {
      HintEventsFit(drafts[1..], a);
      StoredDraft(drafts[0], if a.inlineDelivery then a.number else a.number + 1);
      SplitFit(HintEvents(drafts, a));
      SplitLegible(drafts);
    }
  }

  lemma FewDigits(n: nat)
    requires n <= 100
    ensures |Digits(n)| <= 3
  {
    assert n / 10 <= 10 && n / 10 / 10 <= 1;
  }

  lemma FeedbackFits(n: nat, results: seq<EvaluationResult>)
    requires n <= 100
    ensures FeedbackHint(n, results).WithinBounds()
  {
    EvaluationKeyStable(n);
    FewDigits(n);
  }

  lemma SeenHints(v: View, e: Event)
    ensures HintsValid(See(v, e).run) <==> HintsValid(v.run) && (e.HintPublished? ==> e.hint.WithinBounds())
  {
    HintsAfter(v.run, e);
  }

  lemma {:induction false} ThenHintsValid(v: View, batch: seq<Event>)
    ensures HintsValid(Then(v, batch).run) <==> HintsValid(v.run) && HintsFit(batch)
    decreases |batch|
  {
    if batch != [] {
      SeenHints(v, batch[0]);
      ThenHintsValid(See(v, batch[0]), batch[1..]);
      assert batch == [batch[0]] + batch[1..];
    }
  }

  /** The drafts that a move publishes. */
  function Published(m: Machine, mv: Move): seq<HintDraft> {
    if mv.PublishHints? && m.live.Some? && m.live.value.phase.Reviewed?
    then NewDrafts(m.live.value.phase.directive.hints, m.live.value.publishedKeys) else []
  }

  lemma OtherHintsFit(a: Attempt, mv: Move)
    requires !(mv.PublishHints? && a.phase.Reviewed?)
    ensures HintsFit(AttemptEffect(a, mv).batch)
  {
    if mv.Conclude? && a.phase.Decided? && a.number <= a.base.definition.supervisorPolicy.maxRetries {
      FeedbackFits(a.number, a.phase.decision.results);
    }
  }

  lemma MoveHints(m: Machine, mv: Move)
    requires Started(m.log)
    ensures HintsFit(EffectOf(m, mv).batch) <==> Legible(Published(m, mv))
  {
    if m.live.None? || Outside(mv) {
      CommandsPublishNothing(m, mv);
    } else {
      HintsOfMove(m, mv);
      var a := m.live.value;
      if mv.PublishHints? && a.phase.Reviewed? {
        HintEventsFit(Published(m, mv), a);
      } else {
        OtherHintsFit(a, mv);
      }
    }
  }

  lemma HintsStep(m: Machine, mv: Move)
    requires Started(m.log)
    ensures HintsValid(Replay(Step(m, mv).log)) <==> HintsValid(Replay(m.log)) && Legible(Published(m, mv))
  {
    MoveHints(m, mv);
    ViewAppend(m.log, EffectOf(m, mv).batch);
    ThenHintsValid(ViewOf(m.log), EffectOf(m, mv).batch);
  }

  // ----- Totals -----

  predicate NoResult(batch: seq<Event>) { forall e | e in batch :: !e.ExecutionCompleted? }

  lemma SeenTotals(v: View, e: Event)
    requires !e.ExecutionCompleted?
    ensures See(v, e).run.totalTokens == v.run.totalTokens && See(v, e).run.totalCost == v.run.totalCost
  {
  }

  lemma {:induction false} ThenTotals(v: View, batch: seq<Event>)
    requires NoResult(batch)
    ensures Then(v, batch).run.totalTokens == v.run.totalTokens && Then(v, batch).run.totalCost == v.run.totalCost
    decreases |batch|
  {
    if batch != [] {
      assert batch[0] in batch;
      SeenTotals(v, batch[0]);
      ThenTotals(See(v, batch[0]), batch[1..]);
    }
  }

  lemma AttemptResults(a: Attempt, mv: Move)
    requires !(mv.HarnessReturns? && a.phase == Executing)
    ensures NoResult(AttemptEffect(a, mv).batch)
  {
    if mv.PublishHints? && a.phase.Reviewed? {
      HintsAreNoStart(NewDrafts(a.phase.directive.hints, a.publishedKeys), a);
    }
  }

  /** The move appends a result. */
  predicate Returns(m: Machine, mv: Move) { mv.HarnessReturns? && m.live.Some? && m.live.value.phase == Executing }

  lemma MoveResults(m: Machine, mv: Move)
    requires !Returns(m, mv)
    ensures NoResult(EffectOf(m, mv).batch)
  {
    if m.live.Some? && !Outside(mv) { AttemptResults(m.live.value, mv); }
  }

  lemma TotalsStay(m: Machine, mv: Move)
    requires Started(m.log) && !Returns(m, mv)
    ensures Replay(Step(m, mv).log).totalTokens == Replay(m.log).totalTokens
    ensures Replay(Step(m, mv).log).totalCost == Replay(m.log).totalCost
  {
    MoveResults(m, mv);
    ViewAppend(m.log, EffectOf(m, mv).batch);
    ThenTotals(ViewOf(m.log), EffectOf(m, mv).batch);
  }

  lemma TotalsGrow(m: Machine, mv: Move)
    requires Started(m.log) && Returns(m, mv)
    ensures Replay(Step(m, mv).log).totalTokens == Replay(m.log).totalTokens + mv.tokens
    ensures Replay(Step(m, mv).log).totalCost == Replay(m.log).totalCost + mv.cost
    ensures Step(m, mv).live == Some(m.live.value.(phase := Completed(mv.tokens, mv.cost)))
  {
    var e := ReturnEffect(m.live.value, mv.output, mv.tokens, mv.cost);
    assert EffectOf(m, mv) == e;
    ReplayNext(m.log, e.batch[0]);
  }

  // ----- Readable runs -----

  /** The move appends a result that makes a total negative. */
  predicate Underflows(m: Machine, mv: Move)
    requires Started(m.log)
  {
    Returns(m, mv) && (Replay(m.log).totalTokens + mv.tokens < 0 || Replay(m.log).totalCost + mv.cost < 0.0)
  }

  /** What makes a readable run unreadable: a total below zero, or a hint that outgrew its bounds. */
  lemma ReadableStepExactly(m: Machine, mv: Move)
    requires GetRun(m.log).Ok?
    ensures GetRun(Step(m, mv).log).Ok? <==> !Underflows(m, mv) && Legible(Published(m, mv))
  {
    ViewAppend(m.log, EffectOf(m, mv).batch);
    HintsStep(m, mv);
    if Returns(m, mv) { TotalsGrow(m, mv); } else { TotalsStay(m, mv); }
  }

  /** What a caller can check of the collaborators: no negative usage, and no draft whose key or target
      redaction makes too long. */
  predicate Careful(mv: Move) {
    && (mv.HarnessReturns? ==> mv.tokens >= 0 && mv.cost >= 0.0)
    && (mv.Review? ==> Legible(mv.directive.hints))
  }

  /** The directive under way is legible. */
  predicate Tame(m: Machine) {
    m.live.Some? && m.live.value.phase.Reviewed? ==> Legible(m.live.value.phase.directive.hints)
  }

  lemma TameAttempt(a: Attempt, mv: Move)
    requires Careful(mv) && (a.phase.Reviewed? ==> Legible(a.phase.directive.hints))
    ensures var e := AttemptEffect(a, mv);
      e.live.Some? && e.live.value.phase.Reviewed? ==> Legible(e.live.value.phase.directive.hints)
  {
    OnlyReviewReviews(a, mv);
  }

  lemma TameStep(m: Machine, mv: Move)
    requires Tame(m) && Careful(mv)
    ensures Tame(Step(m, mv)) && Legible(Published(m, mv))
  {
    if m.live.Some? && !Outside(mv) {
      HintsOfMove(m, mv);
      TameAttempt(m.live.value, mv);
      if Published(m, mv) != [] { NewDraftsAre(m.live.value.phase.directive.hints, m.live.value.publishedKeys); }
    }
  }

  lemma {:induction false} CarefulRun(m: Machine, moves: seq<Move>)
    requires GetRun(m.log).Ok? && Tame(m) && forall mv | mv in moves :: Careful(mv)
    ensures GetRun(Run(m, moves).log).Ok? && Tame(Run(m, moves))
  {
    if moves != [] {
      var before, mv := moves[..|moves| - 1], moves[|moves| - 1];
      assert mv in moves;
      CarefulRun(m, before);
      TameStep(Run(m, before), mv);
      ReadableStepExactly(Run(m, before), mv);
    }
  }

  /** The run that `create_run` opens. */
  function Opened(sensitive: set<string>, definition: RunDefinition): Machine {
    Machine([Creation(sensitive, definition)], None)
  }

  lemma OpenedIsInitial(sensitive: set<string>, definition: RunDefinition)
    requires Survives(sensitive, definition)
    ensures Opened(sensitive, definition) == Initial(Stored(sensitive, definition))
    ensures GetRun(Opened(sensitive, definition).log) == Ok(Fresh(Stored(sensitive, definition)))
  {
    assert Replay(Opened(sensitive, definition).log) == Fresh(Stored(sensitive, definition));
  }

  /** A run whose definition survives redaction can always be read while its collaborators are careful. */
  lemma AlwaysReadable(sensitive: set<string>, definition: RunDefinition, moves: seq<Move>)
    requires Survives(sensitive, definition) && forall mv | mv in moves :: Careful(mv)
    ensures GetRun(Run(Opened(sensitive, definition), moves).log).Ok?
  {
    OpenedIsInitial(sensitive, definition);
    CarefulRun(Opened(sensitive, definition), moves);
  }

  // ----- Unreadable runs -----

  lemma FrozenStep(m: Machine, mv: Move)
    requires m.live.None? && GetRun(m.log).Err?
    ensures Step(m, mv).live.None? && m.log <= Step(m, mv).log
    ensures Step(m, mv).log == m.log || (mv.GraderFailsLate? && Step(m, mv).log == m.log + [GraderFailed(mv.graderId)])
    ensures !Graded(m.log) ==> Step(m, mv) == m
  {
    assert m.log + [] == m.log;
  }

  lemma StaysErr(log: seq<Event>, graderId: string)
    requires GetRun(log).Err? && log != []
    ensures GetRun(log + [GraderFailed(graderId)]).Err?
  {
    assert (log + [GraderFailed(graderId)])[0] == log[0];
    if Started(log) {
      ReplayNext(log, GraderFailed(graderId));
      assert Replay(log + [GraderFailed(graderId)]).hints == Replay(log).hints;
    }
  }

  /** An idle run that cannot be read never changes again: every command and every start refuses it, and
      nothing but the failures of straggling graders is appended. */
  lemma {:induction false} UnreadableIsFrozen(m: Machine, moves: seq<Move>)
    requires m.log != [] && m.live.None? && GetRun(m.log).Err?
    ensures var n := Run(m, moves);
      && n.live.None? && GetRun(n.log).Err?
      && (forall i | |m.log| <= i < |n.log| :: n.log[i].GraderFailed?)
      && (!Graded(m.log) ==> n == m)
  {
    if moves != [] {
      var before, mv := Run(m, moves[..|moves| - 1]), moves[|moves| - 1];
      UnreadableIsFrozen(m, moves[..|moves| - 1]);
      FrozenStep(before, mv);
      if Step(before, mv).log != before.log { StaysErr(before.log, mv.graderId); }
    }
  }

  /** A definition that does not survive redaction: the run was created, and nobody ever reads it. */
  lemma UnstorableIsFatal(sensitive: set<string>, definition: RunDefinition, moves: seq<Move>)
    requires !Survives(sensitive, definition)
    ensures Run(Opened(sensitive, definition), moves) == Opened(sensitive, definition)
    ensures GetRun(Opened(sensitive, definition).log) == Err(MalformedDefinition)
  {
    UnreadableIsFrozen(Opened(sensitive, definition), moves);
  }

  /** Every run of careful collaborators can be read. */
  ghost predicate StaysReadable(sensitive: set<string>, definition: RunDefinition) {
    forall moves | (forall mv | mv in moves :: Careful(mv)) ::
      GetRun(Run(Opened(sensitive, definition), moves).log).Ok?
  }

  /** The condition on the definition is exact. */
  lemma ReadableExactly(sensitive: set<string>, definition: RunDefinition)
    ensures StaysReadable(sensitive, definition) <==> Survives(sensitive, definition)
  {
    if Survives(sensitive, definition) {
      forall moves | (forall mv | mv in moves :: Careful(mv))
        ensures GetRun(Run(Opened(sensitive, definition), moves).log).Ok?
      { AlwaysReadable(sensitive, definition, moves); }
    } else {
      var none: seq<Move> := [];
      UnstorableIsFatal(sensitive, definition, none);
      assert forall mv | mv in none :: Careful(mv);
    }
  }

  /** Beyond repair: a stored hint is too long, or a total is negative and no result of this attempt is still
      to come. */
  predicate Doomed(m: Machine) {
    && Started(m.log)
    && (!HintsValid(Replay(m.log))
        || (!TotalsValid(Replay(m.log)) && (m.live.Some? ==> !InHarness(m.live.value.phase))))
  }

  lemma DoneWithHarness(a: Attempt, mv: Move)
    requires !InHarness(a.phase)
    ensures var e := AttemptEffect(a, mv); e.live.Some? ==> !InHarness(e.live.value.phase)
  {
  }

  lemma OutsideDoomed(m: Machine, mv: Move)
    requires Started(m.log) && !Valid(Replay(m.log)) && (m.live.None? || Outside(mv))
    ensures Step(m, mv).live == m.live
  {
  }

  lemma DoomedStep(m: Machine, mv: Move)
    requires Doomed(m)
    ensures Doomed(Step(m, mv))
  {
    ViewAppend(m.log, EffectOf(m, mv).batch);
    HintsStep(m, mv);
    if HintsValid(Replay(m.log)) {
      TotalsStay(m, mv);
      if m.live.None? || Outside(mv) { OutsideDoomed(m, mv); } else { DoneWithHarness(m.live.value, mv); }
    }
  }

  lemma DoomedNeverStarts(m: Machine, mv: Move)
    requires Started(m.log) && !Valid(Replay(m.log))
    ensures Starts(Step(m, mv).log) == Starts(m.log)
  {
    if m.live.None? || Outside(mv) {
      OutsideStarts(m, mv);
    } else {
      HintsOfMove(m, mv);
      AttemptsDoNotStart(m.live.value, mv);
    }
    StepAppends(m, mv, EffectOf(m, mv));
    StartsAppend(m.log, EffectOf(m, mv).batch);
  }

  lemma OutsideStarts(m: Machine, mv: Move)
    requires Started(m.log) && !Valid(Replay(m.log)) && (m.live.None? || Outside(mv))
    ensures NoStart(EffectOf(m, mv).batch)
  {
  }

  lemma {:induction false} DoomedRun(m: Machine, moves: seq<Move>)
    requires Doomed(m)
    ensures Doomed(Run(m, moves)) && GetRun(Run(m, moves).log).Err? && Starts(Run(m, moves).log) == Starts(m.log)
  {
    if moves != [] {
      DoomedRun(m, moves[..|moves| - 1]);
      DoomedStep(Run(m, moves[..|moves| - 1]), moves[|moves| - 1]);
      DoomedNeverStarts(Run(m, moves[..|moves| - 1]), moves[|moves| - 1]);
    }
  }

  /** One result that makes a total negative makes the run unreadable for good, whatever else happens, and no
      attempt ever starts again. */
  lemma NegativeUsageIsFatal(m: Machine, mv: Move, moves: seq<Move>)
    requires Started(m.log) && Underflows(m, mv)
    ensures var n := Run(Step(m, mv), moves); GetRun(n.log).Err? && Starts(n.log) == Starts(m.log)
  {
    ViewAppend(m.log, EffectOf(m, mv).batch);
    TotalsGrow(m, mv);
    DoomedRun(Step(m, mv), moves);
    AttemptsDoNotStart(m.live.value, mv);
    StartsAppend(m.log, EffectOf(m, mv).batch);
  }

  /** So does one published hint whose stored key or target is too long. */
  lemma OverlongHintIsFatal(m: Machine, mv: Move, moves: seq<Move>)
    requires Started(m.log) && !Legible(Published(m, mv))
    ensures var n := Run(Step(m, mv), moves); GetRun(n.log).Err? && Starts(n.log) == Starts(m.log)
  {
    ViewAppend(m.log, EffectOf(m, mv).batch);
    HintsStep(m, mv);
    DoomedRun(Step(m, mv), moves);
    AttemptsDoNotStart(m.live.value, mv);
    StartsAppend(m.log, EffectOf(m, mv).batch);
  }
}
