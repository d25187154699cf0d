/** No deduplication key is published twice in a run, by the advisor or as evaluation feedback. */
module HintKeys {
  import opened Json
  import opened Models
  import opened Grading
  import opened Runs
  import opened Redaction
  import opened RedactionProofs
  import opened Engine
  import opened Ledger
  import opened EngineInvariants
  import opened EngineTheorems
  import opened EngineBounds
  import opened EngineHints
  import opened EngineFeedback

  predicate HintsUnique(log: seq<Event>) {
    forall i, j | 0 <= i < j < |log| && log[i].HintPublished? && log[j].HintPublished? ::
      log[i].hint.deduplicationKey != log[j].hint.deduplicationKey
  }

  // ----- What a caller can check of a directive -----

  predicate DistinctKeys(drafts: seq<HintDraft>) {
    forall i, j | 0 <= i < j < |drafts| :: drafts[i].deduplicationKey != drafts[j].deduplicationKey
  }

  predicate StableKeys(drafts: seq<HintDraft>) {
    forall d | d in drafts :: RedactText(d.deduplicationKey) == d.deduplicationKey
  }

  /** No key is one that the feedback of an attempt within the retry budget uses. */
  predicate AvoidsEvaluation(drafts: seq<HintDraft>, retries: nat) {
    forall n | 1 <= n <= retries :: EvaluationKey(n) !in DraftKeys(drafts)
  }

  /** A policy that passes whatever the graders report publishes no feedback. */
  predicate CanFail(policy: GradingPolicy) { policy.threshold > 0.0 || policy.requiredConstraints != [] }

  /** The directive's keys are distinct, unchanged by redaction, and no evaluation keys of a run that can
      fail an evaluation. */
  predicate SafeDirective(definition: RunDefinition, d: Directive) {
    && DistinctKeys(d.hints) && StableKeys(d.hints)
    && (CanFail(definition.gradingPolicy) ==> AvoidsEvaluation(d.hints, definition.supervisorPolicy.maxRetries))
  }

  predicate SafeMove(definition: RunDefinition, mv: Move) { mv.Review? ==> SafeDirective(definition, mv.directive) }

  // ----- Evaluation keys -----

  lemma {:induction false} DigitsInjective(a: nat, b: nat)
    requires Digits(a) == Digits(b)
    ensures a == b
  {
    DigitsSplit(a);
    DigitsSplit(b);
    assert Digits(a)[|Digits(a)| - 1] == Digits(b)[|Digits(b)| - 1];
    if a >= 10 && b >= 10 {
      assert Digits(a)[..|Digits(a)| - 1] == Digits(b)[..|Digits(b)| - 1];
      DigitsInjective(a / 10, b / 10);
    }
  }

  lemma DigitsSplit(n: nat)
    ensures var s := Digits(n);
      && s != [] && s[|s| - 1] == ('0' as int + n % 10) as char
      && s[..|s| - 1] == (if n < 10 then "" else Digits(n / 10))
      && (|s| == 1 <==> n < 10)
  {
  }

  lemma {:induction false} DigitsArePlain(n: nat)
    ensures forall c | c in Digits(n) :: '0' <= c <= '9'
  {
    if n >= 10 { DigitsArePlain(n / 10); }
  }

  lemma EvaluationKeyInjective(a: nat, b: nat)
    requires EvaluationKey(a) == EvaluationKey(b)
    ensures a == b
  {
    var prefix := "evaluation-attempt-";
    assert EvaluationKey(a)[|prefix|..] == Digits(a) && EvaluationKey(b)[|prefix|..] == Digits(b);
    DigitsInjective(a, b);
  }

  lemma PlainPrefix()
    ensures forall c | c in "evaluation-attempt-" :: !IsSpace(c) && c != 'k'
  {
    var s := "evaluation-attempt-";
    assert forall i | 0 <= i < 10 :: !IsSpace(s[i]) && s[i] != 'k';
    assert forall i | 10 <= i < 19 :: !IsSpace(s[i]) && s[i] != 'k';
  }

  /** Replay shows the key of the feedback as the engine made it. */
  lemma EvaluationKeyStable(n: nat)
    ensures RedactText(EvaluationKey(n)) == EvaluationKey(n)
  {
    PlainPrefix();
    DigitsArePlain(n);
    var s := EvaluationKey(n);
    forall i | 0 <= i < |s| ensures !IsSpace(s[i]) && s[i] != 'k' {
      assert s[i] in "evaluation-attempt-" || s[i] in Digits(n);
    }
    PlainIsFixed(s);
  }

  lemma FeedbackTargetStable()
    ensures RedactText(FEEDBACK_TARGET) == FEEDBACK_TARGET
  {
    PlainIsFixed(FEEDBACK_TARGET);
  }

  /** A decision can fail only under a policy that can fail one. */
  lemma FailedByPolicy(policy: GradingPolicy, results: seq<EvaluationResult>)
    requires Aggregate(policy, results).Ok? && !Aggregate(policy, results).value.passed
    ensures CanFail(policy)
  {
  }

  // ----- The drafts that are published -----

  lemma {:induction false} NewDraftsAre(drafts: seq<HintDraft>, published: set<string>)
    ensures forall d :: d in NewDrafts(drafts, published) <==> d in drafts && d.deduplicationKey !in published
    ensures DistinctKeys(drafts) ==> DistinctKeys(NewDrafts(drafts, published))
  {
    if drafts != [] {
      var rest := NewDrafts(drafts[1..], published);
      NewDraftsAre(drafts[1..], published);
      if DistinctKeys(drafts) {
        assert DistinctKeys(drafts[1..]);
        forall i | 0 <= i < |rest| ensures rest[i].deduplicationKey != drafts[0].deduplicationKey {
          assert rest[i] in rest;
          var k :| 0 <= k < |drafts[1..]| && drafts[1..][k] == rest[i];
          assert drafts[1 + k] == rest[i];
        }
      }
    }
  }

  lemma {:induction false} HintEventsAre(drafts: seq<HintDraft>, a: Attempt)
    ensures |HintEvents(drafts, a)| == |drafts|
    ensures forall i | 0 <= i < |drafts| ::
      var e := HintEvents(drafts, a)[i];
      IsAdvice(e) && e.hint.deduplicationKey == RedactText(drafts[i].deduplicationKey)
    decreases |drafts|
  {
    if drafts != [] {
      HintEventsAre(drafts[1..], a);
      assert HintEvents(drafts, a)[0].hint.deduplicationKey == RedactText(drafts[0].deduplicationKey);
    }
  }

  // ----- A refused append -----

  /** While attempt `n` executes, it has noted every key of the directive. */
  predicate Noted(m: Machine, d: Directive, n: nat) {
    && Started(m.log) && Inv(ViewOf(m.log), m.live) && Replay(m.log).attempt >= n
    && (m.live.Some? && m.live.value.number == n ==> DraftKeys(d.hints) <= m.live.value.publishedKeys)
  }

  lemma AttemptNotes(a: Attempt, mv: Move)
    ensures var e := AttemptEffect(a, mv);
      e.live.Some? ==> e.live.value.number == a.number && a.publishedKeys <= e.live.value.publishedKeys
  {
  }

  lemma AttemptStaysNoted(m: Machine, mv: Move, d: Directive, n: nat)
    requires Noted(m, d, n) && m.live.Some? && !Outside(mv)
    ensures Noted(Step(m, mv), d, n)
  {
    StepKeeps(m, mv);
    HintsOfMove(m, mv);
    AttemptNotes(m.live.value, mv);
    ViewAppend(m.log, EffectOf(m, mv).batch);
    AttemptStatus(ViewOf(m.log), m.live.value, mv);
  }

  lemma IdleStaysNoted(m: Machine, mv: Move, d: Directive, n: nat)
    requires Noted(m, d, n) && m.live.None?
    ensures Noted(Step(m, mv), d, n)
  {
    StepKeeps(m, mv);
    IdleAttempt(m, mv);
  }

  lemma StaysNoted(m: Machine, mv: Move, d: Directive, n: nat)
    requires Noted(m, d, n)
    ensures Noted(Step(m, mv), d, n)
  {
    if m.live.None? {
      IdleStaysNoted(m, mv, d, n);
    } else if Outside(mv) {
      StepKeeps(m, mv);
      LiveCommand(m, mv);
    } else {
      AttemptStaysNoted(m, mv, d, n);
    }
  }

  lemma {:induction false} RunStaysNoted(m: Machine, moves: seq<Move>, d: Directive, n: nat)
    requires Noted(m, d, n)
    ensures Noted(Run(m, moves), d, n)
  {
    if moves != [] {
      RunStaysNoted(m, moves[..|moves| - 1], d, n);
      StaysNoted(Run(m, moves[..|moves| - 1]), moves[|moves| - 1], d, n);
    }
  }

  lemma RefusedIsNoted(m: Machine, d: Directive)
    requires Started(m.log) && Inv(ViewOf(m.log), m.live) && m.live.Some? && m.live.value.phase == Reviewed(d)
    ensures Step(m, PublishRefused).log == m.log && Noted(Step(m, PublishRefused), d, m.live.value.number)
  {
    var a := m.live.value;
    StepKeeps(m, PublishRefused);
    assert EffectOf(m, PublishRefused) == RefusedEffect(a, d);
    NewDraftsAre(d.hints, a.publishedKeys);
    var drafts := NewDrafts(d.hints, a.publishedKeys);
    forall x | x in d.hints ensures x.deduplicationKey in Step(m, PublishRefused).live.value.publishedKeys {
      if x.deduplicationKey !in a.publishedKeys {
        assert x in drafts;
        assert x.deduplicationKey in DraftKeys(drafts);
      }
    }
  }

  /** A refused append loses its hints for the rest of the attempt, even if the harness goes on: whatever
      happens, and whatever directive is followed next, no draft with one of their keys is published. */
  lemma RefusedHintsAreLost(m: Machine, d: Directive, moves: seq<Move>, next: Directive)
    requires Reachable(m) && m.live.Some? && m.live.value.phase == Reviewed(d)
    requires var n := Run(Step(m, PublishRefused), moves);
      n.live.Some? && n.live.value.number == m.live.value.number && n.live.value.phase == Reviewed(next)
    ensures Step(m, PublishRefused).log == m.log
    ensures var n := Run(Step(m, PublishRefused), moves);
      var drafts := NewDrafts(next.hints, n.live.value.publishedKeys);
      && Step(n, PublishHints).log == n.log + HintEvents(drafts, n.live.value)
      && (forall x | x in drafts :: x.deduplicationKey !in DraftKeys(d.hints))
      && (next == d ==> Step(n, PublishHints).log == n.log)
  {
    ReachableKeeps(m);
    RefusedIsNoted(m, d);
    var n := Run(Step(m, PublishRefused), moves);
    RunStaysNoted(Step(m, PublishRefused), moves, d, m.live.value.number);
    PublishAppends(n, next);
    NewDraftsAre(next.hints, n.live.value.publishedKeys);
    if next == d { NothingNew(d.hints, n.live.value.publishedKeys); }
  }

  lemma PublishAppends(m: Machine, d: Directive)
    requires m.live.Some? && m.live.value.phase == Reviewed(d)
    ensures var drafts := NewDrafts(d.hints, m.live.value.publishedKeys);
      Step(m, PublishHints).log == m.log + HintEvents(drafts, m.live.value)
  {
    assert EffectOf(m, PublishHints) == PublishEffect(m.live.value, d);
  }

  lemma {:induction false} NothingNew(drafts: seq<HintDraft>, published: set<string>)
    requires DraftKeys(drafts) <= published
    ensures NewDrafts(drafts, published) == []
  {
    if drafts != [] {
      DraftKeysSplit(drafts);
      NothingNew(drafts[1..], published);
    }
  }

  // ----- The invariant -----

  /** While the harness runs, the attempt knows every key that replay knows. */
  predicate KeysKnown(s: Snapshot, live: Option<Attempt>) {
    live.Some? && InHarness(live.value.phase) ==>
      Keys(s.hints) <= live.value.publishedKeys
      && (live.value.phase.Reviewed? ==> SafeDirective(s.definition, live.value.phase.directive))
  }

  /** No evaluation key from attempt `from` on has been published yet. */
  predicate Unused(s: Snapshot, from: nat) {
    forall n | from <= n <= s.definition.supervisorPolicy.maxRetries :: EvaluationKey(n) !in Keys(s.hints)
  }

  predicate FeedbackAhead(s: Snapshot, live: Option<Attempt>) {
    CanFail(s.definition.gradingPolicy) ==> Unused(s, if live.Some? then s.attempt else s.attempt + 1)
  }

  predicate KeysInv(v: View, log: seq<Event>, live: Option<Attempt>) {
    HintsUnique(log) && KeysKnown(v.run, live) && FeedbackAhead(v.run, live)
  }

  lemma UniqueAppend(log: seq<Event>, batch: seq<Event>)
    requires HintsUnique(log) && HintsUnique(batch)
    requires forall i, k | 0 <= i < |log| && log[i].HintPublished? && 0 <= k < |batch| && batch[k].HintPublished? ::
      log[i].hint.deduplicationKey != batch[k].hint.deduplicationKey
    ensures HintsUnique(log + batch)
  {
  }

  lemma KeyInReplay(log: seq<Event>, i: nat)
    requires Started(log) && i < |log| && log[i].HintPublished?
    ensures log[i].hint.deduplicationKey in Keys(Replay(log).hints)
  {
    HintsRemembered(log, i);
  }

  lemma NoHintAppend(log: seq<Event>, batch: seq<Event>)
    requires HintsUnique(log) && forall e | e in batch :: !e.HintPublished?
    ensures HintsUnique(log + batch)
  {
    assert forall k | 0 <= k < |batch| :: batch[k] in batch;
    UniqueAppend(log, batch);
  }

  lemma {:induction false} KeysAfterHints(v: View, drafts: seq<HintDraft>, a: Attempt)
    requires StableKeys(drafts)
    ensures Keys(Then(v, HintEvents(drafts, a)).run.hints) == Keys(v.run.hints) + DraftKeys(drafts)
    decreases |drafts|
  {
    if drafts == [] {
    } else {
      var batch := HintEvents(drafts, a);
      var next := See(v, batch[0]);
      assert batch[1..] == HintEvents(drafts[1..], a);
      assert StableKeys(drafts[1..]);
      KeysAfterHints(next, drafts[1..], a);
      KeysSnoc(v.run.hints, batch[0].hint);
      HintsAfter(v.run, batch[0]);
      DraftKeysSplit(drafts);
    }
  }

  lemma DraftKeysSplit(drafts: seq<HintDraft>)
    requires drafts != []
    ensures DraftKeys(drafts) == {drafts[0].deduplicationKey} + DraftKeys(drafts[1..])
  {
    assert drafts == [drafts[0]] + drafts[1..];
  }

  lemma KeysSnoc(hints: seq<Hint>, h: Hint)
    ensures Keys(hints + [h]) == Keys(hints) + {h.deduplicationKey}
  {
  }

  lemma {:induction false} NoHintsNoKeys(v: View, batch: seq<Event>)
    requires forall e | e in batch :: !e.HintPublished?
    ensures Then(v, batch).run.hints == v.run.hints
    decreases |batch|
  {
    if batch != [] {
      HintsAfter(v.run, batch[0]);
      assert batch[0] in batch;
      NoHintsNoKeys(See(v, batch[0]), batch[1..]);
    }
  }

  // ----- Publishing the advisor's hints -----

  lemma UniquePublish(log: seq<Event>, drafts: seq<HintDraft>, published: set<string>, a: Attempt)
    requires Started(log) && HintsUnique(log) && Keys(Replay(log).hints) <= published
    requires DistinctKeys(drafts) && StableKeys(drafts)
    ensures HintsUnique(log + HintEvents(NewDrafts(drafts, published), a))
  {
    var added := NewDrafts(drafts, published);
    var batch := HintEvents(added, a);
    NewDraftsAre(drafts, published);
    HintEventsAre(added, a);
    forall k | 0 <= k < |added|
      ensures RedactText(added[k].deduplicationKey) == added[k].deduplicationKey
      ensures added[k].deduplicationKey !in published
    {
      assert added[k] in added;
    }
    forall i, k | 0 <= i < |log| && log[i].HintPublished? && 0 <= k < |batch|
      ensures log[i].hint.deduplicationKey != batch[k].hint.deduplicationKey
    {
      KeyInReplay(log, i);
    }
    UniqueAppend(log, batch);
  }

  lemma NewKeysAreDrafts(drafts: seq<HintDraft>, published: set<string>)
    ensures DraftKeys(NewDrafts(drafts, published)) <= DraftKeys(drafts)
    ensures StableKeys(drafts) ==> StableKeys(NewDrafts(drafts, published))
  {
    NewDraftsAre(drafts, published);
  }

  lemma PublishKeepsKeys(v: View, log: seq<Event>, a: Attempt)
    requires Started(log) && v == ViewOf(log) && KeysInv(v, log, Some(a)) && a.phase.Reviewed? && v.run.attempt >= 1
    ensures var e := PublishEffect(a, a.phase.directive); KeysInv(Then(v, e.batch), log + e.batch, e.live)
  {
    var d := a.phase.directive;
    var drafts := NewDrafts(d.hints, a.publishedKeys);
    UniquePublish(log, d.hints, a.publishedKeys, a);
    NewKeysAreDrafts(d.hints, a.publishedKeys);
    KeysAfterHints(v, drafts, a);
    ThenHints(v, drafts, a);
  }

  // ----- Publishing feedback -----

  lemma FeedbackIsNew(log: seq<Event>, n: nat, results: seq<EvaluationResult>)
    requires Started(log) && HintsUnique(log) && EvaluationKey(n) !in Keys(Replay(log).hints)
    ensures HintsUnique(log + RetryBatch(n, FeedbackHint(n, results)))
  {
    EvaluationKeyStable(n);
    forall i | 0 <= i < |log| && log[i].HintPublished?
      ensures log[i].hint.deduplicationKey != EvaluationKey(n)
    {
      KeyInReplay(log, i);
    }
    UniqueAppend(log, RetryBatch(n, FeedbackHint(n, results)));
  }

  lemma FeedbackUses(v: View, n: nat, results: seq<EvaluationResult>)
    requires v.run.attempt == n && Unused(v.run, n)
    ensures var w := Then(v, RetryBatch(n, FeedbackHint(n, results))).run;
      w.attempt == n && w.definition == v.run.definition && Unused(w, n + 1)
  {
    EvaluationKeyStable(n);
    var batch := RetryBatch(n, FeedbackHint(n, results));
    ThenShort(v, batch);
    KeysSnoc(v.run.hints, batch[0].hint);
    forall k | n + 1 <= k <= v.run.definition.supervisorPolicy.maxRetries ensures EvaluationKey(k) != EvaluationKey(n) {
      if EvaluationKey(k) == EvaluationKey(n) { EvaluationKeyInjective(k, n); }
    }
  }

  lemma PairKeepsKeys(v: View, log: seq<Event>, live: Option<Attempt>, batch: seq<Event>)
    requires Started(log) && v == ViewOf(log) && KeysInv(v, log, live) && live.Some?
    requires CanFail(v.run.definition.gradingPolicy)
    requires IsFeedbackPair(v, batch)
    ensures KeysInv(Then(v, batch), log + batch, None)
  {
    var d := v.tally.lastDecision.value;
    FeedbackIsNew(log, v.run.attempt, d.results);
    FeedbackUses(v, v.run.attempt, d.results);
  }

  // ----- Every other move -----

  /** An attempt after a move that publishes nothing. */
  predicate Silent(v: View, a: Attempt, e: Effect) {
    && (forall x | x in e.batch :: !x.HintPublished?)
    && (e.live.Some? && InHarness(e.live.value.phase) ==>
          InHarness(a.phase) && a.publishedKeys <= e.live.value.publishedKeys
          && (e.live.value.phase.Reviewed? ==> SafeDirective(v.run.definition, e.live.value.phase.directive)))
  }

  lemma SilentKeepsKeys(v: View, w: View, log: seq<Event>, a: Attempt, e: Effect)
    requires KeysInv(v, log, Some(a)) && Silent(v, a, e) && w == Then(v, e.batch)
    requires w.run.attempt == v.run.attempt && w.run.definition == v.run.definition
    ensures KeysInv(w, log + e.batch, e.live)
  {
    NoHintAppend(log, e.batch);
    NoHintsNoKeys(v, e.batch);
  }

  lemma OnlyReviewReviews(a: Attempt, mv: Move)
    ensures var e := AttemptEffect(a, mv);
      e.live.Some? && e.live.value.phase.Reviewed? ==>
        (mv.Review? && e.live.value.phase.directive == mv.directive) || e.live.value.phase == a.phase
  {
  }

  lemma StaysInHarness(a: Attempt, mv: Move)
    requires !(mv.PublishHints? && a.phase.Reviewed?) && !(mv.Conclude? && a.phase.Decided?)
    ensures var e := AttemptEffect(a, mv);
      && (forall x | x in e.batch :: !x.HintPublished?)
      && (e.live.Some? && InHarness(e.live.value.phase) ==>
            InHarness(a.phase) && a.publishedKeys <= e.live.value.publishedKeys)
  {
  }

  lemma OtherKeepsKeys(v: View, log: seq<Event>, a: Attempt, mv: Move)
    requires KeysInv(v, log, Some(a)) && Inv(v, Some(a)) && SafeMove(v.run.definition, mv)
    requires !(mv.PublishHints? && a.phase.Reviewed?) && !(mv.Conclude? && a.phase.Decided?)
    ensures var e := AttemptEffect(a, mv); KeysInv(Then(v, e.batch), log + e.batch, e.live)
  {
    var e := AttemptEffect(a, mv);
    OnlyReviewReviews(a, mv);
    StaysInHarness(a, mv);
    AttemptStatus(v, a, mv);
    SilentKeepsKeys(v, Then(v, e.batch), log, a, e);
  }

  lemma VerdictHints(a: Attempt, d: GradingDecision)
    requires NoRetry(ConclusionBatch(a, d))
    ensures forall x | x in ConclusionBatch(a, d) :: !x.HintPublished?
  {
    var batch := ConclusionBatch(a, d);
    assert batch[|batch| - 1] in batch;
  }

  lemma ConcludeKeepsKeys(v: View, log: seq<Event>, a: Attempt)
    requires Started(log) && v == ViewOf(log) && KeysInv(v, log, Some(a)) && Inv(v, Some(a)) && a.phase.Decided?
    ensures var batch := ConclusionBatch(a, a.phase.decision); KeysInv(Then(v, batch), log + batch, None)
  {
    var d := a.phase.decision;
    var batch := ConclusionBatch(a, d);
    DecidedIsLast(v, a);
    ConclusionShape(v, a, d);
    if NoRetry(batch) {
      VerdictHints(a, d);
      ConclusionStatus(v, a, d);
      SilentKeepsKeys(v, Then(v, batch), log, a, Effect(batch, None));
    } else {
      FailedByPolicy(v.run.definition.gradingPolicy, d.results);
      PairKeepsKeys(v, log, Some(a), batch);
    }
  }

  lemma AttemptKeepsKeys(v: View, log: seq<Event>, a: Attempt, mv: Move)
    requires Started(log) && v == ViewOf(log) && KeysInv(v, log, Some(a)) && Inv(v, Some(a))
    requires SafeMove(v.run.definition, mv)
    ensures var e := AttemptEffect(a, mv); KeysInv(Then(v, e.batch), log + e.batch, e.live)
  {
    if mv.PublishHints? && a.phase.Reviewed? {
      PublishKeepsKeys(v, log, a);
    } else if mv.Conclude? && a.phase.Decided? {
      ConcludeKeepsKeys(v, log, a);
    } else {
      OtherKeepsKeys(v, log, a, mv);
    }
  }

  lemma IdleKeepsKeys(m: Machine, mv: Move)
    requires Started(m.log) && m.live.None? && KeysInv(ViewOf(m.log), m.log, None)
    ensures KeysInv(ViewOf(Step(m, mv).log), Step(m, mv).log, Step(m, mv).live)
  {
    var batch := EffectOf(m, mv).batch;
    CommandsPublishNothing(m, mv);
    ViewAppend(m.log, batch);
    NoHintAppend(m.log, batch);
    NoHintsNoKeys(ViewOf(m.log), batch);
    IdleAttempt(m, mv);
  }

  lemma CommandKeepsKeys(m: Machine, mv: Move)
    requires Reachable(m) && m.live.Some? && Outside(mv)
    requires KeysInv(ViewOf(m.log), m.log, m.live)
    ensures KeysInv(ViewOf(Step(m, mv).log), Step(m, mv).log, Step(m, mv).live)
  {
    var batch := EffectOf(m, mv).batch;
    ReachableKeeps(m);
    CommandsPublishNothing(m, mv);
    ViewAppend(m.log, batch);
    NoHintAppend(m.log, batch);
    NoHintsNoKeys(ViewOf(m.log), batch);
    LiveCommand(m, mv);
  }

  lemma StepKeepsKeys(m: Machine, mv: Move)
    requires Reachable(m) && KeysInv(ViewOf(m.log), m.log, m.live) && SafeMove(Replay(m.log).definition, mv)
    ensures KeysInv(ViewOf(Step(m, mv).log), Step(m, mv).log, Step(m, mv).live)
  {
    if m.live.None? {
      IdleKeepsKeys(m, mv);
    } else if Outside(mv) {
      CommandKeepsKeys(m, mv);
    } else {
      ReachableKeeps(m);
      HintsOfMove(m, mv);
      ViewAppend(m.log, EffectOf(m, mv).batch);
      AttemptKeepsKeys(ViewOf(m.log), m.log, m.live.value, mv);
    }
  }

  predicate KeysAt(m: Machine) { Started(m.log) && KeysInv(ViewOf(m.log), m.log, m.live) }

  lemma NextKeepsKeys(definition: RunDefinition, before: seq<Move>, mv: Move, next: Machine)
    requires KeysAt(Execute(definition, before)) && SafeMove(definition, mv)
    requires next == Step(Execute(definition, before), mv)
    ensures KeysAt(next)
  {
    var m := Execute(definition, before);
    ReplayVersion(m.log);
    StepKeepsKeys(m, mv);
  }

  /** If every directive is safe, no hint of a run repeats a key: neither the advisor's among themselves,
      nor an evaluation's feedback one of the advisor's or of another evaluation. */
  lemma {:induction false} HintsPublishedOnce(definition: RunDefinition, moves: seq<Move>)
    requires forall mv | mv in moves :: SafeMove(definition, mv)
    ensures HintsUnique(Execute(definition, moves).log) && KeysAt(Execute(definition, moves))
  {
    if moves == [] {
    } else {
      var before, mv := moves[..|moves| - 1], moves[|moves| - 1];
      HintsPublishedOnce(definition, before);
      assert mv in moves;
      LastMove(definition, moves);
      NextKeepsKeys(definition, before, mv, Execute(definition, moves));
    }
  }
}
