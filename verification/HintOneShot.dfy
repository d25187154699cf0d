/** A directive with a hint that outgrows its bounds is published once at most: nobody reads the run again. */
module HintOneShot {
  import opened Json
  import opened Models
  import opened Grading
  import opened Runs
  import opened Redaction
  import opened RedactionProofs
  import opened Engine
  import opened Ledger
  import opened EngineInvariants
  import opened EngineTheorems
  import opened EngineBounds
  import opened EngineHints
  import opened EngineFeedback
  import opened HintKeys
  import opened Readability

  /** The keys are distinct as they are stored. */
  predicate DistinctStored(drafts: seq<HintDraft>) {
    forall i, j | 0 <= i < j < |drafts| ::
      RedactText(drafts[i].deduplicationKey) != RedactText(drafts[j].deduplicationKey)
  }

  predicate AvoidsFeedback(definition: RunDefinition, d: Directive) {
    CanFail(definition.gradingPolicy) ==> AvoidsEvaluation(d.hints, definition.supervisorPolicy.maxRetries)
  }

  /** Publishing the directive ends all reading of the run, and repeats nothing by itself. */
  predicate OneShot(definition: RunDefinition, d: Directive) {
    DistinctStored(d.hints) && AvoidsFeedback(definition, d) && !Legible(d.hints)
  }

  /** Only the directive `d` is ever given. */
  predicate Only(mv: Move, d: Directive) { mv.Review? ==> mv.directive == d }

  // ----- The invariant -----

  /** Nothing of the directive is published: neither its keys nor their stored forms. */
  predicate Untouched(s: Snapshot, d: Directive) {
    forall x | x in d.hints ::
      x.deduplicationKey !in Keys(s.hints) && RedactText(x.deduplicationKey) !in Keys(s.hints)
  }

  /** The attempt has noted all keys of the directive. */
  predicate AllNoted(live: Option<Attempt>, d: Directive) {
    live.Some? && InHarness(live.value.phase) ==> DraftKeys(d.hints) <= live.value.publishedKeys
  }

  predicate NoneNoted(live: Option<Attempt>, d: Directive) {
    live.Some? && InHarness(live.value.phase) ==> DraftKeys(d.hints) !! live.value.publishedKeys
  }

  predicate Fired(s: Snapshot, live: Option<Attempt>, d: Directive) { !HintsValid(s) && AllNoted(live, d) }

  predicate Loaded(s: Snapshot, live: Option<Attempt>, d: Directive) {
    Untouched(s, d) && (AllNoted(live, d) || NoneNoted(live, d))
  }

  predicate Follows(live: Option<Attempt>, d: Directive) {
    live.Some? && live.value.phase.Reviewed? ==> live.value.phase.directive == d
  }

  predicate ShotInv(v: View, log: seq<Event>, live: Option<Attempt>, d: Directive) {
    && HintsUnique(log) && FeedbackAhead(v.run, live) && Follows(live, d)
    && (Fired(v.run, live, d) || Loaded(v.run, live, d))
  }

  // ----- Publishing the directive -----

  lemma StoredIsNoEvaluationKey(key: string, n: nat)
    requires key != EvaluationKey(n)
    ensures RedactText(key) != EvaluationKey(n)
  {
    if RedactText(key) == EvaluationKey(n) {
      DigitsArePlain(n);
      assert forall c | c in "evaluation-attempt-" :: c != '[' by { NoBracketInPrefix(); }
      NoBracketUnchanged(key);
    }
  }

  lemma NoBracketInPrefix()
    ensures forall c | c in "evaluation-attempt-" :: c != '['
  {
    var s := "evaluation-attempt-";
    assert forall i | 0 <= i < 10 :: s[i] != '[';
    assert forall i | 10 <= i < 19 :: s[i] != '[';
  }

  lemma {:induction false} StoredKeys(v: View, drafts: seq<HintDraft>, a: Attempt)
    ensures Keys(Then(v, HintEvents(drafts, a)).run.hints)
         == Keys(v.run.hints) + set x | x in drafts :: RedactText(x.deduplicationKey)
    decreases |drafts|
  {
    if drafts != [] {
      var batch := HintEvents(drafts, a);
      assert batch[1..] == HintEvents(drafts[1..], a);
      StoredKeys(See(v, batch[0]), drafts[1..], a);
      KeysSnoc(v.run.hints, batch[0].hint);
      HintsAfter(v.run, batch[0]);
      assert drafts == [drafts[0]] + drafts[1..];
    }
  }

  lemma UniqueShot(log: seq<Event>, d: Directive, a: Attempt)
    requires Started(log) && HintsUnique(log) && Untouched(Replay(log), d) && DistinctStored(d.hints)
    ensures HintsUnique(log + HintEvents(d.hints, a))
  {
    var batch := HintEvents(d.hints, a);
    HintEventsAre(d.hints, a);
    forall i, k | 0 <= i < |log| && log[i].HintPublished? && 0 <= k < |batch|
      ensures log[i].hint.deduplicationKey != batch[k].hint.deduplicationKey
    {
      KeyInReplay(log, i);
      assert d.hints[k] in d.hints;
    }
    UniqueAppend(log, batch);
  }

  lemma {:induction false} AllNew(drafts: seq<HintDraft>, published: set<string>)
    requires DraftKeys(drafts) !! published
    ensures NewDrafts(drafts, published) == drafts
  {
    if drafts != [] {
      DraftKeysSplit(drafts);
      AllNew(drafts[1..], published);
    }
  }

  /** No evaluation key is among the stored keys. */
  lemma FeedbackStaysAhead(s: Snapshot, w: Snapshot, from: nat, d: Directive)
    requires w.definition == s.definition && Unused(s, from) && from >= 1
    requires AvoidsEvaluation(d.hints, s.definition.supervisorPolicy.maxRetries)
    requires Keys(w.hints) == Keys(s.hints) + set x | x in d.hints :: RedactText(x.deduplicationKey)
    ensures Unused(w, from)
  {
    forall n | from <= n <= w.definition.supervisorPolicy.maxRetries ensures EvaluationKey(n) !in Keys(w.hints) {
      forall x | x in d.hints ensures RedactText(x.deduplicationKey) != EvaluationKey(n) {
        assert x.deduplicationKey in DraftKeys(d.hints);
        StoredIsNoEvaluationKey(x.deduplicationKey, n);
      }
    }
  }

  lemma FireKeeps(v: View, log: seq<Event>, a: Attempt, d: Directive)
    requires Started(log) && v == ViewOf(log) && ShotInv(v, log, Some(a), d) && OneShot(v.run.definition, d)
    requires Inv(v, Some(a)) && a.phase == Reviewed(d) && DraftKeys(d.hints) !! a.publishedKeys
    requires Loaded(v.run, Some(a), d)
    ensures var e := PublishEffect(a, d); ShotInv(Then(v, e.batch), log + e.batch, e.live, d)
  {
    var batch := HintEvents(d.hints, a);
    AllNew(d.hints, a.publishedKeys);
    UniqueShot(log, d, a);
    StoredKeys(v, d.hints, a);
    ThenHints(v, d.hints, a);
    HintEventsFit(d.hints, a);
    ThenHintsValid(v, batch);
    if CanFail(v.run.definition.gradingPolicy) {
      FeedbackStaysAhead(v.run, Then(v, batch).run, v.run.attempt, d);
    }
  }

  lemma BlankKeeps(v: View, log: seq<Event>, a: Attempt, d: Directive)
    requires ShotInv(v, log, Some(a), d) && a.phase == Reviewed(d) && DraftKeys(d.hints) <= a.publishedKeys
    ensures var e := PublishEffect(a, d); ShotInv(Then(v, e.batch), log + e.batch, e.live, d)
  {
    NothingNew(d.hints, a.publishedKeys);
    assert HintEvents([], a) == [] && log + [] == log;
    ThenShort(v, []);
  }

  lemma PublishKeepsShot(v: View, log: seq<Event>, a: Attempt, d: Directive)
    requires Started(log) && v == ViewOf(log) && ShotInv(v, log, Some(a), d) && OneShot(v.run.definition, d)
    requires Inv(v, Some(a)) && a.phase.Reviewed?
    ensures var e := PublishEffect(a, a.phase.directive); ShotInv(Then(v, e.batch), log + e.batch, e.live, d)
  {
    if DraftKeys(d.hints) <= a.publishedKeys { BlankKeeps(v, log, a, d); } else { FireKeeps(v, log, a, d); }
  }

  // ----- Feedback -----

  lemma FeedbackKeepsShot(v: View, log: seq<Event>, a: Attempt, d: Directive, batch: seq<Event>)
    requires Started(log) && v == ViewOf(log) && ShotInv(v, log, Some(a), d) && OneShot(v.run.definition, d)
    requires CanFail(v.run.definition.gradingPolicy) && IsFeedbackPair(v, batch) && v.run.attempt >= 1
    ensures ShotInv(Then(v, batch), log + batch, None, d)
  {
    var n, results := v.run.attempt, v.tally.lastDecision.value.results;
    FeedbackIsNew(log, n, results);
    FeedbackUses(v, n, results);
    EvaluationKeyStable(n);
    ThenShort(v, batch);
    KeysSnoc(v.run.hints, batch[0].hint);
    if Fired(v.run, Some(a), d) {
      ThenHintsValid(v, batch);
    } else {
      StillUntouched(v.run, Then(v, batch).run, d, n);
    }
  }

  lemma StillUntouched(s: Snapshot, w: Snapshot, d: Directive, n: nat)
    requires Untouched(s, d) && Keys(w.hints) == Keys(s.hints) + {EvaluationKey(n)}
    requires 1 <= n <= s.definition.supervisorPolicy.maxRetries
    requires AvoidsEvaluation(d.hints, s.definition.supervisorPolicy.maxRetries)
    ensures Untouched(w, d)
  {
    forall x | x in d.hints
      ensures x.deduplicationKey !in Keys(w.hints) && RedactText(x.deduplicationKey) !in Keys(w.hints)
    {
      assert x.deduplicationKey in DraftKeys(d.hints);
      StoredIsNoEvaluationKey(x.deduplicationKey, n);
    }
  }

  // ----- Every other move -----

  /** An attempt after a move that publishes nothing: it notes the directive's keys all at once or not at all. */
  predicate QuietShot(a: Attempt, e: Effect, d: Directive) {
    && (forall x | x in e.batch :: !x.HintPublished?)
    && Follows(e.live, d)
    && (e.live.Some? && InHarness(e.live.value.phase) ==>
          InHarness(a.phase) && a.publishedKeys <= e.live.value.publishedKeys
          && (e.live.value.publishedKeys == a.publishedKeys || DraftKeys(d.hints) <= e.live.value.publishedKeys))
  }

  lemma QuietKeepsShot(v: View, w: View, log: seq<Event>, a: Attempt, e: Effect, d: Directive)
    requires ShotInv(v, log, Some(a), d) && QuietShot(a, e, d) && w == Then(v, e.batch)
    requires w.run.attempt == v.run.attempt && w.run.definition == v.run.definition
    ensures ShotInv(w, log + e.batch, e.live, d)
  {
    NoHintAppend(log, e.batch);
    NoHintsNoKeys(v, e.batch);
  }

  lemma RefusedNotes(a: Attempt, d: Directive)
    ensures DraftKeys(d.hints) <= a.publishedKeys + DraftKeys(NewDrafts(d.hints, a.publishedKeys))
  {
    var drafts := NewDrafts(d.hints, a.publishedKeys);
    NewDraftsAre(d.hints, a.publishedKeys);
    forall x | x in d.hints ensures x.deduplicationKey in a.publishedKeys + DraftKeys(drafts) {
      if x.deduplicationKey !in a.publishedKeys { assert x in drafts; }
    }
  }

  lemma NotesAllOrNothing(a: Attempt, mv: Move, d: Directive)
    requires a.phase.Reviewed? ==> a.phase.directive == d
    requires !(mv.PublishHints? && a.phase.Reviewed?)
    ensures var e := AttemptEffect(a, mv);
      e.live.Some? ==>
        e.live.value.publishedKeys == a.publishedKeys || DraftKeys(d.hints) <= e.live.value.publishedKeys
  {
    RefusedNotes(a, d);
  }

  lemma OtherIsQuiet(a: Attempt, mv: Move, d: Directive)
    requires Only(mv, d) && Follows(Some(a), d)
    requires !(mv.PublishHints? && a.phase.Reviewed?) && !(mv.Conclude? && a.phase.Decided?)
    ensures QuietShot(a, AttemptEffect(a, mv), d)
  {
    OnlyReviewReviews(a, mv);
    StaysInHarness(a, mv);
    NotesAllOrNothing(a, mv, d);
  }

  predicate KeepsShot(v: View, log: seq<Event>, e: Effect, d: Directive) {
    ShotInv(Then(v, e.batch), log + e.batch, e.live, d)
  }

  lemma VerdictKeepsShot(v: View, log: seq<Event>, a: Attempt, d: Directive)
    requires Started(log) && v == ViewOf(log) && ShotInv(v, log, Some(a), d) && OneShot(v.run.definition, d)
    requires Inv(v, Some(a)) && a.phase.Decided?
    ensures KeepsShot(v, log, Effect(ConclusionBatch(a, a.phase.decision), None), d)
  {
    var decision := a.phase.decision;
    var batch := ConclusionBatch(a, decision);
    DecidedIsLast(v, a);
    ConclusionShape(v, a, decision);
    if NoRetry(batch) {
      VerdictHints(a, decision);
      ConclusionStatus(v, a, decision);
      QuietKeepsShot(v, Then(v, batch), log, a, Effect(batch, None), d);
    } else {
      FailedByPolicy(v.run.definition.gradingPolicy, decision.results);
      FeedbackKeepsShot(v, log, a, d, batch);
    }
  }

  lemma AttemptKeepsShot(v: View, log: seq<Event>, a: Attempt, mv: Move, d: Directive)
    requires Started(log) && v == ViewOf(log) && ShotInv(v, log, Some(a), d) && OneShot(v.run.definition, d)
    requires Inv(v, Some(a)) && Only(mv, d)
    ensures KeepsShot(v, log, AttemptEffect(a, mv), d)
  {
    if mv.PublishHints? && a.phase.Reviewed? {
      PublishMoveKeeps(v, log, a, mv, d);
    } else if mv.Conclude? && a.phase.Decided? {
      ConcludeMoveKeeps(v, log, a, mv, d);
    } else {
      OtherKeepsShot(v, log, a, mv, d);
    }
  }

  lemma PublishMoveKeeps(v: View, log: seq<Event>, a: Attempt, mv: Move, d: Directive)
    requires Started(log) && v == ViewOf(log) && ShotInv(v, log, Some(a), d) && OneShot(v.run.definition, d)
    requires Inv(v, Some(a)) && mv.PublishHints? && a.phase.Reviewed?
    ensures KeepsShot(v, log, AttemptEffect(a, mv), d)
  {
    PublishKeepsShot(v, log, a, d);
  }

  lemma ConcludeMoveKeeps(v: View, log: seq<Event>, a: Attempt, mv: Move, d: Directive)
    requires Started(log) && v == ViewOf(log) && ShotInv(v, log, Some(a), d) && OneShot(v.run.definition, d)
    requires Inv(v, Some(a)) && mv.Conclude? && a.phase.Decided?
    ensures KeepsShot(v, log, AttemptEffect(a, mv), d)
  {
    VerdictKeepsShot(v, log, a, d);
    ConcludeEffect(a, mv);
  }

  lemma ConcludeEffect(a: Attempt, mv: Move)
    requires mv.Conclude? && a.phase.Decided?
    ensures AttemptEffect(a, mv) == Effect(ConclusionBatch(a, a.phase.decision), None)
  {
  }

  lemma OtherKeepsShot(v: View, log: seq<Event>, a: Attempt, mv: Move, d: Directive)
    requires Started(log) && v == ViewOf(log) && ShotInv(v, log, Some(a), d) && OneShot(v.run.definition, d)
    requires Inv(v, Some(a)) && Only(mv, d)
    requires !(mv.PublishHints? && a.phase.Reviewed?) && !(mv.Conclude? && a.phase.Decided?)
    ensures KeepsShot(v, log, AttemptEffect(a, mv), d)
  {
    OtherIsQuiet(a, mv, d);
    AttemptStatus(v, a, mv);
    QuietKeepsShot(v, Then(v, AttemptEffect(a, mv).batch), log, a, AttemptEffect(a, mv), d);
  }

  lemma OutsideKeepsHints(m: Machine, mv: Move)
    requires Started(m.log) && HintsUnique(m.log) && (m.live.None? || Outside(mv))
    ensures HintsUnique(Step(m, mv).log) && Replay(Step(m, mv).log).hints == Replay(m.log).hints
  {
    var batch := EffectOf(m, mv).batch;
    CommandsPublishNothing(m, mv);
    ViewAppend(m.log, batch);
    NoHintAppend(m.log, batch);
    NoHintsNoKeys(ViewOf(m.log), batch);
  }

  lemma IdleKeepsShot(m: Machine, mv: Move, d: Directive)
    requires Started(m.log) && m.live.None? && ShotInv(ViewOf(m.log), m.log, None, d)
    ensures ShotInv(ViewOf(Step(m, mv).log), Step(m, mv).log, Step(m, mv).live, d)
  {
    OutsideKeepsHints(m, mv);
    IdleAttempt(m, mv);
  }

  lemma StepKeepsShot(m: Machine, mv: Move, d: Directive)
    requires Reachable(m) && ShotInv(ViewOf(m.log), m.log, m.live, d)
    requires OneShot(Replay(m.log).definition, d) && Only(mv, d)
    ensures ShotInv(ViewOf(Step(m, mv).log), Step(m, mv).log, Step(m, mv).live, d)
  {
    if m.live.None? {
      IdleKeepsShot(m, mv, d);
    } else if Outside(mv) {
      ReachableKeeps(m);
      OutsideKeepsHints(m, mv);
      LiveCommand(m, mv);
    } else {
      ReachableKeeps(m);
      HintsOfMove(m, mv);
      ViewAppend(m.log, EffectOf(m, mv).batch);
      AttemptKeepsShot(ViewOf(m.log), m.log, m.live.value, mv, d);
    }
  }

  predicate ShotAt(m: Machine, d: Directive) { Started(m.log) && ShotInv(ViewOf(m.log), m.log, m.live, d) }

  lemma NextKeepsShot(definition: RunDefinition, before: seq<Move>, mv: Move, next: Machine, d: Directive)
    requires ShotAt(Execute(definition, before), d) && OneShot(definition, d) && Only(mv, d)
    requires next == Step(Execute(definition, before), mv)
    ensures ShotAt(next, d)
  {
    ReplayVersion(Execute(definition, before).log);
    StepKeepsShot(Execute(definition, before), mv, d);
  }

  /** A directive of which a hint outgrows its bounds never gets a key published twice, as long as its own
      stored keys are distinct and none is an evaluation key. */
  lemma {:induction false} OneShotPublishesOnce(definition: RunDefinition, moves: seq<Move>, d: Directive)
    requires OneShot(definition, d) && forall mv | mv in moves :: Only(mv, d)
    ensures HintsUnique(Execute(definition, moves).log) && ShotAt(Execute(definition, moves), d)
  {
    if moves == [] {
    } else {
      var before, mv := moves[..|moves| - 1], moves[|moves| - 1];
      OneShotPublishesOnce(definition, before, d);
      assert mv in moves;
      LastMove(definition, moves);
      NextKeepsShot(definition, before, mv, Execute(definition, moves), d);
    }
  }
}
