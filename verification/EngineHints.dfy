/** Delivery of evaluation feedback. */
module EngineHints {
  import opened Json
  import opened Models
  import opened Grading
  import opened Runs
  import opened Engine
  import opened Ledger
  import opened EngineInvariants
  import opened EngineTheorems
  import opened EngineBounds

  // ----- Feedback reaches the next attempt and no other -----

  predicate IsFeedback(e: Event) { e.HintPublished? && e.delivery.None? }

  predicate IsAdvice(e: Event) { e.HintPublished? && e.delivery.Some? }

  /** Feedback published at attempt n is created for attempt n + 1 and lasts one attempt. */
  predicate Dated(hint: Hint, attempt: nat) { hint.createdAtStep == attempt + 1 && hint.expiresAfterSteps == 1 }

  predicate FeedbackDated(log: seq<Event>)
    requires Started(log)
  {
    forall i | 1 <= i < |log| && IsFeedback(log[i]) :: Dated(log[i].hint, Replay(log[..i]).attempt)
  }

  /** The hints that a move can publish. */
  lemma PublishedHints(v: View, live: Option<Attempt>, mv: Move)
    requires Inv(v, live) && live.Some?
    ensures var a, batch := live.value, AttemptEffect(live.value, mv).batch;
      if mv.PublishHints? && a.phase.Reviewed? then forall e | e in batch :: IsAdvice(e)
      else
        && (forall e | e in batch :: !IsAdvice(e))
        && (forall k | 0 <= k < |batch| && IsFeedback(batch[k]) :: k == 0 && Dated(batch[k].hint, v.run.attempt))
  {
    if mv.PublishHints? && live.value.phase.Reviewed? {
      var a := live.value;
      HintsAreNoStart(NewDrafts(a.phase.directive.hints, a.publishedKeys), a);
    }
  }

  lemma CommandsPublishNothing(m: Machine, mv: Move)
    requires Started(m.log) && (m.live.None? || Outside(mv))
    ensures forall e | e in EffectOf(m, mv).batch :: !e.HintPublished?
  {
  }

  lemma FeedbackAppend(log: seq<Event>, batch: seq<Event>)
    requires Started(log) && FeedbackDated(log)
    requires forall k | 0 <= k < |batch| && IsFeedback(batch[k]) :: k == 0 && Dated(batch[k].hint, Replay(log).attempt)
    ensures FeedbackDated(log + batch)
  {
    var all := log + batch;
    forall i | 1 <= i < |all| && IsFeedback(all[i]) ensures Dated(all[i].hint, Replay(all[..i]).attempt) {
      if i < |log| {
        assert all[..i] == log[..i];
      } else {
        assert all[i] == batch[i - |log|];
        assert all[..|log|] == log;
      }
    }
  }

  lemma FeedbackStep(m: Machine, mv: Move)
    requires Started(m.log) && Inv(ViewOf(m.log), m.live) && FeedbackDated(m.log)
    ensures FeedbackDated(m.log + EffectOf(m, mv).batch)
  {
    if m.live.Some? && !Outside(mv) {
      PublishedHints(ViewOf(m.log), m.live, mv);
      HintsOfMove(m, mv);
    } else {
      CommandsPublishNothing(m, mv);
    }
    var batch := EffectOf(m, mv).batch;
    forall k | 0 <= k < |batch| && IsFeedback(batch[k]) ensures k == 0 && Dated(batch[k].hint, Replay(m.log).attempt) {
      assert batch[k] in batch;
    }
    FeedbackAppend(m.log, EffectOf(m, mv).batch);
  }

  lemma {:induction false} ReachableFeedback(definition: RunDefinition, moves: seq<Move>)
    ensures FeedbackDated(Execute(definition, moves).log)
  {
    if moves != [] {
      ReachableFeedback(definition, moves[..|moves| - 1]);
      ReachableInv(definition, moves[..|moves| - 1]);
      FeedbackStep(Execute(definition, moves[..|moves| - 1]), moves[|moves| - 1]);
    }
  }

  lemma HintsOfMove(m: Machine, mv: Move)
    requires m.live.Some? && !Outside(mv)
    ensures EffectOf(m, mv) == AttemptEffect(m.live.value, mv)
  {
  }

  /** Replay never forgets a hint. */
  lemma {:induction false} HintsRemembered(log: seq<Event>, i: nat)
    requires Started(log) && 1 <= i < |log| && log[i].HintPublished?
    ensures log[i].hint in Replay(log).hints
  {
    var n := |log| - 1;
    HintsAfter(Replay(log[..n]), log[n]);
    if i < n { HintsRemembered(log[..n], i); }
  }

  lemma HintsAfter(s: Snapshot, e: Event)
    ensures Apply(s, e).hints == if e.HintPublished? then s.hints + [e.hint] else s.hints
  {
  }

  lemma {:induction false} StartsBetween(log: seq<Event>, i: nat, j: nat)
    requires i <= j <= |log|
    ensures Starts(log[..i]) <= Starts(log[..j])
    ensures Starts(log[..i]) == Starts(log[..j]) <==> forall k | i <= k < j :: !log[k].RunStarted?
    decreases j
  {
    if i < j {
      StartsBetween(log, i, j - 1);
      assert log[..j][..j - 1] == log[..j - 1];
    }
  }

  /** Feedback from attempt n is among the hints of attempt n + 1 and of no other attempt, and attempt
      n + 1 is the first to start afterwards, whatever pauses, resumes or recoveries come between. */
  lemma FeedbackDelivery(definition: RunDefinition, moves: seq<Move>, i: nat, j: nat)
    requires var log := Execute(definition, moves).log;
      i < j < |log| && IsFeedback(log[i]) && log[j].RunStarted?
    ensures var log := Execute(definition, moves).log;
      && 1 <= i
      && var n, k := Replay(log[..i]).attempt, log[j].attempt;
      && k >= n + 1
      && (log[i].hint in ActiveHints(Replay(log[..j]).hints, k) <==> k == n + 1)
      && (k == n + 1 <==> forall x | i < x < j :: !log[x].RunStarted?)
  {
    var log := Execute(definition, moves).log;
    ReachableNumbered(definition, moves);
    ReachableFeedback(definition, moves);
    FeedbackWhenStarted(log, i, j);
  }

  lemma FeedbackWhenStarted(log: seq<Event>, i: nat, j: nat)
    requires Started(log) && Numbered(log) && FeedbackDated(log)
    requires 1 <= i < j < |log| && IsFeedback(log[i]) && log[j].RunStarted?
    ensures var n, k := Replay(log[..i]).attempt, log[j].attempt;
      && k >= n + 1
      && (log[i].hint in ActiveHints(Replay(log[..j]).hints, k) <==> k == n + 1)
      && (k == n + 1 <==> forall x | i < x < j :: !log[x].RunStarted?)
  {
    NumberedPrefix(log, i);
    StartsAreAttempts(log[..i]);
    StartsBetween(log, i, j);
    HintsRemembered(log[..j], i);
  }
}
