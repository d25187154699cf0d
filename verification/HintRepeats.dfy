/** Directives that do repeat a key, and the exact condition for never doing so. */
module HintRepeats {
  import opened Json
  import opened Models
  import opened Grading
  import opened Runs
  import opened Redaction
  import opened RedactionProofs
  import opened Engine
  import opened Ledger
  import opened EngineInvariants
  import opened EngineTheorems
  import opened EngineBounds
  import opened EngineHints
  import opened EngineFeedback
  import opened HintKeys
  import opened Readability
  import opened HintOneShot
  import StepKinds

  // ----- Building runs -----

  /** One attempt up to the point where the advisor's directive `d` has been published. */
  function PublishRound(d: Directive): seq<Move> { [Begin(false), Emit("", true), Review(d), PublishHints] }

  /** The harness then raises, and a human asks for another attempt. */
  function RetryRound(): seq<Move> { [HarnessRaises, HandleInterrupt, ResolveHuman(Retry, "")] }

  lemma RunOne(m: Machine, mv: Move)
    ensures Run(m, [mv]) == Step(m, mv)
  {
    assert [mv][..0] == [];
  }

  lemma RunTwo(m: Machine, a: Move, b: Move)
    ensures Run(m, [a, b]) == Step(Step(m, a), b)
  {
    RunOne(m, a);
    RunOne(Step(m, a), b);
    RunConcat(m, [a], [b]);
    assert [a] + [b] == [a, b];
  }

  lemma RunPublishRound(m: Machine, d: Directive)
    ensures Run(m, PublishRound(d)) == Step(Step(Step(Step(m, Begin(false)), Emit("", true)), Review(d)), PublishHints)
  {
    RunTwo(m, Begin(false), Emit("", true));
    RunTwo(Step(Step(m, Begin(false)), Emit("", true)), Review(d), PublishHints);
    RunConcat(m, [Begin(false), Emit("", true)], [Review(d), PublishHints]);
    assert PublishRound(d) == [Begin(false), Emit("", true)] + [Review(d), PublishHints];
  }

  lemma RunRetryRound(m: Machine)
    ensures Run(m, RetryRound()) == Step(Step(Step(m, HarnessRaises), HandleInterrupt), ResolveHuman(Retry, ""))
  {
    RunTwo(m, HarnessRaises, HandleInterrupt);
    RunOne(Step(Step(m, HarnessRaises), HandleInterrupt), ResolveHuman(Retry, ""));
    RunConcat(m, [HarnessRaises, HandleInterrupt], [ResolveHuman(Retry, "")]);
    assert RetryRound() == [HarnessRaises, HandleInterrupt] + [ResolveHuman(Retry, "")];
  }

  /** A run from which another attempt can begin. */
  predicate Ready(m: Machine) {
    Started(m.log) && m.live.None? && Startable(Replay(m.log).status) && Valid(Replay(m.log))
  }

  lemma BeginStep(m: Machine)
    requires Ready(m)
    ensures var n := Step(m, Begin(false));
      && m.log <= n.log && n.live.Some? && n.live.value.phase == Executing
      && n.live.value.publishedKeys == Keys(Replay(m.log).hints) && n.live.value.steps == 0
      && n.live.value.number == Replay(m.log).attempt + 1 && n.live.value.base == Replay(m.log)
      && Replay(n.log)
         == Replay(m.log).(status := Running, attempt := Replay(m.log).attempt + 1, version := Replay(n.log).version)
  {
    var e := BeginEffect(Replay(m.log), false);
    assert EffectOf(m, Begin(false)) == e;
    ReplayNext(m.log, e.batch[0]);
  }

  lemma EmitStep(m: Machine)
    requires Started(m.log) && m.live.Some? && m.live.value.phase == Executing
    ensures var n := Step(m, Emit("", true));
      && m.log <= n.log && n.live == Some(m.live.value.(phase := Observed))
      && Replay(n.log) == Replay(m.log).(version := Replay(n.log).version)
  {
    var e := EmitEffect(m.live.value, "", true);
    assert EffectOf(m, Emit("", true)) == e;
    StepKinds.StepKindsSurviveRedaction("");
    ReplayNext(m.log, e.batch[0]);
  }

  lemma ReviewStep(m: Machine, d: Directive)
    requires Started(m.log) && m.live.Some? && m.live.value.phase == Observed
    ensures var n := Step(m, Review(d));
      && m.log <= n.log && n.live == Some(m.live.value.(phase := Reviewed(d)))
      && Replay(n.log) == Replay(m.log).(version := Replay(n.log).version)
  {
    assert EffectOf(m, Review(d)) == Continuing(m.live.value, [SupervisorReviewed(d)], Reviewed(d));
    ReplayNext(m.log, SupervisorReviewed(d));
  }

  lemma PublishStep(m: Machine, d: Directive)
    requires Started(m.log) && m.live.Some? && m.live.value.phase == Reviewed(d)
    ensures var n := Step(m, PublishHints);
      && n.log == m.log + HintEvents(NewDrafts(d.hints, m.live.value.publishedKeys), m.live.value)
      && n.live.Some? && n.live.value.phase == Hinted(d)
      && n.live.value.number == m.live.value.number && n.live.value.base == m.live.value.base
      && Replay(n.log).(hints := [], version := 0) == Replay(m.log).(hints := [], version := 0)
  {
    var a := m.live.value;
    var drafts := NewDrafts(d.hints, a.publishedKeys);
    assert EffectOf(m, PublishHints) == PublishEffect(a, d);
    ViewAppend(m.log, HintEvents(drafts, a));
    ThenHints(ViewOf(m.log), drafts, a);
  }

  /** `x` is the run `m` with one more attempt, whose directive `d` has just been reviewed. */
  predicate UnderReview(x: Machine, m: Machine, d: Directive) {
    && Started(m.log) && Started(x.log) && m.log <= x.log
    && x.live.Some? && x.live.value.phase == Reviewed(d) && x.live.value.publishedKeys == Keys(Replay(m.log).hints)
    && x.live.value.number == Replay(m.log).attempt + 1 && x.live.value.base == Replay(m.log)
    && Replay(x.log)
       == Replay(m.log).(status := Running, attempt := Replay(m.log).attempt + 1, version := Replay(x.log).version)
  }

  lemma AfterReview(m: Machine, d: Directive)
    requires Ready(m)
    ensures UnderReview(Step(Step(Step(m, Begin(false)), Emit("", true)), Review(d)), m, d)
  {
    var m1 := Step(m, Begin(false));
    BeginStep(m);
    var m2 := Step(m1, Emit("", true));
    EmitStep(m1);
    ReviewStep(m2, d);
  }

  /** `n` is the run `m` with one more attempt, whose directive `d` has just been published. */
  predicate JustPublished(n: Machine, m: Machine, d: Directive) {
    && Started(m.log) && Started(n.log) && n.live.Some? && n.live.value.phase == Hinted(d)
    && n.live.value.number == Replay(m.log).attempt + 1 && n.live.value.base == Replay(m.log)
    && Replay(n.log).status == Running && TotalsValid(Replay(n.log))
    && (HintsValid(Replay(n.log)) <==> Legible(NewDrafts(d.hints, Keys(Replay(m.log).hints))))
  }

  lemma PublishFrom(x: Machine, m: Machine, d: Directive)
    requires UnderReview(x, m, d) && Valid(Replay(m.log))
    ensures JustPublished(Step(x, PublishHints), m, d)
    ensures Step(x, PublishHints).log
         == x.log + HintEvents(NewDrafts(d.hints, Keys(Replay(m.log).hints)), x.live.value)
  {
    PublishStep(x, d);
    HintsStep(x, PublishHints);
  }

  /** A publishing round of a ready run ends with the hints of the drafts that were new to it. */
  lemma AfterPublishRound(m: Machine, d: Directive) returns (before: seq<Event>, a: Attempt)
    requires Ready(m)
    ensures var n := Run(m, PublishRound(d));
      && m.log <= before && n.log == before + HintEvents(NewDrafts(d.hints, Keys(Replay(m.log).hints)), a)
      && JustPublished(n, m, d)
  {
    RunPublishRound(m, d);
    AfterReview(m, d);
    var x := Step(Step(Step(m, Begin(false)), Emit("", true)), Review(d));
    PublishFrom(x, m, d);
    before, a := x.log, x.live.value;
  }

  lemma RaiseStep(m: Machine)
    requires m.live.Some? && InHarness(m.live.value.phase)
    ensures Step(m, HarnessRaises) == Machine(m.log, Some(m.live.value.(phase := Interrupted(Raised))))
  {
    assert m.log + [] == m.log;
  }

  lemma TwoMore(log: seq<Event>, batch: seq<Event>)
    requires Started(log) && |batch| == 2
    ensures Started(log + batch) && Replay(log + batch) == Apply(Apply(Replay(log), batch[0]), batch[1])
  {
    ReplayNext(log, batch[0]);
    ReplayNext(log + [batch[0]], batch[1]);
    assert log + batch == log + [batch[0]] + [batch[1]];
  }

  lemma HandleStep(m: Machine)
    requires Started(m.log) && m.live.Some? && m.live.value.phase == Interrupted(Raised)
    ensures var n := Step(m, HandleInterrupt);
      && m.log <= n.log && n.live.None?
      && Replay(n.log) == Replay(m.log).(status := WaitingHuman, version := Replay(n.log).version)
  {
    var batch := [ExecutionFailed(m.live.value.number), RunWaitingHuman(ExecutionReason)];
    assert EffectOf(m, HandleInterrupt) == Effect(batch, None);
    TwoMore(m.log, batch);
  }

  lemma RetryEffect(m: Machine)
    requires Started(m.log) && Valid(Replay(m.log)) && Replay(m.log).status == WaitingHuman
    ensures EffectOf(m, ResolveHuman(Retry, ""))
         == Effect([HitlResolved(Retry), RunRetryScheduled(Replay(m.log).attempt + 1, false)], m.live)
  {
  }

  lemma RetryReplay(log: seq<Event>, next: nat)
    requires Started(log)
    ensures var w := log + [HitlResolved(Retry), RunRetryScheduled(next, false)];
      Started(w) && Replay(w) == Replay(log).(status := RetryScheduled, version := Replay(w).version)
  {
    TwoMore(log, [HitlResolved(Retry), RunRetryScheduled(next, false)]);
  }

  lemma RetryStep(m: Machine)
    requires Started(m.log) && m.live.None? && Valid(Replay(m.log)) && Replay(m.log).status == WaitingHuman
    ensures var n := Step(m, ResolveHuman(Retry, ""));
      && m.log <= n.log && n.live.None?
      && Replay(n.log) == Replay(m.log).(status := RetryScheduled, version := Replay(n.log).version)
  {
    RetryEffect(m);
    RetryReplay(m.log, Replay(m.log).attempt + 1);
  }

  /** The same run but for its status and version. */
  predicate Turned(s: Snapshot, w: Snapshot, status: Status) { w == s.(status := status, version := w.version) }

  lemma AfterFailure(m: Machine)
    requires Started(m.log) && m.live.Some? && InHarness(m.live.value.phase)
    ensures var n := Step(Step(m, HarnessRaises), HandleInterrupt);
      m.log <= n.log && n.live.None? && Started(n.log) && Turned(Replay(m.log), Replay(n.log), WaitingHuman)
  {
    RaiseStep(m);
    HandleStep(Step(m, HarnessRaises));
  }

  lemma AfterRetry(n: Machine, s: Snapshot)
    requires n.live.None? && Started(n.log) && Turned(s, Replay(n.log), WaitingHuman) && Valid(s)
    ensures var w := Step(n, ResolveHuman(Retry, ""));
      n.log <= w.log && Ready(w) && Turned(s, Replay(w.log), RetryScheduled)
  {
    RetryStep(n);
  }

  lemma AfterRetryRound(m: Machine)
    requires Started(m.log) && m.live.Some? && InHarness(m.live.value.phase) && Valid(Replay(m.log))
    ensures var n := Run(m, RetryRound());
      && m.log <= n.log && Ready(n)
      && Replay(n.log) == Replay(m.log).(status := RetryScheduled, version := Replay(n.log).version)
  {
    RunRetryRound(m);
    AfterFailure(m);
    AfterRetry(Step(Step(m, HarnessRaises), HandleInterrupt), Replay(m.log));
  }

  /** Only the directive `d` is ever given. */
  predicate OnlyReviews(moves: seq<Move>, d: Directive) { forall mv | mv in moves && mv.Review? :: mv.directive == d }

  lemma {:induction false} NothingPublished(drafts: seq<HintDraft>)
    ensures NewDrafts(drafts, {}) == drafts
  {
    if drafts != [] { NothingPublished(drafts[1..]); }
  }

  lemma FirstRound(definition: RunDefinition, d: Directive) returns (before: seq<Event>, a: Attempt)
    ensures var n := Execute(definition, PublishRound(d));
      && n.log == before + HintEvents(d.hints, a)
      && Started(n.log) && n.live.Some? && n.live.value.phase == Hinted(d)
      && TotalsValid(Replay(n.log)) && (HintsValid(Replay(n.log)) <==> Legible(d.hints))
  {
    var m := Initial(definition);
    assert Replay(m.log) == Fresh(definition);
    assert Keys(Replay(m.log).hints) == {};
    NothingPublished(d.hints);
    before, a := AfterPublishRound(m, d);
  }

  /** Two drafts whose keys are stored alike: the first publication already repeats one. */
  lemma RepeatedKeyRepeats(definition: RunDefinition, d: Directive)
    requires !DistinctStored(d.hints)
    ensures !HintsUnique(Execute(definition, PublishRound(d)).log)
  {
    var before, a := FirstRound(definition, d);
    RepeatedAtOnce(before, d.hints, a);
  }

  lemma RepeatedPair(before: seq<Event>, batch: seq<Event>, i: nat, j: nat)
    requires i < j < |batch| && batch[i].HintPublished? && batch[j].HintPublished?
    requires batch[i].hint.deduplicationKey == batch[j].hint.deduplicationKey
    ensures !HintsUnique(before + batch)
  {
    PrefixAt(before, batch, before + batch, i);
    PrefixAt(before, batch, before + batch, j);
    Witness(before, batch, |before| + i, |before| + j);
  }

  lemma RepeatedAtOnce(before: seq<Event>, drafts: seq<HintDraft>, a: Attempt)
    requires !DistinctStored(drafts)
    ensures !HintsUnique(before + HintEvents(drafts, a))
  {
    HintEventsAre(drafts, a);
    var i, j :| 0 <= i < j < |drafts|
      && RedactText(drafts[i].deduplicationKey) == RedactText(drafts[j].deduplicationKey);
    RepeatedPair(before, HintEvents(drafts, a), i, j);
  }

  lemma Witness(before: seq<Event>, batch: seq<Event>, i: nat, j: nat)
    requires var log := before + batch;
      && i < j < |log| && log[i].HintPublished? && log[j].HintPublished?
      && log[i].hint.deduplicationKey == log[j].hint.deduplicationKey
    ensures !HintsUnique(before + batch)
  {
  }

  function TwoRounds(d: Directive): seq<Move> { PublishRound(d) + RetryRound() + PublishRound(d) }

  lemma AfterTwoRounds(definition: RunDefinition, d: Directive)
    returns (before: seq<Event>, a: Attempt, between: seq<Event>, a': Attempt, published: set<string>)
    requires Legible(d.hints)
    ensures Execute(definition, TwoRounds(d)).log == between + HintEvents(NewDrafts(d.hints, published), a')
    ensures before + HintEvents(d.hints, a) <= between
    ensures forall k | k in published :: CleanText(k)
  {
    var m := Initial(definition);
    before, a := FirstRound(definition, d);
    FirstRoundIsClean(definition, d, before, a);
    var one := Run(m, PublishRound(d));
    AfterRetryRound(one);
    var two := Run(one, RetryRound());
    RunConcat(m, PublishRound(d), RetryRound());
    between, a' := AfterPublishRound(two, d);
    RunConcat(m, PublishRound(d) + RetryRound(), PublishRound(d));
    published := Keys(Replay(two.log).hints);
  }

  lemma PublishedTwice(before: seq<Event>, a: Attempt, between: seq<Event>, a': Attempt, published: set<string>,
                       drafts: seq<HintDraft>, x: HintDraft)
    requires x in drafts && x.deduplicationKey !in published && before + HintEvents(drafts, a) <= between
    ensures !HintsUnique(between + HintEvents(NewDrafts(drafts, published), a'))
  {
    NewDraftsAre(drafts, published);
    SameAdviceTwice(before, a, between, a', drafts, NewDrafts(drafts, published), x);
  }

  lemma SameAdviceTwice(before: seq<Event>, a: Attempt, between: seq<Event>, a': Attempt, first: seq<HintDraft>,
                        second: seq<HintDraft>, x: HintDraft)
    requires x in first && x in second && before + HintEvents(first, a) <= between
    ensures !HintsUnique(between + HintEvents(second, a'))
  {
    var i := AdviceOf(first, a, x);
    var j := AdviceOf(second, a', x);
    PrefixAt(before, HintEvents(first, a), between, i);
    Witness(between, HintEvents(second, a'), |before| + i, |between| + j);
  }

  lemma AdviceOf(drafts: seq<HintDraft>, a: Attempt, x: HintDraft) returns (i: nat)
    requires x in drafts
    ensures i < |HintEvents(drafts, a)| && IsAdvice(HintEvents(drafts, a)[i])
    ensures HintEvents(drafts, a)[i].hint.deduplicationKey == RedactText(x.deduplicationKey)
  {
    HintEventsAre(drafts, a);
    i :| 0 <= i < |drafts| && drafts[i] == x;
  }

  lemma PrefixAt(before: seq<Event>, batch: seq<Event>, whole: seq<Event>, i: nat)
    requires before + batch <= whole && i < |batch|
    ensures whole[|before| + i] == batch[i]
  {
    assert (before + batch)[|before| + i] == batch[i];
  }

  /** A key that redaction rewrites is forgotten: the next attempt, if the run can still be read, publishes it
      again. */
  lemma UnstableKeyRepeats(definition: RunDefinition, d: Directive)
    requires !StableKeys(d.hints) && Legible(d.hints)
    ensures !HintsUnique(Execute(definition, TwoRounds(d)).log)
  {
    var x :| x in d.hints && RedactText(x.deduplicationKey) != x.deduplicationKey;
    RedactTextFixed(x.deduplicationKey);
    var before, a, between, a', published := AfterTwoRounds(definition, d);
    PublishedTwice(before, a, between, a', published, d.hints, x);
  }

  /** Every key that replay shows after the first round has been through redaction. */
  lemma FirstRoundIsClean(definition: RunDefinition, d: Directive, before: seq<Event>, a: Attempt)
    requires Execute(definition, PublishRound(d)).log == before + HintEvents(d.hints, a)
    ensures forall k | k in Keys(Replay(Execute(definition, PublishRound(d)).log).hints) :: CleanText(k)
  {
    RunPublishRound(Initial(definition), d);
    var m := Initial(definition);
    assert Replay(m.log) == Fresh(definition);
    var m1 := Step(m, Begin(false));
    BeginStep(m);
    var m2 := Step(m1, Emit("", true));
    EmitStep(m1);
    var m3 := Step(m2, Review(d));
    ReviewStep(m2, d);
    PublishStep(m3, d);
    var drafts := NewDrafts(d.hints, m3.live.value.publishedKeys);
    ViewAppend(m3.log, HintEvents(drafts, m3.live.value));
    PublishedAreClean(ViewOf(m3.log), drafts, m3.live.value);
  }

  lemma {:induction false} PublishedAreClean(v: View, drafts: seq<HintDraft>, a: Attempt)
    requires forall k | k in Keys(v.run.hints) :: CleanText(k)
    ensures forall k | k in Keys(Then(v, HintEvents(drafts, a)).run.hints) :: CleanText(k)
    decreases |drafts|
  {
    if drafts != [] {
      var batch := HintEvents(drafts, a);
      assert batch[1..] == HintEvents(drafts[1..], a);
      RedactTextIsClean(drafts[0].deduplicationKey);
      KeysSnoc(v.run.hints, batch[0].hint);
      PublishedAreClean(See(v, batch[0]), drafts[1..], a);
    }
  }

  // ----- Feedback repeats an evaluation key -----

  /** An attempt whose harness raises, until a human asks for another one. */
  function FailRound(): seq<Move> { [Begin(false)] + RetryRound() }

  function FailRounds(k: nat): seq<Move> { if k == 0 then [] else FailRounds(k - 1) + FailRound() }

  lemma AfterFailRound(m: Machine)
    requires Ready(m)
    ensures var n := Run(m, FailRound()); var s := Replay(m.log);
      && Ready(n)
      && Replay(n.log) == s.(status := RetryScheduled, attempt := s.attempt + 1, version := Replay(n.log).version)
  {
    RunOne(m, Begin(false));
    BeginStep(m);
    AfterRetryRound(Step(m, Begin(false)));
    RunConcat(m, [Begin(false)], RetryRound());
  }

  /** A ready run of attempt `n` that has used and published nothing. */
  predicate Blank(m: Machine, definition: RunDefinition, n: nat) {
    && Ready(m)
    && var s := Replay(m.log);
    && s.attempt == n && s.definition == definition && s.hints == [] && s.totalTokens == 0 && s.totalCost == 0.0
  }

  lemma {:induction false} AfterFailRounds(definition: RunDefinition, k: nat)
    ensures Blank(Execute(definition, FailRounds(k)), definition, k)
  {
    if k == 0 {
      assert Replay(Initial(definition).log) == Fresh(definition);
    } else {
      AfterFailRounds(definition, k - 1);
      AfterFailRound(Execute(definition, FailRounds(k - 1)));
      RunConcat(Initial(definition), FailRounds(k - 1), FailRound());
    }
  }

  /** The directive's action is carried out; a harness goes on even if that raises. */
  function GoOnRound(): seq<Move> { [RequestAction(false), HarnessSwallows] }

  lemma ActStep(m: Machine, d: Directive)
    requires m.live.Some? && m.live.value.phase == Hinted(d)
    ensures var n := Step(m, RequestAction(false));
      && m.log <= n.log && n.live.Some? && n.live.value == m.live.value.(phase := n.live.value.phase)
      && (n.live.value.phase == Executing || n.live.value.phase.Interrupted?)
  {
    var e := ActionEffect(m.live.value, d, false);
    assert EffectOf(m, RequestAction(false)) == e;
  }

  lemma AfterGoOn(m: Machine, d: Directive)
    requires Started(m.log) && m.live.Some? && m.live.value.phase == Hinted(d)
    ensures var n := Run(m, GoOnRound()); m.log <= n.log && n.live == Some(m.live.value.(phase := Executing))
  {
    RunTwo(m, RequestAction(false), HarnessSwallows);
    ActStep(m, d);
    GoOnStep(Step(m, RequestAction(false)));
  }

  lemma GoOnStep(m: Machine)
    requires m.live.Some? && (m.live.value.phase == Executing || m.live.value.phase.Interrupted?)
    ensures Step(m, HarnessSwallows) == Machine(m.log, Some(m.live.value.(phase := Executing)))
  {
    assert m.log + [] == m.log;
  }

  /** The harness returns, and the graders report `results`. */
  function EvaluationRound(cost: real, results: seq<EvaluationResult>): seq<Move> {
    [HarnessReturns(Null, 0, cost), CheckBudget] + [Decide(results), Conclude]
  }

  lemma ReturnStep(m: Machine, cost: real)
    requires m.live.Some? && m.live.value.phase == Executing
    ensures var n := Step(m, HarnessReturns(Null, 0, cost));
      m.log <= n.log && n.live == Some(m.live.value.(phase := Completed(0, cost)))
  {
    assert EffectOf(m, HarnessReturns(Null, 0, cost)) == ReturnEffect(m.live.value, Null, 0, cost);
  }

  lemma CheckStep(m: Machine, cost: real)
    requires m.live.Some? && m.live.value.phase == Completed(0, cost)
    requires var a := m.live.value;
      !Exceeds(a.base.definition.supervisorPolicy, a.base.totalTokens, a.base.totalCost + cost)
    ensures var n := Step(m, CheckBudget); m.log <= n.log && n.live == Some(m.live.value.(phase := GradingOutput))
  {
    assert EffectOf(m, CheckBudget) == BudgetEffect(m.live.value, 0, cost);
  }

  lemma AfterReturn(m: Machine, cost: real)
    requires m.live.Some? && m.live.value.phase == Executing
    requires var a := m.live.value;
      !Exceeds(a.base.definition.supervisorPolicy, a.base.totalTokens, a.base.totalCost + cost)
    ensures var n := Run(m, [HarnessReturns(Null, 0, cost), CheckBudget]);
      m.log <= n.log && n.live == Some(m.live.value.(phase := GradingOutput))
  {
    RunTwo(m, HarnessReturns(Null, 0, cost), CheckBudget);
    ReturnStep(m, cost);
    CheckStep(Step(m, HarnessReturns(Null, 0, cost)), cost);
  }

  lemma AfterVerdict(m: Machine, results: seq<EvaluationResult>)
    requires m.live.Some? && m.live.value.phase == GradingOutput
    requires FailsRetryably(m.live.value.base.definition.gradingPolicy, results)
    requires m.live.value.number <= m.live.value.base.definition.supervisorPolicy.maxRetries
    ensures var n := Run(m, [Decide(results), Conclude]); var a := m.live.value;
      n.log == m.log + [EvaluationCompleted(Aggregate(a.base.definition.gradingPolicy, results).value)]
               + RetryBatch(a.number, FeedbackHint(a.number, results))
  {
    RunTwo(m, Decide(results), Conclude);
    var a := m.live.value;
    DecideStep(m, results);
    RetryConclusion(a.(phase := Decided(Aggregate(a.base.definition.gradingPolicy, results).value)), results);
    ConcludeStep(Step(m, Decide(results)));
  }

  predicate FailsRetryably(policy: GradingPolicy, results: seq<EvaluationResult>) {
    && Aggregate(policy, results).Ok? && !Aggregate(policy, results).value.passed
    && exists r | r in results :: r.retryable
  }

  lemma DecideStep(m: Machine, results: seq<EvaluationResult>)
    requires m.live.Some? && m.live.value.phase == GradingOutput
    requires Aggregate(m.live.value.base.definition.gradingPolicy, results).Ok?
    ensures var d := Aggregate(m.live.value.base.definition.gradingPolicy, results).value;
      Step(m, Decide(results)) == Machine(m.log + [EvaluationCompleted(d)], Some(m.live.value.(phase := Decided(d))))
  {
    assert EffectOf(m, Decide(results)) == DecideEffect(m.live.value, results);
  }

  lemma RetryConclusion(a: Attempt, results: seq<EvaluationResult>)
    requires FailsRetryably(a.base.definition.gradingPolicy, results)
    requires a.number <= a.base.definition.supervisorPolicy.maxRetries
    ensures ConclusionBatch(a, Aggregate(a.base.definition.gradingPolicy, results).value)
         == RetryBatch(a.number, FeedbackHint(a.number, results))
  {
  }

  lemma {:induction false} FreshName(keys: set<string>) returns (name: string)
    ensures name != "" && forall k | k in keys :: |k| < |name|
  {
    if keys == {} {
      name := "x";
    } else {
      var k :| k in keys;
      var shorter := FreshName(keys - {k});
      name := shorter + k + "x";
    }
  }

  /** A grader's worst report. */
  function Zero(graderId: string): EvaluationResult { EvaluationResult(graderId, 0.0, map[], [], true) }

  function Zeros(graderId: string, k: nat): seq<EvaluationResult> {
    if k == 0 then [] else [Zero(graderId)] + Zeros(graderId, k - 1)
  }

  lemma {:induction false} ZerosAre(policy: GradingPolicy, graderId: string, k: nat)
    requires graderId !in policy.graderWeights
    ensures forall r | r in Zeros(graderId, k) :: r == Zero(graderId)
    ensures |Zeros(graderId, k)| == k
    ensures TotalWeight(policy, Zeros(graderId, k)) == k as real && WeightedSum(policy, Zeros(graderId, k)) == 0.0
  {
    if k > 0 {
      ZerosAre(policy, graderId, k - 1);
      var rest := Zeros(graderId, k - 1);
      assert ([Zero(graderId)] + rest)[1..] == rest;
    }
  }

  lemma ZerosFail(policy: GradingPolicy, graderId: string, k: nat)
    requires CanFail(policy) && k > 0 && graderId !in policy.graderWeights
    ensures FailsRetryably(policy, Zeros(graderId, k))
  {
    var results := Zeros(graderId, k);
    ZerosAre(policy, graderId, k);
    assert results[0] in results;
    if policy.requiredConstraints != [] {
      assert !ConstraintPassed(policy.requiredConstraints[0], results);
      assert policy.requiredConstraints[0] in FailedConstraints(policy.requiredConstraints, results);
    }
  }

  /** Any number of graders can fail an evaluation under a policy that can fail one. */
  lemma SomeResultsFail(policy: GradingPolicy, k: nat) returns (results: seq<EvaluationResult>)
    requires CanFail(policy) && k > 0
    ensures |results| == k && FailsRetryably(policy, results)
  {
    var name := FreshName(policy.graderWeights.Keys);
    results := Zeros(name, k);
    ZerosAre(policy, name, k);
    ZerosFail(policy, name, k);
  }

  /** The advice of attempt `n`, and then the failed evaluation of the same attempt. */
  function AdviseAndFail(d: Directive, n: nat, cost: real, results: seq<EvaluationResult>): seq<Move>
    requires n > 0
  {
    FailRounds(n - 1) + PublishRound(d) + GoOnRound() + EvaluationRound(cost, results)
  }

  lemma AfterEvaluation(m: Machine, cost: real, results: seq<EvaluationResult>) returns (middle: seq<Event>)
    requires m.live.Some? && m.live.value.phase == Executing
    requires var a := m.live.value;
      && !Exceeds(a.base.definition.supervisorPolicy, a.base.totalTokens, a.base.totalCost + cost)
      && FailsRetryably(a.base.definition.gradingPolicy, results)
      && a.number <= a.base.definition.supervisorPolicy.maxRetries
    ensures var a := m.live.value;
      Run(m, EvaluationRound(cost, results)).log == middle + RetryBatch(a.number, FeedbackHint(a.number, results))
    ensures m.log <= middle
  {
    var one := Run(m, [HarnessReturns(Null, 0, cost), CheckBudget]);
    AfterReturn(m, cost);
    AfterVerdict(one, results);
    RunConcat(m, [HarnessReturns(Null, 0, cost), CheckBudget], [Decide(results), Conclude]);
    middle := one.log + [EvaluationCompleted(Aggregate(m.live.value.base.definition.gradingPolicy, results).value)];
  }

  lemma RunFour(m: Machine, a: seq<Move>, b: seq<Move>, c: seq<Move>, d: seq<Move>)
    ensures Run(m, a + b + c + d) == Run(Run(Run(Run(m, a), b), c), d)
  {
    RunConcat(m, a, b);
    RunConcat(m, a + b, c);
    RunConcat(m, a + b + c, d);
  }

  /** The advice is out, and the harness goes on. */
  lemma AdviseFrom(m: Machine, definition: RunDefinition, d: Directive, n: nat)
    returns (before: seq<Event>, a: Attempt)
    requires n >= 1 && Blank(m, definition, n - 1)
    ensures var x := Run(Run(m, PublishRound(d)), GoOnRound());
      && x.live.Some? && x.live.value.phase == Executing
      && x.live.value.number == n && x.live.value.base == Replay(m.log)
      && before + HintEvents(d.hints, a) <= x.log
  {
    assert Keys(Replay(m.log).hints) == {};
    NothingPublished(d.hints);
    before, a := AfterPublishRound(m, d);
    AfterGoOn(Run(m, PublishRound(d)), d);
  }

  lemma FailFrom(x: Machine, definition: RunDefinition, n: nat, base: Snapshot, cost: real,
                 results: seq<EvaluationResult>)
    returns (middle: seq<Event>)
    requires 1 <= n <= definition.supervisorPolicy.maxRetries
    requires x.live.Some? && x.live.value.phase == Executing && x.live.value.number == n && x.live.value.base == base
    requires base.definition == definition && base.totalTokens == 0 && base.totalCost == 0.0
    requires FailsRetryably(definition.gradingPolicy, results) && !Exceeds(definition.supervisorPolicy, 0, cost)
    ensures Run(x, EvaluationRound(cost, results)).log == middle + RetryBatch(n, FeedbackHint(n, results))
    ensures x.log <= middle
  {
    middle := AfterEvaluation(x, cost, results);
  }

  lemma AdviseAndFailFrom(m: Machine, definition: RunDefinition, d: Directive, n: nat, cost: real,
                          results: seq<EvaluationResult>)
    returns (before: seq<Event>, a: Attempt, middle: seq<Event>)
    requires 1 <= n <= definition.supervisorPolicy.maxRetries && Blank(m, definition, n - 1)
    requires FailsRetryably(definition.gradingPolicy, results) && !Exceeds(definition.supervisorPolicy, 0, cost)
    ensures before + HintEvents(d.hints, a) <= middle
    ensures Run(Run(Run(m, PublishRound(d)), GoOnRound()), EvaluationRound(cost, results)).log
         == middle + RetryBatch(n, FeedbackHint(n, results))
  {
    before, a := AdviseFrom(m, definition, d, n);
    middle := FailFrom(Run(Run(m, PublishRound(d)), GoOnRound()), definition, n, Replay(m.log), cost, results);
  }

  lemma AfterAdviseAndFail(
      definition: RunDefinition, d: Directive, n: nat, cost: real, results: seq<EvaluationResult>)
    returns (before: seq<Event>, a: Attempt, middle: seq<Event>)
    requires 1 <= n <= definition.supervisorPolicy.maxRetries && FailsRetryably(definition.gradingPolicy, results)
    requires !Exceeds(definition.supervisorPolicy, 0, cost)
    ensures before + HintEvents(d.hints, a) <= middle
    ensures Execute(definition, AdviseAndFail(d, n, cost, results)).log
         == middle + RetryBatch(n, FeedbackHint(n, results))
  {
    AfterFailRounds(definition, n - 1);
    before, a, middle := AdviseAndFailFrom(Execute(definition, FailRounds(n - 1)), definition, d, n, cost, results);
    RunFour(Initial(definition), FailRounds(n - 1), PublishRound(d), GoOnRound(), EvaluationRound(cost, results));
  }

  lemma AffordableCost(policy: SupervisorPolicy) returns (cost: real)
    ensures cost <= 0.0 && !Exceeds(policy, 0, cost)
    ensures (policy.maxCost.Some? ==> policy.maxCost.value >= 0.0) ==> cost == 0.0
  {
    cost := if policy.maxCost.Some? && policy.maxCost.value < 0.0 then policy.maxCost.value else 0.0;
  }

  lemma KeyTwice(before: seq<Event>, drafts: seq<HintDraft>, a: Attempt, middle: seq<Event>, n: nat,
                 results: seq<EvaluationResult>)
    requires EvaluationKey(n) in DraftKeys(drafts) && before + HintEvents(drafts, a) <= middle
    ensures !HintsUnique(middle + RetryBatch(n, FeedbackHint(n, results)))
  {
    var x :| x in drafts && x.deduplicationKey == EvaluationKey(n);
    var i := AdviceOf(drafts, a, x);
    PrefixAt(before, HintEvents(drafts, a), middle, i);
    Witness(middle, RetryBatch(n, FeedbackHint(n, results)), |before| + i, |middle|);
  }

  /** An advisor's key that is the evaluation key of an attempt within the retry budget: published in that
      attempt, it is published once more with the feedback when the attempt fails. */
  lemma EvaluationKeyRepeats(definition: RunDefinition, d: Directive, n: nat) returns (moves: seq<Move>)
    requires 1 <= n <= definition.supervisorPolicy.maxRetries && EvaluationKey(n) in DraftKeys(d.hints)
    requires CanFail(definition.gradingPolicy)
    ensures OnlyReviews(moves, d) && !HintsUnique(Execute(definition, moves).log)
  {
    var graders := if definition.graderIds == [] then 1 else |definition.graderIds|;
    var results := SomeResultsFail(definition.gradingPolicy, graders);
    var cost := AffordableCost(definition.supervisorPolicy);
    moves := AdviseAndFail(d, n, cost, results);
    AdviseAndFailReviews(d, n, cost, results);
    AdviseAndFailRepeats(definition, d, n, cost, results);
  }

  lemma AdviseAndFailRepeats(definition: RunDefinition, d: Directive, n: nat, cost: real,
                             results: seq<EvaluationResult>)
    requires 1 <= n <= definition.supervisorPolicy.maxRetries && FailsRetryably(definition.gradingPolicy, results)
    requires !Exceeds(definition.supervisorPolicy, 0, cost) && EvaluationKey(n) in DraftKeys(d.hints)
    ensures !HintsUnique(Execute(definition, AdviseAndFail(d, n, cost, results)).log)
  {
    var before, a, middle := AfterAdviseAndFail(definition, d, n, cost, results);
    KeyTwice(before, d.hints, a, middle, n, results);
  }

  lemma AdviseAndFailReviews(d: Directive, n: nat, cost: real, results: seq<EvaluationResult>)
    requires n > 0
    ensures OnlyReviews(AdviseAndFail(d, n, cost, results), d)
  {
    FailRoundsReviewNothing(n - 1);
  }

  lemma {:induction false} FailRoundsReviewNothing(k: nat)
    ensures forall mv | mv in FailRounds(k) :: !mv.Review?
  {
    if k > 0 { FailRoundsReviewNothing(k - 1); }
  }

  // ----- The exact condition -----

  /** Whatever happens in the run, `d` never gets a key published twice. */
  ghost predicate RepeatFree(definition: RunDefinition, d: Directive) {
    forall moves | OnlyReviews(moves, d) :: HintsUnique(Execute(definition, moves).log)
  }

  lemma SafeIsRepeatFree(definition: RunDefinition, d: Directive)
    requires SafeDirective(definition, d)
    ensures RepeatFree(definition, d)
  {
    forall moves | OnlyReviews(moves, d) ensures HintsUnique(Execute(definition, moves).log) {
      HintsPublishedOnce(definition, moves);
    }
  }

  lemma NotRepeatFree(definition: RunDefinition, d: Directive, moves: seq<Move>)
    requires OnlyReviews(moves, d) && !HintsUnique(Execute(definition, moves).log)
    ensures !RepeatFree(definition, d)
  {
  }

  lemma RoundsOnlyReview(d: Directive)
    ensures OnlyReviews(PublishRound(d), d) && OnlyReviews(TwoRounds(d), d)
  {
  }

  lemma OneShotIsRepeatFree(definition: RunDefinition, d: Directive)
    requires OneShot(definition, d)
    ensures RepeatFree(definition, d)
  {
    forall moves | OnlyReviews(moves, d) ensures HintsUnique(Execute(definition, moves).log) {
      OneShotPublishesOnce(definition, moves, d);
    }
  }

  /** The condition: the stored keys are distinct, none is an evaluation key if the run can fail an evaluation,
      and either redaction leaves the keys alone, or it makes a hint too long for the run to be read again. */
  predicate PublishesOnce(definition: RunDefinition, d: Directive) {
    DistinctStored(d.hints) && AvoidsFeedback(definition, d) && (StableKeys(d.hints) || !Legible(d.hints))
  }

  lemma StableIsSafe(definition: RunDefinition, d: Directive)
    requires StableKeys(d.hints) && DistinctStored(d.hints) && AvoidsFeedback(definition, d)
    ensures SafeDirective(definition, d)
  {
    forall i, j | 0 <= i < j < |d.hints| ensures d.hints[i].deduplicationKey != d.hints[j].deduplicationKey {
      assert d.hints[i] in d.hints && d.hints[j] in d.hints;
    }
  }

  lemma RepeatsSomehow(definition: RunDefinition, d: Directive)
    requires !PublishesOnce(definition, d)
    ensures !RepeatFree(definition, d)
  {
    RoundsOnlyReview(d);
    if !DistinctStored(d.hints) {
      RepeatedKeyRepeats(definition, d);
      NotRepeatFree(definition, d, PublishRound(d));
    } else if !AvoidsFeedback(definition, d) {
      var n :| 1 <= n <= definition.supervisorPolicy.maxRetries && EvaluationKey(n) in DraftKeys(d.hints);
      var moves := EvaluationKeyRepeats(definition, d, n);
      NotRepeatFree(definition, d, moves);
    } else {
      UnstableKeyRepeats(definition, d);
      NotRepeatFree(definition, d, TwoRounds(d));
    }
  }

  /** A directive can be given any number of times without any key of the run ever being published twice
      exactly under that condition. */
  lemma RepeatFreeExactly(definition: RunDefinition, d: Directive)
    ensures PublishesOnce(definition, d) <==> RepeatFree(definition, d)
  {
    if !PublishesOnce(definition, d) {
      RepeatsSomehow(definition, d);
    } else if StableKeys(d.hints) {
      StableIsSafe(definition, d);
      SafeIsRepeatFree(definition, d);
    } else {
      OneShotIsRepeatFree(definition, d);
    }
  }
}
