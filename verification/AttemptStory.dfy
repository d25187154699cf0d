/**
 What one attempt appends, told from the harness's calls of the emitter, call by call.

 The account knows no phases and no interruptions: a call halts the harness or it does not, the first
 halt that the harness does not swallow has the last word, and otherwise the result is graded.
 */
module AttemptStory {
  import opened Json
  import opened Models
  import opened Grading
  import opened Runs
  import opened Redaction
  import opened Engine
  import opened HintKeys
  import opened Supervisor
  import opened SupervisorEnds

  // ----- One call of the emitter -----

  /** Why a call does not return to the harness. */
  datatype Halt =
    | TooManySteps | AdvisorError | ActionError | PauseAsked | HumanAsked(rationale: string)
    | AbortAsked(rationale: string)

  /** Attempt `number` of a run, under its limit of steps. */
  datatype Frame = Frame(number: nat, inline: bool, limit: nat)

  predicate CountsAsStep(call: EmitCall) {
    call.kind == "agent.step" || call.kind == "step/start" || call.kind == "dsh.step/start"
  }

  function StepsAfter(call: EmitCall, steps: nat): nat { if CountsAsStep(call) then steps + 1 else steps }

  /** The call is one step too many, so nobody reviews it. */
  predicate Over(call: EmitCall, steps: nat, limit: nat) { CountsAsStep(call) && steps + 1 > limit }

  function HaltOf(call: EmitCall, steps: nat, limit: nat): Option<Halt> {
    if Over(call, steps, limit) then Some(TooManySteps)
    else
      match call.advice
      case NoReview => None
      case AdvisorRaises => Some(AdvisorError)
      case Directs(d, handler) => HaltBy(d, handler)
  }

  function HaltBy(d: Directive, handler: Handler): Option<Halt> {
    match d.action
    case Pause => Some(PauseAsked)
    case RequestHuman => Some(HumanAsked(d.rationale))
    case Abort => Some(AbortAsked(d.rationale))
    case _ => if ForHandler(d) && handler.HandlerRaises? then Some(ActionError) else None
  }

  /** The handler is asked to act. */
  predicate ForHandler(d: Directive) { d.action == SpawnSubagent || d.action == ProposeMutation }

  /** The hints of a directive whose keys were not noted before, with their lifetimes. */
  function Announced(drafts: seq<HintDraft>, noted: set<string>, f: Frame): seq<Event> {
    if drafts == [] then []
    else (if drafts[0].deduplicationKey in noted then [] else [Announcement(drafts[0], f)])
         + Announced(drafts[1..], noted, f)
  }

  function Announcement(d: HintDraft, f: Frame): Event {
    HintPublished(Hint(RedactText(d.target), d.instruction, if f.inline then f.number else f.number + 1,
                       d.expiresAfterSteps, RedactText(d.deduplicationKey)), Some(f.inline))
  }

  function DirectiveEvents(d: Directive, handler: Handler, noted: set<string>, f: Frame): seq<Event> {
    [SupervisorReviewed(d)] + Announced(d.hints, noted, f) + ActionEvents(d, handler)
  }

  function ActionEvents(d: Directive, handler: Handler): seq<Event> {
    (if d.action == Continue || d.action == InjectHint then [] else [ActionRequested(d)])
    + (if ForHandler(d) && handler.HandlerSucceeds? then [ActionCompleted(d.action)] else [])
    + (if ForHandler(d) && handler.HandlerRaises? then [ActionFailed(d.action)] else [])
  }

  function CallEvents(call: EmitCall, steps: nat, noted: set<string>, f: Frame): seq<Event> {
    [AgentEvent(RedactText(call.kind))] +
    if Over(call, steps, f.limit) || !call.advice.Directs? then []
    else DirectiveEvents(call.advice.directive, call.advice.handler, noted, f)
  }

  /** The keys noted once the call is over. */
  function NotedAfter(call: EmitCall, steps: nat, noted: set<string>, limit: nat): set<string> {
    if Over(call, steps, limit) || !call.advice.Directs? then noted
    else noted + (set d | d in call.advice.directive.hints :: d.deduplicationKey)
  }

  // ----- All calls -----

  function StoryOf(calls: seq<EmitCall>, steps: nat, noted: set<string>, f: Frame): seq<Event>
    decreases |calls|
  {
    if calls == [] then []
    else CallEvents(calls[0], steps, noted, f)
         + StoryOf(calls[1..], StepsAfter(calls[0], steps), NotedAfter(calls[0], steps, noted, f.limit), f)
  }

  function StepsIn(calls: seq<EmitCall>): nat {
    if calls == [] then 0 else (if CountsAsStep(calls[0]) then 1 else 0) + StepsIn(calls[1..])
  }

  /** Whether call `i` halts the harness, `steps` having been taken before the first call. */
  function HaltAt(calls: seq<EmitCall>, i: nat, steps: nat, limit: nat): Option<Halt>
    requires i < |calls|
  {
    HaltOf(calls[i], steps + StepsIn(calls[..i]), limit)
  }

  /** The harness does not get past call `i`. */
  predicate Ends(calls: seq<EmitCall>, i: nat, steps: nat, limit: nat)
    requires i < |calls|
  {
    HaltAt(calls, i, steps, limit).Some? && !calls[i].swallow
  }

  predicate EndsFirst(calls: seq<EmitCall>, i: nat, steps: nat, limit: nat) {
    i < |calls| && Ends(calls, i, steps, limit) && forall j | 0 <= j < i :: !Ends(calls, j, steps, limit)
  }

  predicate NeverEnds(calls: seq<EmitCall>, steps: nat, limit: nat) {
    forall j | 0 <= j < |calls| :: !Ends(calls, j, steps, limit)
  }

  /** What is appended when call `i` ends the harness. */
  function LastWords(number: nat, halt: Halt): seq<Event> {
    match halt
    case TooManySteps => [BudgetExhausted(number, Steps), RunWaitingHuman(BudgetReason)]
    case AdvisorError => [ExecutionFailed(number), RunWaitingHuman(ExecutionReason)]
    case PauseAsked => [RunPaused]
    case HumanAsked(rationale) => [RunWaitingHuman(Advised(rationale))]
    case AbortAsked(rationale) => [RunFailed(Aborted(rationale))]
    case ActionError => [RunWaitingHuman(ActionReason)]
  }

  // ----- The result -----

  /** The messages of all graders, or a default for the empty text, for the next attempt alone. */
  function Feedback(number: nat, results: seq<EvaluationResult>): Hint {
    var messages := AllFeedback(results);
    Hint("executor",
         if messages == [] || messages == [""] then ["Review the failed evaluation and use a new approach."]
         else messages,
         number + 1, 1, RedactText("evaluation-attempt-" + Digits(number)))
  }

  function Verdict(number: nat, policy: SupervisorPolicy, d: GradingDecision): seq<Event> {
    if d.passed then [RunSucceeded(false)]
    else if (exists r | r in d.results :: r.retryable) && number <= policy.maxRetries then
      [HintPublished(Feedback(number, d.results), None), RunRetryScheduled(number + 1, false)]
    else if policy.requireHumanOnExhaustion then [RunWaitingHuman(EvaluationReason)]
    else [RunFailed(EvaluationFailed)]
  }

  /** The first budget that the totals of all attempts exceed, tokens before cost. */
  function Spent(s: Snapshot, tokens: int, cost: real): Option<Resource> {
    var policy := s.definition.supervisorPolicy;
    if policy.maxTokens.Some? && policy.maxTokens.value < s.totalTokens + tokens then Some(Tokens)
    else if policy.maxCost.Some? && policy.maxCost.value < s.totalCost + cost then Some(Resource.Cost)
    else None
  }

  function Graded(s: Snapshot, failed: seq<string>, results: seq<EvaluationResult>): seq<Event> {
    [EvaluationStarted(s.attempt + 1)] + seq(|failed|, i requires 0 <= i < |failed| => GraderFailed(failed[i])) +
    match Aggregate(s.definition.gradingPolicy, results)
    case Err(_) => []
    case Ok(d) => [EvaluationCompleted(d)] + Verdict(s.attempt + 1, s.definition.supervisorPolicy, d)
  }

  /** What follows the last call if the harness gets past all of them. */
  function Outcome(s: Snapshot, script: Script): seq<Event> {
    match script.ending
    case Raises => [ExecutionFailed(s.attempt + 1), RunWaitingHuman(ExecutionReason)]
    case Returns(output, tokens, cost) =>
      [ExecutionCompleted(s.attempt + 1, output, tokens, cost)] +
      match Spent(s, tokens, cost)
      case Some(resource) => [BudgetExhausted(s.attempt + 1, resource), RunWaitingHuman(BudgetReason)]
      case None => Graded(s, script.failedGraders, script.results)
  }

  function FrameOf(s: Snapshot, inline: bool): Frame {
    Frame(s.attempt + 1, inline, s.definition.supervisorPolicy.maxStepsPerAttempt)
  }

  /** The story of the attempt's first calls: no step was taken and the keys of the run's hints are noted. */
  function StoryFrom(s: Snapshot, inline: bool, calls: seq<EmitCall>): seq<Event> {
    StoryOf(calls, 0, KeysOf(s.hints), FrameOf(s, inline))
  }

  function KeysOf(hints: seq<Hint>): set<string> { set h | h in hints :: h.deduplicationKey }

  function Opening(s: Snapshot, inline: bool, calls: seq<EmitCall>): seq<Event> {
    [RunStarted(s.attempt + 1)] + StoryFrom(s, inline, calls)
  }

  // ----- The request -----

  /** The hints that the harness receives: those of the run whose lifetime contains the attempt, in order. */
  lemma {:induction false} RequestExactly(hints: seq<Hint>, h: Hint, number: nat)
    ensures ActiveHints([], number) == []
    ensures ActiveHints(hints + [h], number)
         == ActiveHints(hints, number)
            + if h.createdAtStep <= number < h.createdAtStep + h.expiresAfterSteps then [h] else []
    decreases |hints|
  {
    if hints == [] {
      assert hints + [h] == [h] && [h][1..] == [];
    } else {
      assert (hints + [h])[1..] == hints[1..] + [h];
      RequestExactly(hints[1..], h, number);
    }
  }

  // ----- The feedback -----

  /** Every grader's messages are in the feedback, once each and in order. */
  lemma {:induction false} FeedbackExactly(xs: seq<EvaluationResult>, r: EvaluationResult)
    ensures AllFeedback([]) == [] && AllFeedback(xs + [r]) == AllFeedback(xs) + r.feedback
    decreases |xs|
  {
    if xs == [] {
      assert xs + [r] == [r] && [r][1..] == [];
    } else {
      assert (xs + [r])[1..] == xs[1..] + [r];
      FeedbackExactly(xs[1..], r);
    }
  }

  /** What a decimal numeral denotes. */
  function Denoted(numeral: string): int {
    if numeral == "" then 0
    else Denoted(numeral[..|numeral| - 1]) * 10 + (numeral[|numeral| - 1] as int - '0' as int)
  }

  lemma {:induction false} DigitsDenote(n: nat)
    ensures Denoted(Digits(n)) == n
  {
    DigitsSplit(n);
    if n < 10 {
      assert Denoted("") == 0;
    } else {
      DigitsDenote(n / 10);
    }
  }

  lemma {:induction false} NoLeadingZero(n: nat)
    ensures Digits(n) != "" && (Digits(n)[0] == '0' ==> n == 0)
  {
    DigitsSplit(n);
    if n >= 10 {
      NoLeadingZero(n / 10);
      assert Digits(n)[0] == Digits(n / 10)[0];
    }
  }

  /** The number in an evaluation key is written in decimal, without leading zeros. */
  lemma EvaluationKeyExactly(n: nat)
    ensures EvaluationKey(n) == "evaluation-attempt-" + Digits(n)
    ensures Denoted(Digits(n)) == n && (forall c | c in Digits(n) :: '0' <= c <= '9')
    ensures Digits(n) != "" && (Digits(n)[0] == '0' ==> n == 0)
  {
    DigitsDenote(n);
    DigitsArePlain(n);
    NoLeadingZero(n);
  }

  // ----- The hints -----

  lemma {:induction false} AnnouncedTold(drafts: seq<HintDraft>, noted: set<string>, f: Frame, a: Attempt)
    requires a.number == f.number && a.inlineDelivery == f.inline
    ensures HintEvents(NewDrafts(drafts, noted), a) == Announced(drafts, noted, f)
    decreases |drafts|
  {
    if drafts != [] {
      AnnouncedTold(drafts[1..], noted, f, a);
      if drafts[0].deduplicationKey in noted {
        assert NewDrafts(drafts, noted) == NewDrafts(drafts[1..], noted);
      } else {
        AnnouncedFirst(drafts[0], NewDrafts(drafts[1..], noted), f, a);
      }
    }
  }

  lemma AnnouncedFirst(d: HintDraft, rest: seq<HintDraft>, f: Frame, a: Attempt)
    requires a.number == f.number && a.inlineDelivery == f.inline
    ensures HintEvents([d] + rest, a) == [Announcement(d, f)] + HintEvents(rest, a)
  {
    var drafts := [d] + rest;
    assert drafts[0] == d && drafts[1..] == rest;
    FirstHint(drafts, a);
    SameAnnouncement(d, f, a);
  }

  lemma FirstHint(drafts: seq<HintDraft>, a: Attempt)
    requires drafts != []
    ensures HintEvents(drafts, a) == [HintEventOf(drafts[0], a)] + HintEvents(drafts[1..], a)
  {
  }

  function HintEventOf(d: HintDraft, a: Attempt): Event {
    var createdAt := if a.inlineDelivery then a.number else a.number + 1;
    HintPublished(StoredHint(d.target, d.instruction, createdAt, d.expiresAfterSteps, d.deduplicationKey),
                  Some(a.inlineDelivery))
  }

  lemma SameAnnouncement(d: HintDraft, f: Frame, a: Attempt)
    requires a.number == f.number && a.inlineDelivery == f.inline
    ensures HintEventOf(d, a) == Announcement(d, f)
  {
  }

  lemma {:induction false} NewKeys(drafts: seq<HintDraft>, noted: set<string>)
    ensures noted + DraftKeys(NewDrafts(drafts, noted)) == noted + (set d | d in drafts :: d.deduplicationKey)
    decreases |drafts|
  {
    if drafts != [] {
      NewKeys(drafts[1..], noted);
      assert [drafts[0]] + drafts[1..] == drafts;
      KeysFirst(drafts[0], drafts[1..]);
      if drafts[0].deduplicationKey in noted {
        assert NewDrafts(drafts, noted) == NewDrafts(drafts[1..], noted);
      } else {
        KeysFirst(drafts[0], NewDrafts(drafts[1..], noted));
      }
    }
  }

  lemma KeysFirst(d: HintDraft, rest: seq<HintDraft>)
    ensures (set x | x in [d] + rest :: x.deduplicationKey)
         == {d.deduplicationKey} + (set x | x in rest :: x.deduplicationKey)
    ensures DraftKeys([d] + rest) == {d.deduplicationKey} + DraftKeys(rest)
  {
    assert forall x :: x in [d] + rest <==> x == d || x in rest;
  }

  // ----- The calls -----

  function CauseOf(halt: Halt): Cause {
    match halt
    case TooManySteps => Cause.OverBudget(Steps)
    case AdvisorError => Raised
    case PauseAsked => MustPause
    case HumanAsked(rationale) => NeedsHuman(Advised(rationale))
    case AbortAsked(rationale) => MustAbort(rationale)
    case ActionError => NeedsHuman(ActionReason)
  }

  function FrameIn(a: Attempt): Frame {
    Frame(a.number, a.inlineDelivery, a.base.definition.supervisorPolicy.maxStepsPerAttempt)
  }

  /** Where the attempt stands after a call. */
  function AfterCall(a: Attempt, call: EmitCall): Attempt {
    var f := FrameIn(a);
    a.(steps := StepsAfter(call, a.steps),
       publishedKeys := NotedAfter(call, a.steps, a.publishedKeys, f.limit),
       phase := match HaltOf(call, a.steps, f.limit)
                case None => Executing
                case Some(halt) => Interrupted(CauseOf(halt)))
  }

  /** One call of the emitter appends its events and halts the harness exactly as told. */
  lemma CallTold(a: Attempt, call: EmitCall)
    requires a.phase == Executing
    ensures EmitOutcome(a, call)
         == Effect(CallEvents(call, a.steps, a.publishedKeys, FrameIn(a)), Some(AfterCall(a, call)))
  {
    if Over(call, a.steps, FrameIn(a).limit) || call.advice.NoReview? {
      UnseenTold(a, call);
    } else {
      SeenTold(a, call);
    }
  }

  /** Nobody reviews the call. */
  lemma UnseenTold(a: Attempt, call: EmitCall)
    requires a.phase == Executing && (Over(call, a.steps, FrameIn(a).limit) || call.advice.NoReview?)
    ensures EmitOutcome(a, call) == Effect([AgentEvent(RedactText(call.kind))], Some(AfterCall(a, call)))
  {
  }

  lemma SeenTold(a: Attempt, call: EmitCall)
    requires a.phase == Executing && !Over(call, a.steps, FrameIn(a).limit) && !call.advice.NoReview?
    ensures EmitOutcome(a, call)
         == Effect(CallEvents(call, a.steps, a.publishedKeys, FrameIn(a)), Some(AfterCall(a, call)))
  {
    var b := a.(steps := StepsAfter(call, a.steps), phase := Observed);
    EmitParts([], a, call, b);
    if call.advice.Directs? {
      DirectiveTold(b, call.advice.directive, call.advice.handler);
      SameHalt(call, a.steps, FrameIn(a).limit);
    }
  }

  /** Within the limit of steps, the directive alone decides. */
  lemma SameHalt(call: EmitCall, steps: nat, limit: nat)
    requires call.advice.Directs? && !Over(call, steps, limit)
    ensures HaltOf(call, steps, limit) == HaltBy(call.advice.directive, call.advice.handler)
  {
  }

  lemma DirectiveTold(a: Attempt, d: Directive, handler: Handler)
    ensures var e := ReviewOutcome(a, Directs(d, handler));
      && e.batch == DirectiveEvents(d, handler, a.publishedKeys, FrameIn(a))
      && e.live == Some(a.(publishedKeys := a.publishedKeys + (set h | h in d.hints :: h.deduplicationKey),
                           phase := PhaseAfter(d, handler)))
  {
    var published := a.(publishedKeys := a.publishedKeys + (set h | h in d.hints :: h.deduplicationKey),
                        phase := Hinted(d));
    PublishTold(a, d);
    ActTold(published, d, handler);
    ReviewParts([], a, d, handler, published);
  }

  lemma PublishTold(a: Attempt, d: Directive)
    ensures PublishEffect(a.(phase := Reviewed(d)), d)
         == Effect(Announced(d.hints, a.publishedKeys, FrameIn(a)),
                   Some(a.(publishedKeys := a.publishedKeys + (set h | h in d.hints :: h.deduplicationKey),
                           phase := Hinted(d))))
  {
    AnnouncedTold(d.hints, a.publishedKeys, FrameIn(a), a.(phase := Reviewed(d)));
    NewKeys(d.hints, a.publishedKeys);
  }

  function PhaseAfter(d: Directive, handler: Handler): Phase {
    match HaltBy(d, handler)
    case None => Executing
    case Some(halt) => Interrupted(CauseOf(halt))
  }

  lemma ActTold(a: Attempt, d: Directive, handler: Handler)
    ensures ActOutcome(a, d, handler)
         == Effect(ActionEvents(d, handler), Some(a.(phase := PhaseAfter(d, handler))))
  {
  }

  /** The harness ends with the first call that halts it and whose exception it does not swallow. */
  lemma {:induction false} HarnessStops(a: Attempt, calls: seq<EmitCall>, ending: Ending, i: nat)
    requires a.phase == Executing && EndsFirst(calls, i, a.steps, FrameIn(a).limit)
    ensures var e := HarnessOutcome(a, calls, ending);
      && e.batch == StoryOf(calls[..i + 1], a.steps, a.publishedKeys, FrameIn(a))
      && e.live.value.number == a.number
      && e.live.value.phase == Interrupted(CauseOf(HaltAt(calls, i, a.steps, FrameIn(a).limit).value))
    decreases |calls|
  {
    NextTold(a, calls, ending);
    if i == 0 {
      StoryFirst(calls, a.steps, a.publishedKeys, FrameIn(a));
    } else {
      TailEnds(calls, i, a.steps, FrameIn(a).limit);
      HarnessStops(AfterCall(a, calls[0]).(phase := Executing), calls[1..], ending, i - 1);
      StoryNext(calls, i, a.steps, a.publishedKeys, FrameIn(a));
    }
  }

  /** One call and the rest of the harness. */
  lemma NextTold(a: Attempt, calls: seq<EmitCall>, ending: Ending)
    requires a.phase == Executing && calls != []
    ensures var events := CallEvents(calls[0], a.steps, a.publishedKeys, FrameIn(a));
      HarnessOutcome(a, calls, ending)
      == if Ends(calls, 0, a.steps, FrameIn(a).limit) then Effect(events, Some(AfterCall(a, calls[0])))
         else Prepend(events, HarnessOutcome(AfterCall(a, calls[0]).(phase := Executing), calls[1..], ending))
  {
    CallTold(a, calls[0]);
    assert calls[..0] == [];
  }

  lemma StoryFirst(calls: seq<EmitCall>, steps: nat, noted: set<string>, f: Frame)
    requires calls != []
    ensures StoryOf(calls[..1], steps, noted, f) == CallEvents(calls[0], steps, noted, f)
  {
    assert calls[..1][1..] == [];
  }

  lemma StoryNext(calls: seq<EmitCall>, i: nat, steps: nat, noted: set<string>, f: Frame)
    requires i < |calls|
    ensures StoryOf(calls[..i + 1], steps, noted, f)
         == CallEvents(calls[0], steps, noted, f)
            + StoryOf(calls[1..][..i], StepsAfter(calls[0], steps), NotedAfter(calls[0], steps, noted, f.limit), f)
  {
    assert calls[..i + 1][1..] == calls[1..][..i];
  }

  /** What halts the harness after its first call. */
  lemma TailHalts(calls: seq<EmitCall>, j: nat, steps: nat, limit: nat)
    requires j + 1 < |calls|
    ensures HaltAt(calls[1..], j, StepsAfter(calls[0], steps), limit) == HaltAt(calls, j + 1, steps, limit)
    ensures Ends(calls[1..], j, StepsAfter(calls[0], steps), limit) == Ends(calls, j + 1, steps, limit)
  {
    assert calls[..j + 1][1..] == calls[1..][..j];
  }

  lemma TailEnds(calls: seq<EmitCall>, i: nat, steps: nat, limit: nat)
    requires 0 < i && EndsFirst(calls, i, steps, limit)
    ensures EndsFirst(calls[1..], i - 1, StepsAfter(calls[0], steps), limit)
    ensures HaltAt(calls[1..], i - 1, StepsAfter(calls[0], steps), limit) == HaltAt(calls, i, steps, limit)
    ensures !Ends(calls, 0, steps, limit)
  {
    forall j | 0 <= j < i ensures Ends(calls[1..], j, StepsAfter(calls[0], steps), limit) <==> j == i - 1 {
      TailHalts(calls, j, steps, limit);
    }
    TailHalts(calls, i - 1, steps, limit);
  }

  lemma TailNeverEnds(calls: seq<EmitCall>, steps: nat, limit: nat)
    requires calls != [] && NeverEnds(calls, steps, limit)
    ensures NeverEnds(calls[1..], StepsAfter(calls[0], steps), limit)
    ensures !Ends(calls, 0, steps, limit)
  {
    forall j | 0 <= j < |calls| - 1 ensures !Ends(calls[1..], j, StepsAfter(calls[0], steps), limit) {
      TailHalts(calls, j, steps, limit);
    }
  }

  lemma {:induction false} HarnessReaches(a: Attempt, calls: seq<EmitCall>, ending: Ending)
    requires a.phase == Executing && NeverEnds(calls, a.steps, FrameIn(a).limit)
    ensures var e := HarnessOutcome(a, calls, ending);
      && e.batch == StoryOf(calls, a.steps, a.publishedKeys, FrameIn(a))
      && e.live.value.number == a.number && e.live.value.base == a.base
      && e.live.value.phase == if ending.Raises? then Interrupted(Raised) else Executing
    decreases |calls|
  {
    if calls != [] {
      NextTold(a, calls, ending);
      TailNeverEnds(calls, a.steps, FrameIn(a).limit);
      HarnessReaches(AfterCall(a, calls[0]).(phase := Executing), calls[1..], ending);
    }
  }

  // ----- The attempt -----

  /** An attempt whose harness is ended by call `i` appends the story up to that call and the last words,
      and nothing later of the harness. */
  lemma HaltedAttempt(log: seq<Event>, s: Snapshot, script: Script, i: nat)
    requires EndsFirst(script.calls, i, 0, s.definition.supervisorPolicy.maxStepsPerAttempt)
    ensures var halt := HaltAt(script.calls, i, 0, s.definition.supervisorPolicy.maxStepsPerAttempt).value;
      AttemptTurn(log, s, script)
      == (log + (Opening(s, script.inlineDelivery, script.calls[..i + 1]) + LastWords(s.attempt + 1, halt)), false)
  {
    var a := FirstOf(log, s, script.inlineDelivery).live.value;
    var e := HarnessOutcome(a, script.calls, script.ending);
    FirstTold(log, s, script.inlineDelivery);
    HaltedFrom(a, s, script, i, e);
    TurnTold(log, s, script, e);
  }

  lemma FirstTold(log: seq<Event>, s: Snapshot, inline: bool)
    ensures StartsFrom(FirstOf(log, s, inline).live.value, s, inline)
  {
  }

  /** The attempt before the first call. */
  predicate StartsFrom(a: Attempt, s: Snapshot, inline: bool) {
    && a.number == s.attempt + 1 && a.base == s && a.phase == Executing && a.steps == 0
    && a.publishedKeys == KeysOf(s.hints) && a.inlineDelivery == inline
    && a.hints == ActiveHints(s.hints, s.attempt + 1)
  }

  lemma HaltedFrom(a: Attempt, s: Snapshot, script: Script, i: nat, e: Effect)
    requires StartsFrom(a, s, script.inlineDelivery) && e == HarnessOutcome(a, script.calls, script.ending)
    requires EndsFirst(script.calls, i, 0, s.definition.supervisorPolicy.maxStepsPerAttempt)
    ensures e.batch == StoryFrom(s, script.inlineDelivery, script.calls[..i + 1])
    ensures var halt := HaltAt(script.calls, i, 0, s.definition.supervisorPolicy.maxStepsPerAttempt).value;
      FinishBatch(e.live.value, script) == LastWords(s.attempt + 1, halt)
    ensures e.live.value.phase.Interrupted?
  {
    HarnessStops(a, script.calls, script.ending, i);
    LastTold(e.live.value, HaltAt(script.calls, i, 0, s.definition.supervisorPolicy.maxStepsPerAttempt).value);
  }

  lemma CompletedFrom(a: Attempt, script: Script, e: Effect)
    requires StartsFrom(a, a.base, script.inlineDelivery) && e == HarnessOutcome(a, script.calls, script.ending)
    requires NeverEnds(script.calls, 0, FrameIn(a).limit)
    ensures e.batch == StoryFrom(a.base, script.inlineDelivery, script.calls)
    ensures e.live.value.number == a.number && e.live.value.base == a.base
    ensures e.live.value.phase == if script.ending.Raises? then Interrupted(Raised) else Executing
  {
    HarnessReaches(a, script.calls, script.ending);
    SameFrame(a, script.inlineDelivery);
  }

  lemma SameFrame(a: Attempt, inline: bool)
    requires StartsFrom(a, a.base, inline)
    ensures FrameIn(a) == FrameOf(a.base, inline)
  {
  }

  lemma LastTold(a: Attempt, halt: Halt)
    ensures InterruptBatch(a, CauseOf(halt)) == LastWords(a.number, halt)
  {
  }

  lemma RanTold(log: seq<Event>, s: Snapshot, script: Script, e: Effect)
    requires HarnessOutcome(FirstOf(log, s, script.inlineDelivery).live.value, script.calls, script.ending) == e
    ensures HarnessRun(log, s, script) == Prepend(log + [RunStarted(s.attempt + 1)], e)
  {
  }

  lemma TurnTold(log: seq<Event>, s: Snapshot, script: Script, e: Effect)
    requires e == HarnessOutcome(FirstOf(log, s, script.inlineDelivery).live.value, script.calls, script.ending)
    ensures AttemptTurn(log, s, script)
         == (log + ([RunStarted(s.attempt + 1)] + e.batch + FinishBatch(e.live.value, script)),
             Ungradable(e.live.value, script))
  {
    RanTold(log, s, script, e);
    Regrouped(log, [RunStarted(s.attempt + 1)], e.batch, FinishBatch(e.live.value, script));
  }

  lemma Regrouped(log: seq<Event>, a: seq<Event>, b: seq<Event>, c: seq<Event>)
    ensures log + a + b + c == log + (a + b + c)
  {
  }

  /** An attempt whose harness gets past all its calls appends their whole story and what follows the result;
      an exception leaves it exactly when a result within budget cannot be graded. */
  lemma CompletedAttempt(log: seq<Event>, s: Snapshot, script: Script)
    requires NeverEnds(script.calls, 0, s.definition.supervisorPolicy.maxStepsPerAttempt)
    ensures AttemptTurn(log, s, script)
         == (log + (Opening(s, script.inlineDelivery, script.calls) + Outcome(s, script)),
             script.ending.Returns? && Spent(s, script.ending.tokens, script.ending.cost).None?
             && Aggregate(s.definition.gradingPolicy, script.results).Err?)
  {
    var a := FirstOf(log, s, script.inlineDelivery).live.value;
    var e := HarnessOutcome(a, script.calls, script.ending);
    FirstTold(log, s, script.inlineDelivery);
    CompletedFrom(a, script, e);
    OutcomeTold(e.live.value, s, script);
    TurnTold(log, s, script, e);
  }

  lemma {:induction false} GradersTold(failed: seq<string>)
    ensures GraderBatch(failed) == seq(|failed|, i requires 0 <= i < |failed| => GraderFailed(failed[i]))
    decreases |failed|
  {
    if failed != [] { GradersTold(failed[..|failed| - 1]); }
  }

  lemma OutcomeTold(a: Attempt, s: Snapshot, script: Script)
    requires a.number == s.attempt + 1 && a.base == s
    requires a.phase == if script.ending.Raises? then Interrupted(Raised) else Executing
    ensures FinishBatch(a, script) == Outcome(s, script)
    ensures Ungradable(a, script)
       <==> script.ending.Returns? && Spent(s, script.ending.tokens, script.ending.cost).None?
            && Aggregate(s.definition.gradingPolicy, script.results).Err?
  {
    if script.ending.Returns? && Spent(s, script.ending.tokens, script.ending.cost).None? {
      InBudgetBatch(a, script);
      GradedTold(a, s, script.failedGraders, script.results);
    }
  }

  lemma GradedTold(a: Attempt, s: Snapshot, failed: seq<string>, results: seq<EvaluationResult>)
    requires a.number == s.attempt + 1 && a.base == s
    ensures [EvaluationStarted(a.number)] + EvaluationBatch(a, failed, results) == Graded(s, failed, results)
  {
    GradersTold(failed);
    if Aggregate(s.definition.gradingPolicy, results).Ok? {
      VerdictTold(a, Aggregate(s.definition.gradingPolicy, results).value);
    }
  }

  lemma VerdictTold(a: Attempt, d: GradingDecision)
    ensures ConclusionBatch(a, d) == Verdict(a.number, a.base.definition.supervisorPolicy, d)
  {
  }

  // ----- What replay shows -----

  function HaltStatus(halt: Halt): Status {
    match halt
    case PauseAsked => Paused
    case AbortAsked(_) => Failed
    case _ => WaitingHuman
  }

  /** A directive to stop stops the attempt: if the advisor asks for a pause, a human or an abort in a call that the
      harness reaches within the step limit and does not swallow, the run is paused, waits or has failed
      with the advisor's rationale, whatever the harness would still have done. So do the other halts. */
  lemma HaltStopsRun(log: seq<Event>, s: Snapshot, script: Script, i: nat)
    requires GetRun(log) == Ok(s)
    requires EndsFirst(script.calls, i, 0, s.definition.supervisorPolicy.maxStepsPerAttempt)
    ensures var (after, raised) := AttemptTurn(log, s, script);
      var halt := HaltAt(script.calls, i, 0, s.definition.supervisorPolicy.maxStepsPerAttempt).value;
      && !raised && Started(after) && Replay(after).status == HaltStatus(halt)
      && (halt.AbortAsked? ==> Replay(after).error == Some(Aborted(halt.rationale)))
      && (forall e | e in after[|log|..] :: !e.ExecutionCompleted? && !e.EvaluationStarted? && !e.RunSucceeded?)
  {
    HaltedAttempt(log, s, script, i);
    var halt := HaltAt(script.calls, i, 0, s.definition.supervisorPolicy.maxStepsPerAttempt).value;
    var opening := Opening(s, script.inlineDelivery, script.calls[..i + 1]);
    HaltSeen(log, opening, s.attempt + 1, halt);
    OpeningKinds(s, script.inlineDelivery, script.calls[..i + 1]);
    NothingLater(log, opening, s.attempt + 1, halt);
  }

  lemma HaltSeen(log: seq<Event>, opening: seq<Event>, number: nat, halt: Halt)
    requires Started(log)
    ensures var after := log + (opening + LastWords(number, halt));
      && Started(after) && Replay(after).status == HaltStatus(halt)
      && (halt.AbortAsked? ==> Replay(after).error == Some(Aborted(halt.rationale)))
  {
    var last := LastWords(number, halt);
    assert log + (opening + last) == log + opening + last;
    StaysStarted(log, opening);
    LastStatus(log + opening, last, HaltStatus(halt));
    if halt.AbortAsked? { ReplayNext(log + opening, last[0]); }
  }

  lemma NothingLater(log: seq<Event>, opening: seq<Event>, number: nat, halt: Halt)
    requires forall e | e in opening :: e.RunStarted? || OfACall(e)
    ensures forall e | e in (log + (opening + LastWords(number, halt)))[|log|..] ::
      !e.ExecutionCompleted? && !e.EvaluationStarted? && !e.RunSucceeded?
  {
    assert (log + (opening + LastWords(number, halt)))[|log|..] == opening + LastWords(number, halt);
  }

  lemma OpeningKinds(s: Snapshot, inline: bool, calls: seq<EmitCall>)
    ensures forall e | e in Opening(s, inline, calls) :: e.RunStarted? || OfACall(e)
  {
    StoryKinds(calls, 0, KeysOf(s.hints), FrameOf(s, inline));
  }

  /** Neither a result nor a verdict is part of the calls. */
  predicate OfACall(e: Event) {
    e.AgentEvent? || e.SupervisorReviewed? || e.HintPublished? || e.ActionRequested? || e.ActionCompleted? ||
    e.ActionFailed?
  }

  lemma {:induction false} AnnouncedKinds(drafts: seq<HintDraft>, noted: set<string>, f: Frame)
    ensures forall e | e in Announced(drafts, noted, f) :: e.HintPublished?
    decreases |drafts|
  {
    if drafts != [] { AnnouncedKinds(drafts[1..], noted, f); }
  }

  lemma CallKinds(call: EmitCall, steps: nat, noted: set<string>, f: Frame)
    ensures forall e | e in CallEvents(call, steps, noted, f) :: OfACall(e)
  {
    if call.advice.Directs? { AnnouncedKinds(call.advice.directive.hints, noted, f); }
  }

  lemma {:induction false} StoryKinds(calls: seq<EmitCall>, steps: nat, noted: set<string>, f: Frame)
    ensures forall e | e in StoryOf(calls, steps, noted, f) :: OfACall(e)
    decreases |calls|
  {
    if calls != [] {
      CallKinds(calls[0], steps, noted, f);
      StoryKinds(calls[1..], StepsAfter(calls[0], steps), NotedAfter(calls[0], steps, noted, f.limit), f);
    }
  }
}
