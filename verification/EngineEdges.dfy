/** How tight the bound on steps is, inputs that make a run unreadable, and a run that a human ends. */
module EngineEdges {
  import opened Json
  import opened Models
  import opened Grading
  import opened Runs
  import opened Redaction
  import opened RedactionProofs
  import opened RedactionContext
  import opened RedactionSecrets
  import opened Definitions
  import opened Engine
  import opened Ledger
  import opened EngineInvariants
  import opened EngineTheorems
  import opened EngineBounds
  import opened EngineFeedback
  import opened HintKeys
  import opened Readability
  import opened HintRepeats
  import StepKinds

  // ----- A harness that goes on takes one more step each time -----

  const TAKE_STEP := Emit("agent.step", false)

  function TakeSteps(n: nat): seq<Move> { if n == 0 then [] else TakeSteps(n - 1) + [TAKE_STEP] }

  /** One attempt that takes the limit's steps and the one that raises, and then goes on `k` times. */
  function Overrun(limit: nat, k: nat): seq<Move> {
    if k == 0 then [Begin(false)] + TakeSteps(limit + 1) else Overrun(limit, k - 1) + [HarnessSwallows, TAKE_STEP]
  }

  lemma {:induction false} SwallowsConcat(a: seq<Move>, b: seq<Move>)
    ensures Swallows(a + b) == Swallows(a) + Swallows(b)
    decreases |b|
  {
    if b == [] {
      assert a + b == a;
    } else {
      SwallowsConcat(a, b[..|b| - 1]);
      assert (a + b)[..|a + b| - 1] == a + b[..|b| - 1];
    }
  }

  lemma {:induction false} StepsSwallowNothing(n: nat)
    ensures Swallows(TakeSteps(n)) == 0
  {
    if n > 0 {
      StepsSwallowNothing(n - 1);
      assert TakeSteps(n)[..|TakeSteps(n)| - 1] == TakeSteps(n - 1);
    }
  }

  lemma OneSwallow()
    ensures Swallows([HarnessSwallows, TAKE_STEP]) == 1
  {
    var none: seq<Move> := [];
    assert [HarnessSwallows][..0] == none && Swallows(none) == 0;
    assert Swallows([HarnessSwallows]) == 1;
    assert [HarnessSwallows, TAKE_STEP][..1] == [HarnessSwallows];
  }

  lemma {:induction false} OverrunSwallows(limit: nat, k: nat)
    ensures Swallows(Overrun(limit, k)) == k
  {
    if k == 0 {
      StepsSwallowNothing(limit + 1);
      SwallowsConcat([Begin(false)], TakeSteps(limit + 1));
      assert Swallows([Begin(false)][..0]) == 0;
    } else {
      OverrunSwallows(limit, k - 1);
      OneSwallow();
      SwallowsConcat(Overrun(limit, k - 1), [HarnessSwallows, TAKE_STEP]);
    }
  }

  function PhaseAfter(definition: RunDefinition, i: nat): Phase {
    if i <= definition.supervisorPolicy.maxStepsPerAttempt then Executing else Interrupted(OverBudget(Steps))
  }

  /** The first attempt after `i` steps. */
  predicate Stepped(m: Machine, definition: RunDefinition, i: nat, phase: Phase) {
    && Started(m.log) && m.live.Some?
    && m.live.value.steps == i && m.live.value.base.definition == definition && m.live.value.phase == phase
    && var s := Replay(m.log);
    && s.definition == definition && s.attempt == 1 && s.totalSteps == i
  }

  lemma OneStep(m: Machine, definition: RunDefinition, i: nat, next: Machine)
    requires Stepped(m, definition, i, Executing) && next == Step(m, TAKE_STEP)
    ensures Stepped(next, definition, i + 1, PhaseAfter(definition, i + 1))
  {
    var e := EmitEffect(m.live.value, "agent.step", false);
    assert EffectOf(m, TAKE_STEP) == e;
    StepKinds.StepKindsSurviveRedaction("agent.step");
    ReplayNext(m.log, e.batch[0]);
  }

  lemma {:induction false} AfterSteps(m: Machine, definition: RunDefinition, n: nat)
    requires Stepped(m, definition, 0, Executing) && n <= definition.supervisorPolicy.maxStepsPerAttempt + 1
    ensures Stepped(Run(m, TakeSteps(n)), definition, n, PhaseAfter(definition, n))
  {
    if n > 0 {
      AfterSteps(m, definition, n - 1);
      RunNext(m, TakeSteps(n - 1), TAKE_STEP);
      OneStep(Run(m, TakeSteps(n - 1)), definition, n - 1, Run(m, TakeSteps(n)));
    }
  }

  lemma FirstAttempt(definition: RunDefinition)
    ensures Stepped(Run(Initial(definition), [Begin(false)]), definition, 0, Executing)
  {
    assert Replay(Initial(definition).log) == Fresh(definition);
    RunOne(Initial(definition), Begin(false));
    BeginStep(Initial(definition));
  }

  lemma OnceMore(m: Machine, definition: RunDefinition, i: nat)
    requires Stepped(m, definition, i, Interrupted(OverBudget(Steps)))
    ensures Stepped(Run(m, [HarnessSwallows, TAKE_STEP]), definition, i + 1, PhaseAfter(definition, i + 1))
  {
    RunTwo(m, HarnessSwallows, TAKE_STEP);
    GoOnStep(m);
    OneStep(Step(m, HarnessSwallows), definition, i, Run(m, [HarnessSwallows, TAKE_STEP]));
  }

  lemma FirstOverrun(definition: RunDefinition)
    ensures var limit := definition.supervisorPolicy.maxStepsPerAttempt;
      Stepped(Execute(definition, Overrun(limit, 0)), definition, limit + 1, Interrupted(OverBudget(Steps)))
  {
    var limit := definition.supervisorPolicy.maxStepsPerAttempt;
    FirstAttempt(definition);
    AfterSteps(Run(Initial(definition), [Begin(false)]), definition, limit + 1);
    OverrunStart(definition, limit);
  }

  lemma OverrunStart(definition: RunDefinition, limit: nat)
    ensures Execute(definition, Overrun(limit, 0))
         == Run(Run(Initial(definition), [Begin(false)]), TakeSteps(limit + 1))
  {
    RunConcat(Initial(definition), [Begin(false)], TakeSteps(limit + 1));
  }

  lemma OverrunNext(definition: RunDefinition, limit: nat, k: nat)
    requires k > 0
    ensures Execute(definition, Overrun(limit, k))
         == Run(Execute(definition, Overrun(limit, k - 1)), [HarnessSwallows, TAKE_STEP])
  {
    RunConcat(Initial(definition), Overrun(limit, k - 1), [HarnessSwallows, TAKE_STEP]);
  }

  lemma {:induction false} AfterOverrun(definition: RunDefinition, k: nat)
    ensures var limit := definition.supervisorPolicy.maxStepsPerAttempt;
      Stepped(Execute(definition, Overrun(limit, k)), definition, limit + 1 + k, Interrupted(OverBudget(Steps)))
  {
    var limit := definition.supervisorPolicy.maxStepsPerAttempt;
    if k == 0 {
      FirstOverrun(definition);
    } else {
      AfterOverrun(definition, k - 1);
      OnceMore(Execute(definition, Overrun(limit, k - 1)), definition, limit + k);
      OverrunNext(definition, limit, k);
    }
  }

  /** For every limit and every k, some run in which the harness goes on k times takes k steps more than
      the limit allows for its attempts. */
  lemma StepBoundReached(definition: RunDefinition, k: nat)
    ensures var moves := Overrun(definition.supervisorPolicy.maxStepsPerAttempt, k);
      var s := Replay(Execute(definition, moves).log);
      Swallows(moves) == k && s.totalSteps == Quota(s, s.attempt) + k
  {
    OverrunSwallows(definition.supervisorPolicy.maxStepsPerAttempt, k);
    AfterOverrun(definition, k);
  }

  /** Every run in which the harness goes on k times stays within `extra` steps of its quota. */
  ghost predicate StaysWithin(definition: RunDefinition, k: nat, extra: nat) {
    forall moves | Swallows(moves) == k ::
      var s := Replay(Execute(definition, moves).log); s.totalSteps <= Quota(s, s.attempt) + extra
  }

  /** The allowance is exact: it covers every run with k such occasions if and only if it is at least k; so
      the limit holds as documented for exactly those harnesses that stop when the emitter raises. */
  lemma StepBoundExactly(definition: RunDefinition, k: nat, extra: nat)
    ensures StaysWithin(definition, k, extra) <==> k <= extra
  {
    StepBoundReached(definition, k);
    if k <= extra {
      forall moves | Swallows(moves) == k
        ensures var s := Replay(Execute(definition, moves).log); s.totalSteps <= Quota(s, s.attempt) + extra
      { StepBound(definition, moves); }
    } else {
      var moves := Overrun(definition.supervisorPolicy.maxStepsPerAttempt, k);
      assert Swallows(moves) == k;
    }
  }

  // ----- Inputs that make a run unreadable -----

  function Parens(n: nat): string { seq(n, _ => ')') }

  lemma {:induction false} ParensSettle(p: Pattern, n: nat)
    ensures Settled(p, false, Parens(n))
    decreases n
  {
    if n > 0 {
      assert Parens(n)[1..] == Parens(n - 1) && Parens(n)[0] == ')';
      NothingBegins(p, false, Parens(n));
      ParensSettle(p, n - 1);
      if p == ApiKey && |Parens(n)| >= 3 && Parens(n)[..3] == "sk-" { KeyLetters(Parens(n)); }
    }
  }

  lemma ParensStandApart(n: nat)
    ensures Apart(Parens(n)) && RedactText(Parens(n)) == Parens(n)
  {
    ParensSettle(BearerToken, n);
    ParensSettle(ApiKey, n);
    assert Plain(Parens(n));
    PlainIsClean(BearerToken, false, Parens(n));
    CleanIsFixed(BearerToken, false, Parens(n));
    PlainIsFixed(Parens(n));
  }

  /** Parentheses and a token's announcement. */
  function Outgrowing(n: nat): string { Parens(n) + TOKEN_TEXT }

  lemma TextOutgrows(n: nat)
    ensures |RedactText(Outgrowing(n))| == |Outgrowing(n)| + 9
  {
    ParensStandApart(n);
    RedactTextSplits(Parens(n), TOKEN_TEXT);
    TokenTextRedacted();
  }

  /** A key of 256 characters whose stored form is longer. */
  lemma KeyOutgrows(n: nat, x: HintDraft)
    requires n == 248 && x.deduplicationKey == Outgrowing(n)
    ensures |x.deduplicationKey| == 256 && !Fits(x)
  {
    TextOutgrows(n);
  }

  /** The first publication of a directive with such a hint makes the run unreadable for good: no usage is
      negative, and no other attempt ever starts. */
  lemma OverlongHintStopsRun(definition: RunDefinition, d: Directive, moves: seq<Move>)
    requires !Legible(d.hints)
    ensures var m := Execute(definition, PublishRound(d)); var n := Run(m, moves);
      TotalsValid(Replay(m.log)) && GetRun(n.log).Err? && Starts(n.log) == Starts(m.log)
  {
    var before, a := FirstRound(definition, d);
    DoomedRun(Execute(definition, PublishRound(d)), moves);
  }

  /** A grader's weight or an MCP server called "secret", and two graders whose ids both match the key
      pattern. */
  lemma UnstorableDefinitions(d: RunDefinition)
    ensures "secret" in d.gradingPolicy.graderWeights ==> !Survives(SENSITIVE_KEYS, d)
    ensures "secret" in d.agentBundle.mcpServers ==> !Survives(SENSITIVE_KEYS, d)
    ensures d.graderIds == ["sk-aaaaaa", "sk-cccccc"] ==> !Survives(SENSITIVE_KEYS, d)
  {
    assert Casefold("secret") == "secret";
    assert Sensitive(SENSITIVE_KEYS, "secret");
    if d.graderIds == ["sk-aaaaaa", "sk-cccccc"] {
      TwoKeysCollide();
      assert RedactList(d.graderIds)[0] == RedactList(d.graderIds)[1];
    }
  }

  lemma TwoKeysCollide()
    ensures RedactText("sk-aaaaaa") == RedactText("sk-cccccc")
  {
    KeyAlone("aaaaaa");
    KeyAlone("cccccc");
    assert "sk-" + "aaaaaa" == "sk-aaaaaa" && "sk-" + "cccccc" == "sk-cccccc";
  }

  lemma KeyAlone(key: string)
    requires IsKey(key) && Lower(key[|key| - 6]) != 'b'
    ensures RedactText("sk-" + key) == REPLACEMENT
  {
    assert Lower(key[|key| - 6 + 0]) != "bearer"[0];
    KeyDisappears("", key, "");
    assert "" + ("sk-" + key + "") == "sk-" + key;
    assert RedactText("") == "";
  }

  // ----- A run that a human ends -----

  /** The harness of the first attempt raises. */
  lemma WaitingRun(definition: RunDefinition) returns (m: Machine)
    ensures Reachable(m) && m.log[0].definition == definition
    ensures m.live.None? && StatusOf(m) == WaitingHuman && Valid(Replay(m.log))
  {
    var start := Initial(definition);
    var moves := [HarnessRaises, HandleInterrupt];
    assert Replay(start.log) == Fresh(definition);
    BeginStep(start);
    var begun := Step(start, Begin(false));
    AfterFailure(begun);
    RunOne(start, Begin(false));
    RunTwo(begun, HarnessRaises, HandleInterrupt);
    RunConcat(start, [Begin(false)], moves);
    m := Execute(definition, [Begin(false)] + moves);
  }

  lemma ApprovalEnds(m: Machine)
    requires Started(m.log) && m.live.None? && StatusOf(m) == WaitingHuman && Valid(Replay(m.log))
    ensures var n := Step(m, ResolveHuman(Approve, "")); GetRun(n.log).Ok? && GetRun(n.log).value.status == Succeeded
  {
    ViewAppend(m.log, EffectOf(m, ResolveHuman(Approve, "")).batch);
    IdleStatus(m, ResolveHuman(Approve, ""));
    ReadableStepExactly(m, ResolveHuman(Approve, ""));
  }
}
