# Verification of the supervisor's core

This project models the control plane of LoopGraph Supervisor in Dafny 4.11 and proves what it promises.
A run is an append-only stream of events. Replay folds the stream into a snapshot, every command and every
attempt is decided from that snapshot, and each of them appends events that the next replay reads back.
The theorems are inductions over all such runs, with the harness, the advisor, the graders and the other
clients as arbitrary inputs.

| File | What it models |
|---|---|
| `Json.dfy`, `Models.dfy` | JSON data, agent bundles, hints, evaluation results |
| `Redaction.dfy`, `RedactionProofs.dfy` | secret redaction: the two patterns as left-to-right scans, and nested values |
| `RedactionContext.dfy`, `RedactionSecrets.dfy` | redaction of a text and of its parts, and secrets inside longer texts |
| `RedactionMeaning.dfy` | which keys are secret in which spelling, what stays, and the characters of the patterns |
| `Definitions.dfy` | a run definition dumped, redacted, stored and validated again |
| `Grading.dfy` | the grading policy |
| `Mutation.dfy` | guarded mutation of agent bundles |
| `Runs.dfy`, `ReplayMeaning.dfy` | events, snapshots, replay, and every field of a snapshot read off the stream |
| `Engine.dfy` | the engine as a state machine: one move is one append |
| `Ledger.dfy`, `StepKinds.dfy`, `EngineInvariants.dfy` | what a stream contains, and the invariant of all moves |
| `EngineTheorems.dfy`, `EngineBounds.dfy`, `EngineHints.dfy`, `EngineFeedback.dfy` | conservation, soundness of success, absorption, bounds, delivery of hints |
| `Readability.dfy` | which runs can be read, and what makes a run unreadable for good |
| `HintKeys.dfy`, `HintOneShot.dfy`, `HintRepeats.dfy` | no hint key is published twice, and exactly which directives guarantee it |
| `EngineEdges.dfy` | the bound on steps is exact; inputs that make a run unreadable |
| `Supervisor.dfy`, `SupervisorEnds.dfy` | `SupervisorEngine` as an object with loops that stays within the state machine, and how its attempts end |
| `AttemptStory.dfy` | everything one attempt appends, told call by call without the machine's phases |
| `EventStore.dfy` | the event store, with its lock and without it |
| `Versions.dfy` | the agent version store |
| `Team.dfy`, `TeamMembers.dfy` | child runs: what a spawn does, what the child is asked, and what the team's entries say |
| `TeamBound.dfy`, `TeamTree.dfy` | the size of the tree of runs |
| `Tasks.dfy` | background tasks |
| `Promotion.dfy`, `PromotionMeaning.dfy` | promotion evidence and the promotion policy, and both in terms of the runs' streams |
| `Streaming.dfy` | the event stream sent to a client |

`dafny verify dfyconfig.toml` checks the whole project.

## Assumptions

- The guard of a command and its append are one move for a given run. In the code they are not protected
  together: `_append` reads the version again (`src/loopgraph_supervisor/application/engine.py:580`). The
  statements about the event store alone hold under every interleaving.
- In the state machine, `recover_incomplete` and `record_internal_failure` meet a run that no attempt of this
  process is executing. The API checks that before it recovers (`src/loopgraph_supervisor/api/app.py:318-325`), and the task manager
  records a failure after its loop has ended (`src/loopgraph_supervisor/application/tasks.py:48-60`).
- A harness calls its emitter one event at a time and not after `execute` has ended. A grader may go on after an
  exception has ended the grading: its failure is then appended at any later time, without any check.
- The redaction policy files none of the events' own field names as sensitive. For the fields of a definition and
  the default policy that is proved (`Definitions.DefaultKeysPass`).
- Control events appended to a run are those of its team, and a harness does not name its own events after
  them.
- UUIDs are fresh opaque ids, fingerprints are injective on bundles, scores and costs are real numbers, and
  regular-expression classes are the ASCII ones.
- `spawn` holds its parent's lock and is one move; other appends to any stream may come between two spawns.

## Where the promise holds only under a condition

- A hint key can be published twice in a run. A directive never causes that, whatever the run does, if and only
  if its keys are distinct as they are stored; none of them is the evaluation key of an attempt within the retry
  budget, when the grading policy can fail an evaluation at all; and either redaction leaves them all unchanged, or
  it makes a key or a target of the directive too long, so that the run cannot be read after the first publication
  (`HintRepeats.RepeatFreeExactly`). Each failure has its lemma: `HintRepeats.RepeatedKeyRepeats`,
  `HintRepeats.UnstableKeyRepeats` and `HintRepeats.EvaluationKeyRepeats`.
- The steps of an attempt exceed the limit by more than one when the harness catches what the emitter raised
  and goes on. `EngineBounds.StepBound` allows one step for each such occasion; `EngineEdges.StepBoundExactly`
  shows that for every limit and every number of occasions no smaller allowance holds.
- A run can be read at any time if its definition survives redaction (no MCP server and no grader's weight under a
  sensitive name, grader ids that redaction keeps apart, no bounded name that it makes too long), its harness
  reports no negative usage, and redaction makes no draft's key or target too long (`Readability.AlwaysReadable`).
  The condition on the definition is exact (`Readability.ReadableExactly`), and so are the other two for every
  single move (`Readability.ReadableStepExactly`). Each failure is final: `Readability.UnstorableIsFatal`,
  `Readability.NegativeUsageIsFatal`, `Readability.OverlongHintIsFatal`, with inputs in
  `EngineEdges.UnstorableDefinitions` and `EngineEdges.KeyOutgrows`.
- A text is redacted independently of what follows it if and only if it does not end in a word character and no
  match is still undecided at its end (`RedactionSecrets.RedactTextSplitsExactly`). After such a text a secret is
  replaced completely and alone (`RedactionSecrets.TokenDisappears`, `RedactionSecrets.KeyDisappears`). In any case
  nothing that matches a pattern is left (`RedactionProofs.RedactTextIsClean`).
- A hint whose append the store refuses is not published in the rest of the attempt, even if the harness goes on
  (`HintKeys.RefusedHintsAreLost`).
- `max_subagents` bounds nothing once appending `team.member.spawned` fails after the child was created
  (`TeamTree.LimitEscaped`); `TeamTree.TreeBound` states the bound with the lost memberships counted in.
- A failed hard constraint whose name redaction treats as a secret does not block a promotion
  (`Promotion.FailedSecretPasses`, and exactly those: `Promotion.BlockingConstraint`).
- The event stream of a client can end without the events that ended the run, for every reachable run
  (`Streaming.LastEventMissed`); it is complete exactly under the condition of `Streaming.EndIsComplete`.

## Model

| member | source | states |
|---|---|---|
| Redaction.RedactString | src/loopgraph_supervisor/security/redaction.py:50-57 | the loop over the patterns is both substitutions, tokens first |
| Redaction.MatchLength | src/loopgraph_supervisor/security/redaction.py:8-11 | a match takes at least one character and never more than there are |
| RedactionProofs.CleanByIndex | src/loopgraph_supervisor/security/redaction.py:8-11 | clean means that no position of the string begins a match, given the character before it |
| RedactionProofs.RedactTextIsClean | src/loopgraph_supervisor/security/redaction.py:50-57 | a redacted string contains no match of either pattern, although the second substitution runs on the output of the first |
| RedactionProofs.RedactTextFixed | src/loopgraph_supervisor/security/redaction.py:50-57 | redaction leaves a string alone if and only if it holds no match of either pattern |
| RedactionProofs.NoBracketUnchanged | src/loopgraph_supervisor/security/redaction.py:53-56 | whatever redaction changes carries the replacement's bracket |
| RedactionContext.RedactTextSplits | src/loopgraph_supervisor/security/redaction.py:50-57 | redaction of a text is redaction of its parts, if the first does not end in a word character and leaves no match undecided |
| RedactionSecrets.RedactTextSplitsExactly | src/loopgraph_supervisor/security/redaction.py:50-57 | these are exactly the texts that can be redacted on their own whatever follows them |
| RedactionSecrets.TokenDisappears | src/loopgraph_supervisor/security/redaction.py:9 | a bearer token after any such text, in any letter case and after any spaces, is replaced completely, and the text on both sides is redacted as if it stood alone |
| RedactionSecrets.KeyDisappears | src/loopgraph_supervisor/security/redaction.py:10 | the same for a key of at least six characters, hyphens included, that ends in a word character and not itself in the word that announces a token |
| RedactionMeaning.ShortKeysStay | src/loopgraph_supervisor/security/redaction.py:10 | a prefix followed by fewer than six characters is no key and stays |
| RedactionMeaning.AttachedKeysStay | src/loopgraph_supervisor/security/redaction.py:10 | a prefix that continues a word begins no key, however long what follows is |
| RedactionMeaning.HyphensStay | src/loopgraph_supervisor/security/redaction.py:10 | hyphens after the last word character of a key are not part of it and stay |
| RedactionMeaning.CharacterClasses | src/loopgraph_supervisor/security/redaction.py:9-10 | the four classes of the patterns, character code by character code |
| RedactionMeaning.SensitiveExactly | src/loopgraph_supervisor/security/redaction.py:17-33 | a key is sensitive by default if and only if it spells one of the eleven listed names in any mixture of letter cases |
| RedactionMeaning.KeysAreHidden | src/loopgraph_supervisor/security/redaction.py:37-45 | in every nested value, at any depth, a key that spells a listed name in any mixture of cases holds "[REDACTED]" if nothing above it is hidden already |
| RedactionMeaning.OpenPathsStay | src/loopgraph_supervisor/security/redaction.py:36-58 | along every path whose keys spell no listed name there is the redaction of what was there, and nothing else |
| RedactionMeaning.ShapesStay | src/loopgraph_supervisor/security/redaction.py:36-58 | dictionaries keep their keys, lists and tuples their lengths, and other values are unchanged |
| RedactionProofs.RedactSanitizes | src/loopgraph_supervisor/security/redaction.py:36-58 | in every nested value, sensitive keys map to the replacement and no other string contains a match |
| RedactionProofs.SanitizedIsFixed | src/loopgraph_supervisor/security/redaction.py:36-58 | a sanitized value is left unchanged |
| RedactionProofs.RedactIdempotent | src/loopgraph_supervisor/application/engine.py:105-113 | redacting in the emitter and again in `_append` is redacting once, for all nested values |
| Grading.FailedConstraints | src/loopgraph_supervisor/grading/policy.py:38-42 | exactly the required constraints that nobody reported or somebody reported false |
| Grading.ScoreBetweenResults | src/loopgraph_supervisor/grading/policy.py:30-36 | the score lies between any bounds of the results' scores, so it is a score |
| Grading.PassedExactly | src/loopgraph_supervisor/grading/policy.py:26-59 | a decision passes if and only if its weighted mean reaches the threshold and every required constraint was reported and never false |
| Grading.AggregateExactly | src/loopgraph_supervisor/grading/policy.py:26-48 | with the configured weight of every result, or 1 where none is configured: score times total weight is the weighted sum; the weights are refused exactly when one is negative or the total is not positive; passed, failed constraints and results |
| Grading.CrashNeverHelps | src/loopgraph_supervisor/application/engine.py:397-417 | a decision that passes although one of the graders crashed also passes with any result of that grader whose reports are all true |
| Mutation.ChangedComponents | src/loopgraph_supervisor/evolution/mutator.py:55-72 | the components that the plan touches, each once and in the declared order |
| Mutation.DeepMerge | src/loopgraph_supervisor/evolution/mutator.py:135-143 | the recursive loop computes the merge function |
| Mutation.ApplyRemovals | src/loopgraph_supervisor/evolution/mutator.py:103-111 | exactly the entries not named for removal stay |
| Mutation.Apply | src/loopgraph_supervisor/evolution/mutator.py:94-133 | outcome of a plan: components outside the scope, an unchanged bundle, or the patched bundle |
| Mutation.MergeIsOverlay | src/loopgraph_supervisor/evolution/mutator.py:135-143 | along every path the merged object shows the patch where the patch decides and the base elsewhere |
| Mutation.MergeIdempotent | src/loopgraph_supervisor/evolution/mutator.py:135-143 | merging a patch twice is merging it once |
| Mutation.AcceptedPlanIsSpent | src/loopgraph_supervisor/evolution/mutator.py:131-133 | an accepted plan applied to its own result always ends in the no-mutation error |
| Mutation.RefusedIffOutsideScope | src/loopgraph_supervisor/evolution/mutator.py:95-101 | a plan is refused if and only if it touches a component outside the parent's scope, and the refusal names exactly those |
| Mutation.RefusedExactly | src/loopgraph_supervisor/evolution/mutator.py:55-101 | the same in terms of the plan's fields and the scope's list of components |
| Mutation.MutationFrame | src/loopgraph_supervisor/evolution/mutator.py:113-130 | an accepted plan keeps name, scope and every component it does not touch, and changes something |
| Mutation.AcceptedPlanSays | src/loopgraph_supervisor/evolution/mutator.py:103-130 | an accepted plan, name by name and path by path: a skill or server is the upserted one, otherwise absent if removed, otherwise the parent's; every configuration shows the patch where it decides; a given prompt replaces the parent's |
| Runs.LoadRun | src/loopgraph_supervisor/domain/runs.py:81-134 | the loop of replay is the fold; missing and malformed streams, definitions that no longer validate, hints out of bounds and negative totals are refused, in this order |
| Definitions.DefaultKeysPass | src/loopgraph_supervisor/security/redaction.py:17-33 | the default policy treats no field name of a definition as sensitive |
| Definitions.ReadDump | src/loopgraph_supervisor/domain/runs.py:39-61 | without redaction a dumped definition validates as itself |
| Definitions.AcceptedExactly | src/loopgraph_supervisor/domain/runs.py:26-61 | validation accepts the dump of exactly the definitions within the declared bounds, with at least one and no repeated grader |
| Definitions.StoredExactly | src/loopgraph_supervisor/application/engine.py:64-70 | a redacted dump validates if and only if the definition survives redaction, and then as its stored form |
| Definitions.CreationExactly | src/loopgraph_supervisor/domain/runs.py:85 | the creation that replay sees is what dumping, redacting and validating make of the definition |
| Definitions.StoredIsFixed | src/loopgraph_supervisor/application/engine.py:581-586 | a stored definition is stored as itself, so what a child takes over from its parent stays as it is |
| Runs.ReplayVersion | src/loopgraph_supervisor/domain/runs.py:90 | the snapshot's version is the length of the stream, and its definition is the first event's |
| ReplayMeaning.LastDecides | src/loopgraph_supervisor/domain/runs.py:97-132 | status, attempt, output, score, override and error are those of the last event that sets them |
| ReplayMeaning.NothingDecides | src/loopgraph_supervisor/domain/runs.py:86-96 | a field that no event set is as at the creation |
| ReplayMeaning.Collected | src/loopgraph_supervisor/domain/runs.py:102-116 | steps, tokens and cost are the sums over the whole stream, and the hints are all that were published, in order |
| Engine.ActiveHints | src/loopgraph_supervisor/application/engine.py:231-233 | exactly the hints active at the attempt |
| Ledger.ViewAppend | src/loopgraph_supervisor/domain/runs.py:97-132 | replaying and counting a stream with a batch appended is continuing both over the batch |
| StepKinds.StepKindsSurviveRedaction | src/loopgraph_supervisor/domain/runs.py:109 | an event counts as a step on replay if and only if the emitter counted it, although its kind was redacted in between |
| EngineInvariants.StepKeeps | src/loopgraph_supervisor/application/engine.py:84-577 | every move keeps the invariant: balanced attempts, earned success, and locals of the attempt that agree with replay |
| EngineInvariants.ReachableInv | src/loopgraph_supervisor/application/engine.py:84-577 | the invariant holds in every reachable run |
| EngineTheorems.StartsAreAttempts | src/loopgraph_supervisor/domain/runs.py:99-101 | the replayed attempt number is the number of starts |
| EngineTheorems.AttemptConservation | src/loopgraph_supervisor/application/engine.py:84-96 | in every reachable run, starts plus a startable status equal one plus evaluation retries, human retries, resumes and recoveries, less boundary pauses and failures recorded while startable; the n-th start carries n; evaluation retries stay within the policy |
| EngineTheorems.SuccessSoundness | src/loopgraph_supervisor/application/engine.py:275-292 | a success without human override: the last evaluation's weighted score is the reported one and reaches the threshold, every required constraint was reported and never false, and the totals of all attempts are within budget |
| EngineBounds.TerminalAbsorbs | src/loopgraph_supervisor/application/engine.py:476-577 | after success or failure no sequence of moves changes anything that replay shows but the version, and only team events and failures of straggling graders are appended |
| EngineBounds.IdleExactly | src/loopgraph_supervisor/application/engine.py:468-577 | what every command, start and straggling grader appends to a run that no attempt is executing, status by status |
| EngineBounds.IdleStatus | src/loopgraph_supervisor/application/engine.py:468-577 | the status after every move of a run that is not executing |
| EngineBounds.WaitingIsGuarded | src/loopgraph_supervisor/application/engine.py:476-478 | a run waiting for a human is left only through `resolve_human`, a paused one only through `resume` or an internal failure |
| EngineBounds.LoopBound | src/loopgraph_supervisor/application/engine.py:359-382 | from attempt a on, without human retry, resume or recovery, at most max(1, max_retries + 1 - a) attempts start |
| EngineBounds.StepBound | src/loopgraph_supervisor/application/engine.py:114-121 | replayed steps never exceed (limit + 1) times the attempts plus one for each time a harness went on after the emitter raised, across crashes and recoveries |
| EngineEdges.StepBoundReached | src/loopgraph_supervisor/application/engine.py:114-121 | for every limit and every k some run in which the harness goes on k times takes exactly k steps more than that |
| EngineEdges.StepBoundExactly | src/loopgraph_supervisor/application/engine.py:114-121 | an allowance covers every run with k such occasions if and only if it is at least k |
| Readability.ReadableStepExactly | src/loopgraph_supervisor/domain/runs.py:102-134 | a move leaves a readable run readable if and only if it makes no total negative and publishes no hint that redaction made too long |
| Readability.AlwaysReadable | src/loopgraph_supervisor/application/engine.py:78-82 | a run whose definition survives redaction can be read after any moves with non-negative usage and legible drafts |
| Readability.ReadableExactly | src/loopgraph_supervisor/application/engine.py:54-71 | all runs of such collaborators can be read if and only if the definition survives redaction |
| Readability.UnreadableIsFrozen | src/loopgraph_supervisor/application/engine.py:78-82 | an idle run that cannot be read is changed by no command and no start, and only failures of straggling graders are appended |
| Readability.UnstorableIsFatal | src/loopgraph_supervisor/domain/runs.py:85 | a run whose definition does not survive redaction cannot be read from its creation on and never changes |
| Readability.NegativeUsageIsFatal | src/loopgraph_supervisor/domain/runs.py:102-106 | a result that makes a total negative leaves the run unreadable whatever happens afterwards, and no attempt starts again |
| Readability.OverlongHintIsFatal | src/loopgraph_supervisor/domain/runs.py:116 | so does a published hint whose stored key or target exceeds its bound |
| EngineEdges.KeyOutgrows | src/loopgraph_supervisor/domain/models.py:85 | a key of 256 characters whose stored form is longer |
| EngineEdges.OverlongHintStopsRun | src/loopgraph_supervisor/application/engine.py:144-173 | in every run, the first publication of a directive with such a hint is followed by no other attempt |
| EngineEdges.UnstorableDefinitions | src/loopgraph_supervisor/domain/runs.py:55-61 | a weight or an MCP server called "secret", and two grader ids that both match the key pattern, do not survive redaction |
| EngineHints.FeedbackDelivery | src/loopgraph_supervisor/application/engine.py:365-382 | feedback of attempt n is active at attempt n + 1 and at no other, and attempt n + 1 is the next to start whatever comes between |
| HintKeys.HintsPublishedOnce | src/loopgraph_supervisor/application/engine.py:144-173 | with safe directives no two hints of a run have the same key, neither two of the advisor's, nor feedback and one of the advisor's, nor two of feedback |
| HintKeys.EvaluationKeyInjective | src/loopgraph_supervisor/application/engine.py:376 | different attempts have different evaluation keys |
| HintKeys.EvaluationKeyStable | src/loopgraph_supervisor/application/engine.py:376 | redaction leaves every evaluation key as it is |
| HintKeys.RefusedHintsAreLost | src/loopgraph_supervisor/application/engine.py:159-173 | after the append of hints is refused, whatever happens and whatever directives follow in that attempt, no draft with one of their keys is published in it |
| HintRepeats.RepeatedKeyRepeats | src/loopgraph_supervisor/application/engine.py:156-158 | a directive with two keys that are stored alike publishes one twice at once |
| HintRepeats.UnstableKeyRepeats | src/loopgraph_supervisor/application/engine.py:100 | a key that redaction rewrites, within the bounds, is forgotten and published again by the next attempt |
| HintRepeats.EvaluationKeyRepeats | src/loopgraph_supervisor/application/engine.py:365-382 | an advisor key that is the evaluation key of an attempt within the retry budget is published once more when that attempt fails retryably, under every policy that can fail one |
| HintRepeats.RepeatFreeExactly | src/loopgraph_supervisor/application/engine.py:144-173 | a directive never lets a key be published twice in any run if and only if its stored keys are distinct, none is an evaluation key within the retry budget if the policy can fail, and redaction leaves all of them alone or makes one of its hints too long |
| HintOneShot.OneShotPublishesOnce | src/loopgraph_supervisor/application/engine.py:144-173 | a directive of which redaction makes a hint too long is published once at most in any run, and repeats no key if its own stored keys are distinct and no evaluation keys |
| EngineFeedback.ConclusionExactly | src/loopgraph_supervisor/application/engine.py:352-395 | an evaluated attempt ends in success, retry, human review or failure exactly as the recorded decision, the replayed attempt number and the policy say |
| EngineFeedback.RetriesCarryFeedback | src/loopgraph_supervisor/application/engine.py:359-382 | every retry scheduled while evaluating follows a failed decision with a retryable result within the budget, names the next attempt, and comes right after that evaluation's feedback |
| EngineFeedback.AdviceDelivery | src/loopgraph_supervisor/application/engine.py:144-173 | a hint the advisor publishes during attempt n is in the request of attempt k > n if and only if k comes within its lifetime, counted from n when delivered inline and from n + 1 when not |
| Supervisor.SupervisorEngine.ResolveWaiting | src/loopgraph_supervisor/application/engine.py:468-494 | appends the decision and its consequence exactly when the run waits, and returns the snapshot that replay then shows |
| Supervisor.SupervisorEngine.PauseAtBoundary | src/loopgraph_supervisor/application/engine.py:496-522 | pauses exactly a startable run |
| Supervisor.SupervisorEngine.ResumePaused | src/loopgraph_supervisor/application/engine.py:524-535 | resumes exactly a paused run |
| Supervisor.SupervisorEngine.RecoverCrashed | src/loopgraph_supervisor/application/engine.py:537-558 | schedules a retry exactly for a run left running or evaluating, and otherwise appends nothing; with no attempt executing, as the API makes sure, the run stays reachable |
| Supervisor.SupervisorEngine.RecordFailure | src/loopgraph_supervisor/application/engine.py:560-577 | sends every readable run that has not ended to a human; with no attempt executing the run stays reachable |
| Supervisor.SupervisorEngine.EmitHarnessEvent | src/loopgraph_supervisor/application/engine.py:103-229 | one call of the emitter stays within the moves and appends exactly what its outcome function says, which `AttemptStory.CallTold` spells out |
| Supervisor.SupervisorEngine.RunHarness | src/loopgraph_supervisor/application/engine.py:234-259 | the calls of the emitter up to the first exception that leaves the harness |
| Supervisor.SupervisorEngine.CheckBudgets | src/loopgraph_supervisor/application/engine.py:275-292 | tokens before cost, totals over all attempts, strictly over the limit |
| Supervisor.SupervisorEngine.Evaluate | src/loopgraph_supervisor/application/engine.py:322-395 | crashed graders, the decision and its conclusion, in this order; an unusable weighting leaves the attempt by an exception |
| Supervisor.SupervisorEngine.ExecuteAttempt | src/loopgraph_supervisor/application/engine.py:91-292 | everything one attempt appends, and whether an exception leaves it; `AttemptStory` tells what that is |
| Supervisor.SupervisorEngine.RunUntilBlocked | src/loopgraph_supervisor/application/engine.py:84-89 | terminates; makes whole turns only; returns a run that is not startable; keeps the bound on attempts; the object stays reachable, so every theorem about reachable runs applies |
| SupervisorEnds.AttemptEnds | src/loopgraph_supervisor/application/engine.py:91-292 | an attempt is never left running; it is left evaluating if and only if an exception leaves it; a pause, and a failure that is no verdict, were asked for by the advisor; success and retry are the grading policy's, within budget and retry limit |
| AttemptStory.CallTold | src/loopgraph_supervisor/application/engine.py:103-229 | one call of the emitter: its events, the steps and keys counted, and whether and why it halts the harness |
| AttemptStory.HaltedAttempt | src/loopgraph_supervisor/application/engine.py:103-259 | the first call that halts the harness without being swallowed ends the attempt: the story up to that call, its last words, and nothing later |
| AttemptStory.HaltStopsRun | src/loopgraph_supervisor/application/engine.py:223-259 | if the advisor asks for a pause, a human or an abort in a call that is reached within the step limit and not swallowed, the run is paused, waits, or has failed with the advisor's rationale; no result, evaluation or success follows |
| AttemptStory.CompletedAttempt | src/loopgraph_supervisor/application/engine.py:234-395 | otherwise all calls' events, then the exception or the result with the budget check, the crashed graders, the decision and its verdict; an exception leaves it exactly when a result within budget cannot be graded |
| AttemptStory.RequestExactly | src/loopgraph_supervisor/application/engine.py:231-233 | the request has the hints whose lifetime contains the attempt, each once and in order |
| AttemptStory.FeedbackExactly | src/loopgraph_supervisor/application/engine.py:361 | the feedback has every grader's messages, once each and in order |
| AttemptStory.EvaluationKeyExactly | src/loopgraph_supervisor/application/engine.py:376 | the evaluation key is the fixed prefix and the attempt in decimal, without leading zeros |
| Supervisor.ReachableIsInductive | src/loopgraph_supervisor/application/engine.py:84-577 | reachable runs are closed under every move, so the commands keep them |
| EventStore.SqlEventStore.Append | src/loopgraph_supervisor/infrastructure/event_store.py:47-80 | appends the whole batch at the next sequences exactly if the version is the expected one, touching no other stream |
| EventStore.SqlEventStore.Load | src/loopgraph_supervisor/infrastructure/event_store.py:82-101 | the rows after a sequence, in order, up to the limit |
| EventStore.SqlEventStore.Version | src/loopgraph_supervisor/infrastructure/event_store.py:103-127 | the highest sequence is the length of the stream |
| EventStore.AppendKeeps | src/loopgraph_supervisor/infrastructure/event_store.py:60-74 | appending from the current version keeps every stream numbered 1..n |
| EventStore.CommitsIffCurrent | src/loopgraph_supervisor/infrastructure/event_store.py:76-80 | without the lock, the uniqueness constraint lets a batch commit if and only if nothing was committed to its run since its version check |
| EventStore.WritersExactly | src/loopgraph_supervisor/infrastructure/event_store.py:56-80 | a writer gets through its check exactly with a batch based on the current version; its commit appends that batch numbered on, or nothing if another writer was faster |
| EventStore.PageExactly | src/loopgraph_supervisor/infrastructure/event_store.py:82-101 | a page has the next rows after the sequence, as many as there are and the limit allows |
| EventStore.Linearity | src/loopgraph_supervisor/infrastructure/event_store.py:47-80 | under every interleaving of any writers: sequences 1..n, committed prefixes stay, batches are all or nothing, and no two commits to a run had the same expected version |
| Versions.SqlAgentVersionStore.CreateInitialVersion | src/loopgraph_supervisor/infrastructure/version_store.py:88-122 | first version of an agent, activated or not; all three tables, and the error cases |
| Versions.SqlAgentVersionStore.CreateCandidateVersion | src/loopgraph_supervisor/infrastructure/version_store.py:124-153 | a candidate with the number after the highest; the error cases in their order |
| Versions.SqlAgentVersionStore.HighestVersion | src/loopgraph_supervisor/infrastructure/version_store.py:146 | the maximum of the version numbers |
| Versions.SqlAgentVersionStore.PromoteVersion | src/loopgraph_supervisor/infrastructure/version_store.py:155-212 | promotion of a candidate with the expected active version; all three tables, and the error cases |
| Versions.SqlAgentVersionStore.RollbackVersion | src/loopgraph_supervisor/infrastructure/version_store.py:214-267 | rollback to a version that was active; all three tables, and the error cases |
| Versions.InitialExactly | src/loopgraph_supervisor/infrastructure/version_store.py:88-122 | which first version is refused why, and the record, pointer and entry it adds |
| Versions.CandidateExactly | src/loopgraph_supervisor/infrastructure/version_store.py:124-153 | which candidate is refused why; otherwise one record, descending from the version the caller names, with the number of the agent's versions plus one |
| Versions.SwitchesExactly | src/loopgraph_supervisor/infrastructure/version_store.py:155-267 | which promotion and which rollback is refused why; otherwise the new version is active, the one that was is superseded, and every other record is as before |
| Versions.StatusesRefineHistory | src/loopgraph_supervisor/infrastructure/version_store.py:88-267 | deciding every operation by statuses and pointers gives the same result and the same tables as deciding it by the activation history alone, and keeps the invariant |
| Versions.ReachableInv | src/loopgraph_supervisor/infrastructure/version_store.py:88-267 | after any operations, the three tables agree, numbers and parents are in order and bundles are distinct |
| Versions.ActivePointer | src/loopgraph_supervisor/infrastructure/version_store.py:164-211 | after any operations a version is active if and only if its agent's pointer names it, and superseded if and only if it was activated and is not the pointer's target |
| Versions.HistoryIsChain | src/loopgraph_supervisor/infrastructure/version_store.py:108-121 | the history is a chain that ends at the pointer, and the versions in it are exactly the non-candidates |
| Versions.RollbackReach | src/loopgraph_supervisor/infrastructure/version_store.py:223-266 | some rollback to a version succeeds if and only if it was active before and is not active now |
| Versions.RollbackUndone | src/loopgraph_supervisor/infrastructure/version_store.py:214-267 | rolling back and rolling back again restores every status and every pointer |
| Versions.LineageTree | src/loopgraph_supervisor/infrastructure/version_store.py:134-152 | every lineage stays with its agent and ends in version 1, and all lineages of an agent end in the same version |
| Versions.Numbering | src/loopgraph_supervisor/infrastructure/version_store.py:93-105 | an agent's numbers are exactly 1..n, each once, and no bundle is stored twice for it |
| Team.ReplayTeam | src/loopgraph_supervisor/domain/team.py:26-50 | the first team and the fold of the members, or nothing without a team |
| Team.TeamIsFirst | src/loopgraph_supervisor/domain/team.py:28 | later events never change a run's team |
| TeamMembers.TeamExactly | src/loopgraph_supervisor/domain/team.py:28-30 | a stream has a team if and only if one was created on it, and it is the first one |
| TeamMembers.MembersAre | src/loopgraph_supervisor/domain/team.py:31-45 | the members are exactly the runs recorded as spawned |
| TeamMembers.MemberIsLast | src/loopgraph_supervisor/domain/team.py:33-35 | a member has the role and goal that were last recorded |
| TeamMembers.MemberStands | src/loopgraph_supervisor/domain/team.py:33-45 | a member stands as the last event about it since its first record says |
| Team.TeamCoordinator.SpawnChild | src/loopgraph_supervisor/application/team.py:47-139 | every stream and the result after a spawn, for every combination of refused appends; a child whose start is refused stays a member although the call raises |
| TeamMembers.SpawnExactly | src/loopgraph_supervisor/application/team.py:55-139 | for every parent, spec and combination of refused appends: the result, what is appended to the parent's stream and whether the child exists, guard by guard |
| TeamMembers.ChildExactly | src/loopgraph_supervisor/application/team.py:96-115 | a spawned child works on the goal and role of its spec, with the harness and graders of the spec if given and not empty and otherwise its parent's, the bundle given or the parent's with its version, and the spec's metadata over the parent's, all as redaction stores them |
| TeamMembers.MembersTellTheTruth | src/loopgraph_supervisor/application/team.py:96-136 | after any moves every recorded member is a run, and its entry has the goal and the role of that run's definition as stored |
| TeamBound.ReachableInv | src/loopgraph_supervisor/application/team.py:55-139 | after any moves, every spawned run has inherited from its parent within the depth limit, and no run has more recorded children than its limit |
| TeamTree.DescendantsInherit | src/loopgraph_supervisor/application/team.py:96-113 | a run k spawns below another has its policies, its depth plus k, at most the limit, and names the run that spawned it and that run's team |
| TeamTree.RecordedTreeBound | src/loopgraph_supervisor/application/team.py:73-81 | with every membership recorded, never more than m + m^2 + ... + m^(D-d) runs are spawned below a run |
| TeamTree.TreeBound | src/loopgraph_supervisor/application/team.py:73-81 | the same with m increased by the most memberships any run failed to record |
| TeamTree.NothingLost | src/loopgraph_supervisor/application/team.py:114-136 | unless the append of a membership is refused, every spawned run is a recorded member |
| TeamTree.LimitEscaped | src/loopgraph_supervisor/application/team.py:129-136 | for every n and every definition that survives redaction there is a run with n children, whatever its limit, when the appends of their memberships are refused |
| Tasks.RunTaskManager.AcquireStart | src/loopgraph_supervisor/application/tasks.py:30-33 | takes the lock unless the run has a task that is not done |
| Tasks.RunTaskManager.PublishTask | src/loopgraph_supervisor/application/tasks.py:34-46 | publishes a task exactly for a readable run whose status allows it, forgetting its old error |
| Tasks.RunTaskManager.LeaveSemaphore | src/loopgraph_supervisor/application/tasks.py:48-57 | the semaphore is released and an error is kept before it is recorded |
| Tasks.RunTaskManager.IsRunActive | src/loopgraph_supervisor/application/tasks.py:63-65 | whether the run's latest task is not done |
| Tasks.CountedKept | src/loopgraph_supervisor/application/tasks.py:22 | tasks inside the semaphore and free permits always add up to the limit |
| Tasks.SingleExecution | src/loopgraph_supervisor/application/tasks.py:27-65 | under every interleaving of starts, completions, failures and cancellations a run has at most one task that is not done, `is_active` tells whether, at most `max_concurrency` are inside, and the error kept is what the latest task raised |
| Promotion.Round12 | src/loopgraph_supervisor/evolution/promotion.py:37 | twelve digits are off by at most half of the last one |
| Promotion.Evaluate | src/loopgraph_supervisor/evolution/promotion.py:36-73 | the reasons are exactly the conditions that hold, and it passes if and only if none does |
| PromotionMeaning.PassesExactly | src/loopgraph_supervisor/evolution/promotion.py:36-73 | evidence passes if and only if the score reaches the minimum, its difference rounded to twelve digits reaches the minimum, regressions stay within the maximum, no constraint is false and the cost is within the multiple of a positive baseline |
| PromotionMeaning.RoundedExactly | src/loopgraph_supervisor/evolution/promotion.py:37 | the difference is rounded to the nearest multiple of the twelfth digit, ties to the even one |
| Promotion.NoRegressions | src/loopgraph_supervisor/api/app.py:533-538 | the count is zero if and only if no pair fell |
| Promotion.ReportedMeans | src/loopgraph_supervisor/api/app.py:526 | a stored constraint reads as true if and only if it was true or its name is sensitive |
| Promotion.VerdictsMean | src/loopgraph_supervisor/api/app.py:518-526 | a constraint has a verdict if and only if some result reported it; the verdict is true if and only if every report is or the name is sensitive |
| Promotion.DeriveConstraints | src/loopgraph_supervisor/api/app.py:518-526 | the nested loops compute the verdicts on the last evaluations of all candidate runs |
| Promotion.ScoreIsOfLastEvaluation | src/loopgraph_supervisor/domain/runs.py:113-114 | the score that replay reports is that of the last evaluation, so scores and constraints come from the same one |
| Promotion.DerivePromotionEvidence | src/loopgraph_supervisor/api/app.py:482-558 | succeeds if and only if every demand on the two sets of runs is met, otherwise with the first one that is not |
| PromotionMeaning.MeanLaw | src/loopgraph_supervisor/api/app.py:531-532 | the mean of one value is that value, and means of parts add up by their lengths |
| PromotionMeaning.EvidenceExactly | src/loopgraph_supervisor/api/app.py:528-543 | score and cost times the number of runs are the totals over the replayed runs; regressions count the pairs whose score fell; the run ids are all of them |
| PromotionMeaning.VerdictsExactly | src/loopgraph_supervisor/api/app.py:518-526 | a constraint is in the evidence if and only if a last evaluation reported it, and true if and only if no last evaluation reported it false or its name is secret |
| PromotionMeaning.LastDecisionExactly | src/loopgraph_supervisor/api/app.py:520-524 | the evaluation that counts is the last one on the stream |
| PromotionMeaning.DemandsExactly | src/loopgraph_supervisor/api/app.py:508-516 | the first demand on a pair that is not met, in the order of the checks |
| Promotion.PromotionSoundness | src/loopgraph_supervisor/api/app.py:508-543 | evidence that passes: every constraint reported by a last evaluation was true unless its name is sensitive; the mean rose by the minimum up to 5e-13; with no regressions allowed no pair and no mean fell; the mean cost stayed within its multiple of the baseline's, unless that is zero |
| Promotion.BlockingConstraint | src/loopgraph_supervisor/evolution/promotion.py:53-57 | a constraint blocks if and only if somebody reported it false under a name that is not sensitive |
| Promotion.FailedSecretPasses | src/loopgraph_supervisor/api/app.py:525-526 | a failed constraint called "secret" is derived as passed |
| Streaming.StreamEvents | src/loopgraph_supervisor/api/app.py:258-288 | the nested loops are the generator's states between suspensions; before the client disconnects they stop only at the end marker or an unreadable run |
| Streaming.SentIsWindow | src/loopgraph_supervisor/api/app.py:266-282 | with appends at any moment, the k-th event sent is the one with sequence after + k: no gap, no repetition |
| Streaming.ResumeExactly | src/loopgraph_supervisor/api/app.py:265-288 | every resumption without pages: the next event if there is one, otherwise the status read, which ends the stream for a run that is over, breaks it for one that cannot be read, and goes on for any other |
| Streaming.BrokenIsUnreadable | src/loopgraph_supervisor/api/app.py:283 | a stream breaks only on a run that cannot be read |
| Streaming.EndIsComplete | src/loopgraph_supervisor/api/app.py:283-286 | at the end marker the run was terminal, and everything was sent if and only if nothing was appended between the empty page and the status read, or the request was beyond the last event |
| Streaming.LastEventMissed | src/loopgraph_supervisor/api/app.py:266-286 | whatever move ends whatever reachable run: a client that had everything before gets the end marker without the events of that move, and nothing afterwards, when they are appended between its empty page and its status read |
| Streaming.SomeLastEventMissed | src/loopgraph_supervisor/api/app.py:266-286 | every definition has such a run and such a move |

## Left out

- HTTP routing, error mapping, the text format of server-sent events, the command line and configuration.
- The trajectory that graders see and the window of events that the advisor sees: what they make of them is arbitrary.
- The memory store and the memories of an execution request: a failure to load them is a harness that raises.
- Harness adapters, subprocesses and timeouts: a harness is any finite list of emitted events and a result or an exception; a timeout is an exception.
- The action router and the advisor's parsing and triggers: whether an event is reviewed, the directive, and the success of an action are arbitrary.
- The graders themselves: their results are arbitrary, with scores in [0, 1].
- SHA-256, canonical JSON, UUID generation and clocks.
- Database sessions: a transaction is one method, or a check and a commit with the uniqueness constraint between.
- Redaction of stored strings in the engine model: definitions, event kinds, and the keys and targets of hints, which decide something after replay, are redacted; outputs, rationales and other texts are stored as they are.
- Hints keep their instruction as lines, without joining them; priority, reason and evidence are omitted.
- A draft whose target no hint accepts: making the hint raises inside the emitter, and in the state machine that is an exception of the harness.
- The attempt timeout in a definition: a positive number, which redaction leaves alone.
- Evaluation results keep score, constraints, feedback and the retry flag; the fields that nothing here reads are omitted.
- The version store's actor, reason, change summary, evaluation summary and time of each record, and the rejected status, which no operation sets.
- Cancellation of a run: replay knows the event, but nothing in the repository appends it.
- The order of keys in dictionaries: the reasons for failed constraints may come in any order.
- Refused appends in the object of `Supervisor.dfy`: in the state machine a refused append is an exception of the harness, a refused publication of hints, or a crash; the object's own appends succeed.
- Sharing between mutable dictionaries, which the mutator rules out by deep copies.
- The lock of `spawn` across processes: it is held within one process only.
- Runs created through the API with a claimed parent: the tree counts only runs that `spawn` created.
