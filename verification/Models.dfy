/** The immutable domain models (domain/models.py). */
module Models {
  import opened Json

  type Id = nat

  datatype EvolutionScope = HintOnly | PromptOnly | PromptAndSkills | FullAgentBundle

  /** Two bundles have the same fingerprint exactly when they are equal: SHA-256 over canonical JSON
      is taken to be injective. */
  datatype AgentBundle = AgentBundle(
    name: string,
    systemPrompt: string,
    skills: map<string, string>,
    mcpServers: map<string, Object>,
    toolPolicy: Object,
    modelConfig: Object,
    contextConfig: Object,
    memoryConfig: Object,
    workflowConfig: Object,
    scope: EvolutionScope)

  /** A score between 0 and 1, as the models' validators demand. */
  type Score = x: real | 0.0 <= x <= 1.0 witness 0.0

  datatype EvaluationResult = EvaluationResult(
    graderId: string,
    score: Score,
    hardConstraints: map<string, bool>,
    feedback: seq<string>,
    retryable: bool)

  /** The instruction is kept as its lines. */
  datatype Hint = Hint(
    target: string,
    instruction: seq<string>,
    createdAtStep: nat,
    expiresAfterSteps: nat,
    deduplicationKey: string)
  {
    predicate IsActive(currentStep: nat) {
      createdAtStep <= currentStep < createdAtStep + expiresAfterSteps
    }

    /** The bounds that every validation of a hint checks, when it is made and on every replay. */
    predicate WithinBounds() { 1 <= |target| <= 128 && 1 <= |deduplicationKey| <= 256 }
  }
}
