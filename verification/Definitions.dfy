/**
 What becomes of a run definition between `create_run` and replay: it is dumped to JSON, redacted, stored,
 and validated again by every replay. Ids are opaque: no pattern matches one, and they stand as numbers.
 */
module Definitions {
  import opened Json
  import opened Models
  import opened Grading
  import opened Runs
  import opened Redaction
  import opened RedactionProofs

  // ----- What the validators demand of a definition -----

  predicate Bounded(s: string, most: nat) { 1 <= |s| <= most }

  predicate Distinct(xs: seq<string>) { forall i, j | 0 <= i < j < |xs| :: xs[i] != xs[j] }

  predicate DeclaredPolicy(p: SupervisorPolicy) {
    && p.maxStepsPerAttempt >= 1 && p.maxSubagents <= 100 && p.maxSubagentDepth <= 20
    && (p.maxTokens.Some? ==> p.maxTokens.value >= 1) && (p.maxCost.Some? ==> p.maxCost.value >= 0.0)
  }

  /** A definition as the models accept it. */
  predicate Declared(d: RunDefinition) {
    && d.goal != "" && Bounded(d.harnessId, 128) && Bounded(d.role, 128)
    && Bounded(d.agentBundle.name, 128) && d.agentBundle.systemPrompt != ""
    && d.graderIds != [] && Distinct(d.graderIds) && DeclaredPolicy(d.supervisorPolicy)
  }

  // ----- Dumping -----

  function TextMap(m: map<string, string>): Value { Dict(map k | k in m :: Str(m[k])) }

  function NumberMap(m: map<string, real>): Value { Dict(map k | k in m :: Num(m[k])) }

  function ObjectMap(m: map<string, Object>): Value { Dict(map k | k in m :: Dict(m[k])) }

  function TextList(xs: seq<string>): Value { List(seq(|xs|, i requires 0 <= i < |xs| => Str(xs[i]))) }

  function Optional(n: Option<real>): Value { if n.Some? then Num(n.value) else Null }

  function OptionalNat(n: Option<nat>): Value { if n.Some? then Num(n.value as real) else Null }

  function ScopeName(scope: EvolutionScope): string {
    match scope
    case HintOnly => "hint_only"
    case PromptOnly => "prompt_only"
    case PromptAndSkills => "prompt_and_skills"
    case FullAgentBundle => "full_agent_bundle"
  }

  const BUNDLE_FIELDS: set<string> :=
    {"name", "system_prompt", "skills", "mcp_servers", "tool_policy", "model_config", "context_config",
     "memory_config", "workflow_config", "evolution_scope"}

  function BundleField(b: AgentBundle, field: string): Value {
    if field == "name" then Str(b.name)
    else if field == "system_prompt" then Str(b.systemPrompt)
    else if field == "skills" then TextMap(b.skills)
    else if field == "mcp_servers" then ObjectMap(b.mcpServers)
    else if field == "tool_policy" then Dict(b.toolPolicy)
    else if field == "model_config" then Dict(b.modelConfig)
    else if field == "context_config" then Dict(b.contextConfig)
    else if field == "memory_config" then Dict(b.memoryConfig)
    else if field == "workflow_config" then Dict(b.workflowConfig)
    else Str(ScopeName(b.scope))
  }

  function DumpBundle(b: AgentBundle): Value { Dict(map field | field in BUNDLE_FIELDS :: BundleField(b, field)) }

  const GRADING_FIELDS: set<string> := {"threshold", "grader_weights", "required_constraints"}

  function GradingField(p: GradingPolicy, field: string): Value {
    if field == "threshold" then Num(p.threshold)
    else if field == "grader_weights" then NumberMap(p.graderWeights)
    else TextList(p.requiredConstraints)
  }

  function DumpGrading(p: GradingPolicy): Value { Dict(map field | field in GRADING_FIELDS :: GradingField(p, field)) }

  const POLICY_FIELDS: set<string> :=
    {"max_retries", "require_human_on_exhaustion", "max_steps_per_attempt", "max_tokens", "max_cost",
     "max_subagents", "max_subagent_depth"}

  function PolicyField(p: SupervisorPolicy, field: string): Value {
    if field == "max_retries" then Num(p.maxRetries as real)
    else if field == "require_human_on_exhaustion" then Bool(p.requireHumanOnExhaustion)
    else if field == "max_steps_per_attempt" then Num(p.maxStepsPerAttempt as real)
    else if field == "max_tokens" then OptionalNat(p.maxTokens)
    else if field == "max_cost" then Optional(p.maxCost)
    else if field == "max_subagents" then Num(p.maxSubagents as real)
    else Num(p.maxSubagentDepth as real)
  }

  function DumpPolicy(p: SupervisorPolicy): Value { Dict(map field | field in POLICY_FIELDS :: PolicyField(p, field)) }

  const DEFINITION_FIELDS: set<string> :=
    {"goal", "harness_id", "agent_bundle", "agent_version_id", "grader_ids", "grading_policy",
     "supervisor_policy", "parent_run_id", "team_id", "role", "depth", "metadata"}

  function DefinitionField(d: RunDefinition, field: string): Value {
    if field == "goal" then Str(d.goal)
    else if field == "harness_id" then Str(d.harnessId)
    else if field == "agent_bundle" then DumpBundle(d.agentBundle)
    else if field == "agent_version_id" then OptionalNat(d.agentVersionId)
    else if field == "grader_ids" then TextList(d.graderIds)
    else if field == "grading_policy" then DumpGrading(d.gradingPolicy)
    else if field == "supervisor_policy" then DumpPolicy(d.supervisorPolicy)
    else if field == "parent_run_id" then OptionalNat(d.parentRunId)
    else if field == "team_id" then OptionalNat(d.teamId)
    else if field == "role" then Str(d.role)
    else if field == "depth" then Num(d.depth as real)
    else Dict(d.metadata)
  }

  function Dump(d: RunDefinition): Value { Dict(map field | field in DEFINITION_FIELDS :: DefinitionField(d, field)) }

  // ----- Validating what was stored -----

  function Get(v: Value, field: string): Value { if v.Dict? && field in v.fields then v.fields[field] else Null }

  predicate TextOk(v: Value, most: nat) { v.Str? && Bounded(v.text, most) }

  predicate SomeText(v: Value) { v.Str? && v.text != "" }

  predicate TextMapOk(v: Value) { v.Dict? && forall k | k in v.fields :: v.fields[k].Str? }

  predicate NumberMapOk(v: Value) { v.Dict? && forall k | k in v.fields :: v.fields[k].Num? }

  predicate ObjectMapOk(v: Value) { v.Dict? && forall k | k in v.fields :: v.fields[k].Dict? }

  predicate TextListOk(v: Value) { v.List? && forall i | 0 <= i < |v.items| :: v.items[i].Str? }

  predicate WholeOk(v: Value, least: nat, most: Option<nat>) {
    v.Num? && v.number >= least as real && v.number == v.number.Floor as real
    && (most.Some? ==> v.number <= most.value as real)
  }

  predicate OptionalOk(v: Value, least: nat) { v.Null? || WholeOk(v, least, None) }

  function TextMapOf(v: Value): map<string, string>
    requires TextMapOk(v)
  {
    map k | k in v.fields :: v.fields[k].text
  }

  function NumberMapOf(v: Value): map<string, real>
    requires NumberMapOk(v)
  {
    map k | k in v.fields :: v.fields[k].number
  }

  function ObjectMapOf(v: Value): map<string, Object>
    requires ObjectMapOk(v)
  {
    map k | k in v.fields :: v.fields[k].fields
  }

  function TextListOf(v: Value): seq<string>
    requires TextListOk(v)
  {
    seq(|v.items|, i requires 0 <= i < |v.items| => v.items[i].text)
  }

  function Whole(v: Value): nat
    requires v.Num? && v.number >= 0.0
  {
    v.number.Floor
  }

  function OptionalOf(v: Value): Option<nat>
    requires OptionalOk(v, 0)
  {
    if v.Null? then None else Some(Whole(v))
  }

  predicate ScopeOk(v: Value) { v.Str? && exists scope :: v.text == ScopeName(scope) }

  function ScopeOf(v: Value): EvolutionScope
    requires ScopeOk(v)
  {
    if v.text == ScopeName(HintOnly) then HintOnly
    else if v.text == ScopeName(PromptOnly) then PromptOnly
    else if v.text == ScopeName(PromptAndSkills) then PromptAndSkills
    else FullAgentBundle
  }

  predicate BundleOk(v: Value) {
    && TextOk(Get(v, "name"), 128) && SomeText(Get(v, "system_prompt"))
    && TextMapOk(Get(v, "skills")) && ObjectMapOk(Get(v, "mcp_servers"))
    && Get(v, "tool_policy").Dict? && Get(v, "model_config").Dict? && Get(v, "context_config").Dict?
    && Get(v, "memory_config").Dict? && Get(v, "workflow_config").Dict? && ScopeOk(Get(v, "evolution_scope"))
  }

  function BundleOf(v: Value): AgentBundle
    requires BundleOk(v)
  {
    AgentBundle(
      Get(v, "name").text, Get(v, "system_prompt").text, TextMapOf(Get(v, "skills")),
      ObjectMapOf(Get(v, "mcp_servers")), Get(v, "tool_policy").fields, Get(v, "model_config").fields,
      Get(v, "context_config").fields, Get(v, "memory_config").fields, Get(v, "workflow_config").fields,
      ScopeOf(Get(v, "evolution_scope")))
  }

  predicate GradingOk(v: Value) {
    && Get(v, "threshold").Num? && 0.0 <= Get(v, "threshold").number <= 1.0
    && NumberMapOk(Get(v, "grader_weights")) && TextListOk(Get(v, "required_constraints"))
  }

  function GradingOf(v: Value): GradingPolicy
    requires GradingOk(v)
  {
    GradingPolicy(Get(v, "threshold").number, NumberMapOf(Get(v, "grader_weights")),
                  TextListOf(Get(v, "required_constraints")))
  }

  predicate PolicyOk(v: Value) {
    && WholeOk(Get(v, "max_retries"), 0, Some(100)) && Get(v, "require_human_on_exhaustion").Bool?
    && WholeOk(Get(v, "max_steps_per_attempt"), 1, None) && OptionalOk(Get(v, "max_tokens"), 1)
    && (Get(v, "max_cost").Null? || (Get(v, "max_cost").Num? && Get(v, "max_cost").number >= 0.0))
    && WholeOk(Get(v, "max_subagents"), 0, Some(100)) && WholeOk(Get(v, "max_subagent_depth"), 0, Some(20))
  }

  function PolicyOf(v: Value): SupervisorPolicy
    requires PolicyOk(v)
  {
    SupervisorPolicy(
      Whole(Get(v, "max_retries")), Get(v, "require_human_on_exhaustion").flag,
      Whole(Get(v, "max_steps_per_attempt")), OptionalOf(Get(v, "max_tokens")),
      if Get(v, "max_cost").Null? then None else Some(Get(v, "max_cost").number),
      Whole(Get(v, "max_subagents")), Whole(Get(v, "max_subagent_depth")))
  }

  predicate GradersOk(v: Value) { TextListOk(v) && v.items != [] && Distinct(TextListOf(v)) }

  predicate DefinitionOk(v: Value) {
    && SomeText(Get(v, "goal")) && TextOk(Get(v, "harness_id"), 128) && BundleOk(Get(v, "agent_bundle"))
    && OptionalOk(Get(v, "agent_version_id"), 0) && GradersOk(Get(v, "grader_ids"))
    && GradingOk(Get(v, "grading_policy")) && PolicyOk(Get(v, "supervisor_policy"))
    && OptionalOk(Get(v, "parent_run_id"), 0) && OptionalOk(Get(v, "team_id"), 0) && TextOk(Get(v, "role"), 128)
    && WholeOk(Get(v, "depth"), 0, None) && Get(v, "metadata").Dict?
  }

  function DefinitionOf(v: Value): RunDefinition
    requires DefinitionOk(v)
  {
    RunDefinition(
      Get(v, "goal").text, Get(v, "harness_id").text, BundleOf(Get(v, "agent_bundle")),
      OptionalOf(Get(v, "agent_version_id")), TextListOf(Get(v, "grader_ids")), GradingOf(Get(v, "grading_policy")),
      PolicyOf(Get(v, "supervisor_policy")), OptionalOf(Get(v, "parent_run_id")), OptionalOf(Get(v, "team_id")),
      Get(v, "role").text, Whole(Get(v, "depth")), Get(v, "metadata").fields)
  }

  /** `RunDefinition.model_validate` on stored JSON. */
  function ReadBack(v: Value): Option<RunDefinition> { if DefinitionOk(v) then Some(DefinitionOf(v)) else None }

  // ----- The round trip -----

  lemma BundleFields(b: AgentBundle)
    ensures var v := DumpBundle(b);
      && Get(v, "name") == Str(b.name) && Get(v, "system_prompt") == Str(b.systemPrompt)
      && Get(v, "skills") == TextMap(b.skills) && Get(v, "mcp_servers") == ObjectMap(b.mcpServers)
      && Get(v, "tool_policy") == Dict(b.toolPolicy) && Get(v, "model_config") == Dict(b.modelConfig)
      && Get(v, "context_config") == Dict(b.contextConfig) && Get(v, "memory_config") == Dict(b.memoryConfig)
      && Get(v, "workflow_config") == Dict(b.workflowConfig) && Get(v, "evolution_scope") == Str(ScopeName(b.scope))
  {
  }

  lemma GradingFields(p: GradingPolicy)
    ensures var v := DumpGrading(p);
      && Get(v, "threshold") == Num(p.threshold) && Get(v, "grader_weights") == NumberMap(p.graderWeights)
      && Get(v, "required_constraints") == TextList(p.requiredConstraints)
  {
  }

  lemma PolicyFields(p: SupervisorPolicy)
    ensures var v := DumpPolicy(p);
      && Get(v, "max_retries") == Num(p.maxRetries as real)
      && Get(v, "require_human_on_exhaustion") == Bool(p.requireHumanOnExhaustion)
      && Get(v, "max_steps_per_attempt") == Num(p.maxStepsPerAttempt as real)
      && Get(v, "max_tokens") == OptionalNat(p.maxTokens) && Get(v, "max_cost") == Optional(p.maxCost)
      && Get(v, "max_subagents") == Num(p.maxSubagents as real)
      && Get(v, "max_subagent_depth") == Num(p.maxSubagentDepth as real)
  {
  }

  lemma DefinitionFields(d: RunDefinition)
    ensures var v := Dump(d);
      && Get(v, "goal") == Str(d.goal) && Get(v, "harness_id") == Str(d.harnessId)
      && Get(v, "agent_bundle") == DumpBundle(d.agentBundle)
      && Get(v, "agent_version_id") == OptionalNat(d.agentVersionId) && Get(v, "grader_ids") == TextList(d.graderIds)
      && Get(v, "grading_policy") == DumpGrading(d.gradingPolicy)
      && Get(v, "supervisor_policy") == DumpPolicy(d.supervisorPolicy)
      && Get(v, "parent_run_id") == OptionalNat(d.parentRunId) && Get(v, "team_id") == OptionalNat(d.teamId)
      && Get(v, "role") == Str(d.role) && Get(v, "depth") == Num(d.depth as real)
      && Get(v, "metadata") == Dict(d.metadata)
  {
    FirstFields(d);
    LastFields(d);
  }

  lemma FirstFields(d: RunDefinition)
    ensures var v := Dump(d);
      && Get(v, "goal") == Str(d.goal) && Get(v, "harness_id") == Str(d.harnessId)
      && Get(v, "agent_bundle") == DumpBundle(d.agentBundle)
      && Get(v, "agent_version_id") == OptionalNat(d.agentVersionId) && Get(v, "grader_ids") == TextList(d.graderIds)
      && Get(v, "grading_policy") == DumpGrading(d.gradingPolicy)
  {
  }

  lemma LastFields(d: RunDefinition)
    ensures var v := Dump(d);
      && Get(v, "supervisor_policy") == DumpPolicy(d.supervisorPolicy)
      && Get(v, "parent_run_id") == OptionalNat(d.parentRunId) && Get(v, "team_id") == OptionalNat(d.teamId)
      && Get(v, "role") == Str(d.role) && Get(v, "depth") == Num(d.depth as real)
      && Get(v, "metadata") == Dict(d.metadata)
  {
  }

  lemma ReadMaps(texts: map<string, string>, numbers: map<string, real>, objects: map<string, Object>)
    ensures TextMapOk(TextMap(texts)) && TextMapOf(TextMap(texts)) == texts
    ensures NumberMapOk(NumberMap(numbers)) && NumberMapOf(NumberMap(numbers)) == numbers
    ensures ObjectMapOk(ObjectMap(objects)) && ObjectMapOf(ObjectMap(objects)) == objects
  {
  }

  lemma ReadList(xs: seq<string>)
    ensures TextListOk(TextList(xs)) && TextListOf(TextList(xs)) == xs
  {
  }

  lemma ReadScope(scope: EvolutionScope)
    ensures ScopeOk(Str(ScopeName(scope))) && ScopeOf(Str(ScopeName(scope))) == scope
  {
  }

  lemma ReadWhole(n: nat, least: nat, most: Option<nat>)
    requires least <= n && (most.Some? ==> n <= most.value)
    ensures WholeOk(Num(n as real), least, most) && Whole(Num(n as real)) == n
  {
  }

  lemma ReadOptional(n: Option<nat>, least: nat)
    requires n.Some? ==> n.value >= least
    ensures OptionalOk(OptionalNat(n), least) && OptionalOf(OptionalNat(n)) == n
  {
    if n.Some? { ReadWhole(n.value, least, None); }
  }

  lemma ReadBundle(b: AgentBundle)
    requires Bounded(b.name, 128) && b.systemPrompt != ""
    ensures BundleOk(DumpBundle(b)) && BundleOf(DumpBundle(b)) == b
  {
    BundleFields(b);
    ReadMaps(b.skills, map[], b.mcpServers);
    ReadScope(b.scope);
  }

  lemma ReadGrading(p: GradingPolicy)
    ensures GradingOk(DumpGrading(p)) && GradingOf(DumpGrading(p)) == p
  {
    GradingFields(p);
    ReadMaps(map[], p.graderWeights, map[]);
    ReadList(p.requiredConstraints);
  }

  lemma ReadPolicy(p: SupervisorPolicy)
    requires DeclaredPolicy(p)
    ensures PolicyOk(DumpPolicy(p)) && PolicyOf(DumpPolicy(p)) == p
  {
    PolicyFields(p);
    ReadWhole(p.maxRetries, 0, Some(100));
    ReadWhole(p.maxStepsPerAttempt, 1, None);
    ReadOptional(p.maxTokens, 1);
    ReadWhole(p.maxSubagents, 0, Some(100));
    ReadWhole(p.maxSubagentDepth, 0, Some(20));
  }

  /** Without redaction, a stored definition is read back as it was. */
  lemma ReadDump(d: RunDefinition)
    requires Declared(d)
    ensures ReadBack(Dump(d)) == Some(d)
  {
    DefinitionFields(d);
    ReadBundle(d.agentBundle);
    ReadGrading(d.gradingPolicy);
    ReadPolicy(d.supervisorPolicy);
    ReadList(d.graderIds);
    ReadOptional(d.agentVersionId, 0);
    ReadOptional(d.parentRunId, 0);
    ReadOptional(d.teamId, 0);
    ReadWhole(d.depth, 0, None);
  }

  lemma PolicyIsRefused(p: SupervisorPolicy)
    requires PolicyOk(DumpPolicy(p))
    ensures 1 <= p.maxStepsPerAttempt && p.maxSubagents <= 100 && p.maxSubagentDepth <= 20
    ensures (p.maxTokens.Some? ==> p.maxTokens.value >= 1) && (p.maxCost.Some? ==> p.maxCost.value >= 0.0)
  {
    PolicyFields(p);
  }

  /** Validation accepts the dump of a definition with a goal, a prompt, names of bounded length, graders that are
      all different, and a policy within its bounds, and of no other. */
  lemma AcceptedExactly(d: RunDefinition)
    ensures ReadBack(Dump(d)) == if Declared(d) then Some(d) else None
    ensures Declared(d) ==>
      && d.goal != "" && 1 <= |d.harnessId| <= 128 && 1 <= |d.role| <= 128
      && 1 <= |d.agentBundle.name| <= 128 && d.agentBundle.systemPrompt != "" && d.graderIds != []
      && (forall i, j | 0 <= i < j < |d.graderIds| :: d.graderIds[i] != d.graderIds[j])
  {
    if Declared(d) { ReadDump(d); } else { UndeclaredIsRefused(d); }
  }

  lemma UndeclaredIsRefused(d: RunDefinition)
    requires !Declared(d)
    ensures ReadBack(Dump(d)) == None
  {
    DefinitionFields(d);
    if DefinitionOk(Dump(d)) {
      BundleFields(d.agentBundle);
      ReadList(d.graderIds);
      PolicyIsRefused(d.supervisorPolicy);
    }
  }

  // ----- What redaction makes of it -----

  predicate NoneSensitive(sensitive: set<string>, keys: set<string>) {
    forall k | k in keys :: !Sensitive(sensitive, k)
  }

  /** The redaction policy leaves the fields of a definition alone. */
  predicate FieldsPass(sensitive: set<string>) {
    && NoneSensitive(sensitive, DEFINITION_FIELDS) && NoneSensitive(sensitive, BUNDLE_FIELDS)
    && NoneSensitive(sensitive, GRADING_FIELDS) && NoneSensitive(sensitive, POLICY_FIELDS)
  }

  function RedactTexts(sensitive: set<string>, m: map<string, string>): map<string, string> {
    map k | k in m :: if Sensitive(sensitive, k) then REPLACEMENT else RedactText(m[k])
  }

  function RedactObject(sensitive: set<string>, m: Object): Object { Redact(sensitive, Dict(m)).fields }

  function RedactObjects(sensitive: set<string>, m: map<string, Object>): map<string, Object> {
    map k | k in m :: RedactObject(sensitive, m[k])
  }

  function RedactList(xs: seq<string>): seq<string> {
    seq(|xs|, i requires 0 <= i < |xs| => RedactText(xs[i]))
  }

  function StoredBundle(sensitive: set<string>, b: AgentBundle): AgentBundle {
    AgentBundle(
      RedactText(b.name), RedactText(b.systemPrompt), RedactTexts(sensitive, b.skills),
      RedactObjects(sensitive, b.mcpServers), RedactObject(sensitive, b.toolPolicy),
      RedactObject(sensitive, b.modelConfig), RedactObject(sensitive, b.contextConfig),
      RedactObject(sensitive, b.memoryConfig), RedactObject(sensitive, b.workflowConfig), b.scope)
  }

  function StoredGrading(p: GradingPolicy): GradingPolicy {
    p.(requiredConstraints := RedactList(p.requiredConstraints))
  }

  /** The definition that replay shows, if it shows one. */
  function Stored(sensitive: set<string>, d: RunDefinition): RunDefinition {
    d.(goal := RedactText(d.goal), harnessId := RedactText(d.harnessId),
       agentBundle := StoredBundle(sensitive, d.agentBundle), graderIds := RedactList(d.graderIds),
       gradingPolicy := StoredGrading(d.gradingPolicy), role := RedactText(d.role),
       metadata := RedactObject(sensitive, d.metadata))
  }

  /** No MCP server and no grader's weight is filed under a sensitive name. */
  predicate Unfiled(sensitive: set<string>, d: RunDefinition) {
    && NoneSensitive(sensitive, d.agentBundle.mcpServers.Keys)
    && NoneSensitive(sensitive, d.gradingPolicy.graderWeights.Keys)
  }

  /** What a caller can check before creating the run: nothing typed is filed under a sensitive name, redaction
      keeps the ids of graders apart, and it lengthens no bounded name too far. */
  predicate Survives(sensitive: set<string>, d: RunDefinition) {
    && Unfiled(sensitive, d) && Distinct(RedactList(d.graderIds))
    && |RedactText(d.harnessId)| <= 128 && |RedactText(d.role)| <= 128 && |RedactText(d.agentBundle.name)| <= 128
  }

  // ----- The field names are not sensitive -----

  /** No sensitive key has the length and the first two letters of `k`. */
  predicate Unlike(k: string) {
    && |k| >= 2 && (forall i | 0 <= i < |k| :: !('A' <= k[i] <= 'Z'))
    && forall s | s in SENSITIVE_KEYS :: |s| != |k| || s[0] != k[0] || s[1] != k[1]
  }

  lemma UnlikeIsNotSensitive(k: string)
    requires Unlike(k)
    ensures !Sensitive(SENSITIVE_KEYS, k)
  {
    assert Casefold(k) == k;
  }

  lemma BundleFieldsPass()
    ensures NoneSensitive(SENSITIVE_KEYS, BUNDLE_FIELDS)
  {
    forall k | k in BUNDLE_FIELDS ensures !Sensitive(SENSITIVE_KEYS, k) { UnlikeIsNotSensitive(k); }
  }

  lemma GradingFieldsPass()
    ensures NoneSensitive(SENSITIVE_KEYS, GRADING_FIELDS)
  {
    forall k | k in GRADING_FIELDS ensures !Sensitive(SENSITIVE_KEYS, k) { UnlikeIsNotSensitive(k); }
  }

  lemma PolicyFieldsPass()
    ensures NoneSensitive(SENSITIVE_KEYS, POLICY_FIELDS)
  {
    forall k | k in POLICY_FIELDS ensures !Sensitive(SENSITIVE_KEYS, k) { UnlikeIsNotSensitive(k); }
  }

  lemma DefinitionFieldsPass()
    ensures NoneSensitive(SENSITIVE_KEYS, DEFINITION_FIELDS)
  {
    forall k | k in DEFINITION_FIELDS ensures !Sensitive(SENSITIVE_KEYS, k) { UnlikeIsNotSensitive(k); }
  }

  lemma DefaultKeysPass()
    ensures FieldsPass(SENSITIVE_KEYS)
  {
    DefinitionFieldsPass();
    BundleFieldsPass();
    GradingFieldsPass();
    PolicyFieldsPass();
  }

  // ----- Redaction commutes with dumping -----

  lemma RedactDict(sensitive: set<string>, m: Object, n: Object)
    requires NoneSensitive(sensitive, m.Keys) && m.Keys == n.Keys
    requires forall k | k in m :: Redact(sensitive, m[k]) == n[k]
    ensures Redact(sensitive, Dict(m)) == Dict(n)
  {
    assert Redact(sensitive, Dict(m)).fields == n;
  }

  lemma ScopePasses(scope: EvolutionScope)
    ensures RedactText(ScopeName(scope)) == ScopeName(scope)
  {
    PlainIsFixed(ScopeName(scope));
  }

  lemma RedactTextMap(sensitive: set<string>, m: map<string, string>)
    ensures Redact(sensitive, TextMap(m)) == TextMap(RedactTexts(sensitive, m))
  {
    var v := TextMap(m);
    assert Redact(sensitive, v).fields == TextMap(RedactTexts(sensitive, m)).fields;
  }

  lemma RedactNumberMap(sensitive: set<string>, m: map<string, real>)
    requires NoneSensitive(sensitive, m.Keys)
    ensures Redact(sensitive, NumberMap(m)) == NumberMap(m)
  {
    var v := NumberMap(m);
    RedactDict(sensitive, v.fields, v.fields);
  }

  lemma RedactObjectMap(sensitive: set<string>, m: map<string, Object>)
    requires NoneSensitive(sensitive, m.Keys)
    ensures Redact(sensitive, ObjectMap(m)) == ObjectMap(RedactObjects(sensitive, m))
  {
    RedactDict(sensitive, ObjectMap(m).fields, ObjectMap(RedactObjects(sensitive, m)).fields);
  }

  lemma RedactTextList(sensitive: set<string>, xs: seq<string>)
    ensures Redact(sensitive, TextList(xs)) == TextList(RedactList(xs))
  {
  }

  /** `g` takes the fields of `b` to those of `c`. */
  predicate BundleMaps(g: Value -> Value, b: AgentBundle, c: AgentBundle) {
    && g(Str(b.name)) == Str(c.name) && g(Str(b.systemPrompt)) == Str(c.systemPrompt)
    && g(TextMap(b.skills)) == TextMap(c.skills) && g(ObjectMap(b.mcpServers)) == ObjectMap(c.mcpServers)
    && g(Dict(b.toolPolicy)) == Dict(c.toolPolicy) && g(Dict(b.modelConfig)) == Dict(c.modelConfig)
    && g(Dict(b.contextConfig)) == Dict(c.contextConfig) && g(Dict(b.memoryConfig)) == Dict(c.memoryConfig)
    && g(Dict(b.workflowConfig)) == Dict(c.workflowConfig)
    && g(Str(ScopeName(b.scope))) == Str(ScopeName(c.scope))
  }

  lemma BundleFieldMaps(g: Value -> Value, b: AgentBundle, c: AgentBundle, field: string)
    requires BundleMaps(g, b, c)
    ensures g(BundleField(b, field)) == BundleField(c, field)
  {
  }

  lemma StoredBundleMaps(sensitive: set<string>, b: AgentBundle)
    requires NoneSensitive(sensitive, b.mcpServers.Keys)
    ensures BundleMaps(v => Redact(sensitive, v), b, StoredBundle(sensitive, b))
  {
    RedactTextMap(sensitive, b.skills);
    RedactObjectMap(sensitive, b.mcpServers);
    ScopePasses(b.scope);
  }

  lemma RedactBundle(sensitive: set<string>, b: AgentBundle)
    requires NoneSensitive(sensitive, BUNDLE_FIELDS) && NoneSensitive(sensitive, b.mcpServers.Keys)
    ensures Redact(sensitive, DumpBundle(b)) == DumpBundle(StoredBundle(sensitive, b))
  {
    var c := StoredBundle(sensitive, b);
    var m := map field | field in BUNDLE_FIELDS :: BundleField(b, field);
    var n := map field | field in BUNDLE_FIELDS :: BundleField(c, field);
    StoredBundleMaps(sensitive, b);
    forall k | k in m ensures Redact(sensitive, m[k]) == n[k] { BundleFieldMaps(v => Redact(sensitive, v), b, c, k); }
    RedactDict(sensitive, m, n);
  }

  lemma RedactGradingField(sensitive: set<string>, p: GradingPolicy, field: string)
    requires NoneSensitive(sensitive, p.graderWeights.Keys)
    ensures Redact(sensitive, GradingField(p, field)) == GradingField(StoredGrading(p), field)
  {
    RedactNumberMap(sensitive, p.graderWeights);
    RedactTextList(sensitive, p.requiredConstraints);
  }

  lemma RedactGrading(sensitive: set<string>, p: GradingPolicy)
    requires NoneSensitive(sensitive, GRADING_FIELDS) && NoneSensitive(sensitive, p.graderWeights.Keys)
    ensures Redact(sensitive, DumpGrading(p)) == DumpGrading(StoredGrading(p))
  {
    var m := map field | field in GRADING_FIELDS :: GradingField(p, field);
    var n := map field | field in GRADING_FIELDS :: GradingField(StoredGrading(p), field);
    forall k | k in m ensures Redact(sensitive, m[k]) == n[k] { RedactGradingField(sensitive, p, k); }
    RedactDict(sensitive, m, n);
  }

  lemma RedactPolicyField(sensitive: set<string>, p: SupervisorPolicy, field: string)
    ensures Redact(sensitive, PolicyField(p, field)) == PolicyField(p, field)
  {
  }

  lemma RedactPolicy(sensitive: set<string>, p: SupervisorPolicy)
    requires NoneSensitive(sensitive, POLICY_FIELDS)
    ensures Redact(sensitive, DumpPolicy(p)) == DumpPolicy(p)
  {
    var m := map field | field in POLICY_FIELDS :: PolicyField(p, field);
    forall k | k in m ensures Redact(sensitive, m[k]) == m[k] { RedactPolicyField(sensitive, p, k); }
    RedactDict(sensitive, m, m);
  }

  /** `g` takes the fields of `d` to those of `e`. */
  predicate DefinitionMaps(g: Value -> Value, d: RunDefinition, e: RunDefinition) {
    && g(Str(d.goal)) == Str(e.goal) && g(Str(d.harnessId)) == Str(e.harnessId)
    && g(DumpBundle(d.agentBundle)) == DumpBundle(e.agentBundle)
    && g(OptionalNat(d.agentVersionId)) == OptionalNat(e.agentVersionId)
    && g(TextList(d.graderIds)) == TextList(e.graderIds)
    && g(DumpGrading(d.gradingPolicy)) == DumpGrading(e.gradingPolicy)
    && g(DumpPolicy(d.supervisorPolicy)) == DumpPolicy(e.supervisorPolicy)
    && g(OptionalNat(d.parentRunId)) == OptionalNat(e.parentRunId) && g(OptionalNat(d.teamId)) == OptionalNat(e.teamId)
    && g(Str(d.role)) == Str(e.role) && g(Num(d.depth as real)) == Num(e.depth as real)
    && g(Dict(d.metadata)) == Dict(e.metadata)
  }

  lemma DefinitionFieldMaps(g: Value -> Value, d: RunDefinition, e: RunDefinition, field: string)
    requires DefinitionMaps(g, d, e)
    ensures g(DefinitionField(d, field)) == DefinitionField(e, field)
  {
  }

  lemma StoredMaps(sensitive: set<string>, d: RunDefinition)
    requires Redact(sensitive, DumpBundle(d.agentBundle)) == DumpBundle(StoredBundle(sensitive, d.agentBundle))
    requires Redact(sensitive, DumpGrading(d.gradingPolicy)) == DumpGrading(StoredGrading(d.gradingPolicy))
    requires Redact(sensitive, DumpPolicy(d.supervisorPolicy)) == DumpPolicy(d.supervisorPolicy)
    ensures DefinitionMaps(v => Redact(sensitive, v), d, Stored(sensitive, d))
  {
    RedactTextList(sensitive, d.graderIds);
  }

  /** Redacting the dump is dumping the stored definition. */
  lemma DumpStored(sensitive: set<string>, d: RunDefinition)
    requires FieldsPass(sensitive) && Unfiled(sensitive, d)
    ensures Redact(sensitive, Dump(d)) == Dump(Stored(sensitive, d))
  {
    var e := Stored(sensitive, d);
    var m := map field | field in DEFINITION_FIELDS :: DefinitionField(d, field);
    var n := map field | field in DEFINITION_FIELDS :: DefinitionField(e, field);
    RedactBundle(sensitive, d.agentBundle);
    RedactGrading(sensitive, d.gradingPolicy);
    RedactPolicy(sensitive, d.supervisorPolicy);
    StoredMaps(sensitive, d);
    forall k | k in m ensures Redact(sensitive, m[k]) == n[k] {
      DefinitionFieldMaps(v => Redact(sensitive, v), d, e, k);
    }
    RedactDict(sensitive, m, n);
  }

  // ----- Which definitions survive -----

  lemma NonEmptySub(p: Pattern, word: bool, s: string)
    requires s != ""
    ensures Sub(p, word, s) != ""
  {
  }

  lemma NonEmptyText(s: string)
    requires s != ""
    ensures RedactText(s) != ""
  {
    NonEmptySub(BearerToken, false, s);
    NonEmptySub(ApiKey, false, Sub(BearerToken, false, s));
  }

  lemma StoredIsDeclared(sensitive: set<string>, d: RunDefinition)
    requires Declared(d) && Survives(sensitive, d)
    ensures Declared(Stored(sensitive, d))
  {
    NonEmptyText(d.goal);
    NonEmptyText(d.harnessId);
    NonEmptyText(d.role);
    NonEmptyText(d.agentBundle.name);
    NonEmptyText(d.agentBundle.systemPrompt);
  }

  lemma FieldRedacted(sensitive: set<string>, v: Value, field: string)
    requires v.Dict? && field in v.fields && !Sensitive(sensitive, field)
    ensures Get(Redact(sensitive, v), field) == Redact(sensitive, Get(v, field))
  {
  }

  lemma FiledWeights(sensitive: set<string>, p: GradingPolicy)
    requires NoneSensitive(sensitive, GRADING_FIELDS) && !NoneSensitive(sensitive, p.graderWeights.Keys)
    ensures !GradingOk(Redact(sensitive, DumpGrading(p)))
  {
    GradingFields(p);
    var v := DumpGrading(p);
    FieldRedacted(sensitive, v, "grader_weights");
    var k :| k in p.graderWeights.Keys && Sensitive(sensitive, k);
    assert Redact(sensitive, NumberMap(p.graderWeights)).fields[k] == Str(REPLACEMENT);
  }

  lemma FiledServers(sensitive: set<string>, b: AgentBundle)
    requires NoneSensitive(sensitive, BUNDLE_FIELDS) && !NoneSensitive(sensitive, b.mcpServers.Keys)
    ensures !BundleOk(Redact(sensitive, DumpBundle(b)))
  {
    BundleFields(b);
    var v := DumpBundle(b);
    FieldRedacted(sensitive, v, "mcp_servers");
    var k :| k in b.mcpServers.Keys && Sensitive(sensitive, k);
    assert Redact(sensitive, ObjectMap(b.mcpServers)).fields[k] == Str(REPLACEMENT);
  }

  lemma FiledIsRefused(sensitive: set<string>, d: RunDefinition)
    requires FieldsPass(sensitive) && !Unfiled(sensitive, d)
    ensures ReadBack(Redact(sensitive, Dump(d))) == None
  {
    DefinitionFields(d);
    FieldRedacted(sensitive, Dump(d), "agent_bundle");
    FieldRedacted(sensitive, Dump(d), "grading_policy");
    if !NoneSensitive(sensitive, d.gradingPolicy.graderWeights.Keys) {
      FiledWeights(sensitive, d.gradingPolicy);
    } else {
      FiledServers(sensitive, d.agentBundle);
    }
  }

  /** A definition whose stored form the models would not accept. */
  lemma OutgrownIsRefused(d: RunDefinition)
    requires !Distinct(d.graderIds) || |d.harnessId| > 128 || |d.role| > 128 || |d.agentBundle.name| > 128
    ensures ReadBack(Dump(d)) == None
  {
    DefinitionFields(d);
    BundleFields(d.agentBundle);
    ReadList(d.graderIds);
  }

  lemma SurvivorIsRead(sensitive: set<string>, d: RunDefinition)
    requires FieldsPass(sensitive) && Declared(d) && Survives(sensitive, d)
    ensures ReadBack(Redact(sensitive, Dump(d))) == Some(Stored(sensitive, d))
  {
    DumpStored(sensitive, d);
    StoredIsDeclared(sensitive, d);
    ReadDump(Stored(sensitive, d));
  }

  lemma CasualtyIsRefused(sensitive: set<string>, d: RunDefinition)
    requires FieldsPass(sensitive) && Unfiled(sensitive, d) && !Survives(sensitive, d)
    ensures ReadBack(Redact(sensitive, Dump(d))) == None
  {
    DumpStored(sensitive, d);
    OutgrownIsRefused(Stored(sensitive, d));
  }

  /** Replay accepts what `create_run` stored exactly if the definition survives redaction, and then shows the
      stored definition. */
  lemma StoredExactly(sensitive: set<string>, d: RunDefinition)
    requires FieldsPass(sensitive) && Declared(d)
    ensures ReadBack(Redact(sensitive, Dump(d))) == if Survives(sensitive, d) then Some(Stored(sensitive, d)) else None
  {
    if !Unfiled(sensitive, d) {
      FiledIsRefused(sensitive, d);
    } else if Survives(sensitive, d) {
      SurvivorIsRead(sensitive, d);
    } else {
      CasualtyIsRefused(sensitive, d);
    }
  }

  /** A stored definition is stored as itself, so what a child takes from its parent is stored unchanged. */
  lemma StoredIsFixed(sensitive: set<string>, d: RunDefinition)
    requires FieldsPass(sensitive) && Declared(d) && Survives(sensitive, d)
    ensures var s := Stored(sensitive, d); Declared(s) && Survives(sensitive, s) && Stored(sensitive, s) == s
  {
    var s := Stored(sensitive, d);
    StoredIsDeclared(sensitive, d);
    DumpStored(sensitive, d);
    RedactIdempotent(sensitive, Dump(d));
    ReadDump(s);
    StoredExactly(sensitive, s);
  }

  lemma StoredGradingIsFixed(p: GradingPolicy)
    ensures StoredGrading(StoredGrading(p)) == StoredGrading(p)
  {
    forall i | 0 <= i < |p.requiredConstraints|
      ensures RedactText(RedactText(p.requiredConstraints[i])) == RedactText(p.requiredConstraints[i])
    {
      RedactTextIsClean(p.requiredConstraints[i]);
      RedactTextFixed(RedactText(p.requiredConstraints[i]));
    }
    assert RedactList(RedactList(p.requiredConstraints)) == RedactList(p.requiredConstraints);
  }

  /** The event that `create_run` appends, as replay reads it. */
  function Creation(sensitive: set<string>, d: RunDefinition): Event {
    if Survives(sensitive, d) then RunCreated(Stored(sensitive, d), true) else RunCreated(d, false)
  }

  /** It is what dumping, redacting and validating make of the definition. */
  lemma CreationExactly(sensitive: set<string>, d: RunDefinition)
    requires FieldsPass(sensitive) && Declared(d)
    ensures Creation(sensitive, d) == match ReadBack(Redact(sensitive, Dump(d)))
      case Some(stored) => RunCreated(stored, true)
      case None => RunCreated(d, false)
  {
    StoredExactly(sensitive, d);
  }
}
