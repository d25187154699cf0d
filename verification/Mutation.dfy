/** Guarded mutation of agent bundles (evolution/mutator.py). */
module Mutation {
  import opened Json
  import opened Models

  datatype Component =
    | SystemPrompt | Skills | McpServers
    | ToolPolicy | ModelConfig | ContextConfig | MemoryConfig | WorkflowConfig

  datatype MutationPlan = MutationPlan(
    systemPrompt: Option<string>,
    skillsUpsert: map<string, string>,
    skillsRemove: seq<string>,
    mcpServersUpsert: map<string, Object>,
    mcpServersRemove: seq<string>,
    toolPolicyPatch: Object,
    modelConfigPatch: Object,
    contextPatch: Object,
    memoryPatch: Object,
    workflowPatch: Object)

  datatype MutationError = NotAllowed(components: set<Component>) | NoMutation

  function Allowed(scope: EvolutionScope): set<Component> {
    match scope
    case HintOnly => {}
    case PromptOnly => {SystemPrompt}
    case PromptAndSkills => {SystemPrompt, Skills}
    case FullAgentBundle =>
      {SystemPrompt, Skills, McpServers, ToolPolicy, ModelConfig, ContextConfig, MemoryConfig, WorkflowConfig}
  }

  lemma EveryComponentIsAllowed(c: Component)
    ensures c in Allowed(FullAgentBundle)
  {
    match c { case SystemPrompt => case _ => }
  }

  // ----- What the plan touches -----

  predicate Touched(plan: MutationPlan, c: Component) {
    match c
    case SystemPrompt => plan.systemPrompt.Some?
    case Skills => plan.skillsUpsert != map[] || plan.skillsRemove != []
    case McpServers => plan.mcpServersUpsert != map[] || plan.mcpServersRemove != []
    case ToolPolicy => plan.toolPolicyPatch != map[]
    case ModelConfig => plan.modelConfigPatch != map[]
    case ContextConfig => plan.contextPatch != map[]
    case MemoryConfig => plan.memoryPatch != map[]
    case WorkflowConfig => plan.workflowPatch != map[]
  }

  function Position(c: Component): (n: nat)
    ensures n < 8
  {
    match c
    case SystemPrompt => 0
    case Skills => 1
    case McpServers => 2
    case ToolPolicy => 3
    case ModelConfig => 4
    case ContextConfig => 5
    case MemoryConfig => 6
    case WorkflowConfig => 7
  }

  /** `changes` lists the touched components before position `n`, in order and each of them once. */
  predicate Lists(plan: MutationPlan, changes: seq<Component>, n: nat) {
    && (forall c :: c in changes <==> Touched(plan, c) && Position(c) < n)
    && (forall i, j | 0 <= i < j < |changes| :: Position(changes[i]) < Position(changes[j]))
  }

  lemma ListsNext(plan: MutationPlan, changes: seq<Component>, n: nat, c: Component)
    requires Lists(plan, changes, n) && Position(c) == n
    ensures Lists(plan, if Touched(plan, c) then changes + [c] else changes, n + 1)
  {
    assert forall d :: Position(d) == n ==> d == c;
    assert forall i | 0 <= i < |changes| :: changes[i] in changes;
  }

  method ChangedComponents(plan: MutationPlan) returns (changes: seq<Component>)
    ensures Lists(plan, changes, 8)
  {
    changes := AddDirect(plan);
    changes := AddPatched(plan, changes);
  }

  method AddDirect(plan: MutationPlan) returns (changes: seq<Component>)
    ensures Lists(plan, changes, 3)
  {
    changes := [];
    if plan.systemPrompt.Some? { changes := changes + [SystemPrompt]; }
    if plan.skillsUpsert != map[] || plan.skillsRemove != [] { changes := changes + [Skills]; }
    if plan.mcpServersUpsert != map[] || plan.mcpServersRemove != [] { changes := changes + [McpServers]; }
    assert forall c :: Position(c) < 3 <==> c in {SystemPrompt, Skills, McpServers};
  }

  method AddPatched(plan: MutationPlan, head: seq<Component>) returns (changes: seq<Component>)
    requires Lists(plan, head, 3)
    ensures Lists(plan, changes, 8)
  {
    changes := head;
    var patches := [
      (ToolPolicy, plan.toolPolicyPatch),
      (ModelConfig, plan.modelConfigPatch),
      (ContextConfig, plan.contextPatch),
      (MemoryConfig, plan.memoryPatch),
      (WorkflowConfig, plan.workflowPatch)];
    for i := 0 to |patches|
      invariant Lists(plan, changes, 3 + i)
    {
      var (component, patch) := patches[i];
      ListsNext(plan, changes, 3 + i, component);
      if patch != map[] { changes := changes + [component]; }
    }
  }

  // ----- Deep merge -----

  function Merge(base: Object, patch: Object): Object
    decreases Dict(patch)
  {
    map k | k in base.Keys + patch.Keys ::
      if k !in patch then base[k]
      else if patch[k].Dict? && k in base && base[k].Dict? then Dict(Merge(base[k].fields, patch[k].fields))
      else patch[k]
  }

  method DeepMerge(base: Object, patch: Object) returns (merged: Object)
    ensures merged == Merge(base, patch)
    decreases Dict(patch)
  {
    merged := base;
    var todo := patch.Keys;
    while todo != {}
      invariant todo <= patch.Keys
      invariant merged.Keys == base.Keys + (patch.Keys - todo)
      invariant forall k | k in merged :: merged[k] == if k in todo then base[k] else Merge(base, patch)[k]
      decreases todo
    {
      var key :| key in todo;
      var value := patch[key];
      if value.Dict? && key in merged && merged[key].Dict? {
        var inner := DeepMerge(merged[key].fields, value.fields);
        merged := merged[key := Dict(inner)];
      } else {
        merged := merged[key := value];
      }
      todo := todo - {key};
    }
  }

  function Names(names: seq<string>): set<string> { set name | name in names }

  /** Remove the listed names, then insert or replace the given entries. */
  function RemoveThenUpsert<V>(entries: map<string, V>, remove: seq<string>, upsert: map<string, V>): map<string, V> {
    (entries - Names(remove)) + upsert
  }

  method ApplyRemovals<V>(entries: map<string, V>, remove: seq<string>) returns (kept: map<string, V>)
    ensures kept == entries - Names(remove)
  {
    kept := entries;
    for i := 0 to |remove|
      invariant kept == entries - Names(remove[..i])
    {
      kept := kept - {remove[i]};
      assert Names(remove[..i + 1]) == Names(remove[..i]) + {remove[i]};
    }
    assert remove[..|remove|] == remove;
  }

  // ----- Applying a plan -----

  /** The five configurations are deep-merged. */
  function Patched(parent: AgentBundle, plan: MutationPlan): AgentBundle {
    parent.(
      toolPolicy := Merge(parent.toolPolicy, plan.toolPolicyPatch),
      modelConfig := Merge(parent.modelConfig, plan.modelConfigPatch),
      contextConfig := Merge(parent.contextConfig, plan.contextPatch),
      memoryConfig := Merge(parent.memoryConfig, plan.memoryPatch),
      workflowConfig := Merge(parent.workflowConfig, plan.workflowPatch))
  }

  /** An empty prompt in the plan keeps the parent's. */
  function Prompt(parent: AgentBundle, plan: MutationPlan): string {
    if plan.systemPrompt.Some? && plan.systemPrompt.value != "" then plan.systemPrompt.value else parent.systemPrompt
  }

  function Mutate(parent: AgentBundle, plan: MutationPlan): AgentBundle {
    Patched(parent, plan).(
      systemPrompt := Prompt(parent, plan),
      skills := RemoveThenUpsert(parent.skills, plan.skillsRemove, plan.skillsUpsert),
      mcpServers := RemoveThenUpsert(parent.mcpServers, plan.mcpServersRemove, plan.mcpServersUpsert))
  }

  function Disallowed(parent: AgentBundle, plan: MutationPlan): set<Component> {
    set c | c in Allowed(FullAgentBundle) && Touched(plan, c) && c !in Allowed(parent.scope)
  }

  function Outcome(parent: AgentBundle, plan: MutationPlan): Result<AgentBundle, MutationError> {
    if Disallowed(parent, plan) != {} then Err(NotAllowed(Disallowed(parent, plan)))
    else if Mutate(parent, plan) == parent then Err(NoMutation)
    else Ok(Mutate(parent, plan))
  }

  method Upserted<V>(entries: map<string, V>, remove: seq<string>, upsert: map<string, V>) returns (r: map<string, V>)
    ensures r == RemoveThenUpsert(entries, remove, upsert)
  {
    r := ApplyRemovals(entries, remove);
    r := r + upsert;
  }

  method Candidate(parent: AgentBundle, plan: MutationPlan) returns (candidate: AgentBundle)
    ensures candidate == Mutate(parent, plan)
  {
    var skills := Upserted(parent.skills, plan.skillsRemove, plan.skillsUpsert);
    var mcpServers := Upserted(parent.mcpServers, plan.mcpServersRemove, plan.mcpServersUpsert);
    var patched := PatchConfigs(parent, plan);
    candidate := patched.(systemPrompt := Prompt(parent, plan), skills := skills, mcpServers := mcpServers);
  }

  method PatchConfigs(parent: AgentBundle, plan: MutationPlan) returns (patched: AgentBundle)
    ensures patched == Patched(parent, plan)
  {
    var toolPolicy := DeepMerge(parent.toolPolicy, plan.toolPolicyPatch);
    var modelConfig := DeepMerge(parent.modelConfig, plan.modelConfigPatch);
    var contextConfig := DeepMerge(parent.contextConfig, plan.contextPatch);
    var memoryConfig := DeepMerge(parent.memoryConfig, plan.memoryPatch);
    var workflowConfig := DeepMerge(parent.workflowConfig, plan.workflowPatch);
    patched := parent.(toolPolicy := toolPolicy, modelConfig := modelConfig, contextConfig := contextConfig,
                       memoryConfig := memoryConfig, workflowConfig := workflowConfig);
  }

  method Apply(parent: AgentBundle, plan: MutationPlan) returns (r: Result<AgentBundle, MutationError>)
    ensures r == Outcome(parent, plan)
  {
    var changes := ChangedComponents(plan);
    var disallowed := set c | c in changes && c !in Allowed(parent.scope);
    assert disallowed == Disallowed(parent, plan) by {
      forall c: Component ensures c in Allowed(FullAgentBundle) { EveryComponentIsAllowed(c); }
    }
    if disallowed != {} { return Err(NotAllowed(disallowed)); }
    var candidate := Candidate(parent, plan);
    r := if candidate == parent then Err(NoMutation) else Ok(candidate);
  }

  // ----- Deep merge as an overlay of leaves -----

  /** The value that is no dictionary at the end of `path`, if there is one. */
  function LeafAt(o: Object, path: seq<string>): Option<Value>
    decreases |path|
  {
    if path == [] || path[0] !in o then None
    else if |path| == 1 then if o[path[0]].Dict? then None else Some(o[path[0]])
    else if o[path[0]].Dict? then LeafAt(o[path[0]].fields, path[1..])
    else None
  }

  /** Does the patch say anything about `path`: a value there, or a leaf on the way? */
  predicate Decides(patch: Object, path: seq<string>)
    decreases |path|
  {
    path != [] && path[0] in patch &&
    (|path| == 1 || !patch[path[0]].Dict? || Decides(patch[path[0]].fields, path[1..]))
  }

  lemma {:induction false} UndecidedHasNoLeaf(patch: Object, path: seq<string>)
    requires !Decides(patch, path)
    ensures LeafAt(patch, path) == None
    decreases |path|
  {
    if |path| > 1 && path[0] in patch && patch[path[0]].Dict? {
      UndecidedHasNoLeaf(patch[path[0]].fields, path[1..]);
    }
  }

  /** Every leaf of the merge is the patch's where the patch decides, and the base's elsewhere. */
  lemma {:induction false} MergeIsOverlay(base: Object, patch: Object, path: seq<string>)
    ensures LeafAt(Merge(base, patch), path)
         == if Decides(patch, path) then LeafAt(patch, path) else LeafAt(base, path)
    decreases |path|
  {
    if |path| > 1 && path[0] in patch && patch[path[0]].Dict? {
      var k := path[0];
      UndecidedOrNot(patch[k].fields, path[1..]);
      if k in base && base[k].Dict? {
        MergeIsOverlay(base[k].fields, patch[k].fields, path[1..]);
      }
    }
  }

  lemma UndecidedOrNot(patch: Object, path: seq<string>)
    ensures Decides(patch, path) || LeafAt(patch, path) == None
  {
    if !Decides(patch, path) { UndecidedHasNoLeaf(patch, path); }
  }

  // ----- Applying a plan twice -----

  lemma {:induction false} MergeSelf(patch: Object)
    ensures Merge(patch, patch) == patch
    decreases Dict(patch)
  {
    forall k | k in patch && patch[k].Dict? ensures Merge(patch, patch)[k] == patch[k] {
      MergeSelf(patch[k].fields);
    }
  }

  lemma {:induction false} MergeIdempotent(base: Object, patch: Object)
    ensures Merge(Merge(base, patch), patch) == Merge(base, patch)
    decreases Dict(patch)
  {
    var once := Merge(base, patch);
    forall k | k in patch && patch[k].Dict? ensures Merge(once, patch)[k] == once[k] {
      if k in base && base[k].Dict? {
        MergeIdempotent(base[k].fields, patch[k].fields);
      } else {
        MergeSelf(patch[k].fields);
      }
    }
  }

  lemma UpsertIdempotent<V>(entries: map<string, V>, remove: seq<string>, upsert: map<string, V>)
    ensures var once := RemoveThenUpsert(entries, remove, upsert);
            RemoveThenUpsert(once, remove, upsert) == once
  {
  }

  lemma MutateIdempotent(parent: AgentBundle, plan: MutationPlan)
    ensures Mutate(Mutate(parent, plan), plan) == Mutate(parent, plan)
  {
    UpsertIdempotent(parent.skills, plan.skillsRemove, plan.skillsUpsert);
    UpsertIdempotent(parent.mcpServers, plan.mcpServersRemove, plan.mcpServersUpsert);
    MergeIdempotent(parent.toolPolicy, plan.toolPolicyPatch);
    MergeIdempotent(parent.modelConfig, plan.modelConfigPatch);
    MergeIdempotent(parent.contextConfig, plan.contextPatch);
    MergeIdempotent(parent.memoryConfig, plan.memoryPatch);
    MergeIdempotent(parent.workflowConfig, plan.workflowPatch);
  }

  /** An accepted plan has nothing left to do on its own result. */
  lemma AcceptedPlanIsSpent(parent: AgentBundle, plan: MutationPlan)
    requires Outcome(parent, plan).Ok?
    ensures Outcome(Outcome(parent, plan).value, plan) == Err(NoMutation)
  {
    MutateIdempotent(parent, plan);
    assert Disallowed(Mutate(parent, plan), plan) == Disallowed(parent, plan);
  }

  // ----- Frame and permissions -----

  /** A component of a bundle, as a value that can be compared. */
  datatype Part = Text(t: string) | Table(s: map<string, string>) | Servers(m: map<string, Object>) | Config(o: Object)

  function ComponentOf(b: AgentBundle, c: Component): Part {
    match c
    case SystemPrompt => Text(b.systemPrompt)
    case Skills => Table(b.skills)
    case McpServers => Servers(b.mcpServers)
    case ToolPolicy => Config(b.toolPolicy)
    case ModelConfig => Config(b.modelConfig)
    case ContextConfig => Config(b.contextConfig)
    case MemoryConfig => Config(b.memoryConfig)
    case WorkflowConfig => Config(b.workflowConfig)
  }

  lemma MergeNothing(base: Object)
    ensures Merge(base, map[]) == base
  {
  }

  lemma UpsertNothing<V>(entries: map<string, V>)
    ensures RemoveThenUpsert(entries, [], map[]) == entries
  {
  }

  /** The part that a plan makes of a component. */
  function PartAfter(parent: AgentBundle, plan: MutationPlan, c: Component): Part {
    match c
    case SystemPrompt => Text(Prompt(parent, plan))
    case Skills => Table(RemoveThenUpsert(parent.skills, plan.skillsRemove, plan.skillsUpsert))
    case McpServers => Servers(RemoveThenUpsert(parent.mcpServers, plan.mcpServersRemove, plan.mcpServersUpsert))
    case ToolPolicy => Config(Merge(parent.toolPolicy, plan.toolPolicyPatch))
    case ModelConfig => Config(Merge(parent.modelConfig, plan.modelConfigPatch))
    case ContextConfig => Config(Merge(parent.contextConfig, plan.contextPatch))
    case MemoryConfig => Config(Merge(parent.memoryConfig, plan.memoryPatch))
    case WorkflowConfig => Config(Merge(parent.workflowConfig, plan.workflowPatch))
  }

  lemma PartsOfMutation(parent: AgentBundle, plan: MutationPlan, c: Component)
    ensures ComponentOf(Mutate(parent, plan), c) == PartAfter(parent, plan, c)
  {
  }

  lemma UntouchedStays(parent: AgentBundle, plan: MutationPlan, c: Component)
    requires !Touched(plan, c)
    ensures ComponentOf(Mutate(parent, plan), c) == ComponentOf(parent, c)
  {
    PartsOfMutation(parent, plan, c);
    match c
    case SystemPrompt =>
    case Skills => UpsertNothing(parent.skills);
    case McpServers => UpsertNothing(parent.mcpServers);
    case ToolPolicy => MergeNothing(parent.toolPolicy);
    case ModelConfig => MergeNothing(parent.modelConfig);
    case ContextConfig => MergeNothing(parent.contextConfig);
    case MemoryConfig => MergeNothing(parent.memoryConfig);
    case WorkflowConfig => MergeNothing(parent.workflowConfig);
  }

  lemma SameComponentsSameBundle(a: AgentBundle, b: AgentBundle)
    requires a.name == b.name && a.scope == b.scope
    requires forall c :: ComponentOf(a, c) == ComponentOf(b, c)
    ensures a == b
  {
    assert ComponentOf(a, SystemPrompt) == ComponentOf(b, SystemPrompt);
    assert ComponentOf(a, Skills) == ComponentOf(b, Skills);
    assert ComponentOf(a, McpServers) == ComponentOf(b, McpServers);
    assert ComponentOf(a, ToolPolicy) == ComponentOf(b, ToolPolicy);
    assert ComponentOf(a, ModelConfig) == ComponentOf(b, ModelConfig);
    assert ComponentOf(a, ContextConfig) == ComponentOf(b, ContextConfig);
    assert ComponentOf(a, MemoryConfig) == ComponentOf(b, MemoryConfig);
    assert ComponentOf(a, WorkflowConfig) == ComponentOf(b, WorkflowConfig);
  }

  /** A plan is refused for its scope exactly when it touches a component outside the scope, and the
      refusal names exactly these components. */
  lemma RefusedIffOutsideScope(parent: AgentBundle, plan: MutationPlan)
    ensures (Outcome(parent, plan).Err? && Outcome(parent, plan).error.NotAllowed?)
       <==> exists c :: Touched(plan, c) && c !in Allowed(parent.scope)
    ensures Outcome(parent, plan).Err? && Outcome(parent, plan).error.NotAllowed? ==>
      forall c :: c in Outcome(parent, plan).error.components <==> Touched(plan, c) && c !in Allowed(parent.scope)
  {
    forall c ensures c in Disallowed(parent, plan) <==> Touched(plan, c) && c !in Allowed(parent.scope) {
      EveryComponentIsAllowed(c);
    }
    if Disallowed(parent, plan) != {} {
      var c :| c in Disallowed(parent, plan);
    }
  }

  /** What an accepted plan may change: only components that the plan touches and the parent's scope
      allows. Name and scope stay, and some component does change. */
  lemma MutationFrame(parent: AgentBundle, plan: MutationPlan)
    requires Outcome(parent, plan).Ok?
    ensures var child := Outcome(parent, plan).value;
      && child.name == parent.name && child.scope == parent.scope
      && (forall c | ComponentOf(child, c) != ComponentOf(parent, c) :: Touched(plan, c) && c in Allowed(parent.scope))
      && exists c :: ComponentOf(child, c) != ComponentOf(parent, c)
  {
    var child := Outcome(parent, plan).value;
    forall c | ComponentOf(child, c) != ComponentOf(parent, c)
      ensures Touched(plan, c) && c in Allowed(parent.scope)
    {
      if !Touched(plan, c) { UntouchedStays(parent, plan, c); }
      RefusedIffOutsideScope(parent, plan);
    }
    if forall c :: ComponentOf(child, c) == ComponentOf(parent, c) {
      SameComponentsSameBundle(child, parent);
    }
  }

  // ----- What an accepted plan says, entry by entry -----

  /** The entry of `name` after `before` lost what was removed and got what was upserted. */
  function EntryAfter<V>(before: map<string, V>, remove: seq<string>, upsert: map<string, V>, name: string): Option<V> {
    if name in upsert then Some(upsert[name])
    else if name in remove || name !in before then None
    else Some(before[name])
  }

  function EntryOf<V>(m: map<string, V>, name: string): Option<V> { if name in m then Some(m[name]) else None }

  lemma EntriesExactly<V>(before: map<string, V>, remove: seq<string>, upsert: map<string, V>, name: string)
    ensures EntryOf(RemoveThenUpsert(before, remove, upsert), name) == EntryAfter(before, remove, upsert, name)
  {
  }

  /** The accepted bundle: a prompt that is given and not empty, for every skill and server the upserted entry,
      else nothing if it was removed, else the parent's, and in every configuration the patch's leaves over the
      parent's. */
  lemma AcceptedPlanSays(parent: AgentBundle, plan: MutationPlan, name: string, path: seq<string>)
    requires Outcome(parent, plan).Ok?
    ensures var child := Outcome(parent, plan).value;
      && child.name == parent.name && child.scope == parent.scope
      && (child.systemPrompt
          == if plan.systemPrompt == None || plan.systemPrompt == Some("") then parent.systemPrompt
             else plan.systemPrompt.value)
      && EntryOf(child.skills, name) == EntryAfter(parent.skills, plan.skillsRemove, plan.skillsUpsert, name)
      && EntryOf(child.mcpServers, name)
         == EntryAfter(parent.mcpServers, plan.mcpServersRemove, plan.mcpServersUpsert, name)
      && Overlaid(parent.toolPolicy, plan.toolPolicyPatch, child.toolPolicy, path)
      && Overlaid(parent.modelConfig, plan.modelConfigPatch, child.modelConfig, path)
      && Overlaid(parent.contextConfig, plan.contextPatch, child.contextConfig, path)
      && Overlaid(parent.memoryConfig, plan.memoryPatch, child.memoryConfig, path)
      && Overlaid(parent.workflowConfig, plan.workflowPatch, child.workflowConfig, path)
  {
    EntriesExactly(parent.skills, plan.skillsRemove, plan.skillsUpsert, name);
    EntriesExactly(parent.mcpServers, plan.mcpServersRemove, plan.mcpServersUpsert, name);
    MergeOverlays(parent.toolPolicy, plan.toolPolicyPatch, path);
    MergeOverlays(parent.modelConfig, plan.modelConfigPatch, path);
    MergeOverlays(parent.contextConfig, plan.contextPatch, path);
    MergeOverlays(parent.memoryConfig, plan.memoryPatch, path);
    MergeOverlays(parent.workflowConfig, plan.workflowPatch, path);
  }

  /** `merged` has the patch's leaf where the patch decides and the base's elsewhere, and all their keys. */
  predicate Overlaid(base: Object, patch: Object, merged: Object, path: seq<string>) {
    && merged.Keys == base.Keys + patch.Keys
    && LeafAt(merged, path) == if Decides(patch, path) then LeafAt(patch, path) else LeafAt(base, path)
  }

  lemma MergeOverlays(base: Object, patch: Object, path: seq<string>)
    ensures Overlaid(base, patch, Merge(base, patch), path)
  {
    MergeIsOverlay(base, patch, path);
  }

  /** A plan asks for a change of the component. */
  predicate AsksFor(plan: MutationPlan, c: Component) {
    || (c == SystemPrompt && plan.systemPrompt != None)
    || (c == Skills && !(|plan.skillsUpsert| == 0 && |plan.skillsRemove| == 0))
    || (c == McpServers && !(|plan.mcpServersUpsert| == 0 && |plan.mcpServersRemove| == 0))
    || (c == ToolPolicy && |plan.toolPolicyPatch| > 0) || (c == ModelConfig && |plan.modelConfigPatch| > 0)
    || (c == ContextConfig && |plan.contextPatch| > 0) || (c == MemoryConfig && |plan.memoryPatch| > 0)
    || (c == WorkflowConfig && |plan.workflowPatch| > 0)
  }

  /** The scopes, from the narrowest: nothing, the prompt, the skills as well, everything. */
  predicate Grants(scope: EvolutionScope, c: Component) {
    || scope == FullAgentBundle
    || (c == SystemPrompt && scope != HintOnly)
    || (c == Skills && scope == PromptAndSkills)
  }

  lemma GrantedExactly(scope: EvolutionScope, c: Component)
    ensures c in Allowed(scope) <==> Grants(scope, c)
  {
    EveryComponentIsAllowed(c);
  }

  lemma AskedExactly(plan: MutationPlan, c: Component)
    ensures Touched(plan, c) <==> AsksFor(plan, c)
  {
  }

  /** A plan is refused for its scope exactly if it asks for something that the parent's scope does not grant,
      and the refusal names just these components; otherwise it is refused exactly if nothing would change. */
  lemma RefusedExactly(parent: AgentBundle, plan: MutationPlan)
    ensures (exists c :: AsksFor(plan, c) && !Grants(parent.scope, c)) <==>
      Outcome(parent, plan).Err? && Outcome(parent, plan).error.NotAllowed?
    ensures Outcome(parent, plan).Err? && Outcome(parent, plan).error.NotAllowed? ==>
      forall c :: c in Outcome(parent, plan).error.components <==> AsksFor(plan, c) && !Grants(parent.scope, c)
    ensures (forall c :: AsksFor(plan, c) ==> Grants(parent.scope, c)) ==>
      Outcome(parent, plan) == if Mutate(parent, plan) == parent then Err(NoMutation) else Ok(Mutate(parent, plan))
  {
    RefusedIffOutsideScope(parent, plan);
    forall c
      ensures (c in Allowed(parent.scope) <==> Grants(parent.scope, c)) && (Touched(plan, c) <==> AsksFor(plan, c))
    {
      GrantedExactly(parent.scope, c);
      AskedExactly(plan, c);
    }
  }
}
