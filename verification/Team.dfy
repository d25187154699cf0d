/**
 Child runs (application/team.py, domain/team.py).

 A world holds the stream of every run; `spawnedBy` records, for the statements only, which run spawned
 which, also when recording the new member failed. Runs created directly may claim any parent and depth.
 */
module Team {
  import opened Json
  import opened Models
  import opened Runs
  import opened Redaction
  import opened Definitions

  // ----- Replaying the team of a run -----

  datatype MemberStatus = MemberCreated | MemberDone | MemberBroken

  datatype Standing = Standing(member: TeamMember, status: MemberStatus)

  datatype TeamContext = TeamContext(teamId: Id, members: map<Id, Standing>)

  /** The first team created on the stream. */
  function TeamIdOf(log: seq<Event>): Option<Id> {
    if log == [] then None
    else
      var last := log[|log| - 1];
      match TeamIdOf(log[..|log| - 1])
      case Some(id) => Some(id)
      case None => if last.TeamCreated? then Some(last.teamId) else None
  }

  function MemberStep(members: map<Id, Standing>, e: Event): map<Id, Standing> {
    match e
    case MemberSpawned(member) => members[member.runId := Standing(member, MemberCreated)]
    case MemberCompleted(run) => if run in members then members[run := members[run].(status := MemberDone)] else members
    case MemberFailed(run) => if run in members then members[run := members[run].(status := MemberBroken)] else members
    case _ => members
  }

  function Members(log: seq<Event>): map<Id, Standing> {
    if log == [] then map[] else MemberStep(Members(log[..|log| - 1]), log[|log| - 1])
  }

  /** No context when no team was created. */
  function ContextOf(log: seq<Event>): Option<TeamContext> {
    match TeamIdOf(log) case None => None case Some(id) => Some(TeamContext(id, Members(log)))
  }

  method ReplayTeam(events: seq<Event>) returns (r: Option<TeamContext>)
    ensures r == ContextOf(events)
  {
    var created := FirstTeam(events);
    if created.None? { return None; }
    var members: map<Id, Standing> := map[];
    for i := 0 to |events|
      invariant members == Members(events[..i])
    {
      var event := events[i];
      if event.MemberSpawned? {
        members := members[event.member.runId := Standing(event.member, MemberCreated)];
      } else if event.MemberCompleted? {
        if event.runId in members { members := members[event.runId := members[event.runId].(status := MemberDone)]; }
      } else if event.MemberFailed? {
        if event.runId in members { members := members[event.runId := members[event.runId].(status := MemberBroken)]; }
      }
      assert events[..i + 1][..i] == events[..i];
    }
    assert events[..|events|] == events;
    r := Some(TeamContext(created.value, members));
  }

  method FirstTeam(events: seq<Event>) returns (r: Option<Id>)
    ensures r == TeamIdOf(events)
  {
    for i := 0 to |events|
      invariant TeamIdOf(events[..i]) == None
    {
      assert events[..i + 1][..i] == events[..i];
      if events[i].TeamCreated? {
        TeamIsFirst(events, i + 1);
        return Some(events[i].teamId);
      }
    }
    assert events[..|events|] == events;
    r := None;
  }

  /** Once a team was created, later events do not change it. */
  lemma {:induction false} TeamIsFirst(log: seq<Event>, n: nat)
    requires n <= |log| && TeamIdOf(log[..n]).Some?
    ensures TeamIdOf(log) == TeamIdOf(log[..n])
  {
    if n == |log| {
      assert log[..n] == log;
    } else {
      assert log[..|log| - 1][..n] == log[..n];
      TeamIsFirst(log[..|log| - 1], n);
    }
  }

  // ----- Spawning -----

  datatype ChildSpec = ChildSpec(
    role: string,
    goal: string,
    harnessId: Option<string>,
    agentBundle: Option<AgentBundle>,
    graderIds: Option<seq<string>>,
    metadata: map<string, string>)

  /** What is registered, and the sensitive keys of the redaction policy. */
  datatype Registry = Registry(harnesses: set<string>, graders: set<string>, sensitive: set<string>)

  datatype World = World(logs: map<Id, seq<Event>>, spawnedBy: map<Id, Id>)

  datatype SpawnError =
    | NoSuchParent | TooManySubagents | TooDeep | InvalidDefinition | CreationFailed | AppendFailed | StartRefused

  /** The appends of one `spawn`, any of which the event store may refuse. */
  datatype Stage = TeamStage | RequestStage | CreationStage | FailureStage | RecordStage

  /** A stream as `create_run` begins it: a grading policy that replay shows is stored unchanged once more. */
  predicate Founded(log: seq<Event>) {
    && log != [] && log[0].RunCreated?
    && (log[0].intact ==> StoredGrading(log[0].definition.gradingPolicy) == log[0].definition.gradingPolicy)
  }

  function Definition(log: seq<Event>): RunDefinition
    requires log != [] && log[0].RunCreated?
  {
    log[0].definition
  }

  function ChildDefinition(parent: Id, d: RunDefinition, team: Id, spec: ChildSpec): RunDefinition {
    RunDefinition(
      spec.goal,
      if spec.harnessId.Some? && spec.harnessId.value != "" then spec.harnessId.value else d.harnessId,
      spec.agentBundle.UnwrapOr(d.agentBundle),
      if spec.agentBundle.Some? then None else d.agentVersionId,
      if spec.graderIds.Some? && spec.graderIds.value != [] then spec.graderIds.value else d.graderIds,
      d.gradingPolicy,
      d.supervisorPolicy,
      Some(parent),
      Some(team),
      spec.role,
      d.depth + 1,
      d.metadata + map k | k in spec.metadata :: Str(spec.metadata[k]))
  }

  predicate Registered(registry: Registry, d: RunDefinition) {
    d.harnessId in registry.harnesses && forall g | g in d.graderIds :: g in registry.graders
  }

  function Extend(w: World, run: Id, e: Event): World
    requires run in w.logs
  {
    w.(logs := w.logs[run := w.logs[run] + [e]])
  }

  function AddChild(w: World, parent: Id, child: Id, creation: Event): World {
    World(w.logs[child := [creation]], w.spawnedBy[child := parent])
  }

  /** Count of members; a stream without a team has none. */
  function MemberCount(log: seq<Event>): nat {
    match ContextOf(log) case None => 0 case Some(context) => |context.members|
  }

  function WithTeam(w: World, parent: Id, team: Id): World
    requires parent in w.logs
  {
    if TeamIdOf(w.logs[parent]).Some? then w else Extend(w, parent, TeamCreated(team))
  }

  /** Once the request is on the parent's stream. */
  function CreateMember(
      registry: Registry, w: World, parent: Id, d: RunDefinition, role: string, goal: string, child: Id,
      faults: set<Stage>)
    : (World, Result<Id, SpawnError>)
    requires parent in w.logs && child != parent
  {
    if !Declared(d) then (w, Err(InvalidDefinition))
    else if !Registered(registry, d) || CreationStage in faults then
      if FailureStage in faults then (w, Err(AppendFailed))
      else (Extend(w, parent, MemberSpawnFailed(child)), Err(CreationFailed))
    else
      var created := AddChild(w, parent, child, Creation(registry.sensitive, d));
      if RecordStage in faults then (created, Err(AppendFailed))
      else (Extend(created, parent, MemberSpawned(TeamMember(child, RedactText(role), RedactText(goal)))), Ok(child))
  }

  /** From the guards on; the team exists. */
  function SpawnMember(
      registry: Registry, w: World, parent: Id, count: nat, team: Id, spec: ChildSpec, child: Id, faults: set<Stage>)
    : (World, Result<Id, SpawnError>)
    requires parent in w.logs && w.logs[parent] != [] && w.logs[parent][0].RunCreated? && child != parent
  {
    var d := Definition(w.logs[parent]);
    if count >= d.supervisorPolicy.maxSubagents then (w, Err(TooManySubagents))
    else if d.depth >= d.supervisorPolicy.maxSubagentDepth then (w, Err(TooDeep))
    else if RequestStage in faults then (w, Err(AppendFailed))
    else CreateMember(registry, Extend(w, parent, MemberSpawnRequested(child)), parent,
                      ChildDefinition(parent, d, team, spec), spec.role, spec.goal, child, faults)
  }

  function Spawn(registry: Registry, w: World, parent: Id, spec: ChildSpec, newTeam: Id, child: Id, faults: set<Stage>)
    : (World, Result<Id, SpawnError>)
    requires child != parent
  {
    if parent !in w.logs || GetRun(w.logs[parent]).Err? then (w, Err(NoSuchParent))
    else
      var log := w.logs[parent];
      if TeamIdOf(log).None? && TeamStage in faults then (w, Err(AppendFailed))
      else SpawnMember(registry, WithTeam(w, parent, newTeam), parent, MemberCount(log),
                       TeamIdOf(log).UnwrapOr(newTeam), spec, child, faults)
  }

  class TeamCoordinator {
    const registry: Registry
    var logs: map<Id, seq<Event>>
    ghost var spawnedBy: map<Id, Id>

    ghost function State(): World
      reads this
    {
      World(logs, spawnedBy)
    }

    constructor (registry: Registry)
      ensures this.registry == registry && State() == World(map[], map[])
    {
      this.registry := registry;
      logs, spawnedBy := map[], map[];
    }

    /** One append to the stream of an existing run, which the store may refuse. */
    method AppendControlEvent(run: Id, event: Event, refused: bool) returns (ok: bool)
      requires run in logs
      modifies this`logs
      ensures ok == !refused && State() == if ok then Extend(old(State()), run, event) else old(State())
    {
      ok := !refused;
      if ok { logs := logs[run := logs[run] + [event]]; }
    }

    /** The engine's `create_run` under a fresh id. */
    method CreateRun(id: Id, definition: RunDefinition, refused: bool) returns (ok: bool)
      requires id !in logs
      modifies this`logs
      ensures ok == (Registered(registry, definition) && !refused)
      ensures logs == if ok then old(logs)[id := [Creation(registry.sensitive, definition)]] else old(logs)
    {
      ok := definition.harnessId in registry.harnesses
            && (forall g | g in definition.graderIds :: g in registry.graders) && !refused;
      if ok { logs := logs[id := [Creation(registry.sensitive, definition)]]; }
    }

    /** `newTeam` and `child` are the fresh ids the call draws. A child whose start is then refused by the
        task manager stays a member, although the call raises. */
    method SpawnChild(parentRunId: Id, spec: ChildSpec, newTeam: Id, child: Id, faults: set<Stage>, start: bool,
                      startRefused: bool)
      returns (r: Result<Id, SpawnError>, started: bool)
      requires child !in logs && child != parentRunId
      modifies this
      ensures var (next, spawned) := Spawn(registry, old(State()), parentRunId, spec, newTeam, child, faults);
        && State() == next
        && started == (spawned.Ok? && start && !startRefused)
        && r == if spawned.Ok? && start && startRefused then Err(StartRefused) else spawned
    {
      started := false;
      r := SpawnMemberRun(parentRunId, spec, newTeam, child, faults);
      if r.Ok? && start {
        if startRefused { return Err(StartRefused), false; }
        started := true;
      }
    }

    method SpawnMemberRun(parentRunId: Id, spec: ChildSpec, newTeam: Id, child: Id, faults: set<Stage>)
      returns (r: Result<Id, SpawnError>)
      requires child !in logs && child != parentRunId
      modifies this
      ensures (State(), r) == Spawn(registry, old(State()), parentRunId, spec, newTeam, child, faults)
    {
      if parentRunId !in logs { return Err(NoSuchParent); }
      var loaded := LoadRun(logs[parentRunId]);
      if loaded.Err? { return Err(NoSuchParent); }
      var parent := loaded.value;
      ReplayVersion(logs[parentRunId]);
      var context := ReplayTeam(logs[parentRunId]);
      var teamId, memberCount;
      if context.Some? {
        teamId, memberCount := context.value.teamId, |context.value.members|;
      } else {
        teamId, memberCount := newTeam, 0;
        var ok := AppendControlEvent(parentRunId, TeamCreated(teamId), TeamStage in faults);
        if !ok { return Err(AppendFailed); }
      }
      r := SpawnInTeam(parentRunId, parent.definition, memberCount, teamId, spec, child, faults);
    }

    method SpawnInTeam(
        parentRunId: Id, definition: RunDefinition, memberCount: nat, teamId: Id, spec: ChildSpec, child: Id,
        faults: set<Stage>)
      returns (r: Result<Id, SpawnError>)
      requires parentRunId in logs && logs[parentRunId] != [] && logs[parentRunId][0].RunCreated?
      requires definition == Definition(logs[parentRunId])
      requires child !in logs && child != parentRunId
      modifies this
      ensures (State(), r) == SpawnMember(registry, old(State()), parentRunId, memberCount, teamId, spec, child, faults)
    {
      var policy := definition.supervisorPolicy;
      if memberCount >= policy.maxSubagents { return Err(TooManySubagents); }
      if definition.depth >= policy.maxSubagentDepth { return Err(TooDeep); }
      var ok := AppendControlEvent(parentRunId, MemberSpawnRequested(child), RequestStage in faults);
      if !ok { return Err(AppendFailed); }
      var childDefinition := ChildDefinition(parentRunId, definition, teamId, spec);
      if !Declared(childDefinition) { return Err(InvalidDefinition); }
      ok := CreateRun(child, childDefinition, CreationStage in faults);
      if !ok {
        ok := AppendControlEvent(parentRunId, MemberSpawnFailed(child), FailureStage in faults);
        return Err(if ok then CreationFailed else AppendFailed);
      }
      spawnedBy := spawnedBy[child := parentRunId];
      var member := TeamMember(child, RedactText(spec.role), RedactText(spec.goal));
      ok := AppendControlEvent(parentRunId, MemberSpawned(member), RecordStage in faults);
      if !ok { return Err(AppendFailed); }
      r := Ok(child);
    }
  }
}
