/**
 How many runs `spawn` can create below a run, over every sequence of run creations, spawns with
 arbitrary refused appends, and other appends to any stream.
 */
module TeamBound {
  import opened Json
  import opened Models
  import opened Runs
  import opened Redaction
  import opened Definitions
  import opened Team

  /** `Emit` stands for every other append to a stream: none of them creates a team or a member. */
  datatype Move =
    | Create(id: Id, definition: RunDefinition)
    | Emit(run: Id, event: Event)
    | SpawnChild(parent: Id, spec: ChildSpec, newTeam: Id, child: Id, faults: set<Stage>)

  function Next(registry: Registry, w: World, move: Move): World {
    match move
    case Create(id, definition) =>
      if id in w.logs then w else w.(logs := w.logs[id := [Creation(registry.sensitive, definition)]])
    case Emit(run, event) =>
      if run !in w.logs || event.TeamCreated? || event.MemberSpawned? then w else Extend(w, run, event)
    case SpawnChild(parent, spec, newTeam, child, faults) =>
      if child in w.logs || child == parent then w else Spawn(registry, w, parent, spec, newTeam, child, faults).0
  }

  function After(registry: Registry, moves: seq<Move>): World {
    if moves == [] then World(map[], map[])
    else Next(registry, After(registry, moves[..|moves| - 1]), moves[|moves| - 1])
  }

  // ----- What the streams say about the families -----

  /** One run: its definition, its team, and the runs its stream records as members. */
  datatype Digest = Digest(definition: RunDefinition, team: Option<Id>, members: set<Id>)

  datatype Forest = Forest(runs: map<Id, Digest>, spawnedBy: map<Id, Id>)

  function DigestOf(log: seq<Event>): Digest
    requires Founded(log)
  {
    Digest(Definition(log), TeamIdOf(log), Members(log).Keys)
  }

  predicate AllFounded(w: World) { forall r | r in w.logs :: Founded(w.logs[r]) }

  function ForestOf(w: World): Forest
    requires AllFounded(w)
  {
    Forest(map r | r in w.logs :: DigestOf(w.logs[r]), w.spawnedBy)
  }

  function Children(f: Forest, parent: Id): set<Id> { set c | c in f.spawnedBy && f.spawnedBy[c] == parent }

  function MembersOf(f: Forest, parent: Id): set<Id> { if parent in f.runs then f.runs[parent].members else {} }

  /** Children whose membership could not be recorded. */
  function Lost(f: Forest, parent: Id): set<Id> { Children(f, parent) - MembersOf(f, parent) }

  function Recorded(f: Forest, parent: Id): set<Id> { Children(f, parent) * MembersOf(f, parent) }

  // ----- The invariant -----

  /** What a child inherits from the run that spawned it. */
  predicate Inherits(d: RunDefinition, parent: Id, p: Digest) {
    && d.parentRunId == Some(parent)
    && d.teamId.Some? && d.teamId == p.team
    && d.supervisorPolicy == p.definition.supervisorPolicy
    && d.gradingPolicy == p.definition.gradingPolicy
    && d.depth == p.definition.depth + 1 <= p.definition.supervisorPolicy.maxSubagentDepth
  }

  predicate ChildOk(f: Forest, c: Id)
    requires c in f.spawnedBy
  {
    c in f.runs && f.spawnedBy[c] in f.runs && Inherits(f.runs[c].definition, f.spawnedBy[c], f.runs[f.spawnedBy[c]])
  }

  predicate RunOk(f: Forest, r: Id)
    requires r in f.runs
  {
    && (f.runs[r].team.None? ==> f.runs[r].members == {})
    && f.runs[r].members <= f.runs.Keys
    && |Recorded(f, r)| <= f.runs[r].definition.supervisorPolicy.maxSubagents
  }

  predicate ChildrenOk(f: Forest) { forall c | c in f.spawnedBy :: ChildOk(f, c) }

  predicate RunsOk(f: Forest) { forall r | r in f.runs :: RunOk(f, r) }

  predicate Sound(f: Forest) { ChildrenOk(f) && RunsOk(f) }

  predicate Inv(w: World) { AllFounded(w) && Sound(ForestOf(w)) }

  // ----- The four ways a forest grows -----

  /** Nothing that was there changes, except that a team may appear and members may join. */
  predicate Grows(f: Forest, next: Forest) {
    && (forall r | r in f.runs ::
          && r in next.runs && next.runs[r].definition == f.runs[r].definition
          && (f.runs[r].team.Some? ==> next.runs[r].team == f.runs[r].team))
    && (forall c | c in f.spawnedBy :: c in next.spawnedBy && next.spawnedBy[c] == f.spawnedBy[c])
  }

  lemma ChildStays(f: Forest, next: Forest, c: Id)
    requires Grows(f, next) && c in f.spawnedBy && ChildOk(f, c)
    ensures c in next.spawnedBy && ChildOk(next, c)
  {
  }

  lemma ChildrenStay(f: Forest, next: Forest)
    requires Grows(f, next) && ChildrenOk(f)
    ensures forall c | c in f.spawnedBy :: c in next.spawnedBy && ChildOk(next, c)
  {
    forall c | c in f.spawnedBy ensures c in next.spawnedBy && ChildOk(next, c) {
      assert ChildOk(f, c);
      ChildStays(f, next, c);
    }
  }

  lemma RunStays(f: Forest, next: Forest, r: Id)
    requires Grows(f, next) && r in f.runs && RunOk(f, r)
    requires next.runs[r].members == f.runs[r].members && Children(next, r) * next.runs[r].members == Recorded(f, r)
    ensures RunOk(next, r) && Recorded(next, r) == Recorded(f, r)
  {
    assert f.runs.Keys <= next.runs.Keys;
  }

  /** Every old run keeps its members, and those of them that are its children. */
  predicate SameFamilies(f: Forest, next: Forest) {
    && Grows(f, next)
    && forall r | r in f.runs ::
         next.runs[r].members == f.runs[r].members && Children(next, r) * next.runs[r].members == Recorded(f, r)
  }

  lemma RunsStay(f: Forest, next: Forest)
    requires SameFamilies(f, next) && RunsOk(f)
    ensures forall r | r in f.runs :: r in next.runs && RunOk(next, r) && Recorded(next, r) == Recorded(f, r)
  {
    forall r | r in f.runs ensures r in next.runs && RunOk(next, r) && Recorded(next, r) == Recorded(f, r) {
      assert RunOk(f, r);
      RunStays(f, next, r);
    }
  }

  function Teamed(f: Forest, r: Id, team: Id): Forest
    requires r in f.runs
  {
    f.(runs := f.runs[r := f.runs[r].(team := Some(team))])
  }

  lemma TeamKeeps(f: Forest, r: Id, team: Id)
    requires Sound(f) && r in f.runs && f.runs[r].team.None?
    ensures Sound(Teamed(f, r, team))
  {
    TeamedGrows(f, r, team);
    StaySound(f, Teamed(f, r, team));
  }

  lemma TeamedGrows(f: Forest, r: Id, team: Id)
    requires r in f.runs && f.runs[r].team.None?
    ensures SameFamilies(f, Teamed(f, r, team))
  {
    assert forall x :: Children(Teamed(f, r, team), x) == Children(f, x);
  }

  /** Growth without a new run or child. */
  lemma StaySound(f: Forest, next: Forest)
    requires Sound(f) && SameFamilies(f, next) && next.runs.Keys == f.runs.Keys && next.spawnedBy == f.spawnedBy
    ensures Sound(next)
  {
    ChildrenStay(f, next);
    RunsStay(f, next);
    assert forall r | r in next.runs :: RunOk(next, r);
  }

  function Root(d: RunDefinition): Digest { Digest(d, None, {}) }

  function Rooted(f: Forest, id: Id, d: RunDefinition): Forest { f.(runs := f.runs[id := Root(d)]) }

  lemma RootedGrows(f: Forest, id: Id, d: RunDefinition)
    requires id !in f.runs
    ensures SameFamilies(f, Rooted(f, id, d)) && RunOk(Rooted(f, id, d), id)
  {
    assert forall x :: Children(Rooted(f, id, d), x) == Children(f, x);
  }

  lemma RootKeeps(f: Forest, id: Id, d: RunDefinition)
    requires Sound(f) && id !in f.runs
    ensures Sound(Rooted(f, id, d))
  {
    RootedGrows(f, id, d);
    ChildrenStay(f, Rooted(f, id, d));
    RunsStay(f, Rooted(f, id, d));
  }

  function Born(f: Forest, parent: Id, id: Id, d: RunDefinition): Forest {
    Forest(f.runs[id := Root(d)], f.spawnedBy[id := parent])
  }

  lemma UnknownIsNoChild(f: Forest, id: Id)
    requires ChildrenOk(f) && id !in f.runs
    ensures id !in f.spawnedBy
  {
    forall c | c in f.spawnedBy ensures c != id { assert ChildOk(f, c); }
  }

  lemma UnknownIsNoMember(f: Forest, id: Id)
    requires RunsOk(f) && id !in f.runs
    ensures forall r | r in f.runs :: id !in f.runs[r].members
  {
    forall r | r in f.runs ensures id !in f.runs[r].members { assert RunOk(f, r); }
  }

  lemma BornGrows(f: Forest, parent: Id, id: Id, d: RunDefinition)
    requires id !in f.runs && id !in f.spawnedBy
    ensures Grows(f, Born(f, parent, id, d)) && RunOk(Born(f, parent, id, d), id)
    ensures forall x :: Children(Born(f, parent, id, d), x) == Children(f, x) + if x == parent then {id} else {}
  {
  }

  lemma BornElsewhere(f: Forest, parent: Id, id: Id, d: RunDefinition, r: Id)
    requires r in f.runs && id !in f.runs[r].members
    requires Children(Born(f, parent, id, d), r) == Children(f, r) + if r == parent then {id} else {}
    ensures Children(Born(f, parent, id, d), r) * f.runs[r].members == Recorded(f, r)
  {
  }

  lemma BornFamilies(f: Forest, parent: Id, id: Id, d: RunDefinition)
    requires id !in f.runs && id !in f.spawnedBy && forall r | r in f.runs :: id !in f.runs[r].members
    ensures SameFamilies(f, Born(f, parent, id, d)) && RunOk(Born(f, parent, id, d), id)
  {
    BornGrows(f, parent, id, d);
    forall r | r in f.runs ensures Children(Born(f, parent, id, d), r) * f.runs[r].members == Recorded(f, r) {
      BornElsewhere(f, parent, id, d, r);
    }
  }

  lemma BornChild(f: Forest, parent: Id, id: Id, d: RunDefinition)
    requires parent in f.runs && id !in f.runs && Inherits(d, parent, f.runs[parent])
    ensures ChildOk(Born(f, parent, id, d), id)
  {
  }

  /** A new child is lost until it is recorded. */
  lemma BornKeeps(f: Forest, parent: Id, id: Id, d: RunDefinition)
    requires Sound(f) && parent in f.runs && id !in f.runs && Inherits(d, parent, f.runs[parent])
    ensures Sound(Born(f, parent, id, d)) && Recorded(Born(f, parent, id, d), parent) == Recorded(f, parent)
  {
    UnknownIsNoChild(f, id);
    UnknownIsNoMember(f, id);
    BornFamilies(f, parent, id, d);
    ChildrenStay(f, Born(f, parent, id, d));
    BornChild(f, parent, id, d);
    RunsStay(f, Born(f, parent, id, d));
  }

  function Recording(f: Forest, parent: Id, id: Id): Forest
    requires parent in f.runs
  {
    f.(runs := f.runs[parent := f.runs[parent].(members := f.runs[parent].members + {id})])
  }

  lemma RecordedOnce(f: Forest, parent: Id, id: Id)
    requires parent in f.runs && RunOk(f, parent) && f.runs[parent].team.Some? && id in f.runs
    requires |Recorded(f, parent)| < f.runs[parent].definition.supervisorPolicy.maxSubagents
    ensures RunOk(Recording(f, parent, id), parent)
  {
    FewerElements(Recorded(Recording(f, parent, id), parent), Recorded(f, parent) + {id});
  }

  lemma RecordingGrows(f: Forest, parent: Id, id: Id)
    requires parent in f.runs
    ensures Grows(f, Recording(f, parent, id))
    ensures forall r :: Children(Recording(f, parent, id), r) == Children(f, r)
  {
  }

  lemma RecordedElsewhere(f: Forest, parent: Id, id: Id, r: Id)
    requires parent in f.runs && r in f.runs && r != parent && RunOk(f, r)
    ensures RunOk(Recording(f, parent, id), r)
  {
    RecordingGrows(f, parent, id);
    RunStays(f, Recording(f, parent, id), r);
  }

  lemma RecordedAnywhere(f: Forest, parent: Id, id: Id, r: Id)
    requires r in f.runs && RunOk(f, r) && parent in f.runs && f.runs[parent].team.Some? && id in f.runs
    requires |Recorded(f, parent)| < f.runs[parent].definition.supervisorPolicy.maxSubagents
    ensures RunOk(Recording(f, parent, id), r)
  {
    if r == parent { RecordedOnce(f, parent, id); } else { RecordedElsewhere(f, parent, id, r); }
  }

  lemma RecordKeepsRuns(f: Forest, parent: Id, id: Id)
    requires RunsOk(f) && parent in f.runs && f.runs[parent].team.Some? && id in f.runs
    requires |Recorded(f, parent)| < f.runs[parent].definition.supervisorPolicy.maxSubagents
    ensures RunsOk(Recording(f, parent, id))
  {
    forall r | r in f.runs ensures RunOk(Recording(f, parent, id), r) {
      assert RunOk(f, r);
      RecordedAnywhere(f, parent, id, r);
    }
  }

  lemma RecordKeepsChildren(f: Forest, parent: Id, id: Id)
    requires ChildrenOk(f) && parent in f.runs
    ensures ChildrenOk(Recording(f, parent, id))
  {
    RecordingGrows(f, parent, id);
    ChildrenStay(f, Recording(f, parent, id));
  }

  // ----- Every move is one of them -----

  function DigestStep(g: Digest, e: Event): Digest {
    match e
    case TeamCreated(id) => if g.team.Some? then g else g.(team := Some(id))
    case MemberSpawned(member) => g.(members := g.members + {member.runId})
    case _ => g
  }

  lemma ExtendForest(w: World, run: Id, e: Event)
    requires AllFounded(w) && run in w.logs
    ensures AllFounded(Extend(w, run, e))
    ensures ForestOf(Extend(w, run, e))
         == Forest(ForestOf(w).runs[run := DigestStep(ForestOf(w).runs[run], e)], w.spawnedBy)
  {
    assert Founded(w.logs[run]);
    OneMoreEvent(w.logs[run], e);
  }

  lemma OneMoreEvent(log: seq<Event>, e: Event)
    requires Founded(log)
    ensures Founded(log + [e]) && DigestOf(log + [e]) == DigestStep(DigestOf(log), e)
  {
    assert (log + [e])[..|log|] == log;
  }

  lemma NewDigest(creation: Event)
    requires Founded([creation])
    ensures DigestOf([creation]) == Root(creation.definition)
  {
    var log := [creation];
    var none: seq<Event> := [];
    assert log[..|log| - 1] == none;
    assert TeamIdOf(none) == None && Members(none) == map[];
    assert MemberStep(map[], log[0]) == map[];
  }

  lemma CreationFounds(sensitive: set<string>, d: RunDefinition)
    ensures Founded([Creation(sensitive, d)])
  {
    StoredGradingIsFixed(d.gradingPolicy);
  }

  lemma NewForest(w: World, id: Id, creation: Event, spawnedBy: map<Id, Id>)
    requires AllFounded(w) && Founded([creation])
    ensures var next := World(w.logs[id := [creation]], spawnedBy);
      AllFounded(next) && ForestOf(next) == Forest(ForestOf(w).runs[id := Root(creation.definition)], spawnedBy)
  {
    NewDigest(creation);
  }

  /** An event without a team and without a member. */
  lemma NeutralKeeps(w: World, run: Id, e: Event)
    requires AllFounded(w) && run in w.logs && !e.TeamCreated? && !e.MemberSpawned?
    ensures AllFounded(Extend(w, run, e)) && ForestOf(Extend(w, run, e)) == ForestOf(w)
  {
    ExtendForest(w, run, e);
  }

  lemma WithTeamForest(w: World, parent: Id, team: Id)
    requires AllFounded(w) && parent in w.logs
    ensures var next := WithTeam(w, parent, team);
      && AllFounded(next) && next.logs.Keys == w.logs.Keys
      && ForestOf(next) == if TeamIdOf(w.logs[parent]).Some? then ForestOf(w) else Teamed(ForestOf(w), parent, team)
  {
    if TeamIdOf(w.logs[parent]).None? { ExtendForest(w, parent, TeamCreated(team)); }
  }

  /** A forest that the four ways keep sound, with `parent` having a team and room. */
  predicate Room(f: Forest, parent: Id, team: Id, d: RunDefinition) {
    && Sound(f) && parent in f.runs && f.runs[parent].team == Some(team) && f.runs[parent].definition == d
    && |Recorded(f, parent)| < d.supervisorPolicy.maxSubagents && d.depth < d.supervisorPolicy.maxSubagentDepth
    && StoredGrading(d.gradingPolicy) == d.gradingPolicy
  }

  /** The definition of the child as its stream carries it. */
  function ChildOnRecord(registry: Registry, parent: Id, d: RunDefinition, team: Id, spec: ChildSpec): RunDefinition {
    Creation(registry.sensitive, ChildDefinition(parent, d, team, spec)).definition
  }

  lemma BornAndRecorded(
      registry: Registry, f: Forest, parent: Id, team: Id, d: RunDefinition, spec: ChildSpec, child: Id)
    requires Room(f, parent, team, d) && child !in f.runs
    ensures var born := Born(f, parent, child, ChildOnRecord(registry, parent, d, team, spec));
      Sound(born) && Sound(Recording(born, parent, child))
  {
    var born := Born(f, parent, child, ChildOnRecord(registry, parent, d, team, spec));
    BornKeeps(f, parent, child, ChildOnRecord(registry, parent, d, team, spec));
    RecordKeepsChildren(born, parent, child);
    RecordKeepsRuns(born, parent, child);
  }

  lemma AddChildForest(w: World, parent: Id, child: Id, creation: Event, member: TeamMember)
    requires AllFounded(w) && parent in w.logs && child !in w.logs && member.runId == child && Founded([creation])
    ensures var created := AddChild(w, parent, child, creation);
      && AllFounded(created) && AllFounded(Extend(created, parent, MemberSpawned(member)))
      && ForestOf(created) == Born(ForestOf(w), parent, child, creation.definition)
      && ForestOf(Extend(created, parent, MemberSpawned(member)))
         == Recording(Born(ForestOf(w), parent, child, creation.definition), parent, child)
  {
    NewForest(w, child, creation, w.spawnedBy[child := parent]);
    ExtendForest(AddChild(w, parent, child, creation), parent, MemberSpawned(member));
  }

  lemma CreateMemberForest(
      registry: Registry, w: World, parent: Id, d: RunDefinition, role: string, goal: string, child: Id,
      faults: set<Stage>)
    requires AllFounded(w) && parent in w.logs && child !in w.logs && child != parent
    ensures var next := CreateMember(registry, w, parent, d, role, goal, child, faults).0;
      var born := Born(ForestOf(w), parent, child, Creation(registry.sensitive, d).definition);
      && AllFounded(next)
      && (ForestOf(next) == ForestOf(w) || ForestOf(next) == born || ForestOf(next) == Recording(born, parent, child))
      && (RecordStage !in faults ==> ForestOf(next) == ForestOf(w) || ForestOf(next) == Recording(born, parent, child))
  {
    NeutralKeeps(w, parent, MemberSpawnFailed(child));
    CreationFounds(registry.sensitive, d);
    AddChildForest(w, parent, child, Creation(registry.sensitive, d),
                   TeamMember(child, RedactText(role), RedactText(goal)));
  }

  predicate HasRoom(count: nat, d: RunDefinition) {
    count < d.supervisorPolicy.maxSubagents && d.depth < d.supervisorPolicy.maxSubagentDepth
  }

  lemma SpawnMemberForest(
      registry: Registry, w: World, parent: Id, count: nat, team: Id, spec: ChildSpec, child: Id, faults: set<Stage>)
    requires AllFounded(w) && parent in w.logs && child !in w.logs && child != parent
    ensures var next := SpawnMember(registry, w, parent, count, team, spec, child, faults).0;
      var d := Definition(w.logs[parent]);
      var born := Born(ForestOf(w), parent, child, ChildOnRecord(registry, parent, d, team, spec));
      && AllFounded(next)
      && (ForestOf(next) != ForestOf(w) ==>
            HasRoom(count, d) && (ForestOf(next) == born || ForestOf(next) == Recording(born, parent, child)))
      && (ForestOf(next) != ForestOf(w) && RecordStage !in faults ==> ForestOf(next) == Recording(born, parent, child))
  {
    var d := Definition(w.logs[parent]);
    NeutralKeeps(w, parent, MemberSpawnRequested(child));
    CreateMemberForest(registry, Extend(w, parent, MemberSpawnRequested(child)), parent,
                       ChildDefinition(parent, d, team, spec), spec.role, spec.goal, child, faults);
  }

  /** The count the guard uses is at least the number of recorded children. */
  lemma CountCoversRecorded(w: World, parent: Id)
    requires Inv(w) && parent in w.logs
    ensures |Recorded(ForestOf(w), parent)| <= MemberCount(w.logs[parent])
  {
    var f := ForestOf(w);
    assert RunOk(f, parent);
    FewerElements(Recorded(f, parent), f.runs[parent].members);
    assert |Members(w.logs[parent]).Keys| == |Members(w.logs[parent])|;
  }

  lemma TeamedRoom(w: World, parent: Id, newTeam: Id)
    requires Inv(w) && parent in w.logs
    ensures var next := WithTeam(w, parent, newTeam); var team := TeamIdOf(w.logs[parent]).UnwrapOr(newTeam);
      && Inv(next) && next.logs.Keys == w.logs.Keys && Definition(next.logs[parent]) == Definition(w.logs[parent])
      && ForestOf(next).runs[parent].team == Some(team)
      && |Recorded(ForestOf(next), parent)| <= MemberCount(w.logs[parent])
  {
    CountCoversRecorded(w, parent);
    WithTeamForest(w, parent, newTeam);
    if TeamIdOf(w.logs[parent]).None? { TeamKeeps(ForestOf(w), parent, newTeam); }
  }

  lemma SpawnInTeamKeeps(
      registry: Registry, w: World, parent: Id, count: nat, team: Id, spec: ChildSpec, child: Id, faults: set<Stage>)
    requires Inv(w) && parent in w.logs && child !in w.logs
    requires ForestOf(w).runs[parent].team == Some(team) && |Recorded(ForestOf(w), parent)| <= count
    requires Started(w.logs[parent])
    ensures Inv(SpawnMember(registry, w, parent, count, team, spec, child, faults).0)
  {
    var d := Definition(w.logs[parent]);
    SpawnMemberForest(registry, w, parent, count, team, spec, child, faults);
    if HasRoom(count, d) { BornAndRecorded(registry, ForestOf(w), parent, team, d, spec, child); }
  }

  lemma SpawnIs(registry: Registry, w: World, parent: Id, spec: ChildSpec, newTeam: Id, child: Id, faults: set<Stage>)
    requires AllFounded(w) && parent in w.logs && child != parent
    ensures var next := Spawn(registry, w, parent, spec, newTeam, child, faults).0;
      || next == w
      || (AllFounded(WithTeam(w, parent, newTeam))
          && Started(WithTeam(w, parent, newTeam).logs[parent])
          && next == SpawnMember(registry, WithTeam(w, parent, newTeam), parent, MemberCount(w.logs[parent]),
                                 TeamIdOf(w.logs[parent]).UnwrapOr(newTeam), spec, child, faults).0)
  {
  }

  lemma SpawnKeeps(
      registry: Registry, w: World, parent: Id, spec: ChildSpec, newTeam: Id, child: Id, faults: set<Stage>)
    requires Inv(w) && parent in w.logs && child !in w.logs
    ensures Inv(Spawn(registry, w, parent, spec, newTeam, child, faults).0)
  {
    SpawnIs(registry, w, parent, spec, newTeam, child, faults);
    if Spawn(registry, w, parent, spec, newTeam, child, faults).0 != w {
      TeamedRoom(w, parent, newTeam);
      SpawnInTeamKeeps(registry, WithTeam(w, parent, newTeam), parent, MemberCount(w.logs[parent]),
                       TeamIdOf(w.logs[parent]).UnwrapOr(newTeam), spec, child, faults);
    }
  }

  lemma NextKeeps(registry: Registry, w: World, move: Move)
    requires Inv(w)
    ensures Inv(Next(registry, w, move))
  {
    match move
    case Create(id, definition) =>
      if id !in w.logs {
        var creation := Creation(registry.sensitive, definition);
        CreationFounds(registry.sensitive, definition);
        NewForest(w, id, creation, w.spawnedBy);
        RootKeeps(ForestOf(w), id, creation.definition);
      }
    case Emit(run, event) =>
      if run in w.logs && !event.TeamCreated? && !event.MemberSpawned? { NeutralKeeps(w, run, event); }
    case SpawnChild(parent, spec, newTeam, child, faults) =>
      if child !in w.logs && parent in w.logs { SpawnKeeps(registry, w, parent, spec, newTeam, child, faults); }
  }

  lemma {:induction false} ReachableInv(registry: Registry, moves: seq<Move>)
    ensures Inv(After(registry, moves))
  {
    if moves != [] {
      ReachableInv(registry, moves[..|moves| - 1]);
      NextKeeps(registry, After(registry, moves[..|moves| - 1]), moves[|moves| - 1]);
    }
  }
}
