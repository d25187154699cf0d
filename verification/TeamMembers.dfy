/** What a spawned run is asked to do, and what its parent's stream says about it. */
module TeamMembers {
  import opened Json
  import opened Models
  import opened Runs
  import opened Redaction
  import opened RedactionProofs
  import opened Definitions
  import opened Team
  import opened TeamBound

  // ----- The definition of a child -----

  /** Field by field, the definition that a spawn with `spec` by a run with definition `p` creates. */
  predicate AsksFor(d: RunDefinition, parent: Id, p: RunDefinition, team: Id, spec: ChildSpec) {
    && d.goal == spec.goal && d.role == spec.role
    && (if spec.harnessId == None || spec.harnessId == Some("") then d.harnessId == p.harnessId
        else spec.harnessId == Some(d.harnessId))
    && (if spec.graderIds == None || spec.graderIds == Some([]) then d.graderIds == p.graderIds
        else spec.graderIds == Some(d.graderIds))
    && (if spec.agentBundle == None then d.agentBundle == p.agentBundle && d.agentVersionId == p.agentVersionId
        else spec.agentBundle == Some(d.agentBundle) && d.agentVersionId == None)
    && d.gradingPolicy == p.gradingPolicy && d.supervisorPolicy == p.supervisorPolicy
    && d.parentRunId == Some(parent) && d.teamId == Some(team) && d.depth == p.depth + 1
    && Overlays(d.metadata, p.metadata, spec.metadata)
  }

  /** The given texts over the inherited values, key by key. */
  predicate Overlays(m: Object, inherited: Object, given: map<string, string>) {
    && m.Keys == inherited.Keys + given.Keys
    && forall k | k in m :: m[k] == if k in given then Str(given[k]) else inherited[k]
  }

  lemma OverlaidIsSum(m: Object, inherited: Object, given: map<string, string>)
    ensures Overlays(m, inherited, given) <==> m == inherited + map k | k in given :: Str(given[k])
  {
  }

  lemma AskedIsBuilt(d: RunDefinition, parent: Id, p: RunDefinition, team: Id, spec: ChildSpec)
    ensures AsksFor(d, parent, p, team, spec) <==> d == ChildDefinition(parent, p, team, spec)
  {
    OverlaidIsSum(d.metadata, p.metadata, spec.metadata);
  }

  // ----- The course of a spawn -----

  /** The result, what is appended to the parent's stream, and whether the child's stream exists. */
  datatype Course = Course(result: Result<Id, SpawnError>, appended: seq<Event>, created: bool)

  /** `d` is the definition asked for, `members` and `team` are what the parent's stream shows. */
  function CourseOf(
      registry: Registry, p: RunDefinition, team: Option<Id>, members: nat, spec: ChildSpec, d: RunDefinition,
      newTeam: Id, child: Id, faults: set<Stage>)
    : Course
  {
    var opening := if team.Some? then [] else [TeamCreated(newTeam)];
    var requested := opening + [MemberSpawnRequested(child)];
    if team.None? && TeamStage in faults then Course(Err(AppendFailed), [], false)
    else if p.supervisorPolicy.maxSubagents <= members then Course(Err(TooManySubagents), opening, false)
    else if p.supervisorPolicy.maxSubagentDepth <= p.depth then Course(Err(TooDeep), opening, false)
    else if RequestStage in faults then Course(Err(AppendFailed), opening, false)
    else if !Declared(d) then Course(Err(InvalidDefinition), requested, false)
    else if d.harnessId !in registry.harnesses || (exists g | g in d.graderIds :: g !in registry.graders)
            || CreationStage in faults then
      if FailureStage in faults then Course(Err(AppendFailed), requested, false)
      else Course(Err(CreationFailed), requested + [MemberSpawnFailed(child)], false)
    else if RecordStage in faults then Course(Err(AppendFailed), requested, true)
    else Course(Ok(child), requested + [MemberSpawned(TeamMember(child, RedactText(spec.role), RedactText(spec.goal)))],
                true)
  }

  function Appended(w: World, run: Id, events: seq<Event>): World
    requires run in w.logs
  {
    w.(logs := w.logs[run := w.logs[run] + events])
  }

  /** The child's stream begins with `creation`. */
  function Followed(w: World, parent: Id, child: Id, creation: Event, course: Course): World
    requires parent in w.logs
  {
    var told := Appended(w, parent, course.appended);
    if course.created then World(told.logs[child := [creation]], told.spawnedBy[child := parent]) else told
  }

  lemma NothingAppended(w: World, run: Id)
    requires run in w.logs
    ensures Appended(w, run, []) == w
  {
    assert w.logs[run] + [] == w.logs[run];
    assert w.logs[run := w.logs[run]] == w.logs;
  }

  lemma OneMore(w: World, run: Id, events: seq<Event>, e: Event)
    requires run in w.logs
    ensures Extend(Appended(w, run, events), run, e) == Appended(w, run, events + [e])
  {
    assert w.logs[run] + events + [e] == w.logs[run] + (events + [e]);
  }

  lemma OneMoreBeside(w: World, run: Id, events: seq<Event>, e: Event, child: Id, creation: Event)
    requires run in w.logs && child != run
    ensures Extend(AddChild(Appended(w, run, events), run, child, creation), run, e)
         == AddChild(Appended(w, run, events + [e]), run, child, creation)
  {
    OneMore(w, run, events, e);
    var m := Appended(w, run, events).logs;
    assert m[child := [creation]][run := m[run] + [e]] == m[run := m[run] + [e]][child := [creation]];
  }

  lemma TeamTold(w: World, parent: Id, newTeam: Id)
    requires parent in w.logs
    ensures WithTeam(w, parent, newTeam)
         == Appended(w, parent, if TeamIdOf(w.logs[parent]).Some? then [] else [TeamCreated(newTeam)])
  {
    NothingAppended(w, parent);
  }

  /** From the request on. */
  lemma CreateTold(
      registry: Registry, w: World, parent: Id, p: RunDefinition, spec: ChildSpec, d: RunDefinition, newTeam: Id,
      child: Id, faults: set<Stage>, team: Option<Id>, members: nat)
    requires parent in w.logs && child != parent && !(team.None? && TeamStage in faults)
    requires HasRoom(members, p) && RequestStage !in faults
    ensures var requested := (if team.Some? then [] else [TeamCreated(newTeam)]) + [MemberSpawnRequested(child)];
      var course := CourseOf(registry, p, team, members, spec, d, newTeam, child, faults);
      CreateMember(registry, Appended(w, parent, requested), parent, d, spec.role, spec.goal, child, faults)
      == (Followed(w, parent, child, Creation(registry.sensitive, d), course), course.result)
  {
    var requested := (if team.Some? then [] else [TeamCreated(newTeam)]) + [MemberSpawnRequested(child)];
    OneMore(w, parent, requested, MemberSpawnFailed(child));
    OneMoreBeside(w, parent, requested, MemberSpawned(TeamMember(child, RedactText(spec.role), RedactText(spec.goal))),
                  child, Creation(registry.sensitive, d));
  }

  /** Whoever is asked to spawn what, and whatever the store refuses: the result, both streams and the family. */
  lemma SpawnExactly(
      registry: Registry, w: World, parent: Id, spec: ChildSpec, newTeam: Id, child: Id, faults: set<Stage>,
      d: RunDefinition)
    requires parent in w.logs && GetRun(w.logs[parent]).Ok? && child != parent
    requires AsksFor(d, parent, Definition(w.logs[parent]), TeamIdOf(w.logs[parent]).UnwrapOr(newTeam), spec)
    ensures var log := w.logs[parent];
      var members := if TeamIdOf(log).Some? then |Members(log)| else 0;
      var course := CourseOf(registry, Definition(log), TeamIdOf(log), members, spec, d, newTeam, child, faults);
      Spawn(registry, w, parent, spec, newTeam, child, faults)
      == (Followed(w, parent, child, Creation(registry.sensitive, d), course), course.result)
  {
    var log := w.logs[parent];
    NothingAppended(w, parent);
    if TeamIdOf(log).Some? || TeamStage !in faults {
      TeamTold(w, parent, newTeam);
      InTeamTold(registry, w, parent, spec, newTeam, child, faults, d);
    }
  }

  lemma InTeamTold(
      registry: Registry, w: World, parent: Id, spec: ChildSpec, newTeam: Id, child: Id, faults: set<Stage>,
      d: RunDefinition)
    requires parent in w.logs && GetRun(w.logs[parent]).Ok? && child != parent
    requires !(TeamIdOf(w.logs[parent]).None? && TeamStage in faults)
    requires AsksFor(d, parent, Definition(w.logs[parent]), TeamIdOf(w.logs[parent]).UnwrapOr(newTeam), spec)
    ensures var log := w.logs[parent];
      var opening := if TeamIdOf(log).Some? then [] else [TeamCreated(newTeam)];
      var course :=
        CourseOf(registry, Definition(log), TeamIdOf(log), MemberCount(log), spec, d, newTeam, child, faults);
      SpawnMember(registry, Appended(w, parent, opening), parent, MemberCount(log), TeamIdOf(log).UnwrapOr(newTeam),
                  spec, child, faults)
      == (Followed(w, parent, child, Creation(registry.sensitive, d), course), course.result)
  {
    var log := w.logs[parent];
    var opening := if TeamIdOf(log).Some? then [] else [TeamCreated(newTeam)];
    AskedIsBuilt(d, parent, Definition(log), TeamIdOf(log).UnwrapOr(newTeam), spec);
    OneMore(w, parent, opening, MemberSpawnRequested(child));
    if HasRoom(MemberCount(log), Definition(log)) && RequestStage !in faults {
      CreateTold(registry, w, parent, Definition(log), spec, d, newTeam, child, faults, TeamIdOf(log),
                 MemberCount(log));
    }
  }

  // ----- The child's stream -----

  /** What a text of the definition is stored as. */
  function Kept(intact: bool, s: string): string { if intact then RedactText(s) else s }

  function KeptValue(sensitive: set<string>, intact: bool, k: string, v: Value): Value {
    if !intact then v else if Sensitive(sensitive, k) then Str("[REDACTED]") else Redact(sensitive, v)
  }

  /** Goal, role, harness and graders of a child created by `e`. */
  predicate WorksOn(e: Event, p: RunDefinition, spec: ChildSpec)
    requires e.RunCreated?
  {
    var d := e.definition;
    var graders := if spec.graderIds == None || spec.graderIds == Some([]) then p.graderIds else spec.graderIds.value;
    && d.goal == Kept(e.intact, spec.goal) && d.role == Kept(e.intact, spec.role)
    && d.harnessId == Kept(e.intact, if spec.harnessId == None || spec.harnessId == Some("") then p.harnessId
                                     else spec.harnessId.value)
    && |d.graderIds| == |graders| && forall i | 0 <= i < |graders| :: d.graderIds[i] == Kept(e.intact, graders[i])
  }

  /** Its bundle, and the version if the bundle is still the parent's. */
  predicate RunsBundle(e: Event, sensitive: set<string>, p: RunDefinition, spec: ChildSpec)
    requires e.RunCreated?
  {
    var d, bundle := e.definition, if spec.agentBundle.Some? then spec.agentBundle.value else p.agentBundle;
    && d.agentBundle == (if e.intact then StoredBundle(sensitive, bundle) else bundle)
    && (d.agentVersionId.None? <==> spec.agentBundle.Some? || p.agentVersionId.None?)
    && (d.agentVersionId.Some? ==> d.agentVersionId == p.agentVersionId)
  }

  predicate CarriesMetadata(e: Event, sensitive: set<string>, p: RunDefinition, spec: ChildSpec)
    requires e.RunCreated?
  {
    var m := e.definition.metadata;
    && m.Keys == p.metadata.Keys + spec.metadata.Keys
    && forall k | k in m ::
         m[k] == KeptValue(sensitive, e.intact, k, if k in spec.metadata then Str(spec.metadata[k]) else p.metadata[k])
  }

  /** A child that was spawned works on the goal it was given, in the role, with the harness, the graders and the
      bundle it was given or else its parent's, all as redaction stores them; its metadata are what it was
      given over its parent's. */
  lemma ChildExactly(
      registry: Registry, w: World, parent: Id, spec: ChildSpec, newTeam: Id, child: Id, faults: set<Stage>)
    requires child != parent && Spawn(registry, w, parent, spec, newTeam, child, faults).1.Ok?
    ensures parent in w.logs && Started(w.logs[parent])
    ensures var (next, r) := Spawn(registry, w, parent, spec, newTeam, child, faults);
      && r == Ok(child) && child in next.logs && |next.logs[child]| == 1 && next.logs[child][0].RunCreated?
      && WorksOn(next.logs[child][0], Definition(w.logs[parent]), spec)
      && RunsBundle(next.logs[child][0], registry.sensitive, Definition(w.logs[parent]), spec)
      && CarriesMetadata(next.logs[child][0], registry.sensitive, Definition(w.logs[parent]), spec)
  {
    var log := w.logs[parent];
    var team := TeamIdOf(log).UnwrapOr(newTeam);
    var d := ChildDefinition(parent, Definition(log), team, spec);
    AskedIsBuilt(d, parent, Definition(log), team, spec);
    SpawnedStream(registry, w, parent, spec, newTeam, child, faults, d);
    CreationTold(registry.sensitive, d, parent, Definition(log), team, spec);
  }

  lemma SpawnedStream(
      registry: Registry, w: World, parent: Id, spec: ChildSpec, newTeam: Id, child: Id, faults: set<Stage>,
      d: RunDefinition)
    requires child != parent && Spawn(registry, w, parent, spec, newTeam, child, faults).1.Ok?
    requires AsksFor(d, parent, Definition(w.logs[parent]), TeamIdOf(w.logs[parent]).UnwrapOr(newTeam), spec)
    ensures var (next, r) := Spawn(registry, w, parent, spec, newTeam, child, faults);
      r == Ok(child) && child in next.logs && next.logs[child] == [Creation(registry.sensitive, d)]
  {
    SpawnExactly(registry, w, parent, spec, newTeam, child, faults, d);
  }

  lemma CreationTold(sensitive: set<string>, d: RunDefinition, parent: Id, p: RunDefinition, team: Id, spec: ChildSpec)
    requires AsksFor(d, parent, p, team, spec)
    ensures var e := Creation(sensitive, d);
      && e.RunCreated? && WorksOn(e, p, spec) && RunsBundle(e, sensitive, p, spec)
      && CarriesMetadata(e, sensitive, p, spec)
  {
    TextsTold(sensitive, d, parent, p, team, spec);
    BundleTold(sensitive, d, parent, p, team, spec);
    MetadataTold(sensitive, d, p, spec);
  }

  lemma TextsTold(sensitive: set<string>, d: RunDefinition, parent: Id, p: RunDefinition, team: Id, spec: ChildSpec)
    requires AsksFor(d, parent, p, team, spec)
    ensures WorksOn(Creation(sensitive, d), p, spec)
  {
  }

  lemma BundleTold(sensitive: set<string>, d: RunDefinition, parent: Id, p: RunDefinition, team: Id, spec: ChildSpec)
    requires AsksFor(d, parent, p, team, spec)
    ensures RunsBundle(Creation(sensitive, d), sensitive, p, spec)
  {
  }

  lemma MetadataTold(sensitive: set<string>, d: RunDefinition, p: RunDefinition, spec: ChildSpec)
    requires Overlays(d.metadata, p.metadata, spec.metadata)
    ensures CarriesMetadata(Creation(sensitive, d), sensitive, p, spec)
  {
    var e := Creation(sensitive, d);
    KeptFields(sensitive, e.intact, d.metadata, e.definition.metadata);
  }

  lemma KeptFields(sensitive: set<string>, intact: bool, m: Object, stored: Object)
    requires stored == if intact then RedactObject(sensitive, m) else m
    ensures stored.Keys == m.Keys && forall k | k in m :: stored[k] == KeptValue(sensitive, intact, k, m[k])
  {
    if intact { RedactedFields(sensitive, m); }
  }

  lemma RedactedFields(sensitive: set<string>, m: Object)
    ensures RedactObject(sensitive, m).Keys == m.Keys
    ensures forall k | k in m ::
      RedactObject(sensitive, m)[k] == if Sensitive(sensitive, k) then Str("[REDACTED]") else Redact(sensitive, m[k])
  {
    var v := Dict(m);
    assert Redact(sensitive, v).fields.Keys == m.Keys;
  }

  // ----- The members of a team -----

  /** Replay numbers a team by the first one created on the stream. */
  lemma {:induction false} TeamExactly(log: seq<Event>)
    ensures TeamIdOf(log).None? <==> forall e | e in log :: !e.TeamCreated?
    ensures forall i | 0 <= i < |log| && log[i].TeamCreated? && (forall j | 0 <= j < i :: !log[j].TeamCreated?) ::
      TeamIdOf(log) == Some(log[i].teamId)
  {
    if log != [] {
      var n := |log| - 1;
      TeamExactly(log[..n]);
      assert log == log[..n] + [log[n]];
    }
  }

  /** The event says how the member stands. */
  function Says(e: Event, run: Id): Option<MemberStatus> {
    if e.MemberSpawned? && e.member.runId == run then Some(MemberCreated)
    else if e.MemberCompleted? && e.runId == run then Some(MemberDone)
    else if e.MemberFailed? && e.runId == run then Some(MemberBroken)
    else None
  }

  predicate Joins(e: Event, run: Id) { e.MemberSpawned? && e.member.runId == run }

  lemma StepTold(members: map<Id, Standing>, e: Event, run: Id)
    ensures run in MemberStep(members, e) <==> run in members || Joins(e, run)
    ensures Joins(e, run) ==> MemberStep(members, e)[run] == Standing(e.member, MemberCreated)
    ensures run in members && !Joins(e, run) ==>
      MemberStep(members, e)[run]
      == Standing(members[run].member, if Says(e, run).Some? then Says(e, run).value else members[run].status)
  {
  }

  /** The members of a team are the runs recorded as spawned. */
  lemma {:induction false} MembersAre(log: seq<Event>, run: Id)
    ensures run in Members(log) <==> exists e :: e in log && Joins(e, run)
  {
    if log != [] {
      var n := |log| - 1;
      MembersAre(log[..n], run);
      StepTold(Members(log[..n]), log[n], run);
      assert log == log[..n] + [log[n]];
    }
  }

  /** A member has the role and the goal that were last recorded. */
  lemma {:induction false} MemberIsLast(log: seq<Event>, run: Id, i: nat)
    requires i < |log| && Joins(log[i], run) && forall j | i < j < |log| :: !Joins(log[j], run)
    ensures run in Members(log) && Members(log)[run].member == log[i].member
  {
    var n := |log| - 1;
    StepTold(Members(log[..n]), log[n], run);
    if i < n { MemberIsLast(log[..n], run, i); }
  }

  /** A member stands as the last event about it says, from the first record on. */
  lemma {:induction false} MemberStands(log: seq<Event>, run: Id, k: nat, i: nat)
    requires k <= i < |log| && Joins(log[k], run) && Says(log[i], run).Some?
    requires forall j | i < j < |log| :: Says(log[j], run).None?
    ensures run in Members(log) && Members(log)[run].status == Says(log[i], run).value
  {
    var n := |log| - 1;
    MembersAre(log, run);
    StepTold(Members(log[..n]), log[n], run);
    if i < n {
      MemberStands(log[..n], run, k, i);
    } else if k < n {
      assert log[k] in log[..n];
      MembersAre(log[..n], run);
    }
  }

  // ----- Goals and roles on record -----

  /** The member's entry and the run's own stream tell the same goal and role. */
  predicate Agrees(log: seq<Event>, member: TeamMember) {
    && log != [] && log[0].RunCreated?
    && member.goal == RedactText(log[0].definition.goal) && member.role == RedactText(log[0].definition.role)
    && (log[0].intact ==> member.goal == log[0].definition.goal && member.role == log[0].definition.role)
  }

  predicate MemberOk(w: World, r: Id, c: Id)
    requires r in w.logs && c in Members(w.logs[r])
  {
    c in w.logs && Members(w.logs[r])[c].member.runId == c && Agrees(w.logs[c], Members(w.logs[r])[c].member)
  }

  predicate RosterOk(w: World, r: Id)
    requires r in w.logs
  {
    forall c | c in Members(w.logs[r]) :: MemberOk(w, r, c)
  }

  predicate RostersOk(w: World) { forall r | r in w.logs :: RosterOk(w, r) }

  /** Streams only grow. */
  predicate Later(w: World, next: World) {
    forall r | r in w.logs :: r in next.logs && w.logs[r] <= next.logs[r] && w.logs[r] != []
  }

  lemma AgreesLater(log: seq<Event>, next: seq<Event>, member: TeamMember)
    requires log <= next && Agrees(log, member)
    ensures Agrees(next, member)
  {
    assert next[0] == log[0];
  }

  /** The new events record no member. */
  lemma {:induction false} SameRoster(w: World, next: World, r: Id)
    requires Later(w, next) && r in w.logs && RosterOk(w, r)
    requires forall c :: c in Members(next.logs[r]) ==>
      c in Members(w.logs[r]) && Members(next.logs[r])[c].member == Members(w.logs[r])[c].member
    ensures RosterOk(next, r)
  {
    forall c | c in Members(next.logs[r]) ensures MemberOk(next, r, c) {
      assert MemberOk(w, r, c);
      AgreesLater(w.logs[c], next.logs[c], Members(w.logs[r])[c].member);
    }
  }

  predicate Quiet(events: seq<Event>) { forall e | e in events :: !e.MemberSpawned? }

  predicate SameMembers(before: map<Id, Standing>, after: map<Id, Standing>) {
    before.Keys == after.Keys && forall c | c in before :: after[c].member == before[c].member
  }

  lemma {:induction false} QuietMembers(log: seq<Event>, events: seq<Event>)
    requires Quiet(events)
    ensures SameMembers(Members(log), Members(log + events))
    decreases |events|
  {
    if events == [] {
      assert log + [] == log;
    } else {
      var n := |events| - 1;
      QuietMembers(log, events[..n]);
      assert (log + events)[..|log| + n] == log + events[..n];
      assert events[n] in events;
    }
  }

  lemma QuietRoster(w: World, next: World, r: Id, events: seq<Event>)
    requires Later(w, next) && r in w.logs && RosterOk(w, r) && next.logs[r] == w.logs[r] + events && Quiet(events)
    ensures RosterOk(next, r)
  {
    QuietMembers(w.logs[r], events);
    SameRoster(w, next, r);
  }

  lemma NewRoster(next: World, r: Id, creation: Event)
    requires r in next.logs && next.logs[r] == [creation] && creation.RunCreated?
    ensures RosterOk(next, r)
  {
    var none: seq<Event> := [];
    assert [creation][..0] == none;
    assert Members([creation]) == map[];
  }

  lemma CreationAgrees(sensitive: set<string>, d: RunDefinition, run: Id)
    ensures Agrees([Creation(sensitive, d)], TeamMember(run, RedactText(d.role), RedactText(d.goal)))
  {
    RedactTextIsClean(d.goal);
    RedactTextFixed(RedactText(d.goal));
    RedactTextIsClean(d.role);
    RedactTextFixed(RedactText(d.role));
  }

  /** The parent's roster once the member is recorded. */
  lemma RecordedRoster(w: World, next: World, parent: Id, child: Id, events: seq<Event>, member: TeamMember)
    requires Later(w, next) && parent in w.logs && RosterOk(w, parent) && Quiet(events) && child in next.logs
    requires next.logs[parent] == w.logs[parent] + (events + [MemberSpawned(member)])
    requires member.runId == child && Agrees(next.logs[child], member)
    ensures RosterOk(next, parent)
  {
    var log := w.logs[parent] + events;
    QuietMembers(w.logs[parent], events);
    assert (w.logs[parent] + (events + [MemberSpawned(member)]))[..|log|] == log;
    assert Members(next.logs[parent]) == Members(log)[child := Standing(member, MemberCreated)];
    forall c | c in Members(next.logs[parent]) ensures MemberOk(next, parent, c) {
      if c != child {
        assert MemberOk(w, parent, c);
        AgreesLater(w.logs[c], next.logs[c], Members(w.logs[parent])[c].member);
      }
    }
  }

  /** Everything a spawn appends before the record is quiet. */
  lemma CourseIsQuiet(
      registry: Registry, p: RunDefinition, team: Option<Id>, members: nat, spec: ChildSpec, d: RunDefinition,
      newTeam: Id, child: Id, faults: set<Stage>) returns (events: seq<Event>)
    ensures var course := CourseOf(registry, p, team, members, spec, d, newTeam, child, faults);
      && Quiet(events)
      && (if course.result.Ok? then
            course.appended
            == events + [MemberSpawned(TeamMember(child, RedactText(spec.role), RedactText(spec.goal)))]
          else course.appended == events)
      && (course.result.Ok? ==> course.created)
  {
    var course := CourseOf(registry, p, team, members, spec, d, newTeam, child, faults);
    events := if course.result.Ok? then course.appended[..|course.appended| - 1] else course.appended;
  }

  lemma FollowedRosters(
      w: World, parent: Id, child: Id, creation: Event, course: Course, events: seq<Event>, member: TeamMember)
    requires AllFounded(w) && RostersOk(w) && parent in w.logs && child !in w.logs && creation.RunCreated?
    requires Quiet(events) && member.runId == child && Agrees([creation], member)
    requires course.appended == events || (course.appended == events + [MemberSpawned(member)] && course.created)
    ensures RostersOk(Followed(w, parent, child, creation, course))
  {
    var next := Followed(w, parent, child, creation, course);
    FollowedLater(w, parent, child, creation, course);
    forall r | r in next.logs ensures RosterOk(next, r) {
      if r == parent {
        assert RosterOk(w, r);
        if course.appended == events { QuietRoster(w, next, r, events); }
        else { RecordedRoster(w, next, parent, child, events, member); }
      } else if r in w.logs {
        assert RosterOk(w, r);
        assert w.logs[r] + [] == w.logs[r];
        QuietRoster(w, next, r, []);
      } else {
        NewRoster(next, r, creation);
      }
    }
  }

  lemma FollowedLater(w: World, parent: Id, child: Id, creation: Event, course: Course)
    requires AllFounded(w) && parent in w.logs && child !in w.logs
    ensures Later(w, Followed(w, parent, child, creation, course))
  {
    forall r | r in w.logs ensures w.logs[r] != [] { assert Founded(w.logs[r]); }
  }

  lemma SpawnRosters(
      registry: Registry, w: World, parent: Id, spec: ChildSpec, newTeam: Id, child: Id, faults: set<Stage>)
    requires AllFounded(w) && RostersOk(w) && child !in w.logs && child != parent
    ensures RostersOk(Spawn(registry, w, parent, spec, newTeam, child, faults).0)
  {
    if parent in w.logs && GetRun(w.logs[parent]).Ok? {
      var log := w.logs[parent];
      var members := if TeamIdOf(log).Some? then |Members(log)| else 0;
      var d := ChildDefinition(parent, Definition(log), TeamIdOf(log).UnwrapOr(newTeam), spec);
      AskedIsBuilt(d, parent, Definition(log), TeamIdOf(log).UnwrapOr(newTeam), spec);
      SpawnExactly(registry, w, parent, spec, newTeam, child, faults, d);
      var events := CourseIsQuiet(registry, Definition(log), TeamIdOf(log), members, spec, d, newTeam, child, faults);
      CreationAgrees(registry.sensitive, d, child);
      FollowedRosters(w, parent, child, Creation(registry.sensitive, d),
                      CourseOf(registry, Definition(log), TeamIdOf(log), members, spec, d, newTeam, child, faults),
                      events, TeamMember(child, RedactText(spec.role), RedactText(spec.goal)));
    }
  }

  lemma OtherRosters(w: World, next: World, r: Id, events: seq<Event>)
    requires AllFounded(w) && RostersOk(w) && Quiet(events)
    requires next.logs == if r in w.logs then w.logs[r := w.logs[r] + events] else w.logs[r := events]
    requires r !in w.logs ==> |events| == 1 && events[0].RunCreated?
    ensures RostersOk(next)
  {
    forall x | x in w.logs ensures w.logs[x] != [] && w.logs[x] <= next.logs[x] { assert Founded(w.logs[x]); }
    forall x | x in next.logs ensures RosterOk(next, x) {
      if x in w.logs {
        assert RosterOk(w, x);
        assert w.logs[x] + [] == w.logs[x];
        QuietRoster(w, next, x, if x == r then events else []);
      } else {
        NewRoster(next, x, events[0]);
      }
    }
  }

  lemma NextRosters(registry: Registry, w: World, move: Move)
    requires AllFounded(w) && RostersOk(w)
    ensures RostersOk(Next(registry, w, move))
  {
    match move
    case Create(id, definition) =>
      if id !in w.logs { OtherRosters(w, Next(registry, w, move), id, [Creation(registry.sensitive, definition)]); }
    case Emit(run, event) =>
      if run in w.logs && !event.TeamCreated? && !event.MemberSpawned? {
        OtherRosters(w, Next(registry, w, move), run, [event]);
      }
    case SpawnChild(parent, spec, newTeam, child, faults) =>
      if child !in w.logs && child != parent { SpawnRosters(registry, w, parent, spec, newTeam, child, faults); }
  }

  lemma {:induction false} ReachableRosters(registry: Registry, moves: seq<Move>)
    ensures AllFounded(After(registry, moves)) && RostersOk(After(registry, moves))
  {
    ReachableInv(registry, moves);
    if moves != [] {
      ReachableRosters(registry, moves[..|moves| - 1]);
      NextRosters(registry, After(registry, moves[..|moves| - 1]), moves[|moves| - 1]);
    }
  }

  /** Whatever runs were created and spawned: every recorded member is a run, its stream carries the goal and
      the role of its entry if its definition can be read, and otherwise what redaction makes the entry from. */
  lemma MembersTellTheTruth(registry: Registry, moves: seq<Move>, r: Id, c: Id)
    requires r in After(registry, moves).logs && c in Members(After(registry, moves).logs[r])
    ensures var logs := After(registry, moves).logs;
      c in logs && logs[c] != [] && logs[c][0].RunCreated? && Members(logs[r])[c].member.runId == c
    ensures var logs := After(registry, moves).logs; var member, d := Members(logs[r])[c].member, Definition(logs[c]);
      && member.goal == RedactText(d.goal) && member.role == RedactText(d.role)
      && (Started(logs[c]) ==> member.goal == d.goal && member.role == d.role)
  {
    ReachableRosters(registry, moves);
    assert RosterOk(After(registry, moves), r);
    assert MemberOk(After(registry, moves), r, c);
  }
}
