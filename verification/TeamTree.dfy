/** The size of the tree of runs below a run, and what its members inherit. */
module TeamTree {
  import opened Json
  import opened Models
  import opened Runs
  import opened Definitions
  import opened Team
  import opened TeamBound

  /** The runs `k` spawns below `r`. */
  function Level(f: Forest, r: Id, k: nat): set<Id> {
    if k == 0 then {r} else Offspring(f, Level(f, r, k - 1))
  }

  function Offspring(f: Forest, parents: set<Id>): set<Id> {
    set c | c in f.spawnedBy && f.spawnedBy[c] in parents
  }

  /** The runs at most `n` spawns below `r`, without `r`. */
  function Below(f: Forest, r: Id, n: nat): set<Id> {
    if n == 0 then {} else Below(f, r, n - 1) + Level(f, r, n)
  }

  function Power(b: nat, k: nat): nat { if k == 0 then 1 else b * Power(b, k - 1) }

  /** b + b^2 + ... + b^h */
  function Geometric(b: nat, h: nat): nat { if h == 0 then 0 else Geometric(b, h - 1) + Power(b, h) }

  // ----- Inheritance -----

  /** What a run `k` levels below one with definition `root` has from it. */
  predicate Heir(root: RunDefinition, k: nat, d: RunDefinition) {
    && d.supervisorPolicy == root.supervisorPolicy && d.gradingPolicy == root.gradingPolicy
    && d.depth == root.depth + k
    && (k > 0 ==> d.depth <= root.supervisorPolicy.maxSubagentDepth)
  }

  lemma HeirOfHeir(f: Forest, root: RunDefinition, k: nat, c: Id)
    requires c in f.spawnedBy && ChildOk(f, c) && Heir(root, k, f.runs[f.spawnedBy[c]].definition)
    ensures Heir(root, k + 1, f.runs[c].definition)
  {
  }

  lemma {:induction false} LevelInherits(f: Forest, r: Id, k: nat, c: Id)
    requires ChildrenOk(f) && r in f.runs && c in Level(f, r, k)
    ensures c in f.runs && Heir(f.runs[r].definition, k, f.runs[c].definition)
  {
    if k > 0 {
      assert c in f.spawnedBy && f.spawnedBy[c] in Level(f, r, k - 1);
      LevelInherits(f, r, k - 1, f.spawnedBy[c]);
      assert ChildOk(f, c);
      HeirOfHeir(f, f.runs[r].definition, k - 1, c);
    }
  }

  /** Every run spawned below `r`, directly or not, has the policies of `r`, the depth of its level and
      never more than the limit, and names the run that spawned it and that run's team. */
  lemma DescendantsInherit(registry: Registry, moves: seq<Move>, r: Id, k: nat, c: Id)
    requires r in After(registry, moves).logs && AllFounded(After(registry, moves))
    requires k > 0 && c in Level(ForestOf(After(registry, moves)), r, k)
    ensures var w := After(registry, moves);
      && c in w.logs && c in w.spawnedBy && w.spawnedBy[c] in w.logs
      && var d, root := Definition(w.logs[c]), Definition(w.logs[r]);
      && d.supervisorPolicy == root.supervisorPolicy && d.gradingPolicy == root.gradingPolicy
      && d.depth == root.depth + k <= root.supervisorPolicy.maxSubagentDepth
      && d.parentRunId == Some(w.spawnedBy[c])
      && d.teamId.Some? && d.teamId == TeamIdOf(w.logs[w.spawnedBy[c]])
  {
    ReachableInv(registry, moves);
    var f := ForestOf(After(registry, moves));
    LevelInherits(f, r, k, c);
    assert ChildOk(f, c);
  }

  // ----- Counting -----

  lemma FamilySize(f: Forest, parent: Id, lost: nat)
    requires parent in f.runs && RunOk(f, parent) && |Lost(f, parent)| <= lost
    ensures |Children(f, parent)| <= f.runs[parent].definition.supervisorPolicy.maxSubagents + lost
  {
    assert Children(f, parent) == Recorded(f, parent) + Lost(f, parent);
  }

  lemma {:induction false} OffspringSize(f: Forest, parents: set<Id>, b: nat)
    requires forall p | p in parents :: |Children(f, p)| <= b
    ensures |Offspring(f, parents)| <= b * |parents|
    decreases parents
  {
    if parents == {} {
      assert Offspring(f, parents) == {};
    } else {
      var p :| p in parents;
      OffspringSize(f, parents - {p}, b);
      assert Offspring(f, parents) == Offspring(f, parents - {p}) + Children(f, p);
      Distribute(b, |parents| - 1);
    }
  }

  lemma Distribute(b: nat, n: nat)
    ensures b * (n + 1) == b * n + b
  {
  }

  lemma Monotone(b: nat, x: nat, y: nat)
    requires x <= y
    ensures b * x <= b * y
  {
  }

  /** Families are no larger than the parent's limit and `lost` more. */
  predicate FamiliesBounded(f: Forest, lost: nat) {
    forall p | p in f.runs :: |Children(f, p)| <= f.runs[p].definition.supervisorPolicy.maxSubagents + lost
  }

  predicate AtMostEach(f: Forest, parents: set<Id>, b: nat) { forall p | p in parents :: |Children(f, p)| <= b }

  lemma LevelFamilies(f: Forest, r: Id, k: nat, lost: nat)
    requires ChildrenOk(f) && FamiliesBounded(f, lost) && r in f.runs
    ensures AtMostEach(f, Level(f, r, k), f.runs[r].definition.supervisorPolicy.maxSubagents + lost)
  {
    forall p | p in Level(f, r, k)
      ensures |Children(f, p)| <= f.runs[r].definition.supervisorPolicy.maxSubagents + lost
    { LevelInherits(f, r, k, p); }
  }

  ghost predicate Regular(f: Forest, r: Id, b: nat) { forall k: nat :: AtMostEach(f, Level(f, r, k), b) }

  lemma LevelStep(f: Forest, r: Id, k: nat, b: nat, size: nat)
    requires |Level(f, r, k)| <= size && AtMostEach(f, Level(f, r, k), b)
    ensures |Level(f, r, k + 1)| <= b * size
  {
    OffspringSize(f, Level(f, r, k), b);
    Monotone(b, |Level(f, r, k)|, size);
  }

  lemma {:induction false} LevelSize(f: Forest, r: Id, k: nat, b: nat)
    requires Regular(f, r, b)
    ensures |Level(f, r, k)| <= Power(b, k)
  {
    if k > 0 {
      LevelSize(f, r, k - 1, b);
      LevelStep(f, r, k - 1, b, Power(b, k - 1));
    }
  }

  lemma {:induction false} ShallowSize(f: Forest, r: Id, n: nat, b: nat)
    requires Regular(f, r, b)
    ensures |Below(f, r, n)| <= Geometric(b, n)
  {
    if n > 0 {
      ShallowSize(f, r, n - 1, b);
      LevelSize(f, r, n, b);
    }
  }

  /** How many levels below `r` the depth limit leaves. */
  function Height(d: RunDefinition): nat {
    if d.depth < d.supervisorPolicy.maxSubagentDepth then d.supervisorPolicy.maxSubagentDepth - d.depth else 0
  }

  lemma NothingDeeper(f: Forest, r: Id, k: nat)
    requires ChildrenOk(f) && r in f.runs && k > Height(f.runs[r].definition)
    ensures Level(f, r, k) == {}
  {
    forall c | c in Level(f, r, k) ensures false { LevelInherits(f, r, k, c); }
  }

  lemma {:induction false} BelowHeight(f: Forest, r: Id, n: nat)
    requires ChildrenOk(f) && r in f.runs && n >= Height(f.runs[r].definition)
    ensures Below(f, r, n) == Below(f, r, Height(f.runs[r].definition))
  {
    if n > Height(f.runs[r].definition) {
      NothingDeeper(f, r, n);
      BelowHeight(f, r, n - 1);
    }
  }

  lemma BelowSize(f: Forest, r: Id, n: nat, b: nat)
    requires ChildrenOk(f) && r in f.runs && Regular(f, r, b)
    ensures |Below(f, r, n)| <= Geometric(b, Height(f.runs[r].definition))
  {
    var h := Height(f.runs[r].definition);
    if n > h {
      BelowHeight(f, r, n);
      ShallowSize(f, r, h, b);
    } else {
      ShallowSize(f, r, n, b);
      GeometricGrows(b, n, h);
    }
  }

  /** At most b + b^2 + ... + b^h runs up to `n` levels below `r`, whose definition is `d`: h levels are
      left and b is the limit of subagents and `lost` more. */
  predicate SmallTree(f: Forest, r: Id, d: RunDefinition, n: nat, lost: nat) {
    |Below(f, r, n)| <= Geometric(d.supervisorPolicy.maxSubagents + lost, Height(d))
  }

  predicate FewLost(f: Forest, lost: nat) { forall p | p in f.runs :: |Lost(f, p)| <= lost }

  lemma FewLostFamilies(f: Forest, lost: nat)
    requires Sound(f) && FewLost(f, lost)
    ensures FamiliesBounded(f, lost)
  {
    forall p | p in f.runs
      ensures |Children(f, p)| <= f.runs[p].definition.supervisorPolicy.maxSubagents + lost
    {
      assert RunOk(f, p);
      FamilySize(f, p, lost);
    }
  }

  lemma AllRegular(f: Forest, r: Id, lost: nat)
    requires ChildrenOk(f) && FamiliesBounded(f, lost) && r in f.runs
    ensures Regular(f, r, f.runs[r].definition.supervisorPolicy.maxSubagents + lost)
  {
    var b := f.runs[r].definition.supervisorPolicy.maxSubagents + lost;
    forall k: nat ensures AtMostEach(f, Level(f, r, k), b) { LevelFamilies(f, r, k, lost); }
  }

  lemma RegularTreeBound(f: Forest, r: Id, n: nat, lost: nat)
    requires ChildrenOk(f) && r in f.runs
    requires Regular(f, r, f.runs[r].definition.supervisorPolicy.maxSubagents + lost)
    ensures SmallTree(f, r, f.runs[r].definition, n, lost)
  {
    BelowSize(f, r, n, f.runs[r].definition.supervisorPolicy.maxSubagents + lost);
  }

  /** However often `spawn` is called on whatever runs, with whatever else appended, at most
      b + b^2 + ... + b^h runs are ever spawned below a run, h being the levels its depth leaves and b its
      limit of subagents plus the most memberships any run failed to record. */
  lemma TreeBound(registry: Registry, moves: seq<Move>, r: Id, n: nat, lost: nat)
    requires var w := After(registry, moves); AllFounded(w) && r in w.logs && FewLost(ForestOf(w), lost)
    ensures var w := After(registry, moves); SmallTree(ForestOf(w), r, Definition(w.logs[r]), n, lost)
  {
    ReachableInv(registry, moves);
    var f := ForestOf(After(registry, moves));
    FewLostFamilies(f, lost);
    AllRegular(f, r, lost);
    RegularTreeBound(f, r, n, lost);
  }

  lemma {:induction false} GeometricGrows(b: nat, n: nat, h: nat)
    requires n <= h
    ensures Geometric(b, n) <= Geometric(b, h)
  {
    if n < h { GeometricGrows(b, n, h - 1); }
  }

  // ----- When no membership is lost -----

  predicate Recordable(moves: seq<Move>) {
    forall k | 0 <= k < |moves| :: moves[k].SpawnChild? ==> RecordStage !in moves[k].faults
  }

  predicate AllRecorded(f: Forest) { forall c | c in f.spawnedBy :: c in MembersOf(f, f.spawnedBy[c]) }

  lemma SpawnMemberRecords(
      registry: Registry, w: World, parent: Id, count: nat, team: Id, spec: ChildSpec, child: Id, faults: set<Stage>)
    requires AllFounded(w) && AllRecorded(ForestOf(w)) && parent in w.logs && child !in w.logs && RecordStage !in faults
    ensures var next := SpawnMember(registry, w, parent, count, team, spec, child, faults).0;
      AllFounded(next) && AllRecorded(ForestOf(next))
  {
    SpawnMemberForest(registry, w, parent, count, team, spec, child, faults);
    BornRecorded(ForestOf(w), parent, child, ChildOnRecord(registry, parent, Definition(w.logs[parent]), team, spec));
  }

  lemma SpawnRecords(
      registry: Registry, w: World, parent: Id, spec: ChildSpec, newTeam: Id, child: Id, faults: set<Stage>)
    requires AllFounded(w) && AllRecorded(ForestOf(w)) && child !in w.logs && RecordStage !in faults && parent in w.logs
    ensures var next := Spawn(registry, w, parent, spec, newTeam, child, faults).0;
      AllFounded(next) && AllRecorded(ForestOf(next))
  {
    SpawnIs(registry, w, parent, spec, newTeam, child, faults);
    if Spawn(registry, w, parent, spec, newTeam, child, faults).0 != w {
      WithTeamForest(w, parent, newTeam);
      SpawnMemberRecords(registry, WithTeam(w, parent, newTeam), parent, MemberCount(w.logs[parent]),
                         TeamIdOf(w.logs[parent]).UnwrapOr(newTeam), spec, child, faults);
    }
  }

  lemma BornRecorded(f: Forest, parent: Id, child: Id, d: RunDefinition)
    requires AllRecorded(f) && parent in f.runs && child !in f.runs
    ensures AllRecorded(Recording(Born(f, parent, child, d), parent, child))
  {
  }

  lemma {:induction false} NothingLost(registry: Registry, moves: seq<Move>)
    requires Recordable(moves)
    ensures AllFounded(After(registry, moves)) && AllRecorded(ForestOf(After(registry, moves)))
  {
    if moves != [] {
      var w := After(registry, moves[..|moves| - 1]);
      NothingLost(registry, moves[..|moves| - 1]);
      match moves[|moves| - 1]
      case Create(id, definition) =>
        CreationFounds(registry.sensitive, definition);
        if id !in w.logs { NewForest(w, id, Creation(registry.sensitive, definition), w.spawnedBy); }
      case Emit(run, event) =>
        if run in w.logs && !event.TeamCreated? && !event.MemberSpawned? { NeutralKeeps(w, run, event); }
      case SpawnChild(parent, spec, newTeam, child, faults) =>
        if child !in w.logs && parent in w.logs { SpawnRecords(registry, w, parent, spec, newTeam, child, faults); }
    }
  }

  /** With every created child recorded, m subagents at most and h levels left, there are never more than
      m + m^2 + ... + m^h runs below a run. */
  lemma RecordedTreeBound(registry: Registry, moves: seq<Move>, r: Id, n: nat)
    requires Recordable(moves) && r in After(registry, moves).logs
    ensures var w := After(registry, moves); AllFounded(w) && SmallTree(ForestOf(w), r, Definition(w.logs[r]), n, 0)
  {
    NothingLost(registry, moves);
    NoneLost(ForestOf(After(registry, moves)));
    TreeBound(registry, moves, r, n, 0);
  }

  lemma NoneLost(f: Forest)
    requires AllRecorded(f)
    ensures FewLost(f, 0)
  {
    forall p | p in f.runs ensures |Lost(f, p)| <= 0 { assert Lost(f, p) == {}; }
  }

  // ----- A lost membership escapes the limit -----

  /** A run with a team and no member that may spawn. */
  predicate Roomy(log: seq<Event>, d: RunDefinition) {
    && Started(log) && GetRun(log).Ok? && Definition(log) == d && HasRoom(0, d)
    && TeamIdOf(log).Some? && Members(log) == map[]
  }

  /** The child that `spec` describes is valid and its harness and graders are registered. */
  predicate Spawnable(registry: Registry, parent: Id, d: RunDefinition, team: Id, spec: ChildSpec) {
    Declared(ChildDefinition(parent, d, team, spec)) && Registered(registry, ChildDefinition(parent, d, team, spec))
  }

  /** Team events other than memberships leave a run roomy. */
  lemma RoomyNext(log: seq<Event>, d: RunDefinition, e: Event)
    requires Roomy(log, d) && (e.MemberSpawnRequested? || e.MemberSpawnFailed?)
    ensures Roomy(log + [e], d) && TeamIdOf(log + [e]) == TeamIdOf(log)
  {
    assert (log + [e])[..|log|] == log;
    ReplayNext(log, e);
  }

  /** A spawn whose membership append fails leaves a child that the parent's count does not see. */
  lemma LostSpawn(registry: Registry, w: World, r: Id, d: RunDefinition, spec: ChildSpec, newTeam: Id, child: Id)
    requires r in w.logs && Roomy(w.logs[r], d) && child !in w.logs
    requires Spawnable(registry, r, d, TeamIdOf(w.logs[r]).value, spec)
    ensures var next := Spawn(registry, w, r, spec, newTeam, child, {RecordStage}).0;
      && next.logs.Keys == w.logs.Keys + {child} && next.spawnedBy == w.spawnedBy[child := r]
      && Roomy(next.logs[r], d) && TeamIdOf(next.logs[r]) == TeamIdOf(w.logs[r])
  {
    RoomyNext(w.logs[r], d, MemberSpawnRequested(child));
  }

  /** Create a run, give it a team, and then spawn `n` children whose memberships are all refused. */
  function EscapeMoves(d: RunDefinition, spec: ChildSpec, n: nat): seq<Move> {
    if n == 0 then [Create(0, d), SpawnChild(0, spec, 1, 2, {RequestStage})]
    else EscapeMoves(d, spec, n - 1) + [SpawnChild(0, spec, 1, 1 + n, {RecordStage})]
  }

  lemma AfterNext(registry: Registry, moves: seq<Move>, move: Move)
    ensures After(registry, moves + [move]) == Next(registry, After(registry, moves), move)
  {
    assert (moves + [move])[..|moves|] == moves;
  }

  /** The first event of a run whose definition is stored as it is. */
  function Founding(d: RunDefinition): Event { RunCreated(d, true) }

  lemma RoomyStart(d: RunDefinition)
    requires HasRoom(0, d) && StoredGrading(d.gradingPolicy) == d.gradingPolicy
    ensures Roomy([Founding(d)] + [TeamCreated(1)], d)
    ensures TeamIdOf([Founding(d)]) == None && TeamIdOf([Founding(d)] + [TeamCreated(1)]) == Some(1)
    ensures GetRun([Founding(d)]).Ok? && Members([Founding(d)]) == map[]
  {
    var log := [Founding(d)];
    NewDigest(Founding(d));
    assert Members(log) == map[];
    ReplayNext(log, TeamCreated(1));
    assert (log + [TeamCreated(1)])[..1] == log;
  }

  lemma StartMove(registry: Registry, d: RunDefinition, spec: ChildSpec)
    requires HasRoom(0, d) && StoredGrading(d.gradingPolicy) == d.gradingPolicy
    ensures var w := World(map[0 := [Founding(d)]], map[]);
      Next(registry, w, SpawnChild(0, spec, 1, 2, {RequestStage}))
      == World(map[0 := [Founding(d)] + [TeamCreated(1)]], map[])
  {
    RoomyStart(d);
  }

  lemma EscapeStart(registry: Registry, d: RunDefinition, spec: ChildSpec)
    requires HasRoom(0, d) && Creation(registry.sensitive, d) == Founding(d)
    requires StoredGrading(d.gradingPolicy) == d.gradingPolicy
    ensures After(registry, EscapeMoves(d, spec, 0)) == World(map[0 := [Founding(d)] + [TeamCreated(1)]], map[])
  {
    var first := [Create(0, d)];
    AfterNext(registry, [], Create(0, d));
    assert first == [] + [Create(0, d)];
    AfterNext(registry, first, SpawnChild(0, spec, 1, 2, {RequestStage}));
    assert EscapeMoves(d, spec, 0) == first + [SpawnChild(0, spec, 1, 2, {RequestStage})];
    StartMove(registry, d, spec);
  }

  predicate Escaped(w: World, d: RunDefinition, n: nat) {
    && 0 in w.logs && Roomy(w.logs[0], d) && TeamIdOf(w.logs[0]) == Some(1)
    && (forall r | r in w.logs :: r < 2 + n) && |w.spawnedBy.Keys| == n
    && (forall c | c in w.spawnedBy :: c in w.logs && w.spawnedBy[c] == 0)
  }

  lemma EscapedAgain(w: World, next: World, d: RunDefinition, n: nat)
    requires Escaped(w, d, n) && next.logs.Keys == w.logs.Keys + {2 + n} && next.spawnedBy == w.spawnedBy[2 + n := 0]
    requires Roomy(next.logs[0], d) && TeamIdOf(next.logs[0]) == Some(1)
    ensures Escaped(next, d, n + 1)
  {
    OneMoreKey(w.spawnedBy, 2 + n);
    assert forall r | r in next.logs :: r in w.logs || r == 2 + n;
  }

  lemma OneMoreKey(m: map<Id, Id>, c: Id)
    requires c !in m
    ensures |m[c := 0].Keys| == |m.Keys| + 1
  {
    assert m[c := 0].Keys == m.Keys + {c};
  }

  lemma EscapeStep(registry: Registry, w: World, d: RunDefinition, spec: ChildSpec, n: nat)
    requires Escaped(w, d, n) && Spawnable(registry, 0, d, 1, spec)
    ensures Escaped(Spawn(registry, w, 0, spec, 1, 2 + n, {RecordStage}).0, d, n + 1)
  {
    LostSpawn(registry, w, 0, d, spec, 1, 2 + n);
    EscapedAgain(w, Spawn(registry, w, 0, spec, 1, 2 + n, {RecordStage}).0, d, n);
  }

  lemma EscapedAtStart(registry: Registry, d: RunDefinition, spec: ChildSpec)
    requires HasRoom(0, d) && Creation(registry.sensitive, d) == Founding(d)
    requires StoredGrading(d.gradingPolicy) == d.gradingPolicy
    ensures Escaped(After(registry, EscapeMoves(d, spec, 0)), d, 0)
  {
    EscapeStart(registry, d, spec);
    RoomyStart(d);
  }

  lemma EscapeMove(registry: Registry, w: World, d: RunDefinition, spec: ChildSpec, n: nat)
    requires Escaped(w, d, n) && Spawnable(registry, 0, d, 1, spec)
    ensures Escaped(Next(registry, w, SpawnChild(0, spec, 1, 2 + n, {RecordStage})), d, n + 1)
  {
    EscapeStep(registry, w, d, spec, n);
    assert 2 + n !in w.logs;
  }

  lemma {:induction false} Escape(registry: Registry, d: RunDefinition, spec: ChildSpec, n: nat)
    requires HasRoom(0, d) && Spawnable(registry, 0, d, 1, spec) && Creation(registry.sensitive, d) == Founding(d)
    requires StoredGrading(d.gradingPolicy) == d.gradingPolicy
    ensures Escaped(After(registry, EscapeMoves(d, spec, n)), d, n)
  {
    if n == 0 {
      EscapedAtStart(registry, d, spec);
    } else {
      Escape(registry, d, spec, n - 1);
      var before := EscapeMoves(d, spec, n - 1);
      EscapeMove(registry, After(registry, before), d, spec, n - 1);
      AfterNext(registry, before, SpawnChild(0, spec, 1, 1 + n, {RecordStage}));
    }
  }

  lemma AllOfThem(w: World, d: RunDefinition, n: nat)
    requires Escaped(w, d, n) && AllFounded(w)
    ensures |Children(ForestOf(w), 0)| == n
  {
    assert Children(ForestOf(w), 0) == w.spawnedBy.Keys;
  }

  /** The limit of subagents alone bounds nothing: for every n there is a run with n children, whatever its
      limit, when the appends of their memberships fail. */
  lemma LimitEscaped(registry: Registry, definition: RunDefinition, spec: ChildSpec, n: nat)
    requires FieldsPass(registry.sensitive) && Declared(definition) && Survives(registry.sensitive, definition)
    requires var d := Stored(registry.sensitive, definition); HasRoom(0, d) && Spawnable(registry, 0, d, 1, spec)
    ensures exists moves ::
      AllFounded(After(registry, moves)) && |Children(ForestOf(After(registry, moves)), 0)| == n
  {
    var d := Stored(registry.sensitive, definition);
    StoredIsFixed(registry.sensitive, definition);
    var moves := EscapeMoves(d, spec, n);
    Escape(registry, d, spec, n);
    ReachableInv(registry, moves);
    AllOfThem(After(registry, moves), d, n);
  }
}
