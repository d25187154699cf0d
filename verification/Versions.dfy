/**
 The agent version store (infrastructure/version_store.py).

 `Tables` holds the three tables. `Perform` is what one transaction does, decided from statuses and the
 active pointer as the store decides it; the class is proved equal to it. `PerformByHistory` decides the
 same operations from the activation history alone. The two agree on every reachable state.
 */
module Versions {
  import opened Json
  import opened Models

  datatype VersionStatus = Candidate | Active | Superseded | Rejected

  datatype Record = Record(
    id: Id, agentName: string, version: nat, parentId: Option<Id>, bundle: AgentBundle, status: VersionStatus)

  datatype Action = InitialActivation | Promotion | Rollback

  datatype Entry = Entry(agentName: string, action: Action, fromId: Option<Id>, toId: Id)

  datatype Tables = Tables(records: map<Id, Record>, pointers: map<string, Id>, history: seq<Entry>)

  datatype VersionError =
    | AlreadyInitialized | NoSuchVersion | WrongAgent | DuplicateBundle | NotACandidate | StaleActive
    | NoActiveVersion | NeverActive | AlreadyActive | IntegrityError

  // ----- What the history says -----

  /** The versions that one agent activated, in order. */
  function Activations(history: seq<Entry>, agent: string): seq<Id> {
    if history == [] then []
    else
      var last := history[|history| - 1];
      Activations(history[..|history| - 1], agent) + if last.agentName == agent then [last.toId] else []
  }

  function Last(ids: seq<Id>): Option<Id> { if ids == [] then None else Some(ids[|ids| - 1]) }

  function DerivedStatus(activated: seq<Id>, id: Id): VersionStatus {
    if id !in activated then Candidate else if Last(activated) == Some(id) then Active else Superseded
  }

  predicate Owns(records: map<Id, Record>, agent: string, id: Id) {
    id in records && records[id].agentName == agent
  }

  function VersionsOf(records: map<Id, Record>, agent: string): set<Id> {
    set id | id in records && Owns(records, agent, id)
  }

  function PointerOf(pointers: map<string, Id>, agent: string): Option<Id> {
    if agent in pointers then Some(pointers[agent]) else None
  }

  // ----- The invariant -----

  /** The status is what the history says. */
  predicate StatusOk(r: Record, history: seq<Entry>) {
    r.status == DerivedStatus(Activations(history, r.agentName), r.id)
  }

  /** The first version has no parent; every other one has a parent of the same agent with a smaller number. */
  predicate ParentOk(r: Record, records: map<Id, Record>) {
    && r.bundle.name == r.agentName
    && (r.parentId.None? <==> r.version == 1)
    && (r.parentId.Some? ==> Owns(records, r.agentName, r.parentId.value)
                             && records[r.parentId.value].version < r.version)
  }

  predicate NumberOk(r: Record, records: map<Id, Record>) {
    1 <= r.version <= |VersionsOf(records, r.agentName)|
  }

  predicate Keyed(records: map<Id, Record>) { forall id | id in records :: records[id].id == id }

  predicate Statuses(t: Tables) { forall id | id in t.records :: StatusOk(t.records[id], t.history) }

  predicate Parents(records: map<Id, Record>) { forall id | id in records :: ParentOk(records[id], records) }

  predicate Numbers(records: map<Id, Record>) { forall id | id in records :: NumberOk(records[id], records) }

  predicate Apart(a: Record, b: Record) {
    a.agentName == b.agentName ==> a.version != b.version && a.bundle != b.bundle
  }

  predicate AllApart(records: map<Id, Record>) {
    forall a, b | a in records && b in records && a != b :: Apart(records[a], records[b])
  }

  ghost predicate Pointers(t: Tables) {
    forall agent :: PointerOf(t.pointers, agent) == Last(Activations(t.history, agent))
  }

  /** Only versions of an agent are activated for it. */
  ghost predicate Owned(t: Tables) {
    forall agent, id | id in Activations(t.history, agent) :: Owns(t.records, agent, id)
  }

  /** Every activation starts from the version that was active before. */
  predicate Chained(history: seq<Entry>) {
    forall k | 0 <= k < |history| ::
      history[k].fromId == Last(Activations(history[..k], history[k].agentName))
  }

  ghost predicate Inv(t: Tables) {
    && Keyed(t.records) && Statuses(t) && Pointers(t) && Owned(t) && Chained(t.history)
    && Numbers(t.records) && AllApart(t.records) && Parents(t.records)
  }

  // ----- The operations, as the store decides them -----

  datatype Op =
    | CreateInitial(id: Id, bundle: AgentBundle, activate: bool)
    | CreateCandidate(id: Id, parentId: Id, bundle: AgentBundle)
    | Promote(versionId: Id, expectedActive: Option<Id>)
    | RollBack(agentName: string, target: Id, current: Id)

  predicate HasBundle(records: map<Id, Record>, bundle: AgentBundle) {
    exists x | x in records :: Owns(records, bundle.name, x) && records[x].bundle == bundle
  }

  ghost predicate IsHighest(records: map<Id, Record>, agent: string, highest: nat) {
    && (forall x | x in VersionsOf(records, agent) :: records[x].version <= highest)
    && (exists x :: x in VersionsOf(records, agent) && records[x].version == highest)
  }

  lemma {:induction false} HighestExists(records: map<Id, Record>, ids: set<Id>)
    requires ids <= records.Keys && ids != {}
    ensures exists top :: top in ids && forall x | x in ids :: records[x].version <= records[top].version
  {
    var one :| one in ids;
    if ids != {one} {
      HighestExists(records, ids - {one});
      var top :| top in ids - {one} && forall x | x in ids - {one} :: records[x].version <= records[top].version;
      var best := if records[one].version <= records[top].version then top else one;
      assert best in ids && forall x | x in ids :: records[x].version <= records[best].version;
    }
  }

  ghost function Highest(records: map<Id, Record>, agent: string): (highest: nat)
    requires VersionsOf(records, agent) != {}
    ensures IsHighest(records, agent, highest)
  {
    HighestExists(records, VersionsOf(records, agent));
    var top :| top in VersionsOf(records, agent)
               && forall x | x in VersionsOf(records, agent) :: records[x].version <= records[top].version;
    records[top].version
  }

  /** The row of a missing version is left alone. */
  function Marked(records: map<Id, Record>, id: Id, status: VersionStatus): map<Id, Record> {
    if id in records then records[id := records[id].(status := status)] else records
  }

  function Superseding(records: map<Id, Record>, previous: Option<Id>, id: Id): map<Id, Record> {
    Marked(match previous case Some(p) => Marked(records, p, Superseded) case None => records, id, Active)
  }

  function Switch(t: Tables, agent: string, action: Action, id: Id): Tables {
    var previous := PointerOf(t.pointers, agent);
    Tables(
      Superseding(t.records, previous, id), t.pointers[agent := id], t.history + [Entry(agent, action, previous, id)])
  }

  function Initialized(t: Tables, id: Id, bundle: AgentBundle, activate: bool): Tables {
    var record := Record(id, bundle.name, 1, None, bundle, if activate then Active else Candidate);
    Tables(
      t.records[id := record],
      if activate then t.pointers[bundle.name := id] else t.pointers,
      t.history + if activate then [Entry(bundle.name, InitialActivation, None, id)] else [])
  }

  ghost function Perform(t: Tables, op: Op): Result<Tables, VersionError> {
    match op
    case CreateInitial(id, bundle, activate) =>
      if VersionsOf(t.records, bundle.name) != {} then Err(AlreadyInitialized)
      else if id in t.records then Err(IntegrityError)
      else Ok(Initialized(t, id, bundle, activate))
    case CreateCandidate(id, parentId, bundle) =>
      if parentId !in t.records then Err(NoSuchVersion)
      else if t.records[parentId].agentName != bundle.name then Err(WrongAgent)
      else if HasBundle(t.records, bundle) then Err(DuplicateBundle)
      else if id in t.records then Err(IntegrityError)
      else
        assert parentId in VersionsOf(t.records, bundle.name);
        var version := Highest(t.records, bundle.name) + 1;
        Ok(t.(records := t.records[id := Record(id, bundle.name, version, Some(parentId), bundle, Candidate)]))
    case Promote(id, expected) =>
      if id !in t.records then Err(NoSuchVersion)
      else if t.records[id].status != Candidate then Err(NotACandidate)
      else if PointerOf(t.pointers, t.records[id].agentName) != expected then Err(StaleActive)
      else Ok(Switch(t, t.records[id].agentName, Promotion, id))
    case RollBack(agent, target, expected) =>
      if agent !in t.pointers then Err(NoActiveVersion)
      else if !Owns(t.records, agent, target) then Err(NoSuchVersion)
      else if t.records[target].status != Superseded && t.records[target].status != Active then Err(NeverActive)
      else if t.pointers[agent] != expected then Err(StaleActive)
      else if t.pointers[agent] == target then Err(AlreadyActive)
      else Ok(Switch(t, agent, Rollback, target))
  }

  /** A transaction that fails changes nothing. */
  ghost function After(t: Tables, op: Op): Tables {
    match Perform(t, op) { case Ok(next) => next case Err(_) => t }
  }

  const EMPTY := Tables(map[], map[], [])

  ghost function AfterAll(ops: seq<Op>): Tables {
    if ops == [] then EMPTY else After(AfterAll(ops[..|ops| - 1]), ops[|ops| - 1])
  }

  // ----- The store itself -----

  class SqlAgentVersionStore {
    var records: map<Id, Record>
    var pointers: map<string, Id>
    var history: seq<Entry>

    ghost function State(): Tables
      reads this
    {
      Tables(records, pointers, history)
    }

    constructor ()
      ensures State() == EMPTY
    {
      records, pointers, history := map[], map[], [];
    }

    method CreateInitialVersion(id: Id, bundle: AgentBundle, activate: bool) returns (r: Result<Record, VersionError>)
      modifies this
      ensures match Perform(old(State()), CreateInitial(id, bundle, activate))
        case Err(e) => r == Err(e) && State() == old(State())
        case Ok(t) => State() == t && id in records && r == Ok(records[id])
    {
      var existing := set x | x in records && records[x].agentName == bundle.name;
      assert existing == VersionsOf(records, bundle.name);
      if existing != {} { return Err(AlreadyInitialized); }
      if id in records { return Err(IntegrityError); }
      var status := if activate then Active else Candidate;
      var record := Record(id, bundle.name, 1, None, bundle, status);
      records := records[id := record];
      if activate {
        pointers := pointers[bundle.name := id];
        history := history + [Entry(bundle.name, InitialActivation, None, id)];
      }
      r := Ok(record);
    }

    method CreateCandidateVersion(id: Id, parentId: Id, bundle: AgentBundle) returns (r: Result<Record, VersionError>)
      modifies this
      ensures match Perform(old(State()), CreateCandidate(id, parentId, bundle))
        case Err(e) => r == Err(e) && State() == old(State())
        case Ok(t) => State() == t && id in records && r == Ok(records[id])
    {
      if parentId !in records { return Err(NoSuchVersion); }
      if records[parentId].agentName != bundle.name { return Err(WrongAgent); }
      var siblings := set x | x in records && records[x].agentName == bundle.name;
      assert siblings == VersionsOf(records, bundle.name);
      if exists x | x in siblings :: records[x].bundle == bundle { return Err(DuplicateBundle); }
      if id in records { return Err(IntegrityError); }
      assert parentId in siblings;
      var highest := HighestVersion(siblings);
      HighestIsUnique(records, bundle.name, highest);
      var record := Record(id, bundle.name, highest + 1, Some(parentId), bundle, Candidate);
      records := records[id := record];
      r := Ok(record);
    }

    /** The highest version number among an agent's versions. */
    method HighestVersion(siblings: set<Id>) returns (highest: nat)
      requires siblings <= records.Keys && siblings != {}
      ensures forall x | x in siblings :: records[x].version <= highest
      ensures exists x :: x in siblings && records[x].version == highest
    {
      var first :| first in siblings;
      highest := records[first].version;
      var todo := siblings - {first};
      while todo != {}
        invariant todo <= siblings
        invariant forall x | x in siblings - todo :: records[x].version <= highest
        invariant exists x :: x in siblings && records[x].version == highest
      {
        var x :| x in todo;
        if records[x].version > highest { highest := records[x].version; }
        todo := todo - {x};
      }
    }

    method PromoteVersion(versionId: Id, expectedActive: Option<Id>) returns (r: Result<Record, VersionError>)
      modifies this
      ensures match Perform(old(State()), Promote(versionId, expectedActive))
        case Err(e) => r == Err(e) && State() == old(State())
        case Ok(t) => State() == t && versionId in records && r == Ok(records[versionId])
    {
      if versionId !in records { return Err(NoSuchVersion); }
      var record := records[versionId];
      var agent := record.agentName;
      if record.status != Candidate { return Err(NotACandidate); }
      var actualActive := if agent in pointers then Some(pointers[agent]) else None;
      if actualActive != expectedActive { return Err(StaleActive); }
      if actualActive.Some? { SetStatus(actualActive.value, Superseded); }
      SetStatus(versionId, Active);
      pointers := pointers[agent := versionId];
      history := history + [Entry(agent, Promotion, actualActive, versionId)];
      r := Ok(records[versionId]);
    }

    method RollbackVersion(agentName: string, target: Id, expectedActive: Id) returns (r: Result<Record, VersionError>)
      modifies this
      ensures match Perform(old(State()), RollBack(agentName, target, expectedActive))
        case Err(e) => r == Err(e) && State() == old(State())
        case Ok(t) => State() == t && target in records && r == Ok(records[target])
    {
      if agentName !in pointers { return Err(NoActiveVersion); }
      if target !in records || records[target].agentName != agentName { return Err(NoSuchVersion); }
      if records[target].status != Superseded && records[target].status != Active { return Err(NeverActive); }
      if pointers[agentName] != expectedActive { return Err(StaleActive); }
      if pointers[agentName] == target { return Err(AlreadyActive); }
      var previousId := pointers[agentName];
      SetStatus(previousId, Superseded);
      SetStatus(target, Active);
      pointers := pointers[agentName := target];
      history := history + [Entry(agentName, Rollback, Some(previousId), target)];
      r := Ok(records[target]);
    }

    method SetStatus(id: Id, status: VersionStatus)
      modifies this`records
      ensures records == Marked(old(records), id, status)
    {
      if id in records { records := records[id := records[id].(status := status)]; }
    }
  }

  lemma HighestIsUnique(records: map<Id, Record>, agent: string, highest: nat)
    requires IsHighest(records, agent, highest) && VersionsOf(records, agent) != {}
    ensures highest == Highest(records, agent)
  {
    var a :| a in VersionsOf(records, agent) && records[a].version == highest;
    var b :| b in VersionsOf(records, agent) && records[b].version == Highest(records, agent);
  }

  // ----- The same operations, decided from the history alone -----

  function Restatus(records: map<Id, Record>, agent: string, activated: seq<Id>): map<Id, Record> {
    map x | x in records ::
      if records[x].agentName == agent then records[x].(status := DerivedStatus(activated, x)) else records[x]
  }

  /** Activate `id`: one history entry, and statuses and pointer follow. */
  function Activate(t: Tables, agent: string, action: Action, id: Id): Tables {
    var activated := Activations(t.history, agent);
    Tables(
      Restatus(t.records, agent, activated + [id]),
      t.pointers[agent := id],
      t.history + [Entry(agent, action, Last(activated), id)])
  }

  /** A new version gets the next number and starts as a candidate. */
  function NewRecord(records: map<Id, Record>, id: Id, bundle: AgentBundle, parentId: Option<Id>): Record {
    Record(id, bundle.name, |VersionsOf(records, bundle.name)| + 1, parentId, bundle, Candidate)
  }

  function Insert(t: Tables, id: Id, bundle: AgentBundle, parentId: Option<Id>): Tables {
    t.(records := t.records[id := NewRecord(t.records, id, bundle, parentId)])
  }

  function PerformByHistory(t: Tables, op: Op): Result<Tables, VersionError> {
    match op
    case CreateInitial(id, bundle, activate) =>
      if VersionsOf(t.records, bundle.name) != {} then Err(AlreadyInitialized)
      else if id in t.records then Err(IntegrityError)
      else
        var inserted := Insert(t, id, bundle, None);
        Ok(if activate then Activate(inserted, bundle.name, InitialActivation, id) else inserted)
    case CreateCandidate(id, parentId, bundle) =>
      if parentId !in t.records then Err(NoSuchVersion)
      else if t.records[parentId].agentName != bundle.name then Err(WrongAgent)
      else if HasBundle(t.records, bundle) then Err(DuplicateBundle)
      else if id in t.records then Err(IntegrityError)
      else Ok(Insert(t, id, bundle, Some(parentId)))
    case Promote(id, expected) =>
      if id !in t.records then Err(NoSuchVersion)
      else
        var agent := t.records[id].agentName;
        var activated := Activations(t.history, agent);
        if id in activated then Err(NotACandidate)
        else if Last(activated) != expected then Err(StaleActive)
        else Ok(Activate(t, agent, Promotion, id))
    case RollBack(agent, target, expected) =>
      var activated := Activations(t.history, agent);
      if activated == [] then Err(NoActiveVersion)
      else if !Owns(t.records, agent, target) then Err(NoSuchVersion)
      else if target !in activated then Err(NeverActive)
      else if Last(activated) != Some(expected) then Err(StaleActive)
      else if Last(activated) == Some(target) then Err(AlreadyActive)
      else Ok(Activate(t, agent, Rollback, target))
  }

  // ----- Why the two agree -----

  lemma ActivatedHasVersions(t: Tables, agent: string)
    requires Owned(t) && Activations(t.history, agent) != []
    ensures VersionsOf(t.records, agent) != {}
  {
    var first := Activations(t.history, agent)[0];
    assert first in Activations(t.history, agent);
    assert Owns(t.records, agent, first);
    assert first in VersionsOf(t.records, agent);
  }

  /** How one more activation changes a status. */
  lemma NextStatus(activated: seq<Id>, id: Id, x: Id)
    ensures DerivedStatus(activated + [id], x)
         == if x == id then Active
            else if Last(activated) == Some(x) then Superseded
            else DerivedStatus(activated, x)
  {
    assert x in activated + [id] <==> x in activated || x == id;
  }

  lemma InitialAgrees(t: Tables, id: Id, bundle: AgentBundle)
    requires Owned(t) && id !in t.records && VersionsOf(t.records, bundle.name) == {}
    ensures Insert(t, id, bundle, None) == Initialized(t, id, bundle, false)
    ensures Activate(Insert(t, id, bundle, None), bundle.name, InitialActivation, id)
         == Initialized(t, id, bundle, true)
  {
    if Activations(t.history, bundle.name) != [] { ActivatedHasVersions(t, bundle.name); }
    NextStatus([], id, id);
    assert |VersionsOf(t.records, bundle.name)| == 0;
    forall x | x in t.records ensures t.records[x].agentName != bundle.name {
      assert x !in VersionsOf(t.records, bundle.name);
    }
  }

  /** Every status of the agent's versions is the one derived from `activated`. */
  predicate Derived(records: map<Id, Record>, agent: string, activated: seq<Id>) {
    forall x | x in records && records[x].agentName == agent :: records[x].status == DerivedStatus(activated, x)
  }

  lemma StatusesDerived(t: Tables, agent: string)
    requires Keyed(t.records) && Statuses(t)
    ensures Derived(t.records, agent, Activations(t.history, agent))
  {
    forall x | x in t.records && t.records[x].agentName == agent
      ensures t.records[x].status == DerivedStatus(Activations(t.history, agent), x)
    { assert StatusOk(t.records[x], t.history); }
  }

  /** Marking the previous active version superseded and the new one active is what an activation does. */
  lemma SupersedingIsRestatus(records: map<Id, Record>, agent: string, activated: seq<Id>, id: Id)
    requires Derived(records, agent, activated) && Owns(records, agent, id)
    requires Last(activated).Some? ==> Owns(records, agent, Last(activated).value)
    ensures Restatus(records, agent, activated + [id]) == Superseding(records, Last(activated), id)
  {
    forall x | x in records
      ensures Restatus(records, agent, activated + [id])[x] == Superseding(records, Last(activated), id)[x]
    {
      NextStatus(activated, id, x);
    }
  }

  lemma SwitchIsActivate(t: Tables, agent: string, action: Action, id: Id)
    requires Keyed(t.records) && Statuses(t) && Pointers(t) && Owned(t) && Owns(t.records, agent, id)
    ensures Switch(t, agent, action, id) == Activate(t, agent, action, id)
  {
    StatusesDerived(t, agent);
    var activated := Activations(t.history, agent);
    assert PointerOf(t.pointers, agent) == Last(activated);
    if activated != [] { assert activated[|activated| - 1] in activated; }
    SupersedingIsRestatus(t.records, agent, activated, id);
  }

  // ----- Every operation keeps the invariant -----

  lemma ActivationsNext(history: seq<Entry>, e: Entry, agent: string)
    ensures Activations(history + [e], agent)
         == Activations(history, agent) + if e.agentName == agent then [e.toId] else []
  {
    assert (history + [e])[..|history|] == history;
  }

  lemma ActivateKeepsStatuses(t: Tables, agent: string, action: Action, id: Id)
    requires Keyed(t.records) && Statuses(t)
    ensures Statuses(Activate(t, agent, action, id))
  {
    var next := Activate(t, agent, action, id);
    forall x | x in next.records ensures StatusOk(next.records[x], next.history) {
      assert StatusOk(t.records[x], t.history);
      ActivationsNext(t.history, next.history[|t.history|], next.records[x].agentName);
    }
  }

  lemma ActivateKeepsPointers(t: Tables, agent: string, action: Action, id: Id)
    requires Pointers(t)
    ensures Pointers(Activate(t, agent, action, id))
  {
    var next := Activate(t, agent, action, id);
    forall a ensures PointerOf(next.pointers, a) == Last(Activations(next.history, a)) {
      ActivationsNext(t.history, next.history[|t.history|], a);
      assert PointerOf(t.pointers, a) == Last(Activations(t.history, a));
    }
  }

  lemma ActivateKeepsOwned(t: Tables, agent: string, action: Action, id: Id)
    requires Owned(t) && Owns(t.records, agent, id)
    ensures Owned(Activate(t, agent, action, id))
  {
    var next := Activate(t, agent, action, id);
    forall a, x | x in Activations(next.history, a) ensures Owns(next.records, a, x) {
      ActivationsNext(t.history, next.history[|t.history|], a);
      assert x in Activations(t.history, a) || (a == agent && x == id);
      assert Owns(t.records, a, x);
    }
  }

  lemma ActivateKeepsChain(t: Tables, agent: string, action: Action, id: Id)
    requires Chained(t.history)
    ensures Chained(Activate(t, agent, action, id).history)
  {
    var history := Activate(t, agent, action, id).history;
    forall k | 0 <= k < |history|
      ensures history[k].fromId == Last(Activations(history[..k], history[k].agentName))
    {
      if k < |t.history| { assert history[..k] == t.history[..k]; } else { assert history[..k] == t.history; }
    }
  }

  predicate SameButStatus(a: map<Id, Record>, b: map<Id, Record>) {
    a.Keys == b.Keys && forall x | x in a :: b[x] == a[x].(status := b[x].status)
  }

  lemma StatusesDoNotNumber(a: map<Id, Record>, b: map<Id, Record>)
    requires SameButStatus(a, b) && Keyed(a) && Numbers(a) && AllApart(a) && Parents(a)
    ensures Keyed(b) && Numbers(b) && AllApart(b) && Parents(b)
  {
    forall agent ensures VersionsOf(a, agent) == VersionsOf(b, agent) {}
    forall x | x in b ensures NumberOk(b[x], b) && ParentOk(b[x], b) {
      assert NumberOk(a[x], a) && ParentOk(a[x], a);
    }
    forall x, y | x in b && y in b && x != y ensures Apart(b[x], b[y]) { assert Apart(a[x], a[y]); }
  }

  lemma ActivateKeepsNumbers(t: Tables, agent: string, action: Action, id: Id)
    requires Keyed(t.records) && Numbers(t.records) && AllApart(t.records) && Parents(t.records)
    ensures var records := Activate(t, agent, action, id).records;
      Keyed(records) && Numbers(records) && AllApart(records) && Parents(records)
  {
    StatusesDoNotNumber(t.records, Activate(t, agent, action, id).records);
  }

  lemma ActivateKeeps(t: Tables, agent: string, action: Action, id: Id)
    requires Inv(t) && Owns(t.records, agent, id)
    ensures Inv(Activate(t, agent, action, id))
  {
    ActivateKeepsStatuses(t, agent, action, id);
    ActivateKeepsPointers(t, agent, action, id);
    ActivateKeepsOwned(t, agent, action, id);
    ActivateKeepsChain(t, agent, action, id);
    ActivateKeepsNumbers(t, agent, action, id);
  }

  lemma OneMore(records: map<Id, Record>, r: Record, agent: string)
    requires r.id !in records
    ensures VersionsOf(records[r.id := r], agent)
         == VersionsOf(records, agent) + if agent == r.agentName then {r.id} else {}
    ensures |VersionsOf(records[r.id := r], agent)|
         == |VersionsOf(records, agent)| + if agent == r.agentName then 1 else 0
  {
    assert VersionsOf(records[r.id := r], agent)
        == VersionsOf(records, agent) + if agent == r.agentName then {r.id} else {};
    assert r.id !in VersionsOf(records, agent);
  }

  lemma InsertKeepsHistory(t: Tables, id: Id, bundle: AgentBundle, parentId: Option<Id>)
    requires Statuses(t) && Pointers(t) && Owned(t) && id !in t.records
    ensures var next := Insert(t, id, bundle, parentId); Statuses(next) && Pointers(next) && Owned(next)
  {
    var next := Insert(t, id, bundle, parentId);
    forall x | x in Activations(t.history, bundle.name) ensures x != id { assert Owns(t.records, bundle.name, x); }
    forall x | x in next.records ensures StatusOk(next.records[x], next.history) {
      if x != id { assert StatusOk(t.records[x], t.history); }
    }
    forall a, x | x in Activations(next.history, a) ensures Owns(next.records, a, x) {
      assert Owns(t.records, a, x);
    }
  }

  lemma InsertKeepsApart(records: map<Id, Record>, id: Id, bundle: AgentBundle, parentId: Option<Id>)
    requires Numbers(records) && AllApart(records) && id !in records && !HasBundle(records, bundle)
    ensures AllApart(records[id := NewRecord(records, id, bundle, parentId)])
  {
    var added := NewRecord(records, id, bundle, parentId);
    var next := records[id := added];
    forall x | x in records ensures Apart(records[x], added) && Apart(added, records[x]) {
      assert NumberOk(records[x], records);
      if records[x].agentName == bundle.name { assert Owns(records, bundle.name, x); }
    }
    forall x, y | x in next && y in next && x != y ensures Apart(next[x], next[y]) {
      if x != id && y != id { assert Apart(records[x], records[y]); }
    }
  }

  lemma InsertKeepsNumbers(records: map<Id, Record>, id: Id, bundle: AgentBundle, parentId: Option<Id>)
    requires Keyed(records) && Numbers(records) && id !in records
    ensures var next := records[id := NewRecord(records, id, bundle, parentId)]; Keyed(next) && Numbers(next)
  {
    var added := NewRecord(records, id, bundle, parentId);
    var next := records[id := added];
    forall x | x in next ensures NumberOk(next[x], next) {
      OneMore(records, added, next[x].agentName);
      if x != id { assert NumberOk(records[x], records); }
    }
  }

  lemma InsertKeepsParents(records: map<Id, Record>, id: Id, bundle: AgentBundle, parentId: Option<Id>)
    requires Numbers(records) && Parents(records) && id !in records
    requires parentId.None? <==> VersionsOf(records, bundle.name) == {}
    requires parentId.Some? ==> Owns(records, bundle.name, parentId.value)
    ensures Parents(records[id := NewRecord(records, id, bundle, parentId)])
  {
    var next := records[id := NewRecord(records, id, bundle, parentId)];
    forall x | x in next ensures ParentOk(next[x], next) {
      if x != id {
        assert ParentOk(records[x], records);
      } else if parentId.Some? {
        assert NumberOk(records[parentId.value], records);
      }
    }
  }

  lemma InsertKeeps(t: Tables, id: Id, bundle: AgentBundle, parentId: Option<Id>)
    requires Inv(t) && id !in t.records && !HasBundle(t.records, bundle)
    requires parentId.None? <==> VersionsOf(t.records, bundle.name) == {}
    requires parentId.Some? ==> Owns(t.records, bundle.name, parentId.value)
    ensures Inv(Insert(t, id, bundle, parentId))
  {
    InsertKeepsHistory(t, id, bundle, parentId);
    InsertKeepsApart(t.records, id, bundle, parentId);
    InsertKeepsNumbers(t.records, id, bundle, parentId);
    InsertKeepsParents(t.records, id, bundle, parentId);
  }

  // ----- Numbers 1..n without gaps -----

  ghost predicate HasNumber(records: map<Id, Record>, agent: string, v: nat) {
    exists id :: Owns(records, agent, id) && records[id].version == v
  }

  /** Distinct numbers between 1 and n on n versions leave none out. */
  lemma {:induction false} Pigeonhole(records: map<Id, Record>, ids: set<Id>, n: nat, v: nat)
    requires ids <= records.Keys && |ids| == n && 1 <= v <= n
    requires forall a | a in ids :: 1 <= records[a].version <= n
    requires forall a, b | a in ids && b in ids && a != b :: records[a].version != records[b].version
    ensures exists id :: id in ids && records[id].version == v
    decreases n
  {
    if forall id | id in ids :: records[id].version != v {
      var values := set a | a in ids :: records[a].version;
      Injective(records, ids, values);
      Below(values, n, v);
    }
  }

  lemma {:induction false} Injective(records: map<Id, Record>, ids: set<Id>, values: set<nat>)
    requires ids <= records.Keys && values == set a | a in ids :: records[a].version
    requires forall a, b | a in ids && b in ids && a != b :: records[a].version != records[b].version
    ensures |values| == |ids|
    decreases ids
  {
    if ids != {} {
      var a :| a in ids;
      var rest := set b | b in ids - {a} :: records[b].version;
      Injective(records, ids - {a}, rest);
      assert values == rest + {records[a].version};
    }
  }

  /** Numbers from 1 to n other than `v` are fewer than n. */
  lemma {:induction false} Below(values: set<nat>, n: nat, v: nat)
    requires 1 <= v <= n && v !in values && forall x | x in values :: 1 <= x <= n
    ensures |values| < n
  {
    assert values <= UpTo(n) - {v};
    FewerElements(values, UpTo(n) - {v});
  }

  function UpTo(n: nat): (all: set<nat>)
    ensures |all| == n && forall x :: x in all <==> 1 <= x <= n
  {
    if n == 0 then {} else UpTo(n - 1) + {n}
  }

  lemma EveryNumber(records: map<Id, Record>, agent: string, v: nat)
    requires Numbers(records) && AllApart(records)
    ensures HasNumber(records, agent, v) <==> 1 <= v <= |VersionsOf(records, agent)|
  {
    var ids := VersionsOf(records, agent);
    forall a | a in ids ensures 1 <= records[a].version <= |ids| { assert NumberOk(records[a], records); }
    forall a, b | a in ids && b in ids && a != b ensures records[a].version != records[b].version {
      assert Apart(records[a], records[b]);
    }
    if 1 <= v <= |ids| { Pigeonhole(records, ids, |ids|, v); }
  }

  lemma HighestIsCount(records: map<Id, Record>, agent: string)
    requires Numbers(records) && AllApart(records) && VersionsOf(records, agent) != {}
    ensures Highest(records, agent) == |VersionsOf(records, agent)|
  {
    var n := |VersionsOf(records, agent)|;
    EveryNumber(records, agent, n);
    EveryNumber(records, agent, Highest(records, agent));
  }

  // ----- All reachable states -----

  lemma NoBundle(records: map<Id, Record>, bundle: AgentBundle)
    requires VersionsOf(records, bundle.name) == {}
    ensures !HasBundle(records, bundle)
  {
    assert forall x :: Owns(records, bundle.name, x) ==> x in VersionsOf(records, bundle.name);
  }

  lemma CreateInitialKeeps(t: Tables, id: Id, bundle: AgentBundle, activate: bool)
    requires Inv(t)
    ensures var op := CreateInitial(id, bundle, activate);
      Perform(t, op) == PerformByHistory(t, op) && Inv(After(t, op))
  {
    if VersionsOf(t.records, bundle.name) == {} && id !in t.records {
      InitialAgrees(t, id, bundle);
      NoBundle(t.records, bundle);
      InsertKeeps(t, id, bundle, None);
      if activate { ActivateKeeps(Insert(t, id, bundle, None), bundle.name, InitialActivation, id); }
    }
  }

  lemma CandidateAgrees(t: Tables, id: Id, parentId: Id, bundle: AgentBundle)
    requires Numbers(t.records) && AllApart(t.records)
    ensures var op := CreateCandidate(id, parentId, bundle); Perform(t, op) == PerformByHistory(t, op)
  {
    if Owns(t.records, bundle.name, parentId) {
      assert parentId in VersionsOf(t.records, bundle.name);
      HighestIsCount(t.records, bundle.name);
    }
  }

  lemma CreateCandidateKeeps(t: Tables, id: Id, parentId: Id, bundle: AgentBundle)
    requires Inv(t) && PerformByHistory(t, CreateCandidate(id, parentId, bundle)).Ok?
    ensures Inv(PerformByHistory(t, CreateCandidate(id, parentId, bundle)).value)
  {
    assert parentId in VersionsOf(t.records, bundle.name);
    InsertKeeps(t, id, bundle, Some(parentId));
  }

  /** What the status of a version and the pointer of its agent say about the history. */
  lemma StatusMeaning(t: Tables, agent: string, id: Id)
    requires Keyed(t.records) && Statuses(t) && Owns(t.records, agent, id)
    ensures var activated := Activations(t.history, agent);
      && (t.records[id].status == Candidate <==> id !in activated)
      && (t.records[id].status == Active <==> Last(activated) == Some(id))
      && t.records[id].status != Rejected
  {
    assert StatusOk(t.records[id], t.history);
  }

  lemma PromoteKeeps(t: Tables, id: Id, expected: Option<Id>)
    requires Inv(t)
    ensures var op := Promote(id, expected);
      Perform(t, op) == PerformByHistory(t, op) && Inv(After(t, op))
  {
    if id in t.records {
      var agent := t.records[id].agentName;
      StatusMeaning(t, agent, id);
      SwitchIsActivate(t, agent, Promotion, id);
      ActivateKeeps(t, agent, Promotion, id);
    }
  }

  lemma RollbackKeeps(t: Tables, agent: string, target: Id, expected: Id)
    requires Inv(t)
    ensures var op := RollBack(agent, target, expected);
      Perform(t, op) == PerformByHistory(t, op) && Inv(After(t, op))
  {
    assert PointerOf(t.pointers, agent) == Last(Activations(t.history, agent));
    if Owns(t.records, agent, target) {
      StatusMeaning(t, agent, target);
      SwitchIsActivate(t, agent, Rollback, target);
      ActivateKeeps(t, agent, Rollback, target);
    }
  }

  /** Deciding by statuses and pointers, as the store does, is deciding by the history. */
  lemma StatusesRefineHistory(t: Tables, op: Op)
    requires Inv(t)
    ensures Perform(t, op) == PerformByHistory(t, op) && Inv(After(t, op))
  {
    match op
    case CreateInitial(id, bundle, activate) => CreateInitialKeeps(t, id, bundle, activate);
    case CreateCandidate(id, parentId, bundle) =>
      CandidateAgrees(t, id, parentId, bundle);
      if Perform(t, op).Ok? { CreateCandidateKeeps(t, id, parentId, bundle); }
    case Promote(id, expected) => PromoteKeeps(t, id, expected);
    case RollBack(agent, target, expected) => RollbackKeeps(t, agent, target, expected);
  }

  lemma {:induction false} ReachableInv(ops: seq<Op>)
    ensures Inv(AfterAll(ops))
  {
    if ops != [] {
      ReachableInv(ops[..|ops| - 1]);
      StatusesRefineHistory(AfterAll(ops[..|ops| - 1]), ops[|ops| - 1]);
    }
  }

  // ----- What this means -----

  /** After any operations: a version is active iff its agent's pointer names it, so an agent has a
      pointer iff exactly one of its versions is active; a version is superseded iff it was activated and
      is not the pointer's target; nothing is ever rejected. */
  lemma ActivePointer(ops: seq<Op>, agent: string, id: Id)
    ensures var t := AfterAll(ops);
      && (PointerOf(t.pointers, agent) == Some(id) <==>
            Owns(t.records, agent, id) && t.records[id].status == Active)
      && (Owns(t.records, agent, id) ==>
            && t.records[id].status != Rejected
            && (t.records[id].status == Superseded <==>
                  id in Activations(t.history, agent) && PointerOf(t.pointers, agent) != Some(id)))
  {
    ReachableInv(ops);
    PointerMeaning(AfterAll(ops), agent, id);
  }

  lemma PointerMeaning(t: Tables, agent: string, id: Id)
    requires Keyed(t.records) && Statuses(t) && Pointers(t) && Owned(t)
    ensures PointerOf(t.pointers, agent) == Some(id) <==>
      Owns(t.records, agent, id) && t.records[id].status == Active
    ensures Owns(t.records, agent, id) ==>
      && t.records[id].status != Rejected
      && (t.records[id].status == Superseded <==>
            id in Activations(t.history, agent) && PointerOf(t.pointers, agent) != Some(id))
  {
    var activated := Activations(t.history, agent);
    assert PointerOf(t.pointers, agent) == Last(activated);
    if activated != [] { assert activated[|activated| - 1] in activated; }
    if Last(activated) == Some(id) { assert Owns(t.records, agent, id); }
    if Owns(t.records, agent, id) { StatusMeaning(t, agent, id); }
  }

  /** The activation history of an agent is a chain that ends at the pointer, and the versions in it
      are exactly the non-candidates. */
  lemma HistoryIsChain(ops: seq<Op>, agent: string)
    ensures var t := AfterAll(ops);
      && (forall k | 0 <= k < |t.history| && t.history[k].agentName == agent ::
            t.history[k].fromId == Last(Activations(t.history[..k], agent)))
      && Last(Activations(t.history, agent)) == PointerOf(t.pointers, agent)
      && (forall id :: id in Activations(t.history, agent) <==>
            Owns(t.records, agent, id) && t.records[id].status != Candidate)
  {
    ReachableInv(ops);
    var t := AfterAll(ops);
    forall id ensures id in Activations(t.history, agent) <==>
      Owns(t.records, agent, id) && t.records[id].status != Candidate
    { if Owns(t.records, agent, id) { StatusMeaning(t, agent, id); } }
  }

  lemma RollbackSucceeds(t: Tables, agent: string, target: Id, expected: Id)
    requires Inv(t)
    ensures Perform(t, RollBack(agent, target, expected)).Ok? <==>
      target in Activations(t.history, agent) && Some(target) != Last(Activations(t.history, agent)) == Some(expected)
  {
    RollbackKeeps(t, agent, target, expected);
    if target in Activations(t.history, agent) { assert Owns(t.records, agent, target); }
  }

  /** Rollback reaches every formerly active version of the agent and nothing else. */
  lemma RollbackReach(ops: seq<Op>, agent: string, target: Id)
    ensures var t := AfterAll(ops);
      (exists expected :: Perform(t, RollBack(agent, target, expected)).Ok?)
      <==> target in Activations(t.history, agent) && PointerOf(t.pointers, agent) != Some(target)
  {
    ReachableInv(ops);
    var t := AfterAll(ops);
    assert PointerOf(t.pointers, agent) == Last(Activations(t.history, agent));
    forall expected: Id ensures Perform(t, RollBack(agent, target, expected)).Ok? <==>
      target in Activations(t.history, agent) && Some(target) != Last(Activations(t.history, agent)) == Some(expected)
    { RollbackSucceeds(t, agent, target, expected); }
    if target in Activations(t.history, agent) && PointerOf(t.pointers, agent) != Some(target) {
      assert Perform(t, RollBack(agent, target, Last(Activations(t.history, agent)).value)).Ok?;
    }
  }

  /** Rolling back and then rolling back to the version that was active restores every status and the
      pointers. */
  lemma RollbackUndone(ops: seq<Op>, agent: string, target: Id, current: Id)
    requires Perform(AfterAll(ops), RollBack(agent, target, current)).Ok?
    ensures var there := After(AfterAll(ops), RollBack(agent, target, current));
      && Perform(there, RollBack(agent, current, target)).Ok?
      && var back := Perform(there, RollBack(agent, current, target)).value;
      && back.records == AfterAll(ops).records && back.pointers == AfterAll(ops).pointers
  {
    var t := AfterAll(ops);
    ReachableInv(ops);
    PointerMeaning(t, agent, current);
    SwitchedBack(t, agent, target, current);
  }

  lemma SwitchedBack(t: Tables, agent: string, target: Id, current: Id)
    requires Owns(t.records, agent, current) && t.records[current].status == Active
    requires Perform(t, RollBack(agent, target, current)).Ok? && t.records[target].status == Superseded
    ensures var there := After(t, RollBack(agent, target, current));
      && Perform(there, RollBack(agent, current, target)).Ok?
      && var back := Perform(there, RollBack(agent, current, target)).value;
      && back.records == t.records && back.pointers == t.pointers
  {
    var there := After(t, RollBack(agent, target, current));
    assert there.records == t.records[current := t.records[current].(status := Superseded)]
                                     [target := t.records[target].(status := Active)];
  }

  /** The versions from `id` up to the first version of the agent. */
  function Lineage(records: map<Id, Record>, id: Id): (path: seq<Id>)
    requires Parents(records) && id in records
    ensures path != [] && path[0] == id
    decreases records[id].version
  {
    assert ParentOk(records[id], records);
    [id] + match records[id].parentId { case None => [] case Some(parent) => Lineage(records, parent) }
  }

  ghost predicate EndsAtRoot(records: map<Id, Record>, agent: string, path: seq<Id>) {
    && path != []
    && (forall x | x in path :: Owns(records, agent, x))
    && var root := path[|path| - 1];
    && Owns(records, agent, root) && records[root].version == 1
  }

  lemma {:induction false} LineageReachesRoot(records: map<Id, Record>, id: Id)
    requires Parents(records) && id in records
    ensures EndsAtRoot(records, records[id].agentName, Lineage(records, id))
    decreases records[id].version
  {
    assert ParentOk(records[id], records);
    if records[id].parentId.Some? { LineageReachesRoot(records, records[id].parentId.value); }
  }

  /** Per agent, lineage is a tree rooted at version 1: every lineage stays with the agent and ends in
      version 1, and all of them end in the same one. */
  lemma LineageTree(ops: seq<Op>, agent: string, a: Id, b: Id)
    requires Owns(AfterAll(ops).records, agent, a) && Owns(AfterAll(ops).records, agent, b)
    ensures var records := AfterAll(ops).records;
      && Parents(records)
      && var p, q := Lineage(records, a), Lineage(records, b);
      && EndsAtRoot(records, agent, p) && EndsAtRoot(records, agent, q)
      && p[|p| - 1] == q[|q| - 1]
  {
    ReachableInv(ops);
    var records := AfterAll(ops).records;
    LineageReachesRoot(records, a);
    LineageReachesRoot(records, b);
    var p, q := Lineage(records, a), Lineage(records, b);
    var x, y := p[|p| - 1], q[|q| - 1];
    assert x in p && y in q;
  }

  /** Numbers are exactly 1..n, each once, and no bundle is stored twice for an agent. */
  lemma Numbering(ops: seq<Op>, agent: string, v: nat, a: Id, b: Id)
    ensures var records := AfterAll(ops).records;
      && (HasNumber(records, agent, v) <==> 1 <= v <= |VersionsOf(records, agent)|)
      && (Owns(records, agent, a) && Owns(records, agent, b) && a != b ==>
            records[a].version != records[b].version && records[a].bundle != records[b].bundle)
  {
    ReachableInv(ops);
    var records := AfterAll(ops).records;
    EveryNumber(records, agent, v);
    if Owns(records, agent, a) && Owns(records, agent, b) && a != b { assert Apart(records[a], records[b]); }
  }

  // ----- What each operation does, version by version -----

  /** The tables after `next` became active for `agent`: the version that was active is superseded. */
  predicate Switched(t: Tables, after: Tables, agent: string, action: Action, next: Id) {
    var previous := if agent in t.pointers then Some(t.pointers[agent]) else None;
    && after.records.Keys == t.records.Keys
    && (forall x | x in t.records ::
          after.records[x] == if x == next then t.records[x].(status := Active)
                              else if previous == Some(x) then t.records[x].(status := Superseded)
                              else t.records[x])
    && after.pointers == t.pointers[agent := next]
    && after.history == t.history + [Entry(agent, action, previous, next)]
  }

  /** The first version: which request is refused why, and the one record that a request adds. */
  lemma InitialExactly(t: Tables, id: Id, bundle: AgentBundle, activate: bool)
    ensures var r := Perform(t, CreateInitial(id, bundle, activate));
      if exists x | x in t.records :: t.records[x].agentName == bundle.name then r == Err(AlreadyInitialized)
      else if id in t.records then r == Err(IntegrityError)
      else
        && r.Ok?
        && r.value.records
           == t.records[id := Record(id, bundle.name, 1, None, bundle, if activate then Active else Candidate)]
        && r.value.pointers == (if activate then t.pointers[bundle.name := id] else t.pointers)
        && r.value.history
           == if activate then t.history + [Entry(bundle.name, InitialActivation, None, id)] else t.history
  {
    SomeVersion(t.records, bundle.name);
  }

  lemma SomeVersion(records: map<Id, Record>, agent: string)
    ensures VersionsOf(records, agent) != {} <==> exists x | x in records :: records[x].agentName == agent
    ensures VersionsOf(records, agent) == set x | x in records && records[x].agentName == agent
  {
    if x :| x in records && records[x].agentName == agent { assert x in VersionsOf(records, agent); }
  }

  /** A candidate descends from the version the caller names, whatever is active, and gets the next number. */
  lemma CandidateExactly(t: Tables, id: Id, parentId: Id, bundle: AgentBundle)
    requires Numbers(t.records) && AllApart(t.records)
    ensures var r := Perform(t, CreateCandidate(id, parentId, bundle));
      if parentId !in t.records then r == Err(NoSuchVersion)
      else if t.records[parentId].agentName != bundle.name then r == Err(WrongAgent)
      else if exists x | x in t.records :: t.records[x].agentName == bundle.name && t.records[x].bundle == bundle then
        r == Err(DuplicateBundle)
      else if id in t.records then r == Err(IntegrityError)
      else
        var number := |set x | x in t.records && t.records[x].agentName == bundle.name| + 1;
        && r.Ok?
        && r.value.records == t.records[id := Record(id, bundle.name, number, Some(parentId), bundle, Candidate)]
        && r.value.pointers == t.pointers && r.value.history == t.history
  {
    SomeVersion(t.records, bundle.name);
    if parentId in t.records && t.records[parentId].agentName == bundle.name {
      HighestIsCount(t.records, bundle.name);
    }
  }

  /** Switching: which request is refused why, and otherwise what becomes of every version. */
  lemma SwitchesExactly(t: Tables, id: Id, expected: Option<Id>, agent: string, current: Id)
    ensures var r := Perform(t, Promote(id, expected));
      if id !in t.records then r == Err(NoSuchVersion)
      else if t.records[id].status != Candidate then r == Err(NotACandidate)
      else
        var name := t.records[id].agentName;
        if expected != (if name in t.pointers then Some(t.pointers[name]) else None) then r == Err(StaleActive)
        else r.Ok? && Switched(t, r.value, name, Promotion, id)
    ensures var r := Perform(t, RollBack(agent, id, current));
      if agent !in t.pointers then r == Err(NoActiveVersion)
      else if id !in t.records || t.records[id].agentName != agent then r == Err(NoSuchVersion)
      else if t.records[id].status == Candidate || t.records[id].status == Rejected then r == Err(NeverActive)
      else if t.pointers[agent] != current then r == Err(StaleActive)
      else if current == id then r == Err(AlreadyActive)
      else r.Ok? && Switched(t, r.value, agent, Rollback, id)
  {
  }
}
