/**
 The append-only event store with optimistic concurrency (infrastructure/event_store.py).

 The first half is the store as one process uses it, with its lock around an append. The second half
 drops the lock: a transaction reads the version in one move and inserts its rows in another, as
 transactions of several processes would, and only the uniqueness of (run, sequence) is left.
 */
module EventStore {
  import opened Json
  import opened Models
  import opened Runs

  datatype Row = Row(runId: Id, sequence: nat, event: Event)

  datatype Conflict = Conflict(expected: nat, actual: nat)

  // ----- The table -----

  function RowsOf(rows: seq<Row>, run: Id): seq<Row> {
    if rows == [] then []
    else
      var last := rows[|rows| - 1];
      RowsOf(rows[..|rows| - 1], run) + if last.runId == run then [last] else []
  }

  /** `coalesce(max(sequence), 0)` */
  function MaxSequence(rows: seq<Row>, run: Id): nat {
    if rows == [] then 0
    else
      var last, before := rows[|rows| - 1], MaxSequence(rows[..|rows| - 1], run);
      if last.runId == run && last.sequence > before then last.sequence else before
  }

  function Numbered(run: Id, base: nat, events: seq<Event>): (batch: seq<Row>)
    ensures |batch| == |events|
    ensures forall i | 0 <= i < |batch| :: batch[i] == Row(run, base + i + 1, events[i])
  {
    seq(|events|, i requires 0 <= i < |events| => Row(run, base + i + 1, events[i]))
  }

  /** Every stream carries exactly the sequences 1..n, in the order of insertion. */
  ghost predicate Contiguous(rows: seq<Row>) {
    forall run, i | 0 <= i < |RowsOf(rows, run)| :: RowsOf(rows, run)[i].sequence == i + 1
  }

  lemma {:induction false} RowsOfAppend(rows: seq<Row>, batch: seq<Row>, run: Id)
    ensures RowsOf(rows + batch, run) == RowsOf(rows, run) + RowsOf(batch, run)
    decreases |batch|
  {
    if batch == [] {
      assert rows + batch == rows;
    } else {
      var n := |batch| - 1;
      RowsOfAppend(rows, batch[..n], run);
      assert (rows + batch)[..|rows| + n] == rows + batch[..n];
    }
  }

  lemma {:induction false} RowsOfBatch(batch: seq<Row>, owner: Id, run: Id)
    requires forall i | 0 <= i < |batch| :: batch[i].runId == owner
    ensures RowsOf(batch, run) == if run == owner then batch else []
    decreases |batch|
  {
    if batch != [] { RowsOfBatch(batch[..|batch| - 1], owner, run); }
  }

  lemma {:induction false} VersionIsLength(rows: seq<Row>, run: Id)
    requires forall i | 0 <= i < |RowsOf(rows, run)| :: RowsOf(rows, run)[i].sequence == i + 1
    ensures MaxSequence(rows, run) == |RowsOf(rows, run)|
  {
    if rows != [] {
      var before := rows[..|rows| - 1];
      assert forall i | 0 <= i < |RowsOf(before, run)| :: RowsOf(before, run)[i] == RowsOf(rows, run)[i];
      VersionIsLength(before, run);
      var stream := RowsOf(rows, run);
      if rows[|rows| - 1].runId == run { assert stream[|stream| - 1] == rows[|rows| - 1]; }
    }
  }

  /** Appending a batch numbered from the current version keeps every stream contiguous, extends the
      stream of its run by exactly the batch and touches no other stream. */
  lemma AppendKeeps(rows: seq<Row>, run: Id, events: seq<Event>)
    requires Contiguous(rows)
    ensures var next := rows + Numbered(run, MaxSequence(rows, run), events);
      && Contiguous(next)
      && RowsOf(next, run) == RowsOf(rows, run) + Numbered(run, |RowsOf(rows, run)|, events)
      && forall other | other != run :: RowsOf(next, other) == RowsOf(rows, other)
  {
    var base := MaxSequence(rows, run);
    var batch := Numbered(run, base, events);
    VersionIsLength(rows, run);
    forall r ensures RowsOf(rows + batch, r) == RowsOf(rows, r) + if r == run then batch else [] {
      RowsOfAppend(rows, batch, r);
      RowsOfBatch(batch, run, r);
    }
  }

  // ----- The store of one process -----

  class SqlEventStore {
    var rows: seq<Row>

    ghost predicate Valid()
      reads this
    {
      Contiguous(rows)
    }

    constructor ()
      ensures Valid() && rows == []
    {
      rows := [];
    }

    method Version(run: Id) returns (version: nat)
      requires Valid()
      ensures version == |RowsOf(rows, run)|
    {
      version := 0;
      for i := 0 to |rows|
        invariant version == MaxSequence(rows[..i], run)
      {
        assert rows[..i + 1][..i] == rows[..i];
        if rows[i].runId == run && rows[i].sequence > version { version := rows[i].sequence; }
      }
      assert rows[..|rows|] == rows;
      VersionIsLength(rows, run);
    }

    method Append(run: Id, expectedVersion: nat, events: seq<Event>) returns (r: Result<seq<Row>, Conflict>)
      requires Valid()
      modifies this
      ensures Valid()
      ensures var stream := old(RowsOf(rows, run));
        if events == [] then r == Ok([]) && rows == old(rows)
        else if |stream| != expectedVersion then r == Err(Conflict(expectedVersion, |stream|)) && rows == old(rows)
        else
          && r == Ok(Numbered(run, |stream|, events))
          && RowsOf(rows, run) == stream + r.value
          && forall other | other != run :: RowsOf(rows, other) == old(RowsOf(rows, other))
    {
      if events == [] { return Ok([]); }
      var actualVersion := Version(run);
      if actualVersion != expectedVersion { return Err(Conflict(expectedVersion, actualVersion)); }
      var stored := [];
      for offset := 0 to |events|
        invariant stored == Numbered(run, actualVersion, events)[..offset]
      {
        stored := stored + [Row(run, actualVersion + offset + 1, events[offset])];
      }
      assert stored == Numbered(run, actualVersion, events);
      VersionIsLength(rows, run);
      AppendKeeps(rows, run, events);
      rows := rows + stored;
      r := Ok(stored);
    }

    /** At most `limit` rows of the run after the given sequence, in sequence order. */
    method Load(run: Id, afterSequence: nat, limit: Option<nat>) returns (page: seq<Row>)
      requires Valid()
      ensures page == Page(RowsOf(rows, run), afterSequence, limit)
    {
      page := [];
      for i := 0 to |rows|
        invariant page == Page(RowsOf(rows[..i], run), afterSequence, None)
      {
        assert rows[..i + 1][..i] == rows[..i];
        RowsOfPrefix(rows, i + 1, run);
        if rows[i].runId == run {
          assert RowsOf(rows[..i + 1], run) == RowsOf(rows[..i], run) + [rows[i]];
          assert RowsOf(rows[..i + 1], run)[|RowsOf(rows[..i], run)|] == rows[i];
        }
        PageNext(RowsOf(rows[..i], run), afterSequence, rows[i]);
        if rows[i].runId == run && rows[i].sequence > afterSequence { page := page + [rows[i]]; }
      }
      assert rows[..|rows|] == rows;
      if limit.Some? && |page| > limit.value { page := page[..limit.value]; }
    }
  }

  function Page(stream: seq<Row>, after: nat, limit: Option<nat>): seq<Row> {
    var rest := if after <= |stream| then stream[after..] else [];
    if limit.Some? && |rest| > limit.value then rest[..limit.value] else rest
  }

  /** A page has the next rows after the given sequence, as many as there are and the limit allows. */
  lemma PageExactly(stream: seq<Row>, after: nat, limit: Option<nat>)
    ensures var page, left := Page(stream, after, limit), if after <= |stream| then |stream| - after else 0;
      && |page| == (if limit.Some? && limit.value < left then limit.value else left)
      && forall i | 0 <= i < |page| :: page[i] == stream[after + i]
  {
  }

  lemma RowsOfPrefix(rows: seq<Row>, n: nat, run: Id)
    requires n <= |rows| && Contiguous(rows)
    ensures RowsOf(rows[..n], run) <= RowsOf(rows, run)
    ensures forall i | 0 <= i < |RowsOf(rows[..n], run)| :: RowsOf(rows[..n], run)[i].sequence == i + 1
  {
    RowsOfAppend(rows[..n], rows[n..], run);
    assert rows[..n] + rows[n..] == rows;
  }

  lemma PageNext(stream: seq<Row>, after: nat, row: Row)
    ensures row.sequence == |stream| + 1 ==>
      Page(stream + [row], after, None) == Page(stream, after, None) + if row.sequence > after then [row] else []
  {
  }

  // ----- Transactions of any number of writers -----

  type Writer = nat

  datatype Batch = Batch(runId: Id, base: nat, events: seq<Event>)

  /** `committed` records the batches in the order of their commits. */
  datatype Store = Store(rows: seq<Row>, open: map<Writer, Batch>, committed: seq<Batch>)

  datatype Move =
    | Check(writer: Writer, runId: Id, expected: nat, events: seq<Event>)
    | Commit(writer: Writer)
    | Abort(writer: Writer)

  /** The uniqueness constraint on (run, sequence). */
  predicate Unique(rows: seq<Row>, batch: seq<Row>) {
    forall r, b | r in rows && b in batch :: r.runId != b.runId || r.sequence != b.sequence
  }

  function Step(s: Store, mv: Move): Store {
    match mv
    case Check(w, run, expected, events) =>
      if events == [] || MaxSequence(s.rows, run) != expected then s
      else s.(open := s.open[w := Batch(run, expected, events)])
    case Commit(w) =>
      if w !in s.open then s
      else
        var b := s.open[w];
        var batch := Numbered(b.runId, b.base, b.events);
        if Unique(s.rows, batch)
        then Store(s.rows + batch, s.open - {w}, s.committed + [b])
        else s.(open := s.open - {w})
    case Abort(w) => s.(open := s.open - {w})
  }

  function Run(s: Store, moves: seq<Move>): Store {
    if moves == [] then s else Step(Run(s, moves[..|moves| - 1]), moves[|moves| - 1])
  }

  const EMPTY := Store([], map[], [])

  function EventsOf(stream: seq<Row>): seq<Event> { seq(|stream|, i requires 0 <= i < |stream| => stream[i].event) }

  /** The batches committed to one run, put together. */
  function Joined(committed: seq<Batch>, run: Id): seq<Event> {
    if committed == [] then []
    else
      var last := committed[|committed| - 1];
      Joined(committed[..|committed| - 1], run) + if last.runId == run then last.events else []
  }

  /** Every committed batch was based on exactly the version that the batches before it had produced. */
  predicate Linear(committed: seq<Batch>) {
    forall k | 0 <= k < |committed| ::
      committed[k].events != [] && committed[k].base == |Joined(committed[..k], committed[k].runId)|
  }

  ghost predicate Inv(s: Store) {
    && Contiguous(s.rows)
    && (forall w | w in s.open :: s.open[w].events != [] && s.open[w].base <= |RowsOf(s.rows, s.open[w].runId)|)
    && (forall run :: EventsOf(RowsOf(s.rows, run)) == Joined(s.committed, run))
    && Linear(s.committed)
  }

  lemma {:induction false} InStream(rows: seq<Row>, run: Id, r: Row)
    ensures r in RowsOf(rows, run) <==> r in rows && r.runId == run
  {
    if rows != [] {
      InStream(rows[..|rows| - 1], run, r);
      assert rows == rows[..|rows| - 1] + [rows[|rows| - 1]];
    }
  }

  /** A non-empty batch commits exactly when nothing was committed to its run since its check. */
  lemma CommitsIffCurrent(s: Store, w: Writer)
    requires Inv(s) && w in s.open
    ensures var b := s.open[w];
      Unique(s.rows, Numbered(b.runId, b.base, b.events)) <==> b.base == |RowsOf(s.rows, b.runId)|
  {
    var b := s.open[w];
    var batch := Numbered(b.runId, b.base, b.events);
    var stream := RowsOf(s.rows, b.runId);
    if b.base < |stream| {
      var clash := stream[b.base];
      InStream(s.rows, b.runId, clash);
      assert batch[0] in batch && clash.sequence == batch[0].sequence;
    } else {
      forall r, x | r in s.rows && x in batch ensures r.runId != x.runId || r.sequence != x.sequence {
        if r.runId == b.runId {
          InStream(s.rows, b.runId, r);
          var i :| 0 <= i < |stream| && stream[i] == r;
        }
      }
    }
  }

  /** A writer gets through its version check exactly with a batch based on the current version, and what it then
      commits unless another writer was faster is that batch, numbered on. */
  lemma WritersExactly(s: Store, w: Writer, run: Id, expected: nat, events: seq<Event>)
    requires Inv(s)
    ensures var checked := Step(s, Check(w, run, expected, events));
      checked == if events != [] && expected == |RowsOf(s.rows, run)|
                 then Store(s.rows, s.open[w := Batch(run, expected, events)], s.committed) else s
    ensures w in s.open ==>
      var b, after := s.open[w], Step(s, Commit(w));
      && after.open == s.open - {w}
      && if b.base == |RowsOf(s.rows, b.runId)| then
           && after.rows
              == s.rows + seq(|b.events|, i requires 0 <= i < |b.events| => Row(b.runId, b.base + i + 1, b.events[i]))
           && after.committed == s.committed + [b]
         else after.rows == s.rows && after.committed == s.committed
    ensures Step(s, Move.Abort(w)) == Store(s.rows, s.open - {w}, s.committed)
  {
    VersionIsLength(s.rows, run);
    if w in s.open { CommitsIffCurrent(s, w); }
  }

  lemma CommitKeeps(s: Store, w: Writer)
    requires Inv(s) && w in s.open && s.open[w].base == |RowsOf(s.rows, s.open[w].runId)|
    ensures Inv(Step(s, Commit(w)))
  {
    var b := s.open[w];
    var batch := Numbered(b.runId, b.base, b.events);
    var next := Step(s, Commit(w));
    CommitsIffCurrent(s, w);
    VersionIsLength(s.rows, b.runId);
    AppendKeeps(s.rows, b.runId, b.events);
    JoinedNext(s.committed, b);
    forall run ensures EventsOf(RowsOf(next.rows, run)) == Joined(next.committed, run) {
      if run == b.runId {
        EventsOfAppend(RowsOf(s.rows, run), batch);
        assert EventsOf(batch) == b.events;
      }
    }
    assert |Joined(s.committed, b.runId)| == |EventsOf(RowsOf(s.rows, b.runId))| == b.base;
    LinearNext(s.committed, b);
  }

  lemma EventsOfAppend(a: seq<Row>, b: seq<Row>)
    ensures EventsOf(a + b) == EventsOf(a) + EventsOf(b)
  {
  }

  lemma JoinedNext(committed: seq<Batch>, b: Batch)
    ensures forall run ::
      Joined(committed + [b], run) == Joined(committed, run) + if b.runId == run then b.events else []
  {
    assert (committed + [b])[..|committed|] == committed;
  }

  lemma LinearNext(committed: seq<Batch>, b: Batch)
    requires Linear(committed) && b.events != [] && b.base == |Joined(committed, b.runId)|
    ensures Linear(committed + [b])
  {
    var more := committed + [b];
    forall k | 0 <= k < |more| ensures more[k].events != [] && more[k].base == |Joined(more[..k], more[k].runId)| {
      if k < |committed| { assert more[..k] == committed[..k]; } else { assert more[..k] == committed; }
    }
  }

  lemma StepKeeps(s: Store, mv: Move)
    requires Inv(s)
    ensures Inv(Step(s, mv))
  {
    match mv
    case Check(w, run, expected, events) => VersionIsLength(s.rows, run);
    case Commit(w) =>
      if w in s.open {
        CommitsIffCurrent(s, w);
        if s.open[w].base == |RowsOf(s.rows, s.open[w].runId)| { CommitKeeps(s, w); }
      }
    case Abort(w) =>
  }

  lemma {:induction false} RunKeeps(s: Store, moves: seq<Move>)
    requires Inv(s)
    ensures Inv(Run(s, moves)) && s.rows <= Run(s, moves).rows && s.committed <= Run(s, moves).committed
  {
    if moves != [] {
      RunKeeps(s, moves[..|moves| - 1]);
      StepKeeps(Run(s, moves[..|moves| - 1]), moves[|moves| - 1]);
    }
  }

  lemma {:induction false} JoinedGrows(committed: seq<Batch>, j: nat, k: nat)
    requires j < k <= |committed|
    ensures |Joined(committed[..k], committed[j].runId)|
         >= |Joined(committed[..j], committed[j].runId)| + |committed[j].events|
    decreases k
  {
    assert committed[..k][..k - 1] == committed[..k - 1];
    if j < k - 1 { JoinedGrows(committed, j, k - 1); }
  }

  /** Under every interleaving of any number of writers: each stream has the sequences 1..n and is its
      committed batches one after the other, batches are all or nothing, whatever was committed stays,
      and two commits to one run never had the same expected version. */
  lemma Linearity(before: seq<Move>, after: seq<Move>, run: Id)
    ensures var s, t := Run(EMPTY, before), Run(Run(EMPTY, before), after);
      && Contiguous(t.rows)
      && EventsOf(RowsOf(t.rows, run)) == Joined(t.committed, run)
      && RowsOf(s.rows, run) <= RowsOf(t.rows, run)
      && s.committed <= t.committed
      && forall j, k | 0 <= j < k < |t.committed| && t.committed[j].runId == t.committed[k].runId ::
           t.committed[j].base < t.committed[k].base
  {
    var s, t := Run(EMPTY, before), Run(Run(EMPTY, before), after);
    RunKeeps(EMPTY, before);
    RunKeeps(s, after);
    RowsOfPrefix(t.rows, |s.rows|, run);
    assert t.rows[..|s.rows|] == s.rows;
    forall j, k | 0 <= j < k < |t.committed| && t.committed[j].runId == t.committed[k].runId
      ensures t.committed[j].base < t.committed[k].base
    {
      JoinedGrows(t.committed, j, k);
    }
  }
}
