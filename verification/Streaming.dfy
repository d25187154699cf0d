/**
 The server-sent event stream of a run (`stream_events` in api/app.py).

 The generator is suspended at every read of the database and at every `yield`. `arrivals` holds, one
 batch per resumption, what anybody appended to the run meanwhile; the client disconnects when it ends.
 */
module Streaming {
  import opened Json
  import opened Models
  import opened Runs
  import opened EventStore
  import Engine
  import EngineTheorems
  import EngineEdges

  const PAGE_SIZE: nat := 100

  /** `Sending(rest)`: the rows of the current page still to be sent, none at the top of the loop.
      `Checking(seen)`: the page was empty when the run had `seen` events.
      `Ended(seen, total)`: the status was read, and terminal, when it had `total`. */
  datatype Phase = Sending(rest: seq<Row>) | Checking(seen: nat) | Ended(seen: nat, total: nat) | Broken

  datatype State = State(run: Id, log: seq<Event>, cursor: nat, sent: seq<Row>, phase: Phase)

  function Rows(run: Id, log: seq<Event>): (rows: seq<Row>)
    ensures |rows| == |log|
  {
    Numbered(run, 0, log)
  }

  function Send(s: State, page: seq<Row>): State
    requires page != []
  {
    s.(cursor := page[0].sequence, sent := s.sent + [page[0]], phase := Sending(page[1..]))
  }

  /** What happens between two suspensions, `batch` having been appended during the first. */
  function Resume(before: State, batch: seq<Event>): State {
    var s := before.(log := before.log + batch);
    match s.phase
    case Sending(rest) =>
      if rest != [] then Send(s, rest)
      else
        var page := Page(Rows(s.run, s.log), s.cursor, Some(PAGE_SIZE));
        if page != [] then Send(s, page) else s.(phase := Checking(|s.log|))
    case Checking(seen) =>
      (match GetRun(s.log)
       case Err(_) => s.(phase := Broken)
       case Ok(snapshot) =>
         if Engine.Terminal(snapshot.status) then s.(phase := Ended(seen, |s.log|)) else s.(phase := Sending([])))
    case _ => s
  }

  function Initial(run: Id, log: seq<Event>, after: nat): State { State(run, log, after, [], Sending([])) }

  function Generate(s: State, arrivals: seq<seq<Event>>): State {
    if arrivals == [] then s else Resume(Generate(s, arrivals[..|arrivals| - 1]), arrivals[|arrivals| - 1])
  }

  lemma GenerateNext(s: State, arrivals: seq<seq<Event>>, t: nat)
    requires t < |arrivals|
    ensures Generate(s, arrivals[..t + 1]) == Resume(Generate(s, arrivals[..t]), arrivals[t])
  {
    assert arrivals[..t + 1][..t] == arrivals[..t];
  }

  /** The generator as its nested loops; `t` counts the resumptions. */
  method StreamEvents(run: Id, log: seq<Event>, afterSequence: nat, arrivals: seq<seq<Event>>)
    returns (s: State, t: nat)
    ensures t <= |arrivals| && s == Generate(Initial(run, log, afterSequence), arrivals[..t])
    ensures t < |arrivals| ==> s.phase.Ended? || s.phase.Broken?
  {
    ghost var start := Initial(run, log, afterSequence);
    s, t := Initial(run, log, afterSequence), 0;
    while t < |arrivals|
      invariant t <= |arrivals| && s == Generate(start, arrivals[..t])
      invariant t < |arrivals| ==> s.phase == Sending([])
    {
      GenerateNext(start, arrivals, t);
      s, t := LoadPage(s, arrivals[t]), t + 1;
      if s.phase.Sending? {
        s, t := SendPage(s, arrivals, t, start);
        continue;
      }
      if t == |arrivals| { return; }
      GenerateNext(start, arrivals, t);
      s, t := CheckStatus(s, arrivals[t]), t + 1;
      if s.phase.Ended? || s.phase.Broken? { return; }
    }
  }

  /** The top of the loop, up to the first row of the page. */
  function LoadPage(before: State, batch: seq<Event>): (s: State)
    requires before.phase == Sending([])
    ensures s == Resume(before, batch) && (s.phase.Sending? || s.phase.Checking?)
  {
    var s := before.(log := before.log + batch);
    var page := Page(Rows(s.run, s.log), s.cursor, Some(PAGE_SIZE));
    if page != [] then Send(s, page) else s.(phase := Checking(|s.log|))
  }

  /** The rest of a page, until the client disconnects. */
  method SendPage(before: State, arrivals: seq<seq<Event>>, from: nat, ghost start: State) returns (s: State, t: nat)
    requires from <= |arrivals| && before.phase.Sending? && before == Generate(start, arrivals[..from])
    ensures from <= t <= |arrivals| && s == Generate(start, arrivals[..t]) && s.phase.Sending?
    ensures t < |arrivals| ==> s.phase == Sending([])
  {
    s, t := before, from;
    while s.phase.rest != [] && t < |arrivals|
      invariant from <= t <= |arrivals| && s.phase.Sending? && s == Generate(start, arrivals[..t])
      decreases |arrivals| - t
    {
      GenerateNext(start, arrivals, t);
      s, t := Send(s.(log := s.log + arrivals[t]), s.phase.rest), t + 1;
    }
  }

  /** After an empty page: the end marker, an error, or a heartbeat. */
  function CheckStatus(before: State, batch: seq<Event>): (s: State)
    requires before.phase.Checking?
    ensures s == Resume(before, batch) && (s.phase == Sending([]) || s.phase.Ended? || s.phase.Broken?)
  {
    var s := before.(log := before.log + batch);
    match GetRun(s.log)
    case Err(_) => s.(phase := Broken)
    case Ok(snapshot) =>
      if Engine.Terminal(snapshot.status) then s.(phase := Ended(before.phase.seen, |s.log|))
      else s.(phase := Sending([]))
  }

  lemma {:induction false} RunStays(s: State, arrivals: seq<seq<Event>>)
    ensures Generate(s, arrivals).run == s.run
  {
    if arrivals != [] { RunStays(s, arrivals[..|arrivals| - 1]); }
  }

  // ----- What the client gets -----

  /** The `n` rows after the first `after`. */
  predicate IsWindow(rows: seq<Row>, run: Id, log: seq<Event>, after: nat, n: nat) {
    |rows| == n && (n > 0 ==> after + n <= |log| && rows == Rows(run, log)[after..after + n])
  }

  predicate Inv(s: State, after: nat) {
    && s.cursor == after + |s.sent|
    && IsWindow(s.sent, s.run, s.log, after, |s.sent|)
    && match s.phase
       case Sending(rest) => IsWindow(rest, s.run, s.log, s.cursor, |rest|)
       case Checking(seen) => seen <= |s.log| && seen <= s.cursor && (s.sent != [] ==> s.cursor == seen)
       case Ended(seen, total) =>
         seen <= total <= |s.log| && seen <= s.cursor && (s.sent != [] ==> s.cursor == seen)
         && GetRun(s.log[..total]).Ok? && Engine.Terminal(GetRun(s.log[..total]).value.status)
       case Broken => true
  }

  lemma WindowStays(rows: seq<Row>, run: Id, log: seq<Event>, batch: seq<Event>, after: nat, n: nat)
    requires IsWindow(rows, run, log, after, n)
    ensures IsWindow(rows, run, log + batch, after, n)
  {
    if n > 0 {
      assert Rows(run, log + batch)[after..after + n] == Rows(run, log)[after..after + n];
    }
  }

  lemma MoreKeeps(s: State, batch: seq<Event>, after: nat)
    requires Inv(s, after)
    ensures Inv(s.(log := s.log + batch), after)
  {
    WindowStays(s.sent, s.run, s.log, batch, after, |s.sent|);
    if s.phase.Sending? { WindowStays(s.phase.rest, s.run, s.log, batch, s.cursor, |s.phase.rest|); }
    if s.phase.Ended? { assert (s.log + batch)[..s.phase.total] == s.log[..s.phase.total]; }
  }

  lemma SendKeeps(s: State, page: seq<Row>, after: nat)
    requires Inv(s, after) && page != [] && IsWindow(page, s.run, s.log, s.cursor, |page|)
    ensures Inv(Send(s, page), after)
  {
    var rows := Rows(s.run, s.log);
    assert page[0] == rows[s.cursor] && page[0].sequence == s.cursor + 1;
    assert rows[after..s.cursor + 1] == rows[after..s.cursor] + [rows[s.cursor]];
    assert page[1..] == rows[s.cursor + 1..s.cursor + |page|];
  }

  lemma PageIsWindow(s: State)
    ensures var page := Page(Rows(s.run, s.log), s.cursor, Some(PAGE_SIZE));
      IsWindow(page, s.run, s.log, s.cursor, |page|) && (page == [] <==> |s.log| <= s.cursor)
  {
  }

  lemma ResumeKeeps(before: State, batch: seq<Event>, after: nat)
    requires Inv(before, after)
    ensures Inv(Resume(before, batch), after)
  {
    var s := before.(log := before.log + batch);
    MoreKeeps(before, batch, after);
    match s.phase
    case Sending(rest) =>
      if rest != [] {
        SendKeeps(s, rest, after);
      } else {
        PageIsWindow(s);
        var page := Page(Rows(s.run, s.log), s.cursor, Some(PAGE_SIZE));
        if page != [] { SendKeeps(s, page, after); }
      }
    case Checking(seen) => assert s.log[..|s.log|] == s.log;
    case _ =>
  }

  lemma {:induction false} GenerateKeeps(run: Id, log: seq<Event>, after: nat, arrivals: seq<seq<Event>>)
    ensures Inv(Generate(Initial(run, log, after), arrivals), after)
  {
    if arrivals != [] {
      GenerateKeeps(run, log, after, arrivals[..|arrivals| - 1]);
      ResumeKeeps(Generate(Initial(run, log, after), arrivals[..|arrivals| - 1]), arrivals[|arrivals| - 1], after);
    }
  }

  /** Whatever is appended at whatever moment: the k-th event sent is the event with sequence
      `after + k`, so what was sent has no gap, no repetition and no wrong event. */
  lemma SentIsWindow(run: Id, log: seq<Event>, after: nat, arrivals: seq<seq<Event>>, k: nat)
    ensures var s := Generate(Initial(run, log, after), arrivals);
      && s.cursor == after + |s.sent|
      && (k < |s.sent| ==> after + k < |s.log| && s.sent[k] == Row(run, after + k + 1, s.log[after + k]))
  {
    GenerateKeeps(run, log, after, arrivals);
    RunStays(Initial(run, log, after), arrivals);
  }

  /** Pages do not matter: whenever an event is missing at a client that is being sent events, the next
      resumption sends it the next one. A client that has everything waits for the status, which ends the
      stream only for a run that is over and breaks it only for one that cannot be read; otherwise the
      stream goes on with what comes next. */
  lemma ResumeExactly(before: State, batch: seq<Event>, after: nat)
    requires Inv(before, after)
    ensures var s, log := Resume(before, batch), before.log + batch;
      && s.run == before.run && s.log == log
      && match before.phase
         case Sending(_) =>
           if before.cursor < |log| then
             && s.phase.Sending? && s.cursor == before.cursor + 1
             && s.sent == before.sent + [Row(before.run, before.cursor + 1, log[before.cursor])]
           else s.phase == Checking(|log|) && s.cursor == before.cursor && s.sent == before.sent
         case Checking(seen) =>
           && s.cursor == before.cursor && s.sent == before.sent
           && s.phase == (match GetRun(log)
                          case Err(_) => Broken
                          case Ok(run) =>
                            if run.status in {Succeeded, Failed, Cancelled} then Ended(seen, |log|) else Sending([]))
         case _ => s.phase == before.phase && s.cursor == before.cursor && s.sent == before.sent
  {
    var s := before.(log := before.log + batch);
    MoreKeeps(before, batch, after);
    PageIsWindow(s);
  }

  /** A stream breaks only on a run that cannot be read. */
  lemma {:induction false} BrokenIsUnreadable(run: Id, log: seq<Event>, after: nat, arrivals: seq<seq<Event>>)
    requires Generate(Initial(run, log, after), arrivals).phase.Broken?
    ensures exists t | 0 <= t <= |arrivals| :: GetRun(Generate(Initial(run, log, after), arrivals[..t]).log).Err?
  {
    var n := |arrivals| - 1;
    var before := Generate(Initial(run, log, after), arrivals[..n]);
    if before.phase.Broken? {
      BrokenIsUnreadable(run, log, after, arrivals[..n]);
      var t :| 0 <= t <= n && GetRun(Generate(Initial(run, log, after), arrivals[..n][..t]).log).Err?;
      assert arrivals[..n][..t] == arrivals[..t];
    } else {
      GenerateKeeps(run, log, after, arrivals[..n]);
      ResumeExactly(before, arrivals[n], after);
      assert arrivals[..n + 1] == arrivals;
      assert GetRun(Generate(Initial(run, log, after), arrivals[..n + 1]).log).Err?;
    }
  }

  /** At the end marker the run was terminal, and everything after the requested sequence was sent exactly
      if nothing was appended between the empty page and the status read, or the requested sequence was
      beyond the run's last one anyway. */
  lemma EndIsComplete(run: Id, log: seq<Event>, after: nat, arrivals: seq<seq<Event>>)
    requires Generate(Initial(run, log, after), arrivals).phase.Ended?
    ensures var s := Generate(Initial(run, log, after), arrivals);
      && s.phase.seen <= s.phase.total <= |s.log|
      && GetRun(s.log[..s.phase.total]).Ok? && Engine.Terminal(GetRun(s.log[..s.phase.total]).value.status)
      && (s.phase.total <= after + |s.sent| <==> s.phase.total == s.phase.seen || s.phase.total <= after)
  {
    GenerateKeeps(run, log, after, arrivals);
  }

  lemma GenerateTwo(c: State, a: seq<Event>, b: seq<Event>)
    ensures Generate(c, [a, b]) == Resume(Resume(c, a), b)
  {
    var none: seq<seq<Event>> := [];
    assert [a][..0] == none && [a, b][..1] == [a];
    assert Generate(c, [a]) == Resume(c, a);
  }

  lemma {:induction false} EndedStays(c: State, arrivals: seq<seq<Event>>)
    requires c.phase.Ended?
    ensures Generate(c, arrivals).phase == c.phase && Generate(c, arrivals).sent == c.sent
  {
    if arrivals != [] { EndedStays(c, arrivals[..|arrivals| - 1]); }
  }

  /** A client that has everything reads the status after the run has ended. */
  predicate CaughtUp(c: State) { c.phase == Sending([]) && c.cursor == |c.log| }

  lemma EndsBehind(c: State, batch: seq<Event>)
    requires CaughtUp(c) && GetRun(c.log + batch).Ok? && Engine.Terminal(GetRun(c.log + batch).value.status)
    ensures var s := Generate(c, [[], batch]);
      s.phase == Ended(|c.log|, |c.log| + |batch|) && s.sent == c.sent
  {
    GenerateTwo(c, [], batch);
    assert c.log + [] == c.log;
  }

  /** What any move of any reachable run appends when it ends the run is missing at every client that had
      everything before, if it is appended after the client's empty page and before its status read: the
      end marker is sent without these events, and nothing is sent after it. */
  lemma LastEventMissed(c: State, m: Engine.Machine, mv: Engine.Move, more: seq<seq<Event>>)
    requires CaughtUp(c) && c.log == m.log
    requires EngineTheorems.Reachable(m) && !Engine.Terminal(EngineTheorems.StatusOf(m))
    requires GetRun(Engine.Step(m, mv).log).Ok? && Engine.Terminal(GetRun(Engine.Step(m, mv).log).value.status)
    ensures var last := Engine.EffectOf(m, mv).batch; var s := Generate(c, [[], last]);
      && last != []
      && s.phase == Ended(|m.log|, |m.log| + |last|) && s.sent == c.sent
      && Generate(s, more).sent == c.sent
  {
    var last := Engine.EffectOf(m, mv).batch;
    assert m.log + [] == m.log;
    EndsBehind(c, last);
    EndedStays(Generate(c, [[], last]), more);
  }

  /** Every definition has such a run, and a client that asks for what comes next has everything. */
  lemma SomeLastEventMissed(run: Id, definition: RunDefinition) returns (m: Engine.Machine, mv: Engine.Move)
    ensures EngineTheorems.Reachable(m) && m.log[0].definition == definition
    ensures !Engine.Terminal(EngineTheorems.StatusOf(m)) && CaughtUp(Initial(run, m.log, |m.log|))
    ensures GetRun(Engine.Step(m, mv).log).Ok? && Engine.Terminal(GetRun(Engine.Step(m, mv).log).value.status)
  {
    m := EngineEdges.WaitingRun(definition);
    mv := Engine.ResolveHuman(Approve, "");
    EngineEdges.ApprovalEnds(m);
  }
}
