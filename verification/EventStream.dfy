/** Streaming a run to a client: retained replay merged with a live subscription,
    per-generation cursors, retried completions and a durable end. */
module EventStream {
  import opened Common
  import opened RunStore
  import opened RunEvents

  // ---------------------------------------------------------------- events

  /** `status` is the decoded status field of a terminal payload. */
  datatype Event = Event(generation: int, seqNo: int, id: string, kind: EventKind, status: Option<RunStatus>)

  predicate IsTerminal(e: Event) { EndsAttempt(e.kind) }

  /** Events ordered by a runner's own sequence. */
  predicate FromRunner(e: Event) { e.seqNo > 0 && !e.kind.PolicyNotice? }

  predicate Precedes(a: Event, b: Event) {
    a.generation < b.generation || (a.generation == b.generation && a.seqNo < b.seqNo)
  }

  function TerminalStatus(e: Event): Option<RunStatus>
    requires IsTerminal(e)
  {
    if e.status.None? then None
    else
      var status := StatusReported(e.kind, e.status.value);
      if Terminal(status) then Some(status) else None
  }

  // ---------------------------------------------------------------- cursor

  /** What a stream remembers about the events it has already dealt with. */
  datatype Cursor = Cursor(
    generation: int,         // newest attempt seen
    sinceGeneration: int,    // attempt that the client's `since` refers to, -1 while unknown
    seen: map<int, int>,     // per attempt, the last runner sequence dealt with
    control: set<string>)    // identifiers of the other events dealt with

  predicate Marked(c: Cursor, e: Event) {
    if FromRunner(e) then e.generation in c.seen && e.seqNo <= c.seen[e.generation]
    else e.id != "" && e.id in c.control
  }

  function Mark(c: Cursor, e: Event): (marked: Cursor)
    ensures FromRunner(e) ==> Marked(marked, e)
    ensures forall x :: Marked(c, x) ==> Marked(marked, x)
  {
    if FromRunner(e) then
      if e.generation in c.seen && e.seqNo <= c.seen[e.generation] then c
      else c.(seen := c.seen[e.generation := e.seqNo])
    else if e.id != "" then c.(control := c.control + {e.id})
    else c
  }

  /** What to do with an event: nothing, write it, or complete the run with it. */
  datatype Verdict = Skip | Show | Finish(status: RunStatus)

  function Bind(c: Cursor, e: Event): Cursor {
    if c.sinceGeneration < 0 then c.(sinceGeneration := e.generation) else c
  }

  predicate Outdated(c: Cursor, e: Event) {
    e.generation < c.generation && !(e.generation == 0 && e.kind.PolicyNotice?)
  }

  predicate BeforeSince(c: Cursor, since: Option<int>, e: Event) {
    since.Some? && e.generation == c.sinceGeneration && e.seqNo <= since.value && !IsTerminal(e)
  }

  function Judge(c: Cursor, since: Option<int>, e: Event): Verdict {
    if Marked(c, e) || Outdated(c, e) || BeforeSince(Bind(c, e), since, e) then Skip
    else if !IsTerminal(e) then Show
    else if TerminalStatus(e).None? then Skip
    else Finish(TerminalStatus(e).value)
  }

  /** The cursor once the event has been dealt with without ending the stream. */
  function Past(c: Cursor, since: Option<int>, e: Event): Cursor {
    if Marked(c, e) then c
    else if Outdated(c, e) then Mark(c, e)
    else
      var b := Bind(c, e);
      var moved := if Judge(c, since, e).Show? && e.generation > b.generation && !e.kind.PolicyNotice?
                   then b.(generation := e.generation) else b;
      Mark(moved, e)
  }

  // ---------------------------------------------------------------- stream

  datatype RowAct = BeginBy(generation: int) | CompleteBy(completion: Completion) | RollBackBy

  function RowAfter(row: Row, a: RowAct): Row {
    match a
    case BeginBy(g) => BeginRunAttempt(row, g).0
    case CompleteBy(c) => CompleteRun(row, c).0
    case RollBackBy => RolledBackRow(row)
  }

  /** A terminal row stays terminal and attempts never go back. */
  ghost predicate Later(before: Row, after: Row) {
    && (Terminal(before.status) ==> Terminal(after.status))
    && AttemptGeneration(before) <= AttemptGeneration(after)
  }

  /** How a row and what others have still to do to it may change: a terminal row that
      nobody else touches stays as it is. */
  ghost predicate Moved(before: Row, script: seq<seq<RowAct>>, after: Row, rest: seq<seq<RowAct>>) {
    && Later(before, after)
    && (script == [] ==> rest == [])
    && (script == [] && Terminal(before.status) ==> after == before)
  }

  lemma MovedSelf(row: Row, script: seq<seq<RowAct>>)
    ensures Moved(row, script, row, script)
  {}

  function RowsAfter(row: Row, batch: seq<RowAct>): Row {
    if batch == [] then row else RowAfter(RowsAfter(row, batch[..|batch| - 1]), batch[|batch| - 1])
  }

  /** The row once the next of the others' batches has been committed. */
  function NextRow(row: Row, elsewhere: seq<seq<RowAct>>): Row {
    if elsewhere == [] then row else RowsAfter(row, elsewhere[0])
  }

  function Rest<T>(script: seq<T>): seq<T> { if script == [] then [] else script[1..] }

  datatype Reply = Done | Refused | Lost

  /** One pass of the outer loop: the replay it reads (`None` is a broker error)
      and what then arrives on the live subscription. */
  datatype Round = Round(past: Option<seq<Event>>, live: seq<Live>)

  datatype Live = Arrives(event: Event) | StateCheck | Closed

  datatype Step = More | Retry | Ended(written: bool)

  /** How a live subscription is left: back to replay (still subscribed or not),
      at the end of the stream, or because the client's context ended. */
  datatype LiveStep = BackToReplay(subscribed: bool) | LiveEnded(written: bool) | ContextDone

  datatype Ending = Complete | Abandoned | WriteFailed

  predicate NoTerminal(out: seq<Event>) { forall e <- out :: !IsTerminal(e) }

  /** Runner events strictly increase, and no notice is written twice. */
  predicate Orderly(out: seq<Event>) {
    && (forall i, j :: 0 <= i < j < |out| && FromRunner(out[i]) && FromRunner(out[j]) ==> Precedes(out[i], out[j]))
    && (forall i, j :: 0 <= i < j < |out| && Notice(out[i]) && Notice(out[j]) ==> out[i].id != out[j].id)
  }

  /** A control-plane notice that can be told apart by its identifier. */
  predicate Notice(e: Event) { e.kind.PolicyNotice? && e.id != "" }

  /** Every runner event and notice written so far is behind the cursor. */
  predicate Behind(c: Cursor, out: seq<Event>) {
    forall e <- out :: (FromRunner(e) ==> e.generation <= c.generation && Marked(c, e)) && (Notice(e) ==> Marked(c, e))
  }

  /** A stream in progress. */
  predicate Streaming(c: Cursor, out: seq<Event>) {
    NoTerminal(out) && Orderly(out) && Behind(c, out)
  }

  /** The attempt whose outcome a row records; zero if none reported one. */
  function OutcomeGeneration(row: Row): int { if row.completion.Some? then row.completion.value else 0 }

  /** A stream that returned normally: one terminal event, at the end, carrying the
      durable status and the attempt it belongs to. */
  predicate Finished(out: seq<Event>, durable: Row) {
    && |out| > 0
    && NoTerminal(out[..|out| - 1])
    && IsTerminal(out[|out| - 1])
    && Terminal(durable.status)
    && TerminalStatus(out[|out| - 1]) == Some(durable.status)
    && out[|out| - 1].generation == OutcomeGeneration(durable)
  }

  lemma ShowKeepsStreaming(c: Cursor, since: Option<int>, out: seq<Event>, e: Event)
    requires Streaming(c, out) && Judge(c, since, e).Show?
    ensures Streaming(Past(c, since, e), out + [e])
  {
  }

  lemma MarkKeepsStreaming(c: Cursor, c': Cursor, out: seq<Event>, e: Event)
    requires Streaming(c, out)
    requires c'.generation >= c.generation && c'.seen == c.seen && c'.control == c.control
    ensures Streaming(Mark(c', e), out)
  {
  }

  lemma UnfinishedEnd(c: Cursor, out: seq<Event>)
    requires Streaming(c, out)
    ensures Orderly(out) && NoTerminal(out)
  {}

  lemma StreamingIsUnfinished(c: Cursor, out: seq<Event>, row: Row)
    requires Streaming(c, out)
    ensures Orderly(out) && !Finished(out, row)
  {}

  lemma BindKeepsStreaming(c: Cursor, out: seq<Event>, e: Event)
    requires Streaming(c, out)
    ensures Streaming(Bind(c, e), out)
  {
  }

  lemma RaiseKeepsStreaming(c: Cursor, out: seq<Event>, generation: int)
    requires Streaming(c, out) && c.generation <= generation
    ensures Streaming(c.(generation := generation), out)
  {
  }

  lemma TerminalKeepsOrder(c: Cursor, since: Option<int>, out: seq<Event>, e: Event)
    requires Streaming(c, out) && Judge(c, since, e).Finish?
    ensures Orderly(out + [e])
  {
  }

  lemma FinishesWith(c: Cursor, since: Option<int>, out: seq<Event>, e: Event, durable: Row)
    requires Streaming(c, out) && Judge(c, since, e).Finish? && durable.status == Judge(c, since, e).status && Terminal(durable.status)
    requires durable.completion == Some(e.generation)
    ensures Finished(out + [e], durable)
  {
    assert (out + [e])[..|out|] == out;
  }

  function DurableEnd(runID: string, run: Row): Event {
    Event(OutcomeGeneration(run), 0, runID + "_end", EndEvent, Some(run.status))
  }

  // ------------------------------------------------- one attempt in a run's log

  /** A runner event of this attempt. */
  predicate Own(e: Event, generation: int) { FromRunner(e) && e.generation == generation }

  /** A run's retained log: attempts and notices mixed, no event twice, notices told
      apart by identifier, and the events of attempt `generation` in sequence order. */
  predicate OrderedLog(log: seq<Event>, generation: int) {
    && generation >= 0
    && (forall e <- log :: e.generation >= 0 && e.seqNo > 0 && (e.kind.PolicyNotice? ==> e.id != ""))
    && (forall i, j :: 0 <= i < j < |log| ==> log[i] != log[j])
    && (forall i, j :: 0 <= i < j < |log| && Notice(log[i]) && Notice(log[j]) ==> log[i].id != log[j].id)
    && (forall i, j :: 0 <= i < j < |log| && Own(log[i], generation) && Own(log[j], generation) ==> log[i].seqNo < log[j].seqNo)
  }

  predicate Shows(since: Option<int>, generation: int, e: Event) {
    Own(e, generation) && !IsTerminal(e) && (since.None? || e.seqNo > since.value)
  }

  /** The events of one attempt. */
  function Of(events: seq<Event>, generation: int): seq<Event> {
    if events == [] then []
    else
      var rest := Of(events[..|events| - 1], generation);
      if Own(events[|events| - 1], generation) then rest + [events[|events| - 1]] else rest
  }

  lemma OfGrows(events: seq<Event>, e: Event, generation: int)
    ensures Of(events + [e], generation) == if Own(e, generation) then Of(events, generation) + [e] else Of(events, generation)
  {
    assert (events + [e])[..|events|] == events;
  }

  /** The events of an attempt that the client asked for. */
  function Shown(log: seq<Event>, since: Option<int>, generation: int): seq<Event> {
    if log == [] then []
    else
      var rest := Shown(log[..|log| - 1], since, generation);
      if Shows(since, generation, log[|log| - 1]) then rest + [log[|log| - 1]] else rest
  }

  // A stream's dealings with the log are a trace: the indices of the events it dealt
  // with, in that order, from replays and from the live subscription alike.

  predicate Within(trace: seq<nat>, log: seq<Event>) { forall k :: 0 <= k < |trace| ==> trace[k] < |log| }

  /** Where a stream stands in an attempt after a trace: just past its furthest event. */
  function Position(log: seq<Event>, generation: int, trace: seq<nat>): nat
    requires Within(trace, log)
  {
    if trace == [] then 0
    else
      var n, i := Position(log, generation, trace[..|trace| - 1]), trace[|trace| - 1];
      if i < n || !Own(log[i], generation) then n else i + 1
  }

  /** What it has shown of the attempt by then: an event behind the position is not
      shown again. */
  function Got(log: seq<Event>, since: Option<int>, generation: int, trace: seq<nat>): seq<Event>
    requires Within(trace, log)
  {
    if trace == [] then []
    else
      var front, i := trace[..|trace| - 1], trace[|trace| - 1];
      if Position(log, generation, front) <= i && Shows(since, generation, log[i])
      then Got(log, since, generation, front) + [log[i]] else Got(log, since, generation, front)
  }

  lemma TraceGrows(log: seq<Event>, since: Option<int>, generation: int, trace: seq<nat>, i: nat)
    requires Within(trace, log) && i < |log|
    ensures Within(trace + [i], log)
    ensures var n := Position(log, generation, trace);
            && Position(log, generation, trace + [i]) == (if i < n || !Own(log[i], generation) then n else i + 1)
            && Got(log, since, generation, trace + [i]) ==
               if n <= i && Shows(since, generation, log[i]) then Got(log, since, generation, trace) + [log[i]]
               else Got(log, since, generation, trace)
  {
    assert (trace + [i])[..|trace|] == trace && (trace + [i])[|trace|] == i;
  }

  lemma {:induction false} PositionWithin(log: seq<Event>, since: Option<int>, generation: int, trace: seq<nat>)
    requires Within(trace, log)
    ensures var n := Position(log, generation, trace);
            && n <= |log| && (n > 0 ==> Own(log[n - 1], generation))
            && (n == 0 ==> Got(log, since, generation, trace) == [])
    decreases trace
  {
    if trace != [] {
      PositionWithin(log, since, generation, trace[..|trace| - 1]);
    }
  }

  /** The client's `since` counts for an attempt only if the cursor bound it there. */
  function Effective(c: Cursor, since: Option<int>, generation: int): Option<int> {
    if c.sinceGeneration == generation then since else None
  }

  /** What has been shown of an attempt is what the first `m` steps of the trace show,
      all of them as long as no newer attempt is known. */
  predicate Stands(c: Cursor, since: Option<int>, out: seq<Event>, log: seq<Event>, generation: int, trace: seq<nat>, m: nat) {
    && Within(trace, log) && m <= |trace| && (c.generation <= generation ==> m == |trace|)
    && var n := Position(log, generation, trace[..m]);
       && n <= |log|
       && (c.generation <= generation ==>
             if n == 0 then generation !in c.seen else generation in c.seen && c.seen[generation] == log[n - 1].seqNo)
       && (c.sinceGeneration < 0 ==> n == 0)
       && Of(out, generation) == Got(log, Effective(c, since, generation), generation, trace[..m])
  }

  /** A notice of an attempt that has been superseded, or that the client said it has;
      one without an attempt is of none that could be. */
  predicate Superseded(c: Cursor, e: Event) { e.generation < c.generation && e.generation != 0 }

  predicate Passed(c: Cursor, since: Option<int>, e: Event) {
    Superseded(c, e) || (since.Some? && e.generation == c.sinceGeneration && e.seqNo <= since.value)
  }

  /** Every notice dealt with has been shown, unless it was passed over. */
  predicate Noticed(c: Cursor, since: Option<int>, out: seq<Event>, log: seq<Event>, trace: seq<nat>) {
    && Within(trace, log)
    && Known(c, log, trace)
    && (forall k :: 0 <= k < |trace| && Notice(log[trace[k]]) ==> log[trace[k]] in out || Passed(c, since, log[trace[k]]))
    && (c.sinceGeneration < 0 ==> forall k :: 0 <= k < |trace| && Notice(log[trace[k]]) ==> Superseded(c, log[trace[k]]))
  }

  /** Nothing is shown that was not dealt with. */
  predicate Sourced(out: seq<Event>, log: seq<Event>, trace: seq<nat>) {
    Within(trace, log) && forall e :: e in out ==> exists k :: 0 <= k < |trace| && log[trace[k]] == e
  }

  /** The cursor and the output of a stream after a trace. */
  ghost predicate Traced(c: Cursor, since: Option<int>, out: seq<Event>, log: seq<Event>, generation: int, trace: seq<nat>) {
    && (exists m: nat :: Stands(c, since, out, log, generation, trace, m))
    && Noticed(c, since, out, log, trace) && Sourced(out, log, trace)
  }

  /** A fresh stream, whatever the run looks like when it is opened. */
  lemma StartsTraced(c: Cursor, since: Option<int>, log: seq<Event>, generation: int)
    requires c.seen == map[] && c.control == {}
    ensures Traced(c, since, [], log, generation, [])
  {
    assert Stands(c, since, [], log, generation, [], 0);
  }

  lemma RaiseTraced(c: Cursor, c': Cursor, since: Option<int>, out: seq<Event>, log: seq<Event>, generation: int, trace: seq<nat>)
    requires c' == c.(generation := c'.generation) && c.generation <= c'.generation
    ensures Traced(c, since, out, log, generation, trace) ==> Traced(c', since, out, log, generation, trace)
  {
    if Traced(c, since, out, log, generation, trace) {
      var m: nat :| Stands(c, since, out, log, generation, trace, m);
      assert Stands(c', since, out, log, generation, trace, m);
    }
  }

  lemma BindTraced(c: Cursor, since: Option<int>, out: seq<Event>, log: seq<Event>, generation: int, trace: seq<nat>, e: Event)
    requires Traced(c, since, out, log, generation, trace)
    ensures Traced(Bind(c, e), since, out, log, generation, trace)
  {
    var m: nat :| Stands(c, since, out, log, generation, trace, m);
    PositionWithin(log, since, generation, trace[..m]);
    PositionWithin(log, None, generation, trace[..m]);
    assert Stands(Bind(c, e), since, out, log, generation, trace, m);
  }

  /** Dealing with an event while no newer attempt is known. */
  lemma StandsOn(c: Cursor, since: Option<int>, out: seq<Event>, log: seq<Event>, generation: int, trace: seq<nat>, i: nat)
    requires OrderedLog(log, generation) && i < |log| && c.generation <= generation
    requires Stands(c, since, out, log, generation, trace, |trace|)
    ensures var shown := if Judge(c, since, log[i]).Show? then out + [log[i]] else out;
            Stands(Past(c, since, log[i]), since, shown, log, generation, trace + [i], |trace| + 1)
  {
    hide Position, Got, Of;
    var e, n := log[i], Position(log, generation, trace);
    assert trace[..|trace|] == trace && (trace + [i])[..|trace| + 1] == trace + [i];
    var c' := Past(c, since, e);
    TraceGrows(log, Effective(c', since, generation), generation, trace, i);
    PositionWithin(log, Effective(c, since, generation), generation, trace);
    PositionWithin(log, Effective(c', since, generation), generation, trace);
    OfGrows(out, e, generation);
    if Own(e, generation) && n > 0 {
      assert i < n ==> e.seqNo <= log[n - 1].seqNo;
      assert i >= n ==> log[n - 1].seqNo < e.seqNo;
    }
  }

  /** Once a newer attempt is known nothing more of this one is shown. */
  lemma StandsStill(c: Cursor, since: Option<int>, out: seq<Event>, log: seq<Event>, generation: int, trace: seq<nat>, i: nat, m: nat)
    requires OrderedLog(log, generation) && i < |log| && c.generation > generation
    requires Stands(c, since, out, log, generation, trace, m)
    ensures var shown := if Judge(c, since, log[i]).Show? then out + [log[i]] else out;
            Stands(Past(c, since, log[i]), since, shown, log, generation, trace + [i], m)
  {
    hide Position, Got, Of;
    var c' := Past(c, since, log[i]);
    assert (trace + [i])[..m] == trace[..m];
    PositionWithin(log, Effective(c, since, generation), generation, trace[..m]);
    PositionWithin(log, Effective(c', since, generation), generation, trace[..m]);
    OfGrows(out, log[i], generation);
  }

  /** Every identifier the cursor knows is that of a notice dealt with. */
  predicate Known(c: Cursor, log: seq<Event>, trace: seq<nat>)
    requires Within(trace, log)
  {
    forall id :: id in c.control ==> exists k :: 0 <= k < |trace| && Notice(log[trace[k]]) && log[trace[k]].id == id
  }

  lemma KnownOn(c: Cursor, since: Option<int>, log: seq<Event>, generation: int, trace: seq<nat>, i: nat)
    requires OrderedLog(log, generation) && i < |log| && Within(trace, log) && Known(c, log, trace)
    ensures Within(trace + [i], log) && Known(Past(c, since, log[i]), log, trace + [i])
    ensures Notice(log[i]) && Marked(c, log[i]) ==> exists k :: 0 <= k < |trace| && trace[k] == i
  {
    var e, longer, c' := log[i], trace + [i], Past(c, since, log[i]);
    assert longer[|trace|] == i && log[i] in log;
    forall id | id in c'.control
      ensures exists k :: 0 <= k < |longer| && Notice(log[longer[k]]) && log[longer[k]].id == id
    {
      if id in c.control {
        var k :| 0 <= k < |trace| && Notice(log[trace[k]]) && log[trace[k]].id == id;
        assert longer[k] == trace[k];
      } else {
        assert id == e.id && Notice(log[longer[|trace|]]);
      }
    }
    if Notice(e) && Marked(c, e) {
      var k :| 0 <= k < |trace| && Notice(log[trace[k]]) && log[trace[k]].id == e.id;
      assert trace[k] == i;
    }
  }

  lemma NoticedOn(c: Cursor, since: Option<int>, out: seq<Event>, log: seq<Event>, generation: int, trace: seq<nat>, i: nat)
    requires OrderedLog(log, generation) && i < |log| && Noticed(c, since, out, log, trace)
    ensures var shown := if Judge(c, since, log[i]).Show? then out + [log[i]] else out;
            Noticed(Past(c, since, log[i]), since, shown, log, trace + [i])
  {
    KnownOn(c, since, log, generation, trace, i);
    var e, longer := log[i], trace + [i];
    var c' := Past(c, since, e);
    var shown := if Judge(c, since, e).Show? then out + [e] else out;
    assert e in log;
    hide OrderedLog, Known;
    forall k | 0 <= k < |longer| && Notice(log[longer[k]])
      ensures log[longer[k]] in shown || Passed(c', since, log[longer[k]])
      ensures c'.sinceGeneration < 0 ==> Superseded(c', log[longer[k]])
    {
      if k < |trace| {
        assert longer[k] == trace[k];
      } else {
        assert longer[k] == i;
      }
    }
  }

  lemma SourcedOn(out: seq<Event>, log: seq<Event>, trace: seq<nat>, i: nat)
    requires Sourced(out, log, trace) && i < |log|
    ensures Sourced(out, log, trace + [i]) && Sourced(out + [log[i]], log, trace + [i])
  {
    var longer := trace + [i];
    assert longer[|trace|] == i;
    forall e | e in out
      ensures exists k :: 0 <= k < |longer| && log[longer[k]] == e
    {
      var k :| 0 <= k < |trace| && log[trace[k]] == e;
      assert longer[k] == trace[k];
    }
  }

  /** Dealing with any event of the log adds it to the trace. */
  lemma PassEvent(c: Cursor, since: Option<int>, out: seq<Event>, log: seq<Event>, generation: int, trace: seq<nat>, i: nat)
    requires OrderedLog(log, generation) && Traced(c, since, out, log, generation, trace) && i < |log|
    ensures var shown := if Judge(c, since, log[i]).Show? then out + [log[i]] else out;
            Traced(Past(c, since, log[i]), since, shown, log, generation, trace + [i])
  {
    hide Stands, Noticed, Sourced, OrderedLog;
    var m: nat :| Stands(c, since, out, log, generation, trace, m);
    if c.generation <= generation {
      StandsAtEnd(c, since, out, log, generation, trace, m);
      StandsOn(c, since, out, log, generation, trace, i);
    } else {
      StandsStill(c, since, out, log, generation, trace, i, m);
    }
    NoticedOn(c, since, out, log, generation, trace, i);
    SourcedOn(out, log, trace, i);
  }

  lemma StandsAtEnd(c: Cursor, since: Option<int>, out: seq<Event>, log: seq<Event>, generation: int, trace: seq<nat>, m: nat)
    requires Stands(c, since, out, log, generation, trace, m) && c.generation <= generation
    ensures m == |trace|
  {}

  lemma BehindIsMarked(c: Cursor, since: Option<int>, out: seq<Event>, log: seq<Event>, generation: int, trace: seq<nat>, i: nat)
    requires OrderedLog(log, generation) && Stands(c, since, out, log, generation, trace, |trace|) && c.generation <= generation
    requires i < |log| && Own(log[i], generation)
    ensures i < Position(log, generation, trace) ==> Marked(c, log[i])
  {
    hide Position, Got, Of, OrderedLog;
    var n := Position(log, generation, trace);
    assert trace[..|trace|] == trace;
    PositionWithin(log, since, generation, trace);
    if i < n { SeenIsMarked(c, log, generation, n, i); }
  }

  lemma SeenIsMarked(c: Cursor, log: seq<Event>, generation: int, n: nat, i: nat)
    requires OrderedLog(log, generation) && i < n <= |log| && Own(log[i], generation) && Own(log[n - 1], generation)
    requires generation in c.seen && c.seen[generation] == log[n - 1].seqNo
    ensures Marked(c, log[i])
  {
    assert i < n - 1 ==> log[i].seqNo < log[n - 1].seqNo;
  }

  /** The terminal event that ends a stream lies at or past the position. */
  lemma FinishIsAhead(c: Cursor, since: Option<int>, out: seq<Event>, log: seq<Event>, generation: int, trace: seq<nat>, i: nat)
    requires OrderedLog(log, generation) && Traced(c, since, out, log, generation, trace) && i < |log|
    requires Judge(c, since, log[i]).Finish? && Own(log[i], generation)
    ensures c.generation <= generation && Within(trace, log) && Position(log, generation, trace) <= i
  {
    hide Position;
    var m: nat :| Stands(c, since, out, log, generation, trace, m);
    BehindIsMarked(c, since, out, log, generation, trace, i);
  }

  // --------------------------------------------------- when nothing is missed

  /** An event asked for lies from the position on but before `i`. */
  predicate Overtakes(log: seq<Event>, since: Option<int>, generation: int, n: nat, i: nat) {
    exists j :: n <= j < i && j < |log| && Shows(since, generation, log[j])
  }

  /** No event of the attempt came before one asked for ahead of it. */
  predicate NeverAhead(log: seq<Event>, since: Option<int>, generation: int, trace: seq<nat>)
    requires Within(trace, log)
  {
    trace == [] ||
    var front, i := trace[..|trace| - 1], trace[|trace| - 1];
    && NeverAhead(log, since, generation, front)
    && (Own(log[i], generation) ==> !Overtakes(log, since, generation, Position(log, generation, front), i))
  }

  /** The client has all it asked for of the attempt up to the position. */
  predicate Whole(log: seq<Event>, since: Option<int>, generation: int, trace: seq<nat>)
    requires Within(trace, log)
  {
    var n := Position(log, generation, trace);
    n <= |log| && Got(log, since, generation, trace) == Shown(log[..n], since, generation)
  }

  lemma {:induction false} ShownConcat(a: seq<Event>, b: seq<Event>, since: Option<int>, generation: int)
    ensures Shown(a + b, since, generation) == Shown(a, since, generation) + Shown(b, since, generation)
    decreases b
  {
    if b == [] {
      assert a + b == a;
    } else {
      ShownConcat(a, b[..|b| - 1], since, generation);
      assert (a + b)[..|a + b| - 1] == a + b[..|b| - 1];
    }
  }

  lemma {:induction false} ShownNothing(log: seq<Event>, since: Option<int>, generation: int)
    ensures Shown(log, since, generation) == [] <==> forall e <- log :: !Shows(since, generation, e)
    decreases log
  {
    if log != [] {
      var front, last := log[..|log| - 1], log[|log| - 1];
      ShownNothing(front, since, generation);
      assert log == front + [last];
    }
  }

  lemma OvertakesIff(log: seq<Event>, since: Option<int>, generation: int, n: nat, i: nat)
    requires n <= i <= |log|
    ensures Overtakes(log, since, generation, n, i) <==> Shown(log[n..i], since, generation) != []
  {
    ShownNothing(log[n..i], since, generation);
    assert forall j :: n <= j < i ==> log[j] == log[n..i][j - n];
  }

  lemma {:induction false} GotBehind(log: seq<Event>, generation: int, since: Option<int>, trace: seq<nat>, n: nat)
    requires OrderedLog(log, generation) && Within(trace, log) && n < |log| && Own(log[n], generation)
    requires Position(log, generation, trace) <= n
    ensures forall e <- Got(log, since, generation, trace) :: e.seqNo < log[n].seqNo
    decreases trace
  {
    if trace != [] {
      GotBehind(log, generation, since, trace[..|trace| - 1], n);
    }
  }

  /** Shown so far, in between, and the event itself. */
  lemma ShownStep(log: seq<Event>, since: Option<int>, generation: int, n: nat, i: nat)
    requires n <= i < |log|
    ensures Shown(log[..i + 1], since, generation) ==
            (Shown(log[..n], since, generation) + Shown(log[n..i], since, generation)) + (if Shows(since, generation, log[i]) then [log[i]] else [])
  {
    assert log[..i + 1][..i] == log[..i] && log[..i] == log[..n] + log[n..i];
    ShownConcat(log[..n], log[n..i], since, generation);
  }

  lemma {:induction false} ShownFrom(log: seq<Event>, since: Option<int>, generation: int)
    ensures forall e <- Shown(log, since, generation) :: e in log && Shows(since, generation, e)
    decreases log
  {
    if log != [] {
      ShownFrom(log[..|log| - 1], since, generation);
      assert log == log[..|log| - 1] + [log[|log| - 1]];
    }
  }

  lemma BetweenIsAhead(log: seq<Event>, generation: int, since: Option<int>, trace: seq<nat>, i: nat)
    requires OrderedLog(log, generation) && Within(trace, log) && Position(log, generation, trace) <= i < |log|
    requires Shown(log[Position(log, generation, trace)..i], since, generation) != []
    ensures forall e <- Got(log, since, generation, trace) :: e.seqNo < Shown(log[Position(log, generation, trace)..i], since, generation)[0].seqNo
  {
    hide OrderedLog, Got, Position;
    var n := Position(log, generation, trace);
    var f := Shown(log[n..i], since, generation)[0];
    ShownFrom(log[n..i], since, generation);
    assert f in Shown(log[n..i], since, generation) && f in log[n..i];
    var k :| 0 <= k < i - n && log[n..i][k] == f;
    assert log[n + k] == f;
    GotBehind(log, generation, since, trace, n + k);
  }

  /** What was shown before can not stand in for something further on. */
  lemma SameFront(log: seq<Event>, generation: int, since: Option<int>, trace: seq<nat>, i: nat)
    requires OrderedLog(log, generation) && Within(trace, log) && Position(log, generation, trace) <= i < |log|
    ensures var n := Position(log, generation, trace);
            Got(log, since, generation, trace) == Shown(log[..n], since, generation) + Shown(log[n..i], since, generation) <==>
            Got(log, since, generation, trace) == Shown(log[..n], since, generation) && Shown(log[n..i], since, generation) == []
  {
    hide OrderedLog, Got, Position, Shown;
    var n := Position(log, generation, trace);
    var got, shown, between := Got(log, since, generation, trace), Shown(log[..n], since, generation), Shown(log[n..i], since, generation);
    if between != [] {
      BetweenIsAhead(log, generation, since, trace, i);
      FurtherOn(got, shown, between);
    }
    assert shown + [] == shown;
  }

  lemma FurtherOn(got: seq<Event>, shown: seq<Event>, between: seq<Event>)
    requires between != [] && forall e <- got :: e.seqNo < between[0].seqNo
    ensures got != shown + between
  {
    assert (shown + between)[|shown|] == between[0];
    assert between[0] in shown + between;
  }

  lemma SameSuffix(a: seq<Event>, b: seq<Event>, c: seq<Event>)
    ensures a + c == b + c <==> a == b
  {
    assert a + c == b + c ==> |a| == |b| && (a + c)[..|a|] == (b + c)[..|b|];
    assert (a + c)[..|a|] == a && (b + c)[..|b|] == b;
  }

  /** Exactly when one more event leaves the client with all it asked for. */
  lemma StaysWholeIff(log: seq<Event>, generation: int, since: Option<int>, trace: seq<nat>, i: nat)
    requires OrderedLog(log, generation) && Within(trace, log) && i < |log|
    ensures Within(trace + [i], log)
    ensures Whole(log, since, generation, trace + [i]) <==>
            Whole(log, since, generation, trace) &&
            (Own(log[i], generation) ==> !Overtakes(log, since, generation, Position(log, generation, trace), i))
  {
    hide Got, Position, Shown, OrderedLog;
    var n := Position(log, generation, trace);
    TraceGrows(log, since, generation, trace, i);
    PositionWithin(log, since, generation, trace);
    if i >= n && Own(log[i], generation) {
      ShownStep(log, since, generation, n, i);
      OvertakesIff(log, since, generation, n, i);
      SameFront(log, generation, since, trace, i);
      SameSuffix(Got(log, since, generation, trace), Shown(log[..n], since, generation) + Shown(log[n..i], since, generation),
                 if Shows(since, generation, log[i]) then [log[i]] else []);
    }
  }

  lemma NothingGot(log: seq<Event>, since: Option<int>, generation: int)
    ensures Whole(log, since, generation, []) && NeverAhead(log, since, generation, [])
    ensures Got(log, since, generation, []) == [] && Position(log, generation, []) == 0
  {
    assert log[..0] == [];
  }

  lemma AheadGrows(log: seq<Event>, since: Option<int>, generation: int, trace: seq<nat>, i: nat)
    requires Within(trace, log) && i < |log|
    ensures Within(trace + [i], log)
    ensures NeverAhead(log, since, generation, trace + [i]) <==>
            NeverAhead(log, since, generation, trace) &&
            (Own(log[i], generation) ==> !Overtakes(log, since, generation, Position(log, generation, trace), i))
    ensures Position(log, generation, trace + [i]) ==
            if i < Position(log, generation, trace) || !Own(log[i], generation) then Position(log, generation, trace) else i + 1
  {
    assert (trace + [i])[..|trace|] == trace && (trace + [i])[|trace|] == i;
  }

  /** Over a whole trace: the client has all it asked for exactly when nothing ran ahead. */
  lemma {:induction false} WholeIff(log: seq<Event>, generation: int, since: Option<int>, trace: seq<nat>)
    requires OrderedLog(log, generation) && Within(trace, log)
    ensures Whole(log, since, generation, trace) <==> NeverAhead(log, since, generation, trace)
    decreases trace
  {
    hide Whole, NeverAhead, OrderedLog;
    if trace == [] {
      NothingGot(log, since, generation);
    } else {
      var front, i := trace[..|trace| - 1], trace[|trace| - 1];
      assert trace == front + [i];
      WholeIff(log, generation, since, front);
      StaysWholeIff(log, generation, since, front, i);
      AheadGrows(log, since, generation, front, i);
    }
  }

  /** And it was so at every earlier moment. */
  lemma {:induction false} AheadEarlier(log: seq<Event>, since: Option<int>, generation: int, trace: seq<nat>, m: nat)
    requires Within(trace, log) && m <= |trace| && NeverAhead(log, since, generation, trace)
    ensures Within(trace[..m], log) && NeverAhead(log, since, generation, trace[..m])
    decreases |trace| - m
  {
    if m == |trace| {
      assert trace[..m] == trace;
    } else {
      AheadEarlier(log, since, generation, trace, m + 1);
      assert trace[..m + 1][..m] == trace[..m];
    }
  }

  // ------------------------------------------------ scripts and their traces

  /** The events a subscription delivers are events of the log, in whatever order. */
  ghost predicate Drawn(live: seq<Live>, log: seq<Event>) {
    forall l <- live :: l.Arrives? ==> l.event in log
  }

  ghost function IndexOf(log: seq<Event>, e: Event): (i: nat)
    requires e in log
    ensures i < |log| && log[i] == e
  {
    var i: nat :| i < |log| && log[i] == e;
    i
  }

  lemma IndexIsUnique(log: seq<Event>, generation: int, i: nat)
    requires OrderedLog(log, generation) && i < |log|
    ensures IndexOf(log, log[i]) == i
  {
  }

  ghost function Indices(live: seq<Live>, log: seq<Event>): (trace: seq<nat>)
    requires Drawn(live, log)
    ensures Within(trace, log)
  {
    if live == [] then []
    else
      var front, last := live[..|live| - 1], live[|live| - 1];
      assert live == front + [last];
      if last.Arrives? then Indices(front, log) + [IndexOf(log, last.event)] else Indices(front, log)
  }

  /** The indices from `a` up to, not including, `b`. */
  function Span(a: nat, b: nat): (trace: seq<nat>)
    requires a <= b
    ensures |trace| == b - a && forall k :: 0 <= k < b - a ==> trace[k] == a + k
  {
    seq(b - a, k requires 0 <= k < b - a => a + k)
  }

  /** Replays are prefixes of the log and live events come from it. */
  ghost predicate FromLog(r: Round, log: seq<Event>) {
    (r.past.Some? ==> r.past.value <= log) && Drawn(r.live, log)
  }

  /** How much of a round a stream may deal with: part of its replay, or all of it
      and live events until the subscription closes. */
  ghost predicate PartOf(r: Round, log: seq<Event>, part: seq<nat>)
    requires FromLog(r, log)
  {
    || part == []
    || (r.past.Some? && exists j: nat :: j <= |r.past.value| && part == Span(0, j))
    || (r.past.Some? && exists j: nat :: j <= |r.live| && Open(r.live[..j]) && part == Span(0, |r.past.value|) + Indices(r.live[..j], log))
  }

  /** All of a round's replay. */
  function ReplayOf(r: Round): seq<nat> { Span(0, if r.past.Some? then |r.past.value| else 0) }

  predicate Open(live: seq<Live>) { forall l <- live :: !l.Closed? }

  /** The trace of a stream over some of its rounds. */
  ghost predicate TraceOf(rounds: seq<Round>, log: seq<Event>, trace: seq<nat>)
    requires forall r <- rounds :: FromLog(r, log)
  {
    if rounds == [] then trace == []
    else exists m: nat :: m <= |trace| && TraceOf(rounds[..|rounds| - 1], log, trace[..m]) && PartOf(rounds[|rounds| - 1], log, trace[m..])
  }

  /** What arrives live continues the log at index `next`, without gaps. */
  predicate Continues(live: seq<Live>, log: seq<Event>, next: nat) {
    live == [] ||
    match live[0]
    case Arrives(e) => next < |log| && e == log[next] && Continues(live[1..], log, next + 1)
    case StateCheck => Continues(live[1..], log, next)
    case Closed => true
  }

  /** Each replay is a prefix of the log, and the subscription of the same round
      started no later than that prefix ends. */
  ghost predicate HandsOff(r: Round, log: seq<Event>) {
    FromLog(r, log) && (r.past.Some? ==> exists next: nat :: next <= |r.past.value| && Continues(r.live, log, next))
  }

  /** A stretch of the log that starts no later than the stream has got keeps it so. */
  lemma {:induction false} SpanStaysWhole(log: seq<Event>, since: Option<int>, generation: int, trace: seq<nat>, a: nat, b: nat)
    requires Within(trace, log) && NeverAhead(log, since, generation, trace) && a <= b <= |log|
    requires !Overtakes(log, since, generation, Position(log, generation, trace), a)
    ensures Within(trace + Span(a, b), log) && NeverAhead(log, since, generation, trace + Span(a, b))
    ensures !Overtakes(log, since, generation, Position(log, generation, trace + Span(a, b)), b)
    decreases b - a
  {
    hide NeverAhead, Position;
    if a == b {
      assert trace + Span(a, b) == trace;
    } else {
      SpanStaysWhole(log, since, generation, trace, a, b - 1);
      var before := trace + Span(a, b - 1);
      assert trace + Span(a, b) == before + [b - 1];
      AheadGrows(log, since, generation, before, b - 1);
    }
  }

  lemma {:induction false} LiveIsSpan(live: seq<Live>, log: seq<Event>, generation: int, next: nat, j: nat) returns (b: nat)
    requires OrderedLog(log, generation) && Drawn(live, log) && Continues(live, log, next) && j <= |live| && Open(live[..j]) && next <= |log|
    ensures Drawn(live[..j], log) && next <= b <= |log| && Indices(live[..j], log) == Span(next, b) && Continues(live[j..], log, b)
    decreases j
  {
    if j == 0 {
      b := next;
      assert live[0..] == live;
    } else {
      assert live[..j] == live[..j - 1] + [live[j - 1]];
      assert live[..j][..j - 1] == live[..j - 1];
      b := LiveIsSpan(live, log, generation, next, j - 1);
      assert live[j - 1..][0] == live[j - 1] && live[j - 1..][1..] == live[j..];
      assert live[j - 1] in live[..j];
      if live[j - 1].Arrives? {
        IndexIsUnique(log, generation, b);
        b := b + 1;
      }
    }
  }

  lemma PartStaysWhole(r: Round, log: seq<Event>, generation: int, since: Option<int>, trace: seq<nat>, part: seq<nat>)
    requires OrderedLog(log, generation) && HandsOff(r, log) && PartOf(r, log, part)
    requires Within(trace, log) && NeverAhead(log, since, generation, trace)
    ensures Within(trace + part, log) && NeverAhead(log, since, generation, trace + part)
  {
    hide NeverAhead, Position, OrderedLog, Continues, Open;
    if part == [] {
      assert trace + part == trace;
    } else if j: nat :| j <= |r.past.value| && part == Span(0, j) {
      SpanStaysWhole(log, since, generation, trace, 0, j);
    } else {
      var n := |r.past.value|;
      var j: nat :| j <= |r.live| && Open(r.live[..j]) && part == Span(0, n) + Indices(r.live[..j], log);
      var next: nat :| next <= n && Continues(r.live, log, next);
      var b := LiveIsSpan(r.live, log, generation, next, j);
      SpanStaysWhole(log, since, generation, trace, 0, n);
      SpanStaysWhole(log, since, generation, trace + Span(0, n), next, b);
      assert trace + part == (trace + Span(0, n)) + Span(next, b);
    }
  }

  /** Subscriptions that start no later than their replay ends, and drop nothing, never run ahead. */
  lemma {:induction false} HandOffNeverAhead(rounds: seq<Round>, log: seq<Event>, generation: int, since: Option<int>, trace: seq<nat>)
    requires OrderedLog(log, generation) && (forall r <- rounds :: FromLog(r, log) && HandsOff(r, log)) && TraceOf(rounds, log, trace)
    ensures Within(trace, log) && NeverAhead(log, since, generation, trace)
    decreases rounds
  {
    hide NeverAhead, Position, OrderedLog, PartOf, Drawn, Continues;
    if rounds == [] {
      NothingGot(log, since, generation);
    } else {
      var front, r := rounds[..|rounds| - 1], rounds[|rounds| - 1];
      assert r in rounds && forall x <- front :: x in rounds;
      var m: nat :| m <= |trace| && TraceOf(front, log, trace[..m]) && PartOf(r, log, trace[m..]);
      HandOffNeverAhead(front, log, generation, since, trace[..m]);
      PartStaysWhole(r, log, generation, since, trace[..m], trace[m..]);
      assert trace == trace[..m] + trace[m..];
    }
  }

  /** The event completes the run as the store holds it. */
  predicate Ends(c: Cursor, since: Option<int>, durable: Row, e: Event) {
    Judge(c, since, e).Finish? && Tail.Committed(durable, e.generation, Judge(c, since, e).status).1
  }

  /** A run that has not completed. */
  predicate Active(row: Row) { !Terminal(row.status) && row.completion.None? }

  /** A run that completed with this attempt. */
  predicate Settled(row: Row, generation: int) { Terminal(row.status) && row.completion == Some(generation) && AttemptGeneration(row) == generation }

  /** The row has no outcome yet, or has the one that the log ends on. */
  predicate Accords(row: Row, log: seq<Event>) {
    Active(row) || (log != [] && IsTerminal(log[|log| - 1]) && TerminalStatus(log[|log| - 1]) == Some(row.status))
  }

  /** The log of a run whose attempt `generation` is the newest and has ended: its
      terminal, with a status, comes last, and any other terminal is of an older attempt. */
  predicate WholeLog(log: seq<Event>, generation: int) {
    && log != [] && Own(log[|log| - 1], generation) && IsTerminal(log[|log| - 1]) && TerminalStatus(log[|log| - 1]).Some?
    && (forall e <- log :: e.generation <= generation)
    && forall i :: 0 <= i < |log| - 1 && IsTerminal(log[i]) ==> log[i].generation < generation
  }

  /** Neither row has an outcome, or both have the same. */
  predicate SameOutcome(before: Row, after: Row) {
    if Active(before) then Active(after) else after.status == before.status && after.completion == before.completion
  }

  /** Of an undisturbed stream with the whole log to come, exactly the log's last event ends it. */
  lemma OnlyLastEnds(c: Cursor, since: Option<int>, out: seq<Event>, log: seq<Event>, generation: int, trace: seq<nat>, i: nat, row: Row)
    requires OrderedLog(log, generation) && WholeLog(log, generation) && i < |log| && c.generation <= generation
    requires Traced(c, since, out, log, generation, trace) && Within(trace, log) && Position(log, generation, trace) < |log|
    requires (Active(row) || Settled(row, generation)) && Accords(row, log) && AttemptGeneration(row) == generation
    ensures Ends(c, since, row, log[i]) <==> i == |log| - 1
    ensures Past(c, since, log[i]).generation <= generation
    ensures Within(trace + [i], log) && (i < |log| - 1 ==> Position(log, generation, trace + [i]) < |log|)
  {
    hide Position, Got, Of;
    var m: nat :| Stands(c, since, out, log, generation, trace, m);
    assert trace[..|trace|] == trace && log[i] in log;
    TraceGrows(log, since, generation, trace, i);
    PositionWithin(log, since, generation, trace);
    var n := Position(log, generation, trace);
    assert n > 0 ==> log[n - 1].seqNo < log[|log| - 1].seqNo;
  }

  /** A subscription that delivers these events of the log, up to its end. */
  ghost predicate ToTheEnd(live: seq<Live>, log: seq<Event>) {
    && live != [] && log != [] && Drawn(live, log)
    && (forall l <- live :: l.Arrives?)
    && live[|live| - 1].event == log[|log| - 1]
    && forall k :: 0 <= k < |live| - 1 ==> live[k].event != log[|log| - 1]
  }

  /** A subscription that delivers these events and nothing else. */
  function Arrivals(events: seq<Event>): (live: seq<Live>)
    ensures |live| == |events|
  {
    seq(|events|, i requires 0 <= i < |events| => Arrives(events[i]))
  }

  /** The first round reaches the end of the log: by replay alone, or by a replay
      and a subscription that delivers its last event. */
  ghost predicate Covers(r: Round, log: seq<Event>, subscribed: bool) {
    r.past.Some? && r.past.value <= log && (r.past.value == log || (subscribed && ToTheEnd(r.live, log)))
  }

  /** What is dealt with before that last event. */
  ghost function CoveringTrace(r: Round, log: seq<Event>, subscribed: bool): seq<nat>
    requires Covers(r, log, subscribed) && log != []
  {
    if r.past.value == log then Span(0, |log| - 1)
    else
      assert Drawn(r.live[..|r.live| - 1], log);
      Span(0, |r.past.value|) + Indices(r.live[..|r.live| - 1], log)
  }

  /** `since` is bound to the attempt it referred to at first, or to one of the log. */
  ghost predicate BoundTo(c: Cursor, origin: int, log: seq<Event>) {
    if origin >= 0 then c.sinceGeneration == origin
    else c.sinceGeneration < 0 || exists e :: e in log && e.generation == c.sinceGeneration
  }

  /** What a client that has received `shown` has received of the log. */
  ghost predicate Follows(c: Cursor, origin: int, since: Option<int>, shown: seq<Event>, log: seq<Event>, generation: int, trace: seq<nat>) {
    Traced(c, since, shown, log, generation, trace) && BoundTo(c, origin, log)
  }

  lemma FollowsPast(c: Cursor, origin: int, since: Option<int>, out: seq<Event>, log: seq<Event>, generation: int, trace: seq<nat>, i: nat)
    requires OrderedLog(log, generation) && Follows(c, origin, since, out, log, generation, trace) && i < |log|
    ensures var shown := if Judge(c, since, log[i]).Show? then out + [log[i]] else out;
            Follows(Past(c, since, log[i]), origin, since, shown, log, generation, trace + [i])
  {
    hide Traced;
    PassEvent(c, since, out, log, generation, trace, i);
    assert log[i] in log;
  }

  lemma FollowsBind(c: Cursor, origin: int, since: Option<int>, out: seq<Event>, log: seq<Event>, generation: int, trace: seq<nat>, i: nat)
    requires Follows(c, origin, since, out, log, generation, trace) && i < |log|
    ensures Follows(Bind(c, log[i]), origin, since, out, log, generation, trace)
  {
    hide Traced;
    BindTraced(c, since, out, log, generation, trace, log[i]);
    assert log[i] in log;
  }

  lemma FollowsRaise(c: Cursor, c': Cursor, origin: int, since: Option<int>, out: seq<Event>, log: seq<Event>, generation: int, trace: seq<nat>)
    ensures c' == c.(generation := c'.generation) && c.generation <= c'.generation && Follows(c, origin, since, out, log, generation, trace) ==>
              Follows(c', origin, since, out, log, generation, trace)
  {
    hide Traced;
    if c' == c.(generation := c'.generation) && c.generation <= c'.generation {
      RaiseTraced(c, c', since, out, log, generation, trace);
    }
  }

  lemma FinishedHere(c: Cursor, origin: int, since: Option<int>, out: seq<Event>, log: seq<Event>, generation: int, trace: seq<nat>, i: nat)
    requires OrderedLog(log, generation) && Follows(c, origin, since, out, log, generation, trace) && i < |log|
    requires Judge(c, since, log[i]).Finish?
    ensures IsTerminal(log[i]) && Bind(c, log[i]).generation == c.generation
    ensures Own(log[i], generation) ==> c.generation <= generation && Within(trace, log) && Position(log, generation, trace) <= i
  {
    if Own(log[i], generation) {
      FinishIsAhead(c, since, out, log, generation, trace, i);
    }
  }

  lemma OnlyLastEndsHere(c: Cursor, origin: int, since: Option<int>, out: seq<Event>, log: seq<Event>, generation: int, trace: seq<nat>, i: nat, row: Row)
    requires OrderedLog(log, generation) && WholeLog(log, generation) && i < |log| && c.generation <= generation
    requires Follows(c, origin, since, out, log, generation, trace) && Within(trace, log) && Position(log, generation, trace) < |log|
    requires (Active(row) || Settled(row, generation)) && Accords(row, log) && AttemptGeneration(row) == generation
    ensures Ends(c, since, row, log[i]) <==> i == |log| - 1
    ensures Past(c, since, log[i]).generation <= generation
    ensures Within(trace + [i], log) && (i < |log| - 1 ==> Position(log, generation, trace + [i]) < |log|)
  {
    OnlyLastEnds(c, since, out, log, generation, trace, i, row);
  }

  class Tail {
    const since: Option<int>
    const runID: string
    var cur: Cursor
    var run: Row                    // this stream's last read of the run
    var durable: Row                // the run as the store holds it
    var elsewhere: seq<seq<RowAct>> // what others commit before each of our store calls
    var replies: seq<Reply>         // how our completions turn out
    var lookups: seq<bool>          // whether each of our reads of the run succeeds
    var writes: seq<bool>           // whether each write to the client succeeds
    var out: seq<Event>             // what the client has received
    const origin: int               // the attempt that `since` referred to at first

    /** Nothing of ours fails. */
    predicate Calm()
      reads this`replies, this`lookups, this`writes
    {
      replies == [] && lookups == [] && writes == []
    }

    /** Nothing fails, and others do nothing but begin attempt `generation`, now or before our next
        store call; or it is the one that the run has completed with. */
    predicate Undisturbed(generation: int)
      reads this`replies, this`lookups, this`writes, this`elsewhere, this`durable
    {
      && Calm() && (Active(durable) || Settled(durable, generation))
      && if elsewhere == [] then AttemptGeneration(durable) == generation
         else Active(durable) && elsewhere == [[BeginBy(generation)]] && AttemptGeneration(durable) <= generation
    }

    constructor (runID: string, since: Option<int>, row: Row, elsewhere: seq<seq<RowAct>>,
                 replies: seq<Reply>, lookups: seq<bool>, writes: seq<bool>)
      ensures this.since == since && this.runID == runID && this.elsewhere == elsewhere
      ensures this.replies == replies && this.lookups == lookups && this.writes == writes
      ensures out == [] && durable == row && Streaming(cur, out)
      ensures origin == cur.sinceGeneration
      ensures cur == Cursor(AttemptGeneration(row), if row.attempt.Some? then row.attempt.value else -1, map[], {})
    {
      this.runID, this.since, this.run, this.durable := runID, since, row, row;
      this.elsewhere, this.replies, this.lookups, this.writes := elsewhere, replies, lookups, writes;
      this.cur := Cursor(AttemptGeneration(row), if row.attempt.Some? then row.attempt.value else -1, map[], {});
      this.origin := if row.attempt.Some? then row.attempt.value else -1;
      this.out := [];
    }

    method Interfere()
      modifies this`durable, this`elsewhere
      ensures Moved(old(durable), old(elsewhere), durable, elsewhere)
      ensures durable == NextRow(old(durable), old(elsewhere)) && elsewhere == Rest(old(elsewhere))
    {
      MovedSelf(durable, elsewhere);
      if elsewhere != [] {
        var batch := elsewhere[0];
        for i := 0 to |batch|
          invariant elsewhere == old(elsewhere)
          invariant Later(old(durable), durable) && durable == RowsAfter(old(durable), batch[..i])
        {
          assert batch[..i + 1][..i] == batch[..i];
          durable := RowAfter(durable, batch[i]);
        }
        assert batch[..|batch|] == batch;
        elsewhere := elsewhere[1..];
      }
    }

    method Emit(e: Event) returns (ok: bool)
      modifies this`out, this`writes
      ensures out == if ok then old(out) + [e] else old(out)
      ensures old(writes) == [] ==> ok && writes == []
    {
      ok := writes == [] || writes[0];
      if writes != [] { writes := writes[1..]; }
      if ok { out := out + [e]; }
    }

    method Refresh() returns (ok: bool)
      modifies this`durable, this`elsewhere, this`lookups, this`run, this`cur
      ensures Moved(old(durable), old(elsewhere), durable, elsewhere)
      ensures ok ==> run == durable
      ensures ok <==> old(lookups) == [] || old(lookups)[0]
      ensures cur == old(cur).(generation := cur.generation) && old(cur).generation <= cur.generation
      ensures cur.generation == old(cur).generation || cur.generation == AttemptGeneration(durable)
      ensures !ok ==> cur == old(cur)
      // once an attempt is known to have begun, older ones are outdated
      ensures ok ==> AttemptGeneration(durable) <= cur.generation
      ensures durable == NextRow(old(durable), old(elsewhere)) && elsewhere == Rest(old(elsewhere))
      ensures old(Calm()) ==> Calm() && ok
    {
      Interfere();
      ok := lookups == [] || lookups[0];
      if lookups != [] { lookups := lookups[1..]; }
      if ok {
        run := durable;
        if AttemptGeneration(run) > cur.generation {
          cur := cur.(generation := AttemptGeneration(run));
        }
      }
    }

    /** The row after this stream completes the run undisturbed, and whether that was accepted. */
    static function Committed(row: Row, generation: int, status: RunStatus): (Row, bool) {
      var result := RunStore.CompleteRun(row, Completion(false, None, generation, status, "", NoOutput));
      (result.0, result.1.accepted)
    }

    method CompleteRun(generation: int, status: RunStatus) returns (accepted: bool, err: bool)
      requires Terminal(status)
      modifies this`durable, this`elsewhere, this`replies
      ensures Moved(old(durable), old(elsewhere), durable, elsewhere)
      ensures accepted && !err ==> durable.status == status && durable.completion == Some(generation)
      ensures old(replies) != [] && old(replies)[0].Refused? ==> err && durable == NextRow(old(durable), old(elsewhere))
      ensures elsewhere == Rest(old(elsewhere))
      ensures old(Calm()) ==> Calm() && !err && (durable, accepted) == Committed(NextRow(old(durable), old(elsewhere)), generation, status)
    {
      Interfere();
      var reply := if replies == [] then Done else replies[0];
      if replies != [] { replies := replies[1..]; }
      var result := RunStore.CompleteRun(durable, Completion(false, None, generation, status, "", NoOutput));
      if reply != Refused { durable := result.0; }
      accepted, err := result.1.accepted, reply != Done;
    }

    /** A terminal event with a status: it ends the stream if it completes the run. */
    method ConsumeTerminal(e: Event, status: RunStatus, ghost before: Cursor) returns (step: Step)
      requires Streaming(before, out) && cur == Bind(before, e) && Judge(before, since, e) == Finish(status)
      modifies this
      ensures Moved(old(durable), old(elsewhere), durable, elsewhere)
      ensures !step.Ended? ==> Streaming(cur, out) && out == old(out)
      ensures step.More? ==> cur == Mark(old(cur), e).(generation := cur.generation) && old(cur).generation <= cur.generation
      ensures step.More? ==> cur.generation == old(cur).generation || cur.generation == AttemptGeneration(durable)
      ensures step.More? ==> AttemptGeneration(durable) <= cur.generation && (old(lookups) == [] || old(lookups)[0])
      ensures step.Retry? ==> cur == old(cur)
      ensures step.Ended? && step.written ==> out == old(out) + [e] && Orderly(out) && Finished(out, durable)
      ensures step.Ended? && !step.written ==> out == old(out)
      ensures step.Ended? ==> cur == old(cur)
      ensures old(Calm()) ==> Calm() && step == (if Committed(NextRow(old(durable), old(elsewhere)), e.generation, status).1 then Ended(true) else More)
      ensures forall g :: old(Undisturbed(g)) && step.More? ==> Undisturbed(g) && SameOutcome(old(durable), durable)
    {
      hide Orderly, NoTerminal, Behind, Streaming, Finished, Active;
      TerminalKeepsOrder(before, since, out, e);
      MarkKeepsStreaming(before, cur, out, e);
      BindKeepsStreaming(before, out, e);
      forall g | Undisturbed(g) { UndisturbedNext(g); }
      var accepted, err := CompleteRun(e.generation, status);
      if err { return Retry; }
      if !accepted {
        var ok := Refresh();
        if !ok { return Retry; }
        MarkKeepsStreaming(before, cur, out, e);
        cur := Mark(cur, e);
        return More;
      }
      FinishesWith(before, since, out, e, durable);
      var ok := Emit(e);
      step := Ended(ok);
    }

    /** Deals with one event from replay or from the live subscription. */
    method Consume(e: Event) returns (step: Step)
      requires Streaming(cur, out)
      modifies this
      ensures Moved(old(durable), old(elsewhere), durable, elsewhere)
      ensures !step.Ended? ==> Streaming(cur, out)
      ensures step.More? && Judge(old(cur), since, e).Show? ==> out == old(out) + [e]
      ensures step.More? && !Judge(old(cur), since, e).Show? ==> out == old(out)
      ensures step.More? ==> cur == Past(old(cur), since, e).(generation := cur.generation)
      ensures step.More? ==> cur.generation == Past(old(cur), since, e).generation || cur.generation == AttemptGeneration(durable)
      // a failed completion is not consumed: only the binding of `since` may have moved
      ensures step.Retry? ==> Judge(old(cur), since, e).Finish? && out == old(out) && !Marked(cur, e) &&
                              cur == Bind(old(cur), e)
      ensures step.Ended? && step.written ==> out == old(out) + [e] && Orderly(out) &&
                                              Judge(old(cur), since, e).Finish? && Finished(out, durable) && cur == Bind(old(cur), e)
      ensures step.Ended? && !step.written ==> out == old(out)
      ensures step.Ended? ==> cur == Bind(old(cur), e).(generation := cur.generation) && Bind(old(cur), e).generation <= cur.generation
      ensures step.More? ==> Past(old(cur), since, e).generation <= cur.generation
      // when nothing fails, exactly a terminal event whose completion is accepted ends the stream
      ensures old(Calm()) ==> Calm() && step == (if Ends(old(cur), since, NextRow(old(durable), old(elsewhere)), e) then Ended(true) else More)
      ensures forall g :: old(Undisturbed(g)) && step.More? ==> Undisturbed(g) && SameOutcome(old(durable), durable)
    {
      hide Orderly, NoTerminal, Behind, Finished;
      MovedSelf(durable, elsewhere);
      if Marked(cur, e) { return More; }
      ghost var before := cur;
      if Outdated(cur, e) {
        MarkKeepsStreaming(before, cur, out, e);
        cur := Mark(cur, e);
        return More;
      }
      cur := Bind(cur, e);
      if BeforeSince(cur, since, e) {
        MarkKeepsStreaming(before, cur, out, e);
        cur := Mark(cur, e);
        return More;
      }
      if IsTerminal(e) {
        var status := TerminalStatus(e);
        if status.None? {
          MarkKeepsStreaming(before, cur, out, e);
          cur := Mark(cur, e);
          return More;
        }
        step := ConsumeTerminal(e, status.value, before);
        return;
      }
      ShowKeepsStreaming(before, since, out, e);
      if e.generation > cur.generation && !e.kind.PolicyNotice? {
        cur := cur.(generation := e.generation);
      }
      var ok := Emit(e);
      if !ok { return Ended(false); }
      cur := Mark(cur, e);
      step := More;
    }

    /** Ends the stream with the persisted status when no runner terminal will. */
    method EndDurably() returns (ending: Ending)
      requires Streaming(cur, out) && Terminal(run.status) && run == durable
      modifies this`out, this`writes
      ensures ending.Complete? || ending.WriteFailed?
      ensures ending.Complete? ==> out == old(out) + [DurableEnd(runID, durable)] && Orderly(out) && Finished(out, durable)
      ensures ending.WriteFailed? ==> out == old(out)
      ensures old(writes) == [] ==> ending.Complete? && writes == []
    {
      var ok := Emit(DurableEnd(runID, run));
      ending := if ok then Complete else WriteFailed;
    }

    /** These events of a run's log have been dealt with. */
    ghost predicate At(log: seq<Event>, generation: int, trace: seq<nat>)
      reads this
    {
      OrderedLog(log, generation) && Follows(cur, origin, since, out, log, generation, trace)
    }

    /** Undisturbed, with the whole log of the run's newest attempt still to come. */
    ghost predicate Ready(log: seq<Event>, generation: int, trace: seq<nat>)
      reads this
    {
      && Undisturbed(generation) && At(log, generation, trace) && WholeLog(log, generation) && Accords(durable, log)
      && cur.generation <= generation && Within(trace, log) && Position(log, generation, trace) < |log|
    }

    /** After a trace, the stream has ended on a runner's own terminal event, `log[n]`. */
    ghost predicate EndedAt(log: seq<Event>, generation: int, trace: seq<nat>, n: nat)
      reads this
    {
      && n < |log| && IsTerminal(log[n]) && out != [] && out[|out| - 1] == log[n]
      && Follows(cur, origin, since, out[..|out| - 1], log, generation, trace)
      && (Own(log[n], generation) ==> cur.generation <= generation && Within(trace, log) && Position(log, generation, trace) <= n)
    }

    /** How a stream leaves the client when it ends while dealing with `log[n]`. */
    ghost predicate Left(written: bool, log: seq<Event>, generation: int, trace: seq<nat>, n: nat)
      reads this
    {
      if written then EndedAt(log, generation, trace, n) else Follows(cur, origin, since, out, log, generation, trace)
    }

    /** Consume, seen from the run's log. */
    method ConsumeAt(e: Event, ghost log: seq<Event>, ghost generation: int, ghost trace: seq<nat>, ghost i: nat)
      returns (step: Step)
      requires Streaming(cur, out)
      modifies this
      ensures Moved(old(durable), old(elsewhere), durable, elsewhere)
      ensures !step.Ended? ==> Streaming(cur, out)
      ensures step.Ended? && step.written ==> Orderly(out) && Finished(out, durable) && out == old(out) + [e]
      ensures step.Ended? && !step.written ==> Orderly(out) && NoTerminal(out)
      ensures old(At(log, generation, trace)) && i < |log| && e == log[i] ==>
                && (step.More? ==> At(log, generation, trace + [i]))
                && (step.Retry? ==> At(log, generation, trace))
                && (step.Ended? ==> Left(step.written, log, generation, trace, i))
      ensures old(Ready(log, generation, trace)) && i < |log| && e == log[i] ==>
                if i < |log| - 1 then step.More? && Ready(log, generation, trace + [i]) && SameOutcome(old(durable), durable)
                else step == Ended(true)
      ensures old(Calm()) ==> Calm() && !step.Retry? && (step.Ended? ==> step.written)
    {
      hide Position, Streaming, Orderly, Finished, NoTerminal, Follows, OrderedLog, WholeLog, Ends, Judge, Past, NextRow, Within, Bind;
      ghost var before, shown, known := cur, out, At(log, generation, trace) && i < |log| && e == log[i];
      if known {
        FollowsPast(cur, origin, since, out, log, generation, trace, i);
        FollowsBind(cur, origin, since, out, log, generation, trace, i);
      }
      if Ready(log, generation, trace) && i < |log| && e == log[i] {
        UndisturbedNext(generation);
        OnlyLastEndsHere(cur, origin, since, out, log, generation, trace, i, NextRow(durable, elsewhere));
      }
      UnfinishedEnd(cur, out);
      step := Consume(e);
      if known {
        FollowsRaise(Past(before, since, e), cur, origin, since, out, log, generation, trace + [i]);
        FollowsRaise(Bind(before, e), cur, origin, since, shown, log, generation, trace);
        if step.Ended? && step.written {
          FinishedHere(before, origin, since, shown, log, generation, trace, i);
          assert out[..|out| - 1] == shown;
        }
      }
    }

    /** The attempt that is to begin is the durable one by our next store call. */
    lemma UndisturbedNext(generation: int)
      requires Undisturbed(generation)
      ensures var next := NextRow(durable, elsewhere);
              && (Active(next) || Settled(next, generation)) && AttemptGeneration(next) == generation
              && SameOutcome(durable, next)
    {
      if elsewhere != [] {
        assert elsewhere[0][..0] == [] && RowsAfter(durable, elsewhere[0]) == RowAfter(durable, elsewhere[0][0]);
      }
    }

    /** A periodic look at the run while following it live; `stop` sends the stream back to replay. */
    method CheckState(ghost log: seq<Event>, ghost generation: int, ghost trace: seq<nat>) returns (stop: bool)
      requires Streaming(cur, out)
      modifies this
      ensures Moved(old(durable), old(elsewhere), durable, elsewhere) && Streaming(cur, out) && out == old(out)
      ensures old(At(log, generation, trace)) ==> At(log, generation, trace)
      // it goes on exactly while the run can be read and is not terminal
      ensures stop <==> (old(lookups) != [] && !old(lookups)[0]) || Terminal(durable.status)
      ensures old(Calm()) ==> Calm()
    {
      hide Follows;
      var ok := Refresh();
      RaiseKeepsStreaming(old(cur), out, cur.generation);
      FollowsRaise(old(cur), cur, origin, since, out, log, generation, trace);
      stop := !ok || Terminal(run.status);
    }

    method ReplayPast(past: seq<Event>, ghost log: seq<Event>, ghost generation: int, ghost trace: seq<nat>)
      returns (step: Step, ghost done: nat)
      requires Streaming(cur, out)
      modifies this
      ensures Moved(old(durable), old(elsewhere), durable, elsewhere)
      ensures !step.Ended? ==> Streaming(cur, out)
      ensures step.Ended? && step.written ==> Orderly(out) && Finished(out, durable) && out != [] && out[|out| - 1] in past
      ensures step.Ended? && !step.written ==> Orderly(out) && NoTerminal(out)
      ensures done <= |past| && (step.More? ==> done == |past|)
      ensures old(At(log, generation, trace)) && past <= log ==>
                && (!step.Ended? ==> At(log, generation, trace + Span(0, done)))
                && (step.Ended? ==> done < |past| && Left(step.written, log, generation, trace + Span(0, done), done))
      ensures old(Ready(log, generation, trace)) && past <= log ==>
                if past == log then step == Ended(true) && done == |log| - 1
                else step.More? && Ready(log, generation, trace + Span(0, done)) && SameOutcome(old(durable), durable)
      ensures old(Calm()) ==> Calm() && !step.Retry? && (step.Ended? ==> step.written)
    {
      hide Follows, OrderedLog, WholeLog, Streaming, Orderly, Finished, NoTerminal, Position;
      MovedSelf(durable, elsewhere);
      done := 0;
      ghost var whole := Ready(log, generation, trace) && past <= log;
      assert trace + Span(0, 0) == trace;
      for i := 0 to |past|
        invariant done == i && Streaming(cur, out) && Moved(old(durable), old(elsewhere), durable, elsewhere)
        invariant old(At(log, generation, trace)) && past <= log ==> At(log, generation, trace + Span(0, i))
        invariant whole ==> i < |log| && Ready(log, generation, trace + Span(0, i)) && SameOutcome(old(durable), durable)
        invariant old(Calm()) ==> Calm()
      {
        assert trace + Span(0, i + 1) == (trace + Span(0, i)) + [i];
        step := ConsumeAt(past[i], log, generation, trace + Span(0, i), i);
        if !step.More? { return; }
        done := i + 1;
      }
      step := More;
    }

    method FollowLive(live: seq<Live>, ghost log: seq<Event>, ghost generation: int, ghost trace: seq<nat>)
      returns (step: LiveStep, ghost done: nat, ghost n: nat)
      requires Streaming(cur, out)
      modifies this
      ensures Moved(old(durable), old(elsewhere), durable, elsewhere)
      ensures !step.LiveEnded? ==> Streaming(cur, out)
      ensures step.LiveEnded? && step.written ==> Orderly(out) && Finished(out, durable)
      ensures step.LiveEnded? && !step.written ==> Orderly(out) && NoTerminal(out)
      ensures done <= |live| && Open(live[..done])
      // it is left where the script runs out, where the subscription closes or a completion fails,
      // or at a look at the run that failed or found it terminal
      ensures step.ContextDone? ==> done == |live|
      ensures step.BackToReplay? ==> done < |live| && if step.subscribed then live[done].StateCheck? else !live[done].StateCheck?
      ensures old(Calm()) ==> Calm() && (step.LiveEnded? ==> step.written)
                              && (step.BackToReplay? ==> if step.subscribed then Terminal(durable.status) else live[done].Closed?)
      ensures old(Calm()) && Terminal(old(durable.status)) ==> forall k :: 0 <= k < done ==> !live[k].StateCheck?
      ensures old(At(log, generation, trace)) && Drawn(live, log) ==>
                && Drawn(live[..done], log)
                && (!step.LiveEnded? ==> At(log, generation, trace + Indices(live[..done], log)))
                && (step.LiveEnded? ==> Left(step.written, log, generation, trace + Indices(live[..done], log), n))
                && (step.LiveEnded? ==> done < |live| && live[done].Arrives? && live[done].event in log && IndexOf(log, live[done].event) == n)
      ensures old(Ready(log, generation, trace)) && ToTheEnd(live, log) ==>
                step == LiveEnded(true) && done == |live| - 1 && n == |log| - 1
    {
      hide Follows, OrderedLog, WholeLog, Streaming, Orderly, Finished, NoTerminal, Position, Within, Active;
      MovedSelf(durable, elsewhere);
      done, n := 0, 0;
      ghost var whole := Ready(log, generation, trace) && ToTheEnd(live, log);
      ghost var traced := At(log, generation, trace) && Drawn(live, log);
      ghost var t := trace;
      for i := 0 to |live|
        invariant done == i && Open(live[..i]) && Streaming(cur, out) && Moved(old(durable), old(elsewhere), durable, elsewhere)
        invariant traced ==> t == trace + Indices(live[..i], log) && At(log, generation, t)
        invariant whole ==> i < |live| && Ready(log, generation, t)
        invariant old(Calm()) ==> Calm()
        invariant old(Calm()) && Terminal(old(durable.status)) ==> forall k :: 0 <= k < i ==> !live[k].StateCheck?
      {
        assert live[..i + 1] == live[..i] + [live[i]];
        assert live[..i + 1][..i] == live[..i] && live[i] in live;
        match live[i] {
        case StateCheck =>
          var stop := CheckState(log, generation, t);
          if stop { return BackToReplay(true), done, n; }
        case Closed =>
          return BackToReplay(false), done, n;
        case Arrives(e) =>
          if traced {
            assert live[i] in live;
            n := IndexOf(log, e);
          }
          if whole { LastIsLast(live, log, generation, i); }
          var consumed := ConsumeAt(e, log, generation, t, n);
          if consumed.Ended? { return LiveEnded(consumed.written), done, n; }
          if consumed.Retry? { return BackToReplay(false), done, n; }
          if traced { t := t + [n]; }
        }
        done := i + 1;
      }
      step := ContextDone;
    }

    /** What the client ends up with: what it got by a trace of the log, then at most
        one terminal event. */
    ghost predicate Delivered(ending: Ending, log: seq<Event>, generation: int, trace: seq<nat>, n: nat)
      reads this
    {
      if ending.Complete? then
        || EndedAt(log, generation, trace, n)
        || (out != [] && out[|out| - 1] == DurableEnd(runID, durable) && Follows(cur, origin, since, out[..|out| - 1], log, generation, trace))
      else Follows(cur, origin, since, out, log, generation, trace)
    }

    lemma AbandonedIsDelivered(log: seq<Event>, generation: int, trace: seq<nat>, n: nat)
      ensures At(log, generation, trace) ==> Delivered(Abandoned, log, generation, trace, n)
    {}

    /** A look at the durable row once a replay is over: a terminal run ends the stream with the persisted status. */
    method LookAfter(ghost log: seq<Event>, ghost generation: int, ghost trace: seq<nat>) returns (ended: Option<Ending>, ok: bool)
      requires Streaming(cur, out)
      modifies this
      ensures Moved(old(durable), old(elsewhere), durable, elsewhere)
      ensures ended.None? ==> Streaming(cur, out) && (ok ==> !Terminal(durable.status))
      ensures ended.Some? ==> Orderly(out) && (ended.value.Complete? <==> Finished(out, durable))
      ensures ended.Some? ==> ok && Terminal(durable.status) && !ended.value.Abandoned?
      ensures ended == Some(Complete) ==> out == old(out) + [DurableEnd(runID, durable)]
      ensures old(At(log, generation, trace)) ==> if ended.None? then At(log, generation, trace) else Delivered(ended.value, log, generation, trace, 0)
      ensures old(Calm()) ==> ok && if ended.None? then Calm() else ended.value.Complete?
      ensures old(Ready(log, generation, trace)) && old(Active(durable)) ==>
                ended.None? && ok && Active(durable) && Ready(log, generation, trace)
    {
      hide Follows, Position, OrderedLog, WholeLog, NextRow, Within;
      if Ready(log, generation, trace) { UndisturbedNext(generation); }
      ok := Refresh();
      RaiseKeepsStreaming(old(cur), out, cur.generation);
      FollowsRaise(old(cur), cur, origin, since, out, log, generation, trace);
      ended := None;
      if ok && Terminal(run.status) {
        ghost var shown := out;
        StreamingIsUnfinished(cur, out, durable);
        var ending := EndDurably();
        assert ending.Complete? ==> out[..|out| - 1] == shown;
        ended := Some(ending);
      }
    }

    /** Replay, then a look at the durable row: the stream may end here. */
    method ReplayRound(past: Option<seq<Event>>, ghost log: seq<Event>, ghost generation: int, ghost trace: seq<nat>)
      returns (ended: Option<Ending>, retry: bool, ghost done: nat)
      requires Streaming(cur, out)
      modifies this
      ensures ended.None? ==> Streaming(cur, out)
      ensures ended.Some? ==> Orderly(out) && (ended.value.Complete? <==> Finished(out, durable))
      ensures past.None? && ended.None? ==> retry
      ensures done <= (if past.Some? then |past.value| else 0)
      ensures ended.None? && !retry ==> past.Some? && done == |past.value|
      // a run that is found terminal ends the stream, once its replay has been dealt with
      ensures ended.None? && !retry ==> !Terminal(durable.status)
      ensures Moved(old(durable), old(elsewhere), durable, elsewhere)
      ensures old(Calm()) ==> if ended.None? then Calm() && !Terminal(durable.status) && retry == past.None? else ended.value.Complete?
      ensures ended == Some(Complete) ==> out != []
      ensures ended == Some(Complete) && (past.None? || out[|out| - 1] !in past.value) ==>
                out[|out| - 1] == DurableEnd(runID, durable) && done == if past.Some? then |past.value| else 0
      ensures old(At(log, generation, trace)) && (past.Some? ==> past.value <= log) ==>
                && (ended.None? ==> At(log, generation, trace + Span(0, done)))
                && (ended.Some? ==> Delivered(ended.value, log, generation, trace + Span(0, done), done))
                && (ended == Some(Complete) && out[|out| - 1] in log ==> past.Some? && done < |past.value|)
      ensures old(Ready(log, generation, trace)) && past.Some? && past.value <= log ==>
                if past.value == log then ended == Some(Complete) && EndedAt(log, generation, trace + Span(0, done), done) && done == |log| - 1
                else old(Active(durable)) ==> ended.None? && !retry && Active(durable) && Ready(log, generation, trace + Span(0, done))
    {
      hide Follows, Position, OrderedLog, WholeLog, NextRow, Within;
      done := 0;
      assert trace + Span(0, 0) == trace;
      retry := past.None?;
      if past.Some? {
        var step;
        step, done := ReplayPast(past.value, log, generation, trace);
        if step.Ended? { return Some(if step.written then Complete else WriteFailed), false, done; }
        if step.Retry? { return None, true, done; }
      }
      var ok;
      ended, ok := LookAfter(log, generation, trace + Span(0, done));
      if OrderedLog(log, generation) { DurableEndIsNotLogged(runID, durable, log, generation); }
      retry := ended.None? && (retry || !ok);
    }

    /** One pass of the outer loop: replay, and then the live subscription while it is open. */
    method OneRound(round: Round, open: bool, ghost log: seq<Event>, ghost generation: int, ghost trace: seq<nat>)
      returns (ended: Option<Ending>, stillOpen: bool, ghost part: seq<nat>, ghost n: nat)
      requires Streaming(cur, out)
      modifies this
      ensures ended.None? ==> Streaming(cur, out)
      ensures ended.Some? ==> Orderly(out) && (ended.value.Complete? <==> Finished(out, durable))
      ensures old(At(log, generation, trace)) && FromLog(round, log) ==>
                && PartOf(round, log, part)
                && (ended.None? ==> At(log, generation, trace + part))
                && (ended.Some? ==> Delivered(ended.value, log, generation, trace + part, n))
                && (ended == Some(Complete) && out != [] && out[|out| - 1] in log ==> PartOf(round, log, part + [n]))
      ensures Moved(old(durable), old(elsewhere), durable, elsewhere)
      // when nothing fails a run found terminal at the end of a replay ends the stream, and one that
      // completes while it is followed is found terminal by the next look at it
      ensures old(Calm()) ==> (ended.None? ==> Calm()) && ended != Some(WriteFailed)
      ensures old(Calm()) && Terminal(old(durable.status)) ==> ended == Some(Complete)
      ensures old(Calm()) && ended.None? && stillOpen && round.past.Some? ==> Terminal(durable.status)
      // the durable end is written after a whole replay, or when there is none to be had
      ensures ended == Some(Complete) && old(At(log, generation, trace)) && FromLog(round, log) && out[|out| - 1] !in log ==>
                out[|out| - 1] == DurableEnd(runID, durable) && part == ReplayOf(round)
      ensures old(Ready(log, generation, trace)) && FromLog(round, log) && Covers(round, log, open && old(Active(durable))) ==>
                ended == Some(Complete) && part == CoveringTrace(round, log, open && old(Active(durable))) && n == |log| - 1 && EndedAt(log, generation, trace + part, n)
    {
      hide Follows, OrderedLog, WholeLog, Streaming, Orderly, Position;
      var retry; ghost var done;
      ended, retry, done := ReplayRound(round.past, log, generation, trace);
      stillOpen, part, n := open, Span(0, done), done;
      assert Span(0, done) + [done] == Span(0, done + 1);
      if ended.Some? || !open || retry { return; }
      var left; ghost var heard;
      left, heard, n := FollowLive(round.live, log, generation, trace + Span(0, done));
      if Drawn(round.live, log) {
        assert Drawn(round.live[..heard], log);
        part := Span(0, done) + Indices(round.live[..heard], log);
        assert trace + part == trace + Span(0, done) + Indices(round.live[..heard], log);
        HeardOneMore(round.live, log, heard, n);
        assert part + [n] == Span(0, done) + (Indices(round.live[..heard], log) + [n]);
      }
      if left.LiveEnded? { return Some(if left.written then Complete else WriteFailed), open, part, n; }
      if left.ContextDone? {
        StreamingIsUnfinished(cur, out, durable);
        return Some(Abandoned), open, part, n;
      }
      stillOpen := left.subscribed;
    }

    /** The whole stream. `log` is the run's log and `generation` any attempt in it,
        `trace` what the stream then dealt with and `n` the event it ended on; they play
        no part in what is done. */
    method Stream(rounds: seq<Round>, subscribed: bool, ghost log: seq<Event>, ghost generation: int)
      returns (ending: Ending, ghost trace: seq<nat>, ghost n: nat)
      requires Streaming(cur, out)
      modifies this
      // for every script of replays, live events, closes and failures
      ensures Orderly(out)
      ensures ending.Complete? <==> Finished(out, durable)
      ensures Moved(old(durable), old(elsewhere), durable, elsewhere)
      // if all it is given comes from the run's log, the client gets what its trace of that log shows
      ensures old(At(log, generation, [])) && (forall r <- rounds :: FromLog(r, log)) ==>
                && TraceOf(rounds, log, trace) && Delivered(ending, log, generation, trace, n)
                && (ending.Complete? && out != [] && out[|out| - 1] in log ==> TraceOf(rounds, log, trace + [n]))
      // when nothing fails a run that has completed ends the stream, whatever is left of its log
      ensures old(Calm()) ==> !ending.WriteFailed?
      ensures old(Calm()) && Terminal(old(durable.status)) && rounds != [] ==> ending.Complete?
      // the durable end is written after a whole replay, or when there is none to be had
      ensures old(At(log, generation, [])) && (forall r <- rounds :: FromLog(r, log)) && ending.Complete? && out[|out| - 1] !in log ==>
                out[|out| - 1] == DurableEnd(runID, durable) && Drained(rounds, log, trace)
      // undisturbed, a first round that reaches the end of its newest attempt ends the stream there
      ensures old(Ready(log, generation, [])) && rounds != [] && FromLog(rounds[0], log) && Covers(rounds[0], log, subscribed && old(Active(durable))) ==>
                ending.Complete? && trace == CoveringTrace(rounds[0], log, subscribed && old(Active(durable))) && n == |log| - 1 && EndedAt(log, generation, trace, n)
    {
      hide Follows, OrderedLog, WholeLog, Streaming, Orderly, Position, PartOf, Finished;
      hide Drained, DurableEnd, TraceOf, Covers, CoveringTrace, Delivered, Ready, At, EndedAt, Active, ReplayOf;
      MovedSelf(durable, elsewhere);
      if forall r <- rounds :: FromLog(r, log) { TraceStarts(rounds, log); }
      trace, n := [], 0;
      var open := subscribed;
      ghost var whole := Ready(log, generation, []) && rounds != [] && FromLog(rounds[0], log) && Covers(rounds[0], log, subscribed && Active(durable));
      ghost var traced := At(log, generation, []) && forall r <- rounds :: FromLog(r, log);
      for k := 0 to |rounds|
        invariant Streaming(cur, out) && Moved(old(durable), old(elsewhere), durable, elsewhere)
        invariant traced ==> TraceOf(rounds[..k], log, trace) && At(log, generation, trace)
        invariant whole ==> k == 0 && trace == [] && open == subscribed && Ready(log, generation, []) && Active(durable) == old(Active(durable))
        invariant old(Calm()) ==> Calm() && (Terminal(old(durable.status)) ==> k == 0 && Terminal(durable.status))
      {
        var ended; ghost var part;
        ended, open, part, n := OneRound(rounds[k], open, log, generation, trace);
        if traced {
          TraceAppends(rounds, k, log, trace, part);
          if ended == Some(Complete) && out != [] && out[|out| - 1] in log {
            TraceAppends(rounds, k, log, trace, part + [n]);
            assert trace + (part + [n]) == (trace + part) + [n];
            TracePads(rounds, k + 1, log, (trace + part) + [n]);
          }
        }
        assert [] + part == part;
        if ended.Some? { CompleteIsNonEmpty(ended.value, out, durable); }
        if traced && ended == Some(Complete) && out[|out| - 1] !in log { DrainedHere(rounds, k, log, trace); }
        trace := trace + part;
        if ended.Some? {
          if traced { TracePads(rounds, k + 1, log, trace); }
          return ended.value, trace, n;
        }
      }
      assert rounds[..|rounds|] == rounds;
      StreamingIsUnfinished(cur, out, durable);
      AbandonedIsDelivered(log, generation, trace, n);
      ending := Abandoned;
    }
  }

  /** Of the events that run to the end of the log only the last is its last. */
  lemma LastIsLast(live: seq<Live>, log: seq<Event>, generation: int, i: nat)
    requires OrderedLog(log, generation) && ToTheEnd(live, log) && i < |live|
    ensures live[i].Arrives? && live[i].event in log && (IndexOf(log, live[i].event) < |log| - 1 <==> i < |live| - 1)
  {
    assert live[i] in live;
    var k := IndexOf(log, live[i].event);
    assert k < |log| - 1 ==> log[k] != log[|log| - 1];
  }

  /** The event that ends a stream is the next one of its subscription. */
  lemma HeardOneMore(live: seq<Live>, log: seq<Event>, heard: nat, n: nat)
    requires Drawn(live, log) && heard <= |live| && Open(live[..heard])
    ensures heard < |live| && live[heard].Arrives? && live[heard].event in log && IndexOf(log, live[heard].event) == n ==>
              && Open(live[..heard + 1]) && Drawn(live[..heard + 1], log) && Drawn(live[..heard], log)
              && Indices(live[..heard + 1], log) == Indices(live[..heard], log) + [n]
  {
    if heard < |live| {
      assert live[..heard + 1] == live[..heard] + [live[heard]];
      assert live[..heard + 1][..heard] == live[..heard];
    }
  }

  lemma TraceStarts(rounds: seq<Round>, log: seq<Event>)
    requires forall r <- rounds :: FromLog(r, log)
    ensures TraceOf(rounds[..0], log, [])
  {}

  lemma TraceAppends(rounds: seq<Round>, k: nat, log: seq<Event>, trace: seq<nat>, part: seq<nat>)
    requires (forall r <- rounds :: FromLog(r, log)) && k < |rounds|
    requires TraceOf(rounds[..k], log, trace) && PartOf(rounds[k], log, part)
    ensures TraceOf(rounds[..k + 1], log, trace + part)
  {
    var longer := rounds[..k + 1];
    assert longer[..|longer| - 1] == rounds[..k] && longer[|longer| - 1] == rounds[k];
    assert (trace + part)[..|trace|] == trace && (trace + part)[|trace|..] == part;
  }

  /** The trace ends with all of a round's replay. */
  ghost predicate Drained(rounds: seq<Round>, log: seq<Event>, trace: seq<nat>)
    requires forall r <- rounds :: FromLog(r, log)
  {
    exists k: nat, m: nat :: k < |rounds| && m <= |trace| && TraceOf(rounds[..k], log, trace[..m]) && trace[m..] == ReplayOf(rounds[k])
  }

  lemma DrainedHere(rounds: seq<Round>, k: nat, log: seq<Event>, trace: seq<nat>)
    requires (forall r <- rounds :: FromLog(r, log)) && k < |rounds| && TraceOf(rounds[..k], log, trace)
    ensures Drained(rounds, log, trace + ReplayOf(rounds[k]))
  {
    var longer := trace + ReplayOf(rounds[k]);
    assert longer[..|trace|] == trace && longer[|trace|..] == ReplayOf(rounds[k]);
  }

  /** Rounds that are never reached add nothing. */
  lemma {:induction false} TracePads(rounds: seq<Round>, k: nat, log: seq<Event>, trace: seq<nat>)
    requires (forall r <- rounds :: FromLog(r, log)) && k <= |rounds| && TraceOf(rounds[..k], log, trace)
    ensures TraceOf(rounds, log, trace)
    decreases |rounds| - k
  {
    if k == |rounds| {
      assert rounds[..k] == rounds;
    } else {
      assert PartOf(rounds[k], log, []);
      TraceAppends(rounds, k, log, trace, []);
      assert trace + [] == trace;
      TracePads(rounds, k + 1, log, trace);
    }
  }

  // ----------------------------------------------- what the client ends up with

  /** The `since` that counts for an attempt; while nothing is bound nothing was shown. */
  function SinceFor(c: Cursor, since: Option<int>, generation: int): Option<int> {
    if c.sinceGeneration < 0 then since else Effective(c, since, generation)
  }

  /** What following the log means, attempt by attempt and notice by notice. */
  lemma FollowsMeans(c: Cursor, origin: int, since: Option<int>, shown: seq<Event>, log: seq<Event>, generation: int, trace: seq<nat>)
    returns (m: nat)
    requires Follows(c, origin, since, shown, log, generation, trace)
    ensures m <= |trace| && Within(trace, log) && (c.generation <= generation ==> m == |trace|)
    ensures Of(shown, generation) == Got(log, SinceFor(c, since, generation), generation, trace[..m])
    ensures Noticed(c, since, shown, log, trace) && Sourced(shown, log, trace) && BoundTo(c, origin, log)
  {
    hide Got, Of, Position;
    m :| Stands(c, since, shown, log, generation, trace, m);
    PositionWithin(log, since, generation, trace[..m]);
    PositionWithin(log, None, generation, trace[..m]);
  }

  /** A stream that ended on an attempt's terminal, its last event in the log, gave the
      client the whole attempt past its cursor exactly when nothing ran ahead. */
  lemma WholeLogDeliveredIff(log: seq<Event>, since: Option<int>, own: seq<Event>, generation: int, trace: seq<nat>, n: nat)
    requires OrderedLog(log, generation) && n < |log| && Own(log[n], generation) && IsTerminal(log[n])
    requires forall j :: n < j < |log| ==> !Own(log[j], generation)
    requires Within(trace, log) && Position(log, generation, trace) <= n
    requires own == Got(log, since, generation, trace) + [log[n]]
    ensures Within(trace + [n], log)
    ensures own == Shown(log, since, generation) + [log[n]] <==> NeverAhead(log, since, generation, trace + [n])
  {
    hide Got, Position, NeverAhead, OrderedLog, Shown;
    TraceGrows(log, since, generation, trace, n);
    WholeIff(log, generation, since, trace + [n]);
    ShownNothing(log[n + 1..], since, generation);
    assert log == log[..n + 1] + log[n + 1..];
    ShownConcat(log[..n + 1], log[n + 1..], since, generation);
    SameSuffix(Got(log, since, generation, trace), Shown(log, since, generation), [log[n]]);
  }

  /** So after any script that hands over properly the client has, of every attempt, a
      prefix of what it asked for. */
  lemma HandOffIsWhole(rounds: seq<Round>, log: seq<Event>, generation: int, since: Option<int>, trace: seq<nat>, m: nat)
    requires OrderedLog(log, generation) && m <= |trace|
    requires (forall r <- rounds :: FromLog(r, log) && HandsOff(r, log)) && TraceOf(rounds, log, trace)
    ensures Within(trace[..m], log) && Whole(log, since, generation, trace[..m])
  {
    HandOffNeverAhead(rounds, log, generation, since, trace);
    AheadEarlier(log, since, generation, trace, m);
    WholeIff(log, generation, since, trace[..m]);
  }

  lemma CoveringSpans(log: seq<Event>, generation: int, replayed: nat, next: nat)
    requires OrderedLog(log, generation) && next <= replayed < |log|
    ensures var r := Round(Some(log[..replayed]), Arrivals(log[next..]));
            Covers(r, log, true) && CoveringTrace(r, log, true) == Span(0, replayed) + Span(next, |log| - 1)
  {
    hide OrderedLog, Indices, ToTheEnd;
    assert log[..replayed] != log;
    DropsToTheEnd(log, generation, next);
  }

  /** And a first round whose subscription starts no later than its replay ends
      delivers the whole log. */
  lemma CoveringIsWhole(log: seq<Event>, generation: int, since: Option<int>, replayed: nat, next: nat)
    requires OrderedLog(log, generation) && next <= replayed < |log|
    ensures var r := Round(Some(log[..replayed]), Arrivals(log[next..]));
            && Covers(r, log, true) && Within(CoveringTrace(r, log, true) + [|log| - 1], log)
            && NeverAhead(log, since, generation, CoveringTrace(r, log, true) + [|log| - 1])
  {
    hide NeverAhead, Position, OrderedLog, Covers, CoveringTrace;
    var n := |log| - 1;
    CoveringSpans(log, generation, replayed, next);
    NothingGot(log, since, generation);
    SpanStaysWhole(log, since, generation, [], 0, replayed);
    assert [] + Span(0, replayed) == Span(0, replayed);
    SpanStaysWhole(log, since, generation, Span(0, replayed), next, |log|);
    assert (Span(0, replayed) + Span(next, n)) + [n] == Span(0, replayed) + Span(next, |log|);
  }

  /** The whole attempt past the cursor is what was asked for and the end, in order. */
  lemma WholeLogMeans(log: seq<Event>, since: Option<int>, generation: int, n: nat)
    requires OrderedLog(log, generation) && n < |log| && Own(log[n], generation) && IsTerminal(log[n])
    requires forall j :: n < j < |log| ==> !Own(log[j], generation)
    requires forall i :: 0 <= i < n && Own(log[i], generation) ==> !IsTerminal(log[i])
    ensures var out := Shown(log, since, generation) + [log[n]];
            && (forall e :: e in out <==> e in log && Own(e, generation) && (IsTerminal(e) || Shows(since, generation, e)))
            && Ascending(out)
  {
    hide Shown;
    var shown := Shown(log, since, generation);
    ShownIsFilter(log, since, generation);
    forall e | e in log && Own(e, generation) && !IsTerminal(e) ensures e.seqNo < log[n].seqNo {
      var k :| 0 <= k < |log| && log[k] == e;
    }
    assert forall i :: 0 <= i < |shown| ==> shown[i] in shown;
    assert forall e <- log :: Own(e, generation) && IsTerminal(e) ==> e == log[n];
  }

  predicate Ascending(events: seq<Event>) { forall i, j :: 0 <= i < j < |events| ==> events[i].seqNo < events[j].seqNo }

  lemma {:induction false} ShownIsFilter(log: seq<Event>, since: Option<int>, generation: int)
    requires forall i, j :: 0 <= i < j < |log| && Own(log[i], generation) && Own(log[j], generation) ==> log[i].seqNo < log[j].seqNo
    ensures forall e :: e in Shown(log, since, generation) <==> e in log && Shows(since, generation, e)
    ensures Ascending(Shown(log, since, generation))
  {
    if log != [] {
      var front, last := log[..|log| - 1], log[|log| - 1];
      ShownIsFilter(front, since, generation);
      assert front + [last] == log;
      var shown := Shown(front, since, generation);
      if Shows(since, generation, last) {
        forall i | 0 <= i < |shown| ensures shown[i].seqNo < last.seqNo {
          assert shown[i] in shown && shown[i] in front;
          var k :| 0 <= k < |front| && front[k] == shown[i];
        }
        assert Ascending(shown + [last]);
      }
    }
  }

  // ------------------------------------------------------- a stream as opened

  /** The attempt that `since` refers to when a stream is opened on `row`. */
  function OriginOf(row: Row): int { if row.attempt.Some? then row.attempt.value else -1 }

  /** The run has completed with this attempt, or is active and others do nothing but
      begin the attempt, if that is still to begin. */
  predicate Quietly(row: Row, elsewhere: seq<seq<RowAct>>, generation: int) {
    if Settled(row, generation) then elsewhere == []
    else
      && Active(row) && AttemptGeneration(row) <= generation
      && elsewhere == if AttemptGeneration(row) == generation then [] else [[BeginBy(generation)]]
  }

  /** What was shown before the terminal event that ends a complete stream. */
  function Body(ending: Ending, out: seq<Event>): seq<Event> {
    if ending.Complete? && out != [] then out[..|out| - 1] else out
  }

  /** A stream opened at any moment of a run's life, before its first attempt began or
      later, against any script: of every attempt in the log the client gets what the
      trace shows, all that was asked for up to the position if the scripts hand over
      properly, and a stream that ends on an attempt's own last event gives it whole
      exactly when nothing ran ahead. Every notice dealt with is shown, once, unless its
      attempt was superseded or the client said it has it. */
  method ReplayRunEvents(runID: string, since: Option<int>, row: Row, elsewhere: seq<seq<RowAct>>,
                         replies: seq<Reply>, lookups: seq<bool>, writes: seq<bool>,
                         rounds: seq<Round>, subscribed: bool, ghost log: seq<Event>, ghost generation: int)
    returns (ending: Ending, out: seq<Event>, durable: Row, ghost cursor: Cursor, ghost trace: seq<nat>, ghost m: nat, ghost n: nat)
    requires OrderedLog(log, generation) && forall r <- rounds :: FromLog(r, log)
    ensures Orderly(out) && (ending.Complete? <==> Finished(out, durable))
    ensures TraceOf(rounds, log, trace) && Within(trace, log) && m <= |trace|
    ensures BoundTo(cursor, OriginOf(row), log)
    ensures Of(Body(ending, out), generation) == Got(log, SinceFor(cursor, since, generation), generation, trace[..m])
    ensures Noticed(cursor, since, Body(ending, out), log, trace) && Sourced(Body(ending, out), log, trace)
    ensures (forall r <- rounds :: HandsOff(r, log)) ==> Whole(log, SinceFor(cursor, since, generation), generation, trace[..m])
    // when nothing fails a run that has completed ends the stream, whatever is left of its log
    ensures replies == [] && lookups == [] && writes == [] && Terminal(row.status) && rounds != [] ==> ending.Complete?
    ensures elsewhere == [] && Terminal(row.status) ==> durable == row
    // an end that is not in the log says what the row says, and all that there was to replay came before it
    ensures ending.Complete? && out[|out| - 1] !in log ==>
              && out[|out| - 1] == Event(OutcomeGeneration(durable), 0, runID + "_end", EndEvent, Some(durable.status))
              && Drained(rounds, log, trace)
    // undisturbed, with the newest attempt over, begun or about to, a first round that reaches its end completes there
    ensures Quietly(row, elsewhere, generation) && replies == [] && lookups == [] && writes == [] && WholeLog(log, generation)
            && Accords(row, log) && rounds != [] && Covers(rounds[0], log, subscribed && Active(row)) ==>
              ending.Complete? && out[|out| - 1] == log[|log| - 1]
    ensures ending.Complete? && out[|out| - 1] in log ==> n < |log| && out[|out| - 1] == log[n]
    ensures ending.Complete? && out[|out| - 1] in log && Own(log[n], generation) && (forall j :: n < j < |log| ==> !Own(log[j], generation)) ==>
              && Within(trace + [n], log)
              && (Of(out, generation) == Shown(log, SinceFor(cursor, since, generation), generation) + [log[n]] <==>
                  NeverAhead(log, SinceFor(cursor, since, generation), generation, trace + [n]))
              && ((forall r <- rounds :: HandsOff(r, log)) ==> NeverAhead(log, SinceFor(cursor, since, generation), generation, trace + [n]))
  {
    hide OrderedLog, Finished, Orderly, Streaming, Follows, TraceOf, Got, Of, Position, NeverAhead, Shown, Whole, HandsOff, Noticed, Sourced;
    hide Quietly, WholeLog, Covers, CoveringTrace, FromLog, Drained, SinceFor, BoundTo, Accords, Active, Own, Later;
    var tail := new Tail(runID, since, row, elsewhere, replies, lookups, writes);
    StartsFollowing(tail.cur, tail.origin, since, log, generation);
    if Quietly(row, elsewhere, generation) && replies == [] && lookups == [] && writes == [] && WholeLog(log, generation) && Accords(row, log) {
      OpensReady(tail, row, log, generation);
    }
    ending, trace, n := tail.Stream(rounds, subscribed, log, generation);
    out, durable, cursor := tail.out, tail.durable, tail.cur;
    ghost var body := Body(ending, out);
    CompleteIsNonEmpty(ending, out, durable);
    m := FollowsMeans(cursor, tail.origin, since, body, log, generation, trace);
    if forall r <- rounds :: HandsOff(r, log) {
      HandOffIsWhole(rounds, log, generation, SinceFor(cursor, since, generation), trace, m);
    }
    if ending.Complete? && out[|out| - 1] in log {
      DurableEndIsNotLogged(tail.runID, durable, log, generation);
      if Own(log[n], generation) && (forall j :: n < j < |log| ==> !Own(log[j], generation)) {
        OfGrows(body, log[n], generation);
        assert out == body + [log[n]] && trace[..m] == trace;
        WholeLogDeliveredIff(log, SinceFor(cursor, since, generation), Of(out, generation), generation, trace, n);
        if forall r <- rounds :: HandsOff(r, log) {
          HandOffNeverAhead(rounds, log, generation, SinceFor(cursor, since, generation), trace + [n]);
        }
      }
    }
  }

  lemma StartsFollowing(c: Cursor, origin: int, since: Option<int>, log: seq<Event>, generation: int)
    requires c.seen == map[] && c.control == {} && c.sinceGeneration == origin
    ensures Follows(c, origin, since, [], log, generation, [])
  {
    StartsTraced(c, since, log, generation);
  }

  lemma CompleteIsNonEmpty(ending: Ending, out: seq<Event>, durable: Row)
    requires ending.Complete? <==> Finished(out, durable)
    ensures ending.Complete? ==> out != [] && IsTerminal(out[|out| - 1])
  {}

  /** The synthetic end has no sequence number, so no log retains it. */
  lemma DurableEndIsNotLogged(runID: string, durable: Row, log: seq<Event>, generation: int)
    requires OrderedLog(log, generation)
    ensures DurableEnd(runID, durable) !in log
  {}

  // ----------------------------------------------------- a dropped event

  lemma {:induction false} GotSpan(log: seq<Event>, since: Option<int>, generation: int, trace: seq<nat>, a: nat, b: nat)
    requires Within(trace, log) && Position(log, generation, trace) <= a <= b <= |log|
    ensures Within(trace + Span(a, b), log)
    ensures Got(log, since, generation, trace + Span(a, b)) == Got(log, since, generation, trace) + Shown(log[a..b], since, generation)
    ensures Position(log, generation, trace + Span(a, b)) <= b
    decreases b - a
  {
    hide Got, Position;
    if a == b {
      assert trace + Span(a, b) == trace;
    } else {
      GotSpan(log, since, generation, trace, a, b - 1);
      var before := trace + Span(a, b - 1);
      assert trace + Span(a, b) == before + [b - 1];
      TraceGrows(log, since, generation, before, b - 1);
      assert log[a..b][..b - a - 1] == log[a..b - 1];
    }
  }

  lemma ArrivalsDrawn(log: seq<Event>, a: nat, b: nat)
    requires a <= b <= |log|
    ensures Drawn(Arrivals(log[a..b]), log)
  {
    var live := Arrivals(log[a..b]);
    forall l | l in live ensures l.Arrives? && l.event in log {
      var k :| 0 <= k < |live| && live[k] == l;
      assert l.event == log[a + k];
    }
  }

  lemma {:induction false} ArrivalsSpan(log: seq<Event>, generation: int, a: nat, b: nat)
    requires OrderedLog(log, generation) && a <= b <= |log|
    ensures Drawn(Arrivals(log[a..b]), log) && Indices(Arrivals(log[a..b]), log) == Span(a, b)
    decreases b - a
  {
    hide OrderedLog, Drawn, IndexOf;
    ArrivalsDrawn(log, a, b);
    if a < b {
      var live := Arrivals(log[a..b]);
      ArrivalsSpan(log, generation, a, b - 1);
      IndexIsUnique(log, generation, b - 1);
      assert live[..b - a - 1] == Arrivals(log[a..b - 1]);
      assert live[b - a - 1] == Arrives(log[b - 1]);
    }
  }

  lemma DropsToTheEnd(log: seq<Event>, generation: int, a: nat)
    requires OrderedLog(log, generation) && a < |log|
    ensures var live := Arrivals(log[a..]);
            && ToTheEnd(live, log) && Drawn(live[..|live| - 1], log)
            && Indices(live[..|live| - 1], log) == Span(a, |log| - 1)
  {
    var n, live := |log| - 1, Arrivals(log[a..]);
    assert log[a..|log|] == log[a..];
    ArrivalsDrawn(log, a, |log|);
    assert live[..|live| - 1] == Arrivals(log[a..n]);
    ArrivalsSpan(log, generation, a, n);
    forall k | 0 <= k < |live| - 1 ensures live[k].event != log[n] {
      assert live[k].event == log[a + k] && log[a + k] != log[n];
    }
  }

  /** A slow subscriber: of any run's log, any one event that is not replayed before it
      is dropped from the subscription never reaches the client, though the stream
      completes and every other event asked for of the newest attempt arrives. The
      stream may be opened before that attempt begins. */
  method StreamDropping(log: seq<Event>, generation: int, since: Option<int>, row: Row, drop: nat)
    returns (out: seq<Event>, ghost from: Option<int>)
    requires OrderedLog(log, generation) && WholeLog(log, generation) && drop < |log| - 1
    requires Active(row) && AttemptGeneration(row) <= generation
    ensures out != [] && out[|out| - 1] == log[|log| - 1]
    ensures Of(out[..|out| - 1], generation) ==
            Shown(log[..drop], from, generation) + Shown(log[drop + 1..|log| - 1], from, generation)
    ensures log[drop] !in out
    // the client's `since` counts, unless it was given for an older attempt
    ensures row.attempt == Some(generation) ==> from == since
    ensures row.attempt.None? && (forall e <- log :: e.generation == generation) ==> from == since
  {
    hide OrderedLog, WholeLog, Got, Position, Shown, Orderly, Finished, Follows, Of, Streaming, BoundTo, SinceFor;
    hide FromLog, Covers, CoveringTrace, TraceOf, Tail.Delivered, Tail.At, Span;
    var round := Round(Some(log[..drop]), Arrivals(log[drop + 1..]));
    DropsCover(log, generation, drop);
    var begin := if AttemptGeneration(row) == generation then [] else [[BeginBy(generation)]];
    var tail := new Tail("run", since, row, begin, [], [], []);
    OpensReady(tail, row, log, generation);
    LogEnds(log, generation);
    var ending; ghost var trace, last;
    ending, trace, last := tail.Stream([round], true, log, generation);
    out := tail.out;
    Dropped(tail.cur, tail.origin, since, out, log, generation, drop);
    SinceKept(tail.cur, row, since, log, generation);
    from := SinceFor(tail.cur, since, generation);
  }

  /** A stream opened on a run whose newest attempt is over, has begun, or is about to. */
  lemma OpensReady(tail: Tail, row: Row, log: seq<Event>, generation: int)
    requires OrderedLog(log, generation) && WholeLog(log, generation) && Quietly(row, tail.elsewhere, generation) && Accords(row, log)
    requires tail.Calm() && tail.durable == row && tail.out == [] && tail.origin == OriginOf(row)
    requires tail.cur == Cursor(AttemptGeneration(row), OriginOf(row), map[], {})
    ensures tail.Ready(log, generation, [])
  {
    hide OrderedLog, Follows;
    StartsFollowing(tail.cur, tail.origin, tail.since, log, generation);
    NothingGot(log, tail.since, generation);
  }

  lemma Dropped(c: Cursor, origin: int, since: Option<int>, out: seq<Event>, log: seq<Event>, generation: int, drop: nat)
    requires OrderedLog(log, generation) && drop < |log| - 1 && out != [] && out[|out| - 1] == log[|log| - 1] && c.generation <= generation
    requires Follows(c, origin, since, out[..|out| - 1], log, generation, Span(0, drop) + Span(drop + 1, |log| - 1))
    ensures var from := SinceFor(c, since, generation);
            Of(out[..|out| - 1], generation) == Shown(log[..drop], from, generation) + Shown(log[drop + 1..|log| - 1], from, generation)
    ensures log[drop] !in out && BoundTo(c, origin, log)
  {
    hide Got, Position, Shown, OrderedLog, Follows, Of;
    var trace := Span(0, drop) + Span(drop + 1, |log| - 1);
    var m := FollowsMeans(c, origin, since, out[..|out| - 1], log, generation, trace);
    assert trace[..m] == trace;
    GotDropping(log, SinceFor(c, since, generation), generation, drop);
    NotDealtWith(log, generation, out, drop);
  }

  lemma SinceKept(c: Cursor, row: Row, since: Option<int>, log: seq<Event>, generation: int)
    requires BoundTo(c, OriginOf(row), log) && generation >= 0
    ensures row.attempt == Some(generation) ==> SinceFor(c, since, generation) == since
    ensures row.attempt.None? && (forall e <- log :: e.generation == generation) ==> SinceFor(c, since, generation) == since
  {}

  lemma LogEnds(log: seq<Event>, generation: int)
    requires OrderedLog(log, generation) && WholeLog(log, generation)
    ensures generation >= 0 && log != [] && Own(log[|log| - 1], generation)
  {}

  lemma DropsCover(log: seq<Event>, generation: int, drop: nat)
    requires OrderedLog(log, generation) && drop < |log| - 1
    ensures var r := Round(Some(log[..drop]), Arrivals(log[drop + 1..]));
            && FromLog(r, log) && Covers(r, log, true)
            && CoveringTrace(r, log, true) == Span(0, drop) + Span(drop + 1, |log| - 1)
  {
    hide OrderedLog, Indices;
    assert log[..drop] != log;
    DropsToTheEnd(log, generation, drop + 1);
  }

  lemma GotDropping(log: seq<Event>, since: Option<int>, generation: int, drop: nat)
    requires drop < |log| - 1
    ensures var trace := Span(0, drop) + Span(drop + 1, |log| - 1);
            && Within(trace, log)
            && Got(log, since, generation, trace) == Shown(log[..drop], since, generation) + Shown(log[drop + 1..|log| - 1], since, generation)
  {
    hide Got, Position, Shown;
    NothingGot(log, since, generation);
    GotSpan(log, since, generation, [], 0, drop);
    assert [] + Span(0, drop) == Span(0, drop) && log[0..drop] == log[..drop];
    assert [] + Shown(log[..drop], since, generation) == Shown(log[..drop], since, generation);
    GotSpan(log, since, generation, Span(0, drop), drop + 1, |log| - 1);
  }

  lemma NotDealtWith(log: seq<Event>, generation: int, out: seq<Event>, drop: nat)
    requires OrderedLog(log, generation) && drop < |log| - 1 && out != [] && out[|out| - 1] == log[|log| - 1]
    requires Sourced(out[..|out| - 1], log, Span(0, drop) + Span(drop + 1, |log| - 1))
    ensures log[drop] !in out
  {
    var body, trace := out[..|out| - 1], Span(0, drop) + Span(drop + 1, |log| - 1);
    assert out == body + [log[|log| - 1]];
    assert forall k :: 0 <= k < |trace| ==> trace[k] != drop;
  }
}
